/**
 * Outlook ingestion (operations/outlook.py) over the Event store (operations/storage.py)
 * and the import outcome store (operations/import_outcomes.py). One database object holds
 * the three tables; every committed transaction is appended to a ghost log, so a claim
 * about all log entries is a claim about every point at which the process may die.
 */
module Ingestion {
  import opened Sequences

  type Id = nat
  type Instant = int

  const OUTLOOK: Id := 1
  const MAX_PAGE_RECORDS: int := 50
  const MAX_PAGES: int := 100
  const MAX_RECORDS: int := 5000
  const MAX_WINDOW: int := 31 * 86400

  /** The exact source identity; its digest is injective, so the key stands for the identity key too. */
  datatype Key = Key(source: Id, account: Id, externalId: Id)

  datatype Event = Event(id: Id, key: Key, occurredAt: Instant, body: Id)

  datatype State = InProgress | Complete | Partial | Failed

  datatype Reason = MalformedRecords | PageLimit | ImportError

  datatype Outcome = Outcome(
    account: Id, windowStart: Instant, windowEnd: Instant, startedAt: Instant, finishedAt: Option<Instant>,
    state: State, inserted: int, duplicates: int, failed: int, pages: int, reason: Option<Reason>)
  {
    predicate AnyProgress() { inserted != 0 || duplicates != 0 || failed != 0 || pages != 0 }

    /** ImportOutcome.__post_init__. */
    predicate Valid() {
      && 0 <= windowEnd - windowStart <= MAX_WINDOW
      && 0 <= inserted && 0 <= duplicates && 0 <= failed && 0 <= pages
      && pages <= MAX_PAGES && inserted + duplicates + failed <= MAX_RECORDS
      && (state == InProgress ==> finishedAt.None? && reason.None?)
      && (state != InProgress ==> finishedAt.Some?)
      && (state == Complete ==> failed == 0 && reason.None? && pages != 0)
      && (state == Failed ==> reason == Some(ImportError) && !AnyProgress())
      && (state == Partial ==>
            && reason.Some?
            && (reason == Some(MalformedRecords) ==> failed != 0)
            && (reason == Some(PageLimit) ==> pages != 0)
            && (reason == Some(ImportError) ==> AnyProgress()))
    }
  }

  datatype Counts = Counts(inserted: int, duplicates: int, failed: int, pages: int)

  datatype Tables = Tables(events: map<Key, Event>, identities: map<Key, Id>, outcomes: map<Id, Outcome>)

  // ----- Transactions: None is an exception, after which nothing is committed -----

  /** EventStore.insert: the tables and whether a new row was written. */
  function InsertTx(t: Tables, e: Event): Option<(Tables, bool)> {
    if e.key !in t.events && exists k :: k in t.events && t.events[k].id == e.id then None
    else
      var isNew := e.key !in t.events;
      var events := if isNew then t.events[e.key := e] else t.events;
      var stored := events[e.key];
      if e.key in t.identities then
        if t.identities[e.key] == stored.id then Some((t.(events := events), isNew)) else None
      else if stored.id in t.identities.Values then None
      else Some((t.(events := events, identities := t.identities[e.key := stored.id]), isNew))
  }

  function Updated(o: Outcome, c: Counts, state: State, reason: Option<Reason>, now: Instant): Outcome {
    o.(inserted := c.inserted, duplicates := c.duplicates, failed := c.failed, pages := c.pages,
       state := state, reason := reason, finishedAt := if state == InProgress then None else Some(now))
  }

  /** ImportOutcomeStore.update: only an in-progress row, and only to a valid one. */
  function UpdateTx(t: Tables, run: Id, c: Counts, state: State, reason: Option<Reason>, now: Instant)
    : Option<Tables>
  {
    if run !in t.outcomes then None
    else
      var o := Updated(t.outcomes[run], c, state, reason, now);
      if !t.outcomes[run].Valid() || !o.Valid() || t.outcomes[run].state != InProgress then None
      else Some(t.(outcomes := t.outcomes[run := o]))
  }

  /** Event insert with its checkpoint in the same transaction. */
  function InsertTrackedTx(t: Tables, e: Event, run: Id, c: Counts): Option<(Tables, bool)> {
    match InsertTx(t, e)
    case None => None
    case Some((mid, isNew)) =>
      match UpdateTx(mid, run, Tallied(c, isNew), InProgress, None, 0)
      case None => None
      case Some(after) => Some((after, isNew))
  }

  function Tallied(c: Counts, isNew: bool): Counts {
    if isNew then c.(inserted := c.inserted + 1) else c.(duplicates := c.duplicates + 1)
  }

  function FreshOutcome(account: Id, start: Instant, end: Instant, now: Instant): Outcome {
    Outcome(account, start, end, now, None, InProgress, 0, 0, 0, 0, None)
  }

  /** ImportOutcomeStore.begin: a fresh row under an unused run identifier. */
  function BeginTx(t: Tables, run: Id, account: Id, start: Instant, end: Instant, now: Instant): Option<Tables> {
    var o := FreshOutcome(account, start, end, now);
    if run in t.outcomes || !o.Valid() then None else Some(t.(outcomes := t.outcomes[run := o]))
  }

  /** ImportOutcomeStore.fail: an update with the counts already committed. */
  function FailTx(t: Tables, run: Id, now: Instant): Option<Tables> {
    if run !in t.outcomes then None
    else
      var o := t.outcomes[run];
      UpdateTx(t, run, Counts(o.inserted, o.duplicates, o.failed, o.pages),
               if o.AnyProgress() then Partial else Failed, Some(ImportError), now)
  }

  /** Any transaction on the tables, by any caller. */
  datatype Action =
    | Begin(run: Id, account: Id, start: Instant, end: Instant, now: Instant)
    | Update(run: Id, c: Counts, state: State, reason: Option<Reason>, now: Instant)
    | Insert(e: Event)
    | InsertTracked(e: Event, run: Id, c: Counts)
    | Fail(run: Id, now: Instant)

  function Perform(t: Tables, action: Action): Tables {
    match action
    case Begin(run, account, start, end, now) => OrElse(BeginTx(t, run, account, start, end, now), t)
    case Update(run, c, state, reason, now) => OrElse(UpdateTx(t, run, c, state, reason, now), t)
    case Insert(e) => (match InsertTx(t, e) case None => t case Some((after, _)) => after)
    case InsertTracked(e, run, c) => (match InsertTrackedTx(t, e, run, c) case None => t case Some((after, _)) => after)
    case Fail(run, now) => OrElse(FailTx(t, run, now), t)
  }

  function OrElse(result: Option<Tables>, otherwise: Tables): Tables {
    if result.Some? then result.value else otherwise
  }

  function PerformAll(t: Tables, actions: seq<Action>): Tables {
    if actions == [] then t else Perform(PerformAll(t, actions[..|actions| - 1]), actions[|actions| - 1])
  }

  predicate Finalised(t: Tables, run: Id) { run in t.outcomes && t.outcomes[run].state != InProgress }

  /** The import stays the same one, and once finalised keeps its row. */
  predicate Continues(t: Tables, u: Tables, run: Id) {
    run in t.outcomes ==>
      && run in u.outcomes
      && u.outcomes[run].account == t.outcomes[run].account && u.outcomes[run].startedAt == t.outcomes[run].startedAt
      && (t.outcomes[run].state != InProgress ==> u.outcomes[run] == t.outcomes[run])
  }

  lemma {:induction false} UpdateContinues(
    t: Tables, updated: Id, c: Counts, state: State, reason: Option<Reason>, now: Instant, run: Id)
    ensures Continues(t, OrElse(UpdateTx(t, updated, c, state, reason, now), t), run)
  {
  }

  lemma {:induction false} InsertContinues(t: Tables, e: Event, inserting: Id, c: Counts, run: Id)
    ensures InsertTx(t, e).Some? ==> InsertTx(t, e).value.0.outcomes == t.outcomes
    ensures Continues(t, Perform(t, InsertTracked(e, inserting, c)), run)
  {
    match InsertTx(t, e)
    case None =>
    case Some((mid, isNew)) =>
      assert mid.outcomes == t.outcomes;
      UpdateContinues(mid, inserting, Tallied(c, isNew), InProgress, None, 0, run);
  }

  lemma {:induction false} ActionContinues(t: Tables, action: Action, run: Id)
    ensures Continues(t, Perform(t, action), run)
  {
    match action
    case Begin(_, _, _, _, _) =>
    case Update(updated, c, state, reason, now) => UpdateContinues(t, updated, c, state, reason, now, run);
    case Insert(e) => InsertContinues(t, e, 0, Counts(0, 0, 0, 0), run);
    case InsertTracked(e, inserting, c) => InsertContinues(t, e, inserting, c, run);
    case Fail(failing, now) =>
      if failing in t.outcomes {
        var o := t.outcomes[failing];
        UpdateContinues(t, failing, Counts(o.inserted, o.duplicates, o.failed, o.pages),
                        if o.AnyProgress() then Partial else Failed, Some(ImportError), now, run);
      }
  }

  /** Whatever transactions of any runs follow, a finalised outcome is never changed. */
  lemma {:induction false} FinalisedIsFrozen(t: Tables, actions: seq<Action>, done: Id)
    ensures Continues(t, PerformAll(t, actions), done)
    ensures Finalised(t, done) ==> PerformAll(t, actions).outcomes[done] == t.outcomes[done]
  {
    if actions != [] {
      FinalisedIsFrozen(t, actions[..|actions| - 1], done);
      ActionContinues(PerformAll(t, actions[..|actions| - 1]), actions[|actions| - 1], done);
    }
  }

  // ----- Table invariants -----

  /** Rows sit under their own key, event ids are unique, and identities map keys one to one onto event ids. */
  ghost predicate WellFormed(t: Tables) {
    && (forall k :: k in t.events ==> t.events[k].key == k)
    && (forall j, k :: j in t.events && k in t.events && t.events[j].id == t.events[k].id ==> j == k)
    && t.identities.Keys == t.events.Keys
    && (forall k :: k in t.events ==> t.identities[k] == t.events[k].id)
    && (forall r :: r in t.outcomes ==> t.outcomes[r].Valid())
  }

  lemma {:induction false} NewRowKeepsWellFormed(t: Tables, e: Event)
    requires WellFormed(t) && e.key !in t.events && forall k :: k in t.events ==> t.events[k].id != e.id
    ensures e.id !in t.identities.Values
    ensures WellFormed(t.(events := t.events[e.key := e], identities := t.identities[e.key := e.id]))
    ensures |t.events[e.key := e]| == |t.events| + 1
  {
    MapGrows(t.events, e.key, e);
  }

  /** An insert can only fail on a reused event id; it never breaks the identity mapping. */
  lemma {:induction false} InsertKeepsWellFormed(t: Tables, e: Event)
    requires WellFormed(t)
    ensures InsertTx(t, e).Some? <==>
            e.key in t.events || forall k :: k in t.events ==> t.events[k].id != e.id
    ensures InsertTx(t, e).Some? ==>
      var (after, isNew) := InsertTx(t, e).value;
      && WellFormed(after) && after.outcomes == t.outcomes && isNew == (e.key !in t.events)
      && after.events == (if isNew then t.events[e.key := e] else t.events)
      && |after.events| == |t.events| + (if isNew then 1 else 0)
  {
    if e.key in t.events {
      assert t.identities[e.key] == t.events[e.key].id;
    } else if forall k :: k in t.events ==> t.events[k].id != e.id {
      NewRowKeepsWellFormed(t, e);
    }
  }

  /** The Event table after offering `es` in order: the first write for a key stays. */
  function FirstWins(events: map<Key, Event>, es: seq<Event>): map<Key, Event> {
    if es == [] then events
    else
      var before := FirstWins(events, es[..|es| - 1]);
      var e := es[|es| - 1];
      if e.key in before then before else before[e.key := e]
  }

  ghost predicate Names(es: seq<Event>, k: Key) { exists e :: e in es && e.key == k }

  lemma {:induction false} NamesSnoc(es: seq<Event>, e: Event, k: Key)
    ensures Names(es + [e], k) <==> Names(es, k) || e.key == k
  {
    assert e in es + [e];
    assert forall x :: x in es ==> x in es + [e];
  }

  lemma {:induction false} FirstWinsKeys(events: map<Key, Event>, es: seq<Event>)
    ensures forall k :: k in FirstWins(events, es) <==> k in events || Names(es, k)
    ensures |events| <= |FirstWins(events, es)| <= |events| + |es|
  {
    if es != [] {
      var init, last := es[..|es| - 1], es[|es| - 1];
      FirstWinsKeys(events, init);
      assert es == init + [last];
      forall k { NamesSnoc(init, last, k); }
      if last.key !in FirstWins(events, init) {
        MapGrows(FirstWins(events, init), last.key, last);
      }
    }
  }

  /** Row by row: an existing row is untouched, a new row is the first event offered under its key. */
  lemma {:induction false} FirstWriteWins(events: map<Key, Event>, es: seq<Event>, k: Key)
    ensures k in events ==> k in FirstWins(events, es) && FirstWins(events, es)[k] == events[k]
    ensures k !in events ==>
      forall i :: 0 <= i < |es| && es[i].key == k && (forall j :: 0 <= j < i ==> es[j].key != k)
        ==> k in FirstWins(events, es) && FirstWins(events, es)[k] == es[i]
  {
    if es != [] {
      var init := es[..|es| - 1];
      FirstWriteWins(events, init, k);
      FirstWinsKeys(events, init);
      forall i | k !in events && 0 <= i < |es| && es[i].key == k && (forall j :: 0 <= j < i ==> es[j].key != k)
        ensures k in FirstWins(events, es) && FirstWins(events, es)[k] == es[i]
      {
        if i < |init| {
          assert init[i] == es[i];
        } else {
          assert !Names(init, k);
        }
      }
    }
  }

  /** Offering only known identities again changes nothing, whatever else the replayed events carry. */
  lemma {:induction false} ReplayInsertsNothing(events: map<Key, Event>, es: seq<Event>)
    ensures FirstWins(events, es) == events <==> forall e :: e in es ==> e.key in events
  {
    FirstWinsKeys(events, es);
    if forall e :: e in es ==> e.key in events {
      assert FirstWins(events, es).Keys == events.Keys;
      forall k | k in events ensures FirstWins(events, es)[k] == events[k] {
        FirstWriteWins(events, es, k);
      }
    } else {
      var e :| e in es && e.key !in events;
      assert Names(es, e.key);
    }
  }

  // ----- The database -----

  datatype Kind = Began | Inserting | Noting | Finalising

  datatype Commit = Commit(kind: Kind, after: Tables)

  predicate IsInsert(c: Commit) { c.kind == Inserting }

  class Database {
    var events: map<Key, Event>
    var identities: map<Key, Id>
    var outcomes: map<Id, Outcome>
    ghost var log: seq<Commit>

    ghost function Now(): Tables
      reads this
    {
      Tables(events, identities, outcomes)
    }

    constructor ()
      ensures Now() == Tables(map[], map[], map[]) && WellFormed(Now()) && log == []
    {
      events, identities, outcomes, log := map[], map[], map[], [];
    }

    /** ImportOutcomeStore.begin with the generated run identifier as a parameter. */
    method Begin(run: Id, account: Id, start: Instant, end: Instant, now: Instant) returns (ok: bool)
      modifies this
      ensures ok <==> 0 <= end - start <= 31 * 86400 && run !in old(outcomes)
      ensures ok ==>
        && outcomes == old(outcomes)[run := Outcome(account, start, end, now, None, InProgress, 0, 0, 0, 0, None)]
        && events == old(events) && identities == old(identities)
      ensures ok ==>
        && Now() == BeginTx(old(Now()), run, account, start, end, now).value
        && log == old(log) + [Commit(Began, Now())]
      ensures !ok ==> Now() == old(Now()) && log == old(log)
    {
      var o := FreshOutcome(account, start, end, now);
      ok := o.Valid() && run !in outcomes;
      if ok {
        outcomes := outcomes[run := o];
        log := log + [Commit(Began, Now())];
      }
    }

    /** ImportOutcomeStore.update. */
    method Update(run: Id, c: Counts, state: State, reason: Option<Reason>, now: Instant) returns (ok: bool)
      modifies this
      ensures ok <==> UpdateTx(old(Now()), run, c, state, reason, now).Some?
      ensures ok ==>
        && run in old(outcomes) && old(outcomes)[run].state == InProgress && run in outcomes && outcomes[run].Valid()
        && outcomes == old(outcomes)[run := old(outcomes)[run].(
             inserted := c.inserted, duplicates := c.duplicates, failed := c.failed, pages := c.pages, state := state,
             reason := reason, finishedAt := if state == InProgress then None else Some(now))]
        && events == old(events) && identities == old(identities)
      ensures ok ==>
        && Now() == UpdateTx(old(Now()), run, c, state, reason, now).value
        && log == old(log) + [Commit(if state == InProgress then Noting else Finalising, Now())]
      ensures !ok ==> Now() == old(Now()) && log == old(log)
    {
      if run !in outcomes {
        return false;
      }
      var row := outcomes[run];
      var o := Updated(row, c, state, reason, now);
      ok := row.Valid() && o.Valid() && row.state == InProgress;
      if ok {
        outcomes := outcomes[run := o];
        log := log + [Commit(if state == InProgress then Noting else Finalising, Now())];
      }
    }

    /** EventStore.insert with the import checkpoint committed in the same transaction. */
    method InsertTracked(e: Event, run: Id, c: Counts) returns (result: Option<bool>)
      modifies this
      ensures result.Some? <==> InsertTrackedTx(old(Now()), e, run, c).Some?
      ensures result.Some? ==>
        && (Now(), result.value) == InsertTrackedTx(old(Now()), e, run, c).value
        && log == old(log) + [Commit(Inserting, Now())]
      ensures result.None? ==> Now() == old(Now()) && log == old(log)
    {
      var isNew := e.key !in events;
      if isNew && exists k :: k in events && events[k].id == e.id {
        return None;
      }
      var events', identities' := events, identities;
      if isNew {
        events' := events'[e.key := e];
      }
      var stored := events'[e.key];
      if e.key !in identities' {
        if stored.id in identities'.Values {
          return None;
        }
        identities' := identities'[e.key := stored.id];
      } else if identities'[e.key] != stored.id {
        return None;
      }
      if run !in outcomes {
        return None;
      }
      var o := Updated(outcomes[run], Tallied(c, isNew), InProgress, None, 0);
      if !outcomes[run].Valid() || !o.Valid() || outcomes[run].state != InProgress {
        return None;
      }
      events, identities, outcomes := events', identities', outcomes[run := o];
      log := log + [Commit(Inserting, Now())];
      result := Some(isNew);
    }

    /** ImportOutcomeStore.fail: finalise with the committed counts. */
    method Fail(run: Id, now: Instant) returns (ok: bool)
      modifies this
      ensures ok <==> run in old(outcomes) && old(outcomes)[run].Valid() && old(outcomes)[run].state == InProgress
      ensures ok ==>
        && Now() == FailTx(old(Now()), run, now).value
        && Now() == old(Now()).(outcomes := old(outcomes)[run := FailedOutcome(old(outcomes)[run], now)])
        && log == old(log) + [Commit(Finalising, Now())]
        && FailedOutcome(old(outcomes)[run], now).Valid()
      ensures !ok ==> Now() == old(Now()) && log == old(log)
    {
      if run !in outcomes {
        return false;
      }
      var row := outcomes[run];
      ok := Update(run, Counts(row.inserted, row.duplicates, row.failed, row.pages),
                   if row.AnyProgress() then Partial else Failed, Some(ImportError), now);
    }
  }

  /** The failure record keeps the committed counts. */
  function FailedOutcome(o: Outcome, now: Instant): Outcome {
    o.(state := if o.AnyProgress() then Partial else Failed, reason := Some(ImportError), finishedAt := Some(now))
  }

  // ----- Crash consistency of one tracked import -----

  ghost predicate OthersKept(a: map<Id, Outcome>, b: map<Id, Outcome>, run: Id) {
    forall r :: r != run ==> (r in a <==> r in b) && (r in a ==> a[r] == b[r])
  }

  /** What the database shows at commit `i` of an import begun in `begun`. */
  ghost predicate Sound(begun: Tables, run: Id, commits: seq<Commit>, i: nat)
    requires i < |commits|
  {
    var t := commits[i].after;
    && WellFormed(t) && run in t.outcomes
    // the stored counters are exactly the rows added and the inserts committed
    && t.outcomes[run].inserted == |t.events| - |begun.events|
    && t.outcomes[run].inserted + t.outcomes[run].duplicates == Count(IsInsert, commits[..i + 1])
    // no earlier Event row and no other import is touched
    && (forall k :: k in begun.events ==> k in t.events && t.events[k] == begun.events[k])
    && OthersKept(begun.outcomes, t.outcomes, run)
    // nothing follows a finalised outcome
    && (t.outcomes[run].state != InProgress ==> i + 1 == |commits|)
  }

  ghost predicate CrashConsistent(begun: Tables, run: Id, commits: seq<Commit>) {
    commits != [] && commits[0] == Commit(Began, begun)
    && forall i :: 0 <= i < |commits| ==> Sound(begun, run, commits, i)
  }

  function CountsOf(o: Outcome): Counts { Counts(o.inserted, o.duplicates, o.failed, o.pages) }

  /** The event's key is known, or no row has its event id. */
  predicate Storable(events: map<Key, Event>, e: Event) {
    e.key in events || forall k :: k in events ==> events[k].id != e.id
  }

  /** Offered in order, no event brings a new key under an event id that is already in use. */
  ghost predicate AllStorable(events: map<Key, Event>, es: seq<Event>) {
    forall i :: 0 <= i < |es| ==> Storable(FirstWins(events, es[..i]), es[i])
  }

  lemma {:induction false} StorablePrefix(events: map<Key, Event>, some: seq<Event>, all: seq<Event>)
    requires some <= all && AllStorable(events, all)
    ensures AllStorable(events, some)
  {
    forall i | 0 <= i < |some| ensures Storable(FirstWins(events, some[..i]), some[i]) { assert some[..i] == all[..i]; }
  }

  lemma {:induction false} StorableSnoc(events: map<Key, Event>, es: seq<Event>, e: Event)
    requires AllStorable(events, es) && Storable(FirstWins(events, es), e)
    ensures AllStorable(events, es + [e])
  {
    var all := es + [e];
    forall i | 0 <= i < |all| ensures Storable(FirstWins(events, all[..i]), all[i]) {
      assert all[..i] == es[..i];
      assert es[..|es|] == es;
    }
  }

  /** An import in progress: the last commit is the present, and it shows counts `c`. */
  ghost predicate Tracking(
    begun: Tables, run: Id, t: Tables, commits: seq<Commit>, c: Counts, accepted: seq<Event>)
  {
    && CrashConsistent(begun, run, commits) && commits[|commits| - 1].after == t
    && run in t.outcomes && t.outcomes[run].state == InProgress && CountsOf(t.outcomes[run]) == c
    && t.events == FirstWins(begun.events, accepted) && c.inserted + c.duplicates == |accepted|
    && AllStorable(begun.events, accepted)
  }

  predicate InBounds(c: Counts) {
    && 0 <= c.inserted && 0 <= c.duplicates && 0 <= c.failed && 0 <= c.pages <= MAX_PAGES
    && c.inserted + c.duplicates + c.failed <= MAX_RECORDS
  }

  /** Appending one sound commit to an unfinished import. */
  lemma {:induction false} AppendCommit(begun: Tables, run: Id, commits: seq<Commit>, c: Commit)
    requires CrashConsistent(begun, run, commits)
    requires InProgressAt(commits[|commits| - 1], run)
    requires Sound(begun, run, commits + [c], |commits|)
    ensures CrashConsistent(begun, run, commits + [c])
  {
    var all := commits + [c];
    forall i | 0 <= i < |commits| ensures Sound(begun, run, all, i) { EarlierStaysSound(begun, run, commits, c, i); }
  }

  predicate InProgressAt(c: Commit, run: Id) { run in c.after.outcomes && c.after.outcomes[run].state == InProgress }

  lemma {:induction false} EarlierStaysSound(begun: Tables, run: Id, commits: seq<Commit>, c: Commit, i: nat)
    requires i < |commits| && Sound(begun, run, commits, i)
    requires i + 1 == |commits| ==> InProgressAt(commits[i], run)
    ensures Sound(begun, run, commits + [c], i)
  {
    assert (commits + [c])[..i + 1] == commits[..i + 1];
  }

  lemma {:induction false} CommitsSoFar(commits: seq<Commit>, c: Commit)
    requires commits != []
    ensures Count(IsInsert, (commits + [c])[..|commits| + 1])
         == Count(IsInsert, commits[..|commits|]) + (if IsInsert(c) then 1 else 0)
  {
    assert (commits + [c])[..|commits| + 1] == commits + [c] && commits[..|commits|] == commits;
    FilterSnoc(IsInsert, commits, c);
  }

  /** A progress, completion or failure update that keeps the insert counters is a sound commit. */
  lemma {:induction false} NoteStep(
    begun: Tables, run: Id, t: Tables, commits: seq<Commit>, c: Counts, accepted: seq<Event>,
    o: Outcome, kind: Kind)
    requires Tracking(begun, run, t, commits, c, accepted) && kind in {Noting, Finalising}
    requires o.Valid() && o.inserted == c.inserted && o.duplicates == c.duplicates
    ensures CrashConsistent(begun, run, commits + [Commit(kind, t.(outcomes := t.outcomes[run := o]))])
  {
    var after := t.(outcomes := t.outcomes[run := o]);
    assert Sound(begun, run, commits, |commits| - 1);
    CommitsSoFar(commits, Commit(kind, after));
    AppendCommit(begun, run, commits, Commit(kind, after));
  }

  lemma {:induction false} ProgressStep(
    begun: Tables, run: Id, t: Tables, commits: seq<Commit>, c: Counts, accepted: seq<Event>, next: Counts)
    requires Tracking(begun, run, t, commits, c, accepted)
    requires InBounds(next) && next.inserted == c.inserted && next.duplicates == c.duplicates
    ensures UpdateTx(t, run, next, InProgress, None, 0).Some?
    ensures var after := UpdateTx(t, run, next, InProgress, None, 0).value;
      Tracking(begun, run, after, commits + [Commit(Noting, after)], next, accepted)
  {
    assert Sound(begun, run, commits, |commits| - 1);
    NoteStep(begun, run, t, commits, c, accepted, Updated(t.outcomes[run], next, InProgress, None, 0), Noting);
  }

  lemma {:induction false} TrackedInsertFacts(t: Tables, e: Event, run: Id, c: Counts)
    requires WellFormed(t) && InsertTrackedTx(t, e, run, c).Some?
    ensures var (after, isNew) := InsertTrackedTx(t, e, run, c).value;
      && WellFormed(after) && isNew == (e.key !in t.events)
      && after.events == (if isNew then t.events[e.key := e] else t.events)
      && |after.events| == |t.events| + (if isNew then 1 else 0)
      && (forall k :: k in t.events ==> k in after.events && after.events[k] == t.events[k])
      && OthersKept(t.outcomes, after.outcomes, run)
      && run in t.outcomes && run in after.outcomes && after.outcomes[run].state == InProgress
      && CountsOf(after.outcomes[run]) == Tallied(c, isNew)
  {
    InsertKeepsWellFormed(t, e);
  }

  /** A tracked insert moves the row and its counter together. */
  lemma {:induction false} InsertStep(
    begun: Tables, run: Id, t: Tables, commits: seq<Commit>, c: Counts, accepted: seq<Event>, e: Event)
    requires Tracking(begun, run, t, commits, c, accepted)
    requires InsertTrackedTx(t, e, run, c).Some? && Storable(t.events, e)
    ensures var (after, isNew) := InsertTrackedTx(t, e, run, c).value;
      Tracking(begun, run, after, commits + [Commit(Inserting, after)], Tallied(c, isNew), accepted + [e])
  {
    assert Sound(begun, run, commits, |commits| - 1);
    TrackedInsertFacts(t, e, run, c);
    var (after, isNew) := InsertTrackedTx(t, e, run, c).value;
    InsertSound(begun, run, t, commits, c, after, isNew);
    AppendCommit(begun, run, commits, Commit(Inserting, after));
    StorableSnoc(begun.events, accepted, e);
    FirstWinsSnoc(begun.events, accepted, e);
  }

  /** Within the bounds of an import a tracked insert fails only on a reused event id. */
  lemma {:induction false} TrackedInsertIff(t: Tables, e: Event, run: Id, c: Counts)
    requires WellFormed(t) && run in t.outcomes && t.outcomes[run].state == InProgress
    requires InBounds(c) && c.inserted + c.duplicates + c.failed < MAX_RECORDS
    ensures InsertTrackedTx(t, e, run, c).Some? <==> Storable(t.events, e)
  {
    InsertKeepsWellFormed(t, e);
  }

  lemma {:induction false} FirstWinsSnoc(events: map<Key, Event>, es: seq<Event>, e: Event)
    ensures FirstWins(events, es + [e]) ==
      var before := FirstWins(events, es); if e.key in before then before else before[e.key := e]
  {
    assert (es + [e])[..|es|] == es;
  }

  lemma {:induction false} InsertSound(
    begun: Tables, run: Id, t: Tables, commits: seq<Commit>, c: Counts, after: Tables, isNew: bool)
    requires commits != [] && commits[|commits| - 1].after == t && Sound(begun, run, commits, |commits| - 1)
    requires run in t.outcomes && CountsOf(t.outcomes[run]) == c
    requires WellFormed(after) && OthersKept(t.outcomes, after.outcomes, run)
    requires forall k :: k in t.events ==> k in after.events && after.events[k] == t.events[k]
    requires |after.events| == |t.events| + (if isNew then 1 else 0)
    requires run in after.outcomes && after.outcomes[run].state == InProgress
    requires CountsOf(after.outcomes[run]) == Tallied(c, isNew)
    ensures Sound(begun, run, commits + [Commit(Inserting, after)], |commits|)
  {
    CommitsSoFar(commits, Commit(Inserting, after));
  }

  // ----- The paged loop -----

  datatype Payload = Malformed | Mail(externalId: Id, occurredAt: Instant, body: Id, eventId: Id)

  datatype Next = End | Link(token: Id) | BadLink

  datatype Reply = Raises | NotACollection | Page(values: seq<Payload>, next: Next)

  datatype Window = Window(account: Id, start: Instant, end: Instant)

  /** mail_event and the window check: the event to store, or None for a record counted as failed. */
  function Accept(w: Window, p: Payload): Option<Event> {
    if p.Mail? && w.start <= p.occurredAt <= w.end
    then Some(Event(p.eventId, Key(OUTLOOK, w.account, p.externalId), p.occurredAt, p.body))
    else None
  }

  /** The storable events of a list of records, in order. */
  function Acceptable(w: Window, values: seq<Payload>): seq<Event> {
    if values == [] then []
    else
      var init := Acceptable(w, values[..|values| - 1]);
      match Accept(w, values[|values| - 1])
      case None => init
      case Some(e) => init + [e]
  }

  function AcceptablePages(w: Window, replies: seq<Reply>): seq<Event> {
    if replies == [] then []
    else
      var init := AcceptablePages(w, replies[..|replies| - 1]);
      var last := replies[|replies| - 1];
      if last.Page? then init + Acceptable(w, last.values) else init
  }

  lemma {:induction false} AcceptableOne(w: Window, p: Payload)
    ensures Acceptable(w, [p]) == match Accept(w, p) case None => [] case Some(e) => [e]
  {
    assert [p][..0] == [];
    assert Acceptable(w, [p][..0]) == [];
  }

  // ----- When an import succeeds, by its inputs -----

  /** A record that is counted as failed: malformed, or outside the window. */
  predicate Unusable(w: Window, p: Payload) { p.Malformed? || p.occurredAt < w.start || w.end < p.occurredAt }

  /** The event that a usable record becomes. */
  predicate Becomes(w: Window, p: Payload, e: Event) {
    && p.Mail? && e.id == p.eventId && e.key == Key(1, w.account, p.externalId)
    && e.occurredAt == p.occurredAt && e.body == p.body
  }

  function UsableIn(w: Window): Payload -> bool { (p: Payload) => !Unusable(w, p) }

  /** All records of all pages, in order. */
  function Payloads(replies: seq<Reply>): seq<Payload> {
    if replies == [] then []
    else Payloads(replies[..|replies| - 1]) + if replies[|replies| - 1].Page? then replies[|replies| - 1].values else []
  }

  /** The storable events are the usable records, one for one. */
  ghost predicate OneForOne(w: Window, ps: seq<Payload>, es: seq<Event>) {
    |ps| == |es| && forall i :: 0 <= i < |ps| ==> Becomes(w, ps[i], es[i])
  }

  lemma {:induction false} AcceptableAreUsable(w: Window, values: seq<Payload>)
    ensures OneForOne(w, Filter(UsableIn(w), values), Acceptable(w, values))
  {
    if values != [] {
      var init, last := values[..|values| - 1], values[|values| - 1];
      AcceptableAreUsable(w, init);
      FilterSnoc(UsableIn(w), init, last);
      assert values == init + [last];
    }
  }

  /** The events an import offers are exactly its usable records, in order. */
  lemma {:induction false} OfferedAreUsable(w: Window, replies: seq<Reply>)
    ensures OneForOne(w, Filter(UsableIn(w), Payloads(replies)), AcceptablePages(w, replies))
    ensures |AcceptablePages(w, replies)| <= |Payloads(replies)|
  {
    if replies != [] {
      var init, last := replies[..|replies| - 1], replies[|replies| - 1];
      OfferedAreUsable(w, init);
      if last.Page? {
        AcceptableAreUsable(w, last.values);
        FilterAppend(UsableIn(w), Payloads(init), last.values);
      } else {
        assert Payloads(init) + [] == Payloads(init);
      }
    }
    FilterShorter(UsableIn(w), Payloads(replies));
  }

  lemma {:induction false} FilterShorter<T>(p: T -> bool, s: seq<T>)
    ensures |Filter(p, s)| <= |s|
  {
    if s != [] { FilterShorter(p, s[1..]); }
  }

  /** `n` pages end the import: each is a collection of at most 50 records with a fresh link to the next one. */
  ghost predicate Readable(maxPages: int, replies: seq<Reply>, n: nat) {
    && 1 <= n <= maxPages && n <= |replies|
    && (forall i :: 0 <= i < n ==> replies[i].Page? && |replies[i].values| <= 50)
    && (forall i :: 0 <= i < n - 1 ==> replies[i].next.Link?)
    && (replies[n - 1].next.End? || (n == maxPages && replies[n - 1].next.Link?))
    && (forall i, j :: 0 <= i < j < n && replies[j].next.Link? ==> replies[i].next != replies[j].next)
  }

  /** Transactions of reading pages: two for a stored record, one for a failed one, one for a page. */
  function Transactions(w: Window, replies: seq<Reply>): nat {
    |Payloads(replies)| + |AcceptablePages(w, replies)| + |replies|
  }

  /** The first `n` pages can be read and stored with that many transactions. */
  ghost predicate Importable(events: map<Key, Event>, w: Window, maxPages: int, replies: seq<Reply>, budget: int, n: nat) {
    && Readable(maxPages, replies, n)
    && AllStorable(events, AcceptablePages(w, replies[..n]))
    && Transactions(w, replies[..n]) <= budget
  }

  /** Some number of pages ends the import, and can be stored within the budget. */
  ghost predicate Succeeds(events: map<Key, Event>, w: Window, maxPages: int, replies: seq<Reply>, budget: int) {
    exists n: nat :: Importable(events, w, maxPages, replies, budget, n)
  }

  /** The next page can be read, stored and gone on from or stopped at. */
  ghost predicate ContinuesWith(
    events: map<Key, Event>, w: Window, replies: seq<Reply>, n: nat, left: nat, visited: set<Id>)
  {
    && n < |replies| && replies[n].Page? && |replies[n].values| <= 50
    && !replies[n].next.BadLink? && (replies[n].next.Link? ==> replies[n].next.token !in visited)
    && AllStorable(events, AcceptablePages(w, replies[..n]) + Acceptable(w, replies[n].values))
    && |replies[n].values| + |Acceptable(w, replies[n].values)| + 1 <= left
  }

  /** What has been read, of a prefix of the pages that an import can go on from. */
  ghost predicate SoFar(
    events: map<Key, Event>, w: Window, maxPages: int, replies: seq<Reply>, budget: nat, n: nat, left: nat, visited: set<Id>)
  {
    && n <= maxPages && n <= |replies|
    && (forall i :: 0 <= i < n ==> replies[i].Page? && |replies[i].values| <= 50 && replies[i].next.Link?)
    && (forall i, j :: 0 <= i < j < n ==> replies[i].next != replies[j].next)
    && (forall t :: t in visited <==> exists i :: 0 <= i < n && replies[i].next == Link(t))
    && AllStorable(events, AcceptablePages(w, replies[..n]))
    && left + Transactions(w, replies[..n]) == budget
  }

  /** If the import ends well after `m` pages, the next page is one of them. */
  lemma {:induction false} EndsLater(
    events: map<Key, Event>, w: Window, maxPages: int, replies: seq<Reply>, budget: nat, n: nat, left: nat,
    visited: set<Id>, m: nat)
    requires SoFar(events, w, maxPages, replies, budget, n, left, visited) && n < maxPages
    requires Importable(events, w, maxPages, replies, budget, m)
    ensures ContinuesWith(events, w, replies, n, left, visited)
  {
    PagesPrefix(w, replies, n + 1, m);
    PageAdds(w, replies, n);
    StorablePrefix(events, AcceptablePages(w, replies[..n + 1]), AcceptablePages(w, replies[..m]));
  }

  /** A page that was read and stored ends the import, or is gone on from, or is its last by the limit. */
  lemma {:induction false} PageDone(
    events: map<Key, Event>, w: Window, maxPages: int, replies: seq<Reply>, budget: nat, n: nat, before: nat, left: nat,
    visited: set<Id>)
    requires SoFar(events, w, maxPages, replies, budget, n, before, visited) && n < maxPages && n < |replies|
    requires replies[n].Page? && |replies[n].values| <= 50
    requires AllStorable(events, AcceptablePages(w, replies[..n]) + Acceptable(w, replies[n].values))
    requires left == before - |replies[n].values| - |Acceptable(w, replies[n].values)| - 1
    ensures replies[n].next.End? ==> Importable(events, w, maxPages, replies, budget, n + 1)
    ensures replies[n].next.Link? && replies[n].next.token !in visited ==>
      && SoFar(events, w, maxPages, replies, budget, n + 1, left, visited + {replies[n].next.token})
      && (n + 1 == maxPages ==> Importable(events, w, maxPages, replies, budget, n + 1))
  {
    PageAdds(w, replies, n);
    if replies[n].next.Link? && replies[n].next.token !in visited {
      assert forall i :: 0 <= i < n ==> replies[i].next != replies[n].next;
    }
  }

  /** What one more page adds. */
  lemma {:induction false} PageAdds(w: Window, replies: seq<Reply>, n: nat)
    requires n < |replies| && replies[n].Page?
    ensures Payloads(replies[..n + 1]) == Payloads(replies[..n]) + replies[n].values
    ensures AcceptablePages(w, replies[..n + 1]) == AcceptablePages(w, replies[..n]) + Acceptable(w, replies[n].values)
    ensures Transactions(w, replies[..n + 1])
         == Transactions(w, replies[..n]) + |replies[n].values| + |Acceptable(w, replies[n].values)| + 1
  {
    assert replies[..n + 1][..n] == replies[..n];
  }

  /** Fewer pages hold a prefix of the records and cost no more. */
  lemma {:induction false} PagesPrefix(w: Window, replies: seq<Reply>, n: nat, m: nat)
    requires n <= m <= |replies|
    ensures AcceptablePages(w, replies[..n]) <= AcceptablePages(w, replies[..m])
    ensures Payloads(replies[..n]) <= Payloads(replies[..m])
    ensures Transactions(w, replies[..n]) <= Transactions(w, replies[..m])
  {
    if n < m {
      PagesPrefix(w, replies, n, m - 1);
      assert replies[..m][..m - 1] == replies[..m - 1];
      if replies[m - 1].Page? { PageAdds(w, replies, m - 1); }
    }
  }

  ghost predicate Follows(db: Database, base: nat, begun: Tables, run: Id, c: Counts, accepted: seq<Event>)
    reads db
  {
    base <= |db.log| && Tracking(begun, run, db.Now(), db.log[base..], c, accepted)
  }

  lemma {:induction false} LogTail(log: seq<Commit>, base: nat, c: Commit)
    requires base <= |log|
    ensures (log + [c])[base..] == log[base..] + [c]
  {
  }

  /** The `progress` closure; `budget` is the number of transactions left before an interruption. */
  method Progress(
    db: Database, ghost base: nat, ghost begun: Tables, run: Id, ghost c: Counts, ghost accepted: seq<Event>,
    next: Counts, budget: nat) returns (ok: bool)
    requires Follows(db, base, begun, run, c, accepted)
    requires InBounds(next) && next.inserted == c.inserted && next.duplicates == c.duplicates
    modifies db
    ensures ok <==> budget > 0
    ensures ok ==> Follows(db, base, begun, run, next, accepted)
    ensures !ok ==> Follows(db, base, begun, run, c, accepted)
    ensures old(db.log) <= db.log
  {
    if budget == 0 {
      return false;
    }
    ProgressStep(begun, run, db.Now(), db.log[base..], c, accepted, next);
    ghost var before := db.log;
    ok := db.Update(run, next, InProgress, None, 0);
    LogTail(before, base, Commit(Noting, db.Now()));
  }

  /** A tracked insert of an accepted record; it raises exactly for a record that cannot be stored. */
  method Insert(
    db: Database, ghost base: nat, ghost begun: Tables, run: Id, e: Event, c: Counts, ghost accepted: seq<Event>)
    returns (result: Option<bool>)
    requires Follows(db, base, begun, run, c, accepted)
    requires InBounds(c) && c.inserted + c.duplicates + c.failed < MAX_RECORDS
    modifies db
    ensures result.Some? <==> Storable(FirstWins(begun.events, accepted), e)
    ensures result.Some? ==> Follows(db, base, begun, run, Tallied(c, result.value), accepted + [e])
    ensures result.None? ==> Follows(db, base, begun, run, c, accepted)
    ensures old(db.log) <= db.log
  {
    ghost var before := db.log;
    ghost var t := db.Now();
    assert Sound(begun, run, before[base..], |before[base..]| - 1);
    TrackedInsertIff(t, e, run, c);
    result := db.InsertTracked(e, run, c);
    if result.Some? {
      InsertStep(begun, run, t, before[base..], c, accepted, e);
      LogTail(before, base, Commit(Inserting, db.Now()));
    }
  }

  /** One record: insert and checkpoint together, or one more failure. */
  method IngestRecord(
    db: Database, ghost base: nat, ghost begun: Tables, run: Id, w: Window, payload: Payload, c: Counts,
    ghost accepted: seq<Event>, budget: nat)
    returns (ok: bool, c': Counts, left: nat, ghost accepted': seq<Event>)
    requires Follows(db, base, begun, run, c, accepted)
    requires InBounds(c) && c.inserted + c.duplicates + c.failed < MAX_RECORDS
    modifies db
    ensures Follows(db, base, begun, run, c', accepted') && old(db.log) <= db.log
    ensures accepted' == accepted || accepted' == accepted + Acceptable(w, [payload])
    ensures ok ==> accepted' == accepted + Acceptable(w, [payload])
    ensures ok ==> InBounds(c') && c'.pages == c.pages
    ensures ok ==> c'.inserted + c'.duplicates + c'.failed == c.inserted + c.duplicates + c.failed + 1
    ensures ok <==>
      && 1 + |Acceptable(w, [payload])| <= budget
      && (Accept(w, payload).Some? ==> Storable(FirstWins(begun.events, accepted), Accept(w, payload).value))
    ensures ok ==> left == budget - 1 - |Acceptable(w, [payload])|
  {
    ok, c', left, accepted' := false, c, budget, accepted;
    AcceptableOne(w, payload);
    match Accept(w, payload)
    case None =>
      ok := Progress(db, base, begun, run, c, accepted, c.(failed := c.failed + 1), left);
      if ok {
        c', left := c.(failed := c.failed + 1), left - 1;
      }
    case Some(e) =>
      if left == 0 {
        return;
      }
      var result := Insert(db, base, begun, run, e, c, accepted);
      if result.None? {
        return;
      }
      c', left, accepted' := Tallied(c, result.value), left - 1, accepted + [e];
      ok := Progress(db, base, begun, run, c', accepted', c', left);
      if ok {
        left := left - 1;
      }
  }

  /** The records of one page. */
  method IngestPage(
    db: Database, ghost base: nat, ghost begun: Tables, run: Id, w: Window, values: seq<Payload>, c: Counts,
    ghost accepted: seq<Event>, budget: nat)
    returns (ok: bool, c': Counts, left: nat, ghost accepted': seq<Event>)
    requires Follows(db, base, begun, run, c, accepted)
    requires InBounds(c) && c.inserted + c.duplicates + c.failed + |values| <= MAX_RECORDS
    modifies db
    ensures Follows(db, base, begun, run, c', accepted') && old(db.log) <= db.log
    ensures accepted <= accepted' <= accepted + Acceptable(w, values)
    ensures ok ==> accepted' == accepted + Acceptable(w, values)
    ensures ok ==> InBounds(c') && c'.pages == c.pages
    ensures ok ==> c'.inserted + c'.duplicates + c'.failed == c.inserted + c.duplicates + c.failed + |values|
    ensures ok <==> |values| + |Acceptable(w, values)| <= budget && AllStorable(begun.events, accepted + Acceptable(w, values))
    ensures ok ==> left == budget - |values| - |Acceptable(w, values)|
  {
    ok, c', left, accepted' := true, c, budget, accepted;
    var k := 0;
    while k < |values|
      invariant 0 <= k <= |values| && ok
      invariant Follows(db, base, begun, run, c', accepted') && old(db.log) <= db.log
      invariant accepted' == accepted + Acceptable(w, values[..k])
      invariant InBounds(c') && c'.pages == c.pages
      invariant c'.inserted + c'.duplicates + c'.failed == c.inserted + c.duplicates + c.failed + k
      invariant left == budget - k - |Acceptable(w, values[..k])|
    {
      NextRecord(begun.events, w, values, k, accepted);
      AcceptedSoFar(w, values, k, accepted);
      ok, c', left, accepted' := IngestRecord(db, base, begun, run, w, values[k], c', accepted', left);
      if !ok {
        return;
      }
      k := k + 1;
    }
    assert values[..|values|] == values;
  }

  /** If a whole page can be stored, so can its next record. */
  lemma {:induction false} NextRecord(events: map<Key, Event>, w: Window, values: seq<Payload>, k: nat, accepted: seq<Event>)
    requires k < |values|
    ensures |Acceptable(w, values[..k])| + |Acceptable(w, [values[k]])| <= |Acceptable(w, values)|
    ensures AllStorable(events, accepted + Acceptable(w, values)) && Accept(w, values[k]).Some? ==>
      Storable(FirstWins(events, accepted + Acceptable(w, values[..k])), Accept(w, values[k]).value)
  {
    AcceptedSoFar(w, values, k, accepted);
    AcceptableSnoc(w, values, k);
    AcceptableOne(w, values[k]);
    var before, all := accepted + Acceptable(w, values[..k]), accepted + Acceptable(w, values);
    if Accept(w, values[k]).Some? {
      assert all[..|before|] == before && all[|before|] == Accept(w, values[k]).value;
    }
  }

  lemma {:induction false} AcceptedSoFar(w: Window, values: seq<Payload>, k: nat, accepted: seq<Event>)
    requires k < |values|
    ensures var before, after := accepted + Acceptable(w, values[..k]), accepted + Acceptable(w, values[..k + 1]);
      && before + Acceptable(w, [values[k]]) == after
      && accepted <= before <= accepted + Acceptable(w, values) && accepted <= after <= accepted + Acceptable(w, values)
  {
    AcceptableSnoc(w, values, k);
  }

  lemma {:induction false} AcceptableSnoc(w: Window, values: seq<Payload>, k: nat)
    requires k < |values|
    ensures Acceptable(w, values[..k + 1]) == Acceptable(w, values[..k]) + Acceptable(w, [values[k]])
    ensures Acceptable(w, values[..k + 1]) <= Acceptable(w, values)
    ensures Acceptable(w, values[..k]) <= Acceptable(w, values)
    decreases |values| - k
  {
    assert values[..k + 1][..k] == values[..k];
    AcceptableOne(w, values[k]);
    if k + 1 < |values| {
      AcceptableSnoc(w, values, k + 1);
    } else {
      assert values[..k + 1] == values;
    }
  }

  /** A page and the progress note that closes it. */
  method IngestAndNote(
    db: Database, ghost base: nat, ghost begun: Tables, run: Id, w: Window, values: seq<Payload>, c: Counts,
    ghost accepted: seq<Event>, budget: nat)
    returns (ok: bool, c': Counts, left: nat, ghost accepted': seq<Event>)
    requires Follows(db, base, begun, run, c, accepted)
    requires InBounds(c) && c.inserted + c.duplicates + c.failed + |values| <= MAX_RECORDS && c.pages < MAX_PAGES
    modifies db
    ensures Follows(db, base, begun, run, c', accepted') && old(db.log) <= db.log
    ensures accepted <= accepted' <= accepted + Acceptable(w, values)
    ensures ok ==> accepted' == accepted + Acceptable(w, values)
    ensures ok ==> InBounds(c') && c'.pages == c.pages + 1
    ensures ok ==> c'.inserted + c'.duplicates + c'.failed == c.inserted + c.duplicates + c.failed + |values|
    ensures ok <==>
      |values| + |Acceptable(w, values)| + 1 <= budget && AllStorable(begun.events, accepted + Acceptable(w, values))
    ensures ok ==> left == budget - |values| - |Acceptable(w, values)| - 1
  {
    ok, c', left, accepted' := IngestPage(db, base, begun, run, w, values, c, accepted, budget);
    if !ok {
      return;
    }
    ok := Progress(db, base, begun, run, c', accepted', c'.(pages := c.pages + 1), left);
    if ok {
      c', left := c'.(pages := c.pages + 1), left - 1;
    }
  }

  predicate LastPage(reply: Reply) { reply.Page? && reply.next == End }

  lemma {:induction false} PagesSnoc(w: Window, replies: seq<Reply>, n: nat)
    requires n <= |replies|
    ensures n < |replies| && replies[n].Page? ==>
      && AcceptablePages(w, replies[..n + 1]) == AcceptablePages(w, replies[..n]) + Acceptable(w, replies[n].values)
      && AcceptablePages(w, replies[..n + 1]) <= AcceptablePages(w, replies)
    ensures AcceptablePages(w, replies[..n]) <= AcceptablePages(w, replies)
    decreases |replies| - n
  {
    if n == |replies| {
      assert replies[..n] == replies;
    } else {
      assert replies[..n + 1][..n] == replies[..n];
      PagesSnoc(w, replies, n + 1);
    }
  }

  /** A normal end of the loop: which pages were read, what they held, and why reading stopped. */
  ghost predicate ReadPages(
    w: Window, maxPages: int, replies: seq<Reply>, c: Counts, complete: bool, accepted: seq<Event>)
  {
    && 1 <= c.pages <= Min(maxPages, |replies|)
    && accepted == AcceptablePages(w, replies[..c.pages])
    && (complete <==> c.failed == 0 && LastPage(replies[c.pages - 1]))
    && (LastPage(replies[c.pages - 1]) || c.pages == maxPages)
  }

  /** An import that can go on, after `n` pages: everything read is counted and was offered to the store. */
  ghost predicate Counted(w: Window, replies: seq<Reply>, n: nat, c: Counts, accepted: seq<Event>) {
    && n <= |replies| && accepted == AcceptablePages(w, replies[..n])
    && InBounds(c) && c.pages == n && c.inserted + c.duplicates + c.failed == |Payloads(replies[..n])| <= n * MAX_PAGE_RECORDS
  }

  /** Read, check, store and note the next page; `total` is the number of transactions the import began with. */
  method IngestNext(
    db: Database, ghost base: nat, ghost begun: Tables, run: Id, w: Window, maxPages: nat, replies: seq<Reply>, n: nat,
    c: Counts, ghost accepted: seq<Event>, ghost visited: set<Id>, ghost total: nat, budget: nat)
    returns (going: bool, c': Counts, left: nat, ghost accepted': seq<Event>)
    requires Follows(db, base, begun, run, c, accepted) && Counted(w, replies, n, c, accepted)
    requires SoFar(begun.events, w, maxPages, replies, total, n, budget, visited) && n < maxPages <= MAX_PAGES
    modifies db
    ensures Follows(db, base, begun, run, c', accepted') && old(db.log) <= db.log
    ensures accepted' <= AcceptablePages(w, replies)
    ensures going ==> Counted(w, replies, n + 1, c', accepted') && replies[n].Page?
    ensures going && replies[n].next.End? ==>
      Importable(begun.events, w, maxPages, replies, total, n + 1) && left == total - Transactions(w, replies[..n + 1])
    ensures going && replies[n].next.Link? && replies[n].next.token !in visited ==>
      && SoFar(begun.events, w, maxPages, replies, total, n + 1, left, visited + {replies[n].next.token})
      && (n + 1 == maxPages ==> Importable(begun.events, w, maxPages, replies, total, n + 1))
    ensures !going || replies[n].next.BadLink? || (replies[n].next.Link? && replies[n].next.token in visited) ==>
      !Succeeds(begun.events, w, maxPages, replies, total)
  {
    going, c', left, accepted' := false, c, budget, accepted;
    PagesSnoc(w, replies, n);
    forall m: nat | Importable(begun.events, w, maxPages, replies, total, m)
      ensures ContinuesWith(begun.events, w, replies, n, budget, visited)
    {
      EndsLater(begun.events, w, maxPages, replies, total, n, budget, visited, m);
    }
    if n >= |replies| || !replies[n].Page? || |replies[n].values| > MAX_PAGE_RECORDS {
      return;
    }
    PageAdds(w, replies, n);
    going, c', left, accepted' := IngestAndNote(db, base, begun, run, w, replies[n].values, c, accepted, left);
    if going { PageDone(begun.events, w, maxPages, replies, total, n, budget, left, visited); }
  }

  /** _ingest_mailbox: pages until the end, the page limit, or an exception (`!ok`). */
  method IngestPages(
    db: Database, ghost base: nat, ghost begun: Tables, run: Id, w: Window, maxPages: nat, replies: seq<Reply>,
    budget: nat)
    returns (ok: bool, c: Counts, complete: bool, left: nat, ghost accepted: seq<Event>)
    requires Follows(db, base, begun, run, Counts(0, 0, 0, 0), [])
    requires 1 <= maxPages <= MAX_PAGES
    modifies db
    ensures Follows(db, base, begun, run, c, accepted) && old(db.log) <= db.log
    ensures accepted <= AcceptablePages(w, replies)
    ensures ok <==> Succeeds(begun.events, w, maxPages, replies, budget)
    ensures ok ==> c.pages >= 1 && Counted(w, replies, c.pages, c, accepted)
    ensures ok ==> ReadPages(w, maxPages, replies, c, complete, accepted)
    ensures ok ==> Importable(begun.events, w, maxPages, replies, budget, c.pages)
    ensures ok ==> left == budget - Transactions(w, replies[..c.pages])
  {
    ok, c, complete, left, accepted := false, Counts(0, 0, 0, 0), false, budget, [];
    var visited: set<Id> := {};
    var n := 0;
    while n < maxPages
      invariant 0 <= n <= Min(maxPages, |replies|) && !ok && !complete
      invariant Follows(db, base, begun, run, c, accepted) && old(db.log) <= db.log
      invariant Counted(w, replies, n, c, accepted)
      invariant n > 0 ==> !LastPage(replies[n - 1])
      invariant SoFar(begun.events, w, maxPages, replies, budget, n, left, visited)
      invariant n == maxPages ==> Importable(begun.events, w, maxPages, replies, budget, n)
    {
      var going;
      going, c, left, accepted :=
        IngestNext(db, base, begun, run, w, maxPages, replies, n, c, accepted, visited, budget, left);
      if !going {
        return;
      }
      var next := replies[n].next;
      n := n + 1;
      match next
      case End =>
        ok, complete := true, c.failed == 0;
        return;
      case BadLink =>
        return;
      case Link(token) =>
        if token in visited {
          return;
        }
        visited := visited + {token};
    }
    PagesSnoc(w, replies, n);
    ok := true;
  }

  datatype Result = Rejected | Raised | Report(counts: Counts, complete: bool)

  lemma {:induction false} StartTracking(t: Tables, run: Id, o: Outcome)
    requires WellFormed(t)
    requires o.Valid() && o.state == InProgress && CountsOf(o) == Counts(0, 0, 0, 0)
    ensures var begun := t.(outcomes := t.outcomes[run := o]);
      Tracking(begun, run, begun, [Commit(Began, begun)], Counts(0, 0, 0, 0), [])
  {
    var begun := t.(outcomes := t.outcomes[run := o]);
    assert [Commit(Began, begun)][..1] == [Commit(Began, begun)];
    FilterSnoc(IsInsert, [], Commit(Began, begun));
    assert [] + [Commit(Began, begun)] == [Commit(Began, begun)];
  }

  predicate ValidArguments(w: Window, maxPages: int) {
    0 <= w.end - w.start <= MAX_WINDOW && 1 <= maxPages <= MAX_PAGES
  }

  /** An import, finished or not: consistent at every commit, showing what was accepted. */
  ghost predicate Imported(begun: Tables, run: Id, t: Tables, commits: seq<Commit>, accepted: seq<Event>) {
    && CrashConsistent(begun, run, commits) && commits[|commits| - 1].after == t
    && WellFormed(t) && run in t.outcomes
    && t.events == FirstWins(begun.events, accepted)
    && t.outcomes[run].inserted == |t.events| - |begun.events|
    && t.outcomes[run].inserted + t.outcomes[run].duplicates == |accepted|
  }

  lemma {:induction false} FinalStep(
    begun: Tables, run: Id, t: Tables, commits: seq<Commit>, c: Counts, accepted: seq<Event>, o: Outcome)
    requires Tracking(begun, run, t, commits, c, accepted)
    requires o.Valid() && o.inserted == c.inserted && o.duplicates == c.duplicates
    ensures var after := t.(outcomes := t.outcomes[run := o]);
      Imported(begun, run, after, commits + [Commit(Finalising, after)], accepted)
  {
    NoteStep(begun, run, t, commits, c, accepted, o, Finalising);
    assert Sound(begun, run, commits, |commits| - 1);
  }

  /** A record kept by `fail`, or the outcome a report writes, is always valid. */
  lemma {:induction false} FinalOutcomesValid(o: Outcome, c: Counts, complete: bool, now: Instant)
    requires o.Valid() && o.state == InProgress
    ensures FailedOutcome(o, now).Valid()
    ensures InBounds(c) && c.pages >= 1 && (complete ==> c.failed == 0) ==>
      Updated(o, c, FinalState(complete), FinalReason(c, complete), now).Valid()
  {
  }

  function FinalState(complete: bool): State { if complete then Complete else Partial }

  function FinalReason(c: Counts, complete: bool): Option<Reason> {
    if complete then None else if c.failed > 0 then Some(MalformedRecords) else Some(PageLimit)
  }

  /** The exception handler: the committed counts become the failure record. */
  method RecordFailure(
    db: Database, ghost base: nat, ghost begun: Tables, run: Id, ghost c: Counts, ghost accepted: seq<Event>,
    now: Instant)
    requires Follows(db, base, begun, run, c, accepted)
    modifies db
    ensures old(db.log) <= db.log && Imported(begun, run, db.Now(), db.log[base..], accepted)
    ensures db.outcomes[run] == FailedOutcome(old(db.outcomes)[run], now)
  {
    ghost var loop, t := db.log[base..], db.Now();
    assert Sound(begun, run, loop, |loop| - 1);
    FinalOutcomesValid(t.outcomes[run], c, false, now);
    FinalStep(begun, run, t, loop, c, accepted, FailedOutcome(t.outcomes[run], now));
    var finalised := db.Fail(run, now);
    LogTail(old(db.log), base, Commit(Finalising, db.Now()));
  }

  /** The report's outcome, unless an interruption comes first. */
  method RecordReport(
    db: Database, ghost base: nat, ghost begun: Tables, run: Id, c: Counts, ghost accepted: seq<Event>,
    complete: bool, left: nat, now: Instant) returns (r: Result)
    requires Follows(db, base, begun, run, c, accepted)
    requires InBounds(c) && c.pages >= 1 && (complete ==> c.failed == 0)
    modifies db
    ensures old(db.log) <= db.log && Imported(begun, run, db.Now(), db.log[base..], accepted)
    ensures r == if left > 0 then Report(c, complete) else Raised
    ensures CountsOf(db.outcomes[run]) == c
    ensures db.outcomes[run].state == if r.Report? then FinalState(complete) else InProgress
    ensures r.Report? ==> db.outcomes[run].reason == FinalReason(c, complete) && db.outcomes[run].finishedAt == Some(now)
  {
    ghost var loop, t := db.log[base..], db.Now();
    assert Sound(begun, run, loop, |loop| - 1);
    if left == 0 {
      return Raised;
    }
    FinalOutcomesValid(t.outcomes[run], c, complete, now);
    FinalStep(begun, run, t, loop, c, accepted,
              Updated(t.outcomes[run], c, FinalState(complete), FinalReason(c, complete), now));
    var finalised := db.Update(run, c, FinalState(complete), FinalReason(c, complete), now);
    LogTail(old(db.log), base, Commit(Finalising, db.Now()));
    r := Report(c, complete);
  }

  /** Pages end an import in one place only; one transaction less decides whether the outcome can be written. */
  lemma {:induction false} OneLess(events: map<Key, Event>, w: Window, maxPages: int, replies: seq<Reply>, budget: int, n: nat)
    requires Importable(events, w, maxPages, replies, budget, n)
    ensures Succeeds(events, w, maxPages, replies, budget)
    ensures Succeeds(events, w, maxPages, replies, budget - 1) <==> Transactions(w, replies[..n]) < budget
    ensures Transactions(w, replies[..n]) < budget ==> Importable(events, w, maxPages, replies, budget - 1, n)
  {
    if Succeeds(events, w, maxPages, replies, budget - 1) {
      var m: nat :| Importable(events, w, maxPages, replies, budget - 1, m);
      assert m == n;
    }
    if Transactions(w, replies[..n]) < budget { assert Importable(events, w, maxPages, replies, budget - 1, n); }
  }

  lemma {:induction false} NeverWithLess(events: map<Key, Event>, w: Window, maxPages: int, replies: seq<Reply>, budget: int)
    requires !Succeeds(events, w, maxPages, replies, budget)
    ensures !Succeeds(events, w, maxPages, replies, budget - 1)
  {
    if Succeeds(events, w, maxPages, replies, budget - 1) {
      var m: nat :| Importable(events, w, maxPages, replies, budget - 1, m);
      assert Importable(events, w, maxPages, replies, budget, m);
    }
  }

  /** What the stored outcome says of the pages read: what was wrong with them, or why reading stopped. */
  ghost predicate Reported(w: Window, replies: seq<Reply>, c: Counts, complete: bool, accepted: seq<Event>, o: Outcome, now: Instant) {
    && CountsOf(o) == c && o.finishedAt == Some(now) && 0 <= c.pages <= |replies|
    && (if complete then o.state == Complete && o.reason == None
        else o.state == Partial && o.reason == Some(if c.failed > 0 then MalformedRecords else PageLimit))
    && var ps := Payloads(replies[..c.pages]);
       OneForOne(w, Filter(UsableIn(w), ps), accepted) && c.failed == |ps| - |accepted|
  }

  /** The end of an import, in the report or in the exception handler. */
  method Conclude(
    db: Database, ghost base: nat, ghost begun: Tables, run: Id, w: Window, maxPages: nat, replies: seq<Reply>,
    ok: bool, c: Counts, complete: bool, left: nat, ghost accepted: seq<Event>, ghost budget: nat, now: Instant)
    returns (r: Result)
    requires Follows(db, base, begun, run, c, accepted)
    requires ok <==> Succeeds(begun.events, w, maxPages, replies, budget)
    requires ok ==> c.pages >= 1 && Counted(w, replies, c.pages, c, accepted)
    requires ok ==> ReadPages(w, maxPages, replies, c, complete, accepted)
    requires ok ==> Importable(begun.events, w, maxPages, replies, budget, c.pages)
    requires ok ==> left == budget - Transactions(w, replies[..c.pages])
    modifies db
    ensures old(db.log) <= db.log && Imported(begun, run, db.Now(), db.log[base..], accepted) && !r.Rejected?
    ensures r.Report? <==> Succeeds(begun.events, w, maxPages, replies, budget - 1)
    ensures r.Raised? ==>
      if Succeeds(begun.events, w, maxPages, replies, budget) then db.outcomes[run].state == InProgress
      else db.outcomes[run].reason == Some(ImportError) && db.outcomes[run].state in {Partial, Failed}
    ensures r.Report? ==>
      && r.counts == c && r.complete == complete && ok
      && Importable(begun.events, w, maxPages, replies, budget - 1, c.pages)
      && Reported(w, replies, c, complete, accepted, db.outcomes[run], now)
  {
    if ok {
      OneLess(begun.events, w, maxPages, replies, budget, c.pages);
      OfferedAreUsable(w, replies[..c.pages]);
      r := RecordReport(db, base, begun, run, c, accepted, complete, left, now);
    } else {
      NeverWithLess(begun.events, w, maxPages, replies, budget);
      RecordFailure(db, base, begun, run, c, accepted, now);
      r := Raised;
    }
  }

  /** Open the outcome of a new import. */
  method Start(db: Database, ghost base: nat, run: Id, w: Window, now: Instant) returns (started: bool)
    requires WellFormed(db.Now()) && base == |db.log| && ValidArguments(w, 1)
    modifies db
    ensures started <==> run !in old(db.outcomes)
    ensures db.events == old(db.events) && old(db.log) <= db.log
    ensures started ==> Follows(db, base, db.Now(), run, Counts(0, 0, 0, 0), [])
    ensures !started ==> db.Now() == old(db.Now()) && db.log == old(db.log)
  {
    StartTracking(db.Now(), run, FreshOutcome(w.account, w.start, w.end, now));
    started := db.Begin(run, w.account, w.start, w.end, now);
    if started {
      assert db.log[base..] == [Commit(Began, db.Now())];
    }
  }

  /** ingest_mailbox for a tracked import, under any replies and any interruption point. */
  method IngestMailbox(
    db: Database, w: Window, maxPages: int, replies: seq<Reply>, run: Id, now: Instant, budget: nat)
    returns (r: Result, ghost accepted: seq<Event>, ghost begun: Tables)
    requires WellFormed(db.Now())
    modifies db
    ensures r.Rejected? <==> !ValidArguments(w, maxPages) || run in old(db.outcomes)
    ensures r.Rejected? ==> db.Now() == old(db.Now()) && db.log == old(db.log)
    // every commit since the start, so every crash point, is consistent, and nothing unread is claimed
    ensures !r.Rejected? ==>
      && begun.events == old(db.events) && old(db.log) <= db.log
      && Imported(begun, run, db.Now(), db.log[|old(db.log)|..], accepted)
      && accepted <= AcceptablePages(w, replies)
    // it reports exactly when the pages can be read and stored, with one transaction left for the final outcome
    ensures !r.Rejected? ==>
      (r.Report? <==> Succeeds(old(db.events), w, maxPages, replies, budget - 1))
    // an exception finalises the committed counts; only an interruption right after the loop leaves them in progress
    ensures r.Raised? ==>
      if Succeeds(old(db.events), w, maxPages, replies, budget) then db.outcomes[run].state == InProgress
      else db.outcomes[run].reason == Some(ImportError) && db.outcomes[run].state in {Partial, Failed}
    // a report is the stored outcome of the pages read: what they held, what was wrong with it, why reading stopped
    ensures r.Report? ==>
      && ReadPages(w, maxPages, replies, r.counts, r.complete, accepted)
      && Importable(old(db.events), w, maxPages, replies, budget - 1, r.counts.pages)
      && Reported(w, replies, r.counts, r.complete, accepted, db.outcomes[run], now)
    // replaying only known identities inserts nothing, whatever happens
    ensures !r.Rejected? && (forall e :: e in AcceptablePages(w, replies) ==> e.key in old(db.events)) ==>
      db.events == old(db.events)
    ensures r.Report? && (forall e :: e in AcceptablePages(w, replies) ==> e.key in old(db.events)) ==>
      r.counts.inserted == 0 && r.counts.duplicates == |accepted|
  {
    accepted := [];
    begun := db.Now();
    if !ValidArguments(w, maxPages) {
      return Rejected, [], begun;
    }
    ghost var base := |db.log|;
    var started := Start(db, base, run, w, now);
    if !started {
      return Rejected, [], begun;
    }
    begun := db.Now();
    var ok, c, complete, left;
    ok, c, complete, left, accepted := IngestPages(db, base, begun, run, w, maxPages, replies, budget);
    ReplayInsertsNothing(begun.events, accepted);
    r := Conclude(db, base, begun, run, w, maxPages, replies, ok, c, complete, left, accepted, budget, now);
  }

  /**
   * A whole import, then the same pages again: once a first import has reported on all of them, the second
   * inserts nothing, however it goes, and a report of it counts every accepted record as a duplicate.
   */
  method ImportAgain(
    db: Database, w: Window, maxPages: int, replies: seq<Reply>, run: Id, rerun: Id, now: Instant,
    budget: nat, again: nat)
    returns (first: Result, second: Result, ghost between: map<Key, Event>, ghost accepted: seq<Event>)
    requires WellFormed(db.Now())
    modifies db
    ensures first.Report? && first.counts.pages == |replies| ==>
      && db.events == between == FirstWins(old(db.events), AcceptablePages(w, replies))
      && (second.Report? ==> second.counts.inserted == 0 && second.counts.duplicates == |accepted|)
  {
    ghost var offered, begun;
    first, offered, begun := IngestMailbox(db, w, maxPages, replies, run, now, budget);
    between := db.events;
    if first.Report? && first.counts.pages == |replies| {
      AllKnown(begun.events, w, replies, offered);
    }
    second, accepted, begun := IngestMailbox(db, w, maxPages, replies, rerun, now, again);
  }

  lemma {:induction false} AllKnown(events: map<Key, Event>, w: Window, replies: seq<Reply>, offered: seq<Event>)
    requires offered == AcceptablePages(w, replies[..|replies|])
    ensures offered == AcceptablePages(w, replies)
    ensures forall e :: e in AcceptablePages(w, replies) ==> e.key in FirstWins(events, offered)
  {
    assert replies[..|replies|] == replies;
    FirstWinsKeys(events, offered);
    forall e | e in offered ensures e.key in FirstWins(events, offered) { assert Names(offered, e.key); }
  }
}
