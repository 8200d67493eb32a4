/**
 * The protected dispatch protocol: generate_protected in intelligence/openai_provider.py over the
 * envelope files of intelligence/provider_preflight_store.py and the durable ledger's primary key.
 * Steps are single file-system operations or transactions, taken by any number of workers in any
 * order; existence checks that precede a rename are allowed to be stale.
 */
module Dispatch {
  import opened Sequences

  type Id = nat
  type Instant = int

  datatype Code =
    | Timeout | Quota | ProviderUnavailable | Network
    | InvalidAuthority | BudgetExceeded | MissingCredential | InvalidResponse | Other

  predicate IsRetryable(c: Code) { c in {Timeout, Quota, ProviderUnavailable, Network} }

  datatype Envelope = Envelope(request: Id, attempts: int, failure: Option<Code>, expiresAt: Instant, digest: Id)
  {
    /** The envelope constructor's attempt checks. */
    predicate Valid() {
      && 0 <= attempts <= 2
      && (attempts == 0 ==> failure.None?)
      && (attempts > 0 ==> failure.Some? && IsRetryable(failure.value))
    }
  }

  /** One transport attempt: the ledger's primary key. */
  datatype Key = Key(request: Id, attempt: int)

  function KeyFor(e: Envelope): Key { Key(e.request, e.attempts + 1) }

  datatype Outcome = Delivered | FailedWith(code: Code)

  /** Where a worker is inside generate_protected. */
  datatype Pc =
    | Renamed(request: Id)
    | Holding(env: Envelope)
    | Admitted(env: Envelope)
    | Posted(env: Envelope)
    | Answered(env: Envelope)
    | Failed(env: Envelope, code: Code)
    | Restoring(request: Id)

  datatype State = State(
    active: map<Id, Envelope>, claimed: map<Id, Envelope>, reserved: set<Key>,
    dispatches: seq<Key>, outcomes: map<Key, Outcome>, workers: map<Id, Pc>)

  const INITIAL: State := State(map[], map[], {}, [], map[], map[])

  datatype Step =
    | Persist(env: Envelope)
    | Rename(worker: Id, request: Id)
    | ReadClaim(worker: Id, now: Instant)
    | Refuse(worker: Id, code: Code)
    | Reserve(worker: Id, withinBudget: bool)
    | Post(worker: Id)
    | Return(worker: Id, outcome: Outcome)
    | Rewrite(worker: Id)
    | RenameBack(worker: Id)
    | Destroy(worker: Id)
    | RemoveActive(request: Id)
    | RemoveClaimed(request: Id)
    | Crash(worker: Id)

  function At(s: State, w: Id): Option<Pc> { if w in s.workers then Some(s.workers[w]) else None }

  function Goto(s: State, w: Id, pc: Pc): State { s.(workers := s.workers[w := pc]) }

  function Leave(s: State, w: Id): State { s.(workers := s.workers - {w}) }

  function Retried(e: Envelope, c: Code): Envelope { e.(attempts := 1, failure := Some(c)) }

  /** A retryable failure of a first attempt restores the envelope; every other failure destroys it. */
  predicate Restores(e: Envelope, c: Code) { IsRetryable(c) && e.attempts == 0 }

  /** One step; a step that is not enabled changes nothing. */
  function Next(s: State, step: Step): State {
    match step
    case Persist(env) =>
      if env.Valid() && env.attempts == 0 && env.request !in s.active
      then s.(active := s.active[env.request := env]) else s
    case Rename(w, r) =>
      if w !in s.workers && r in s.active
      then Goto(s.(claimed := s.claimed[r := s.active[r]], active := s.active - {r}), w, Renamed(r)) else s
    case ReadClaim(w, now) =>
      (match At(s, w)
       case Some(Renamed(r)) =>
         if r !in s.claimed then Leave(s, w)
         else if s.claimed[r].request != r || s.claimed[r].expiresAt <= now || s.claimed[r].attempts >= 2
         then Leave(s.(claimed := s.claimed - {r}), w)
         else Goto(s, w, Holding(s.claimed[r]))
       case _ => s)
    case Refuse(w, code) =>
      if IsRetryable(code) then s
      else
        (match At(s, w)
         case Some(Holding(env)) => Goto(s, w, Failed(env, code))
         case Some(Admitted(env)) => Goto(s, w, Failed(env, code))
         case Some(Answered(env)) => Goto(s, w, Failed(env, code))
         case _ => s)
    case Reserve(w, withinBudget) =>
      (match At(s, w)
       case Some(Holding(env)) =>
         if withinBudget && KeyFor(env) !in s.reserved
         then Goto(s.(reserved := s.reserved + {KeyFor(env)}), w, Admitted(env))
         else Goto(s, w, Failed(env, BudgetExceeded))
       case _ => s)
    case Post(w) =>
      (match At(s, w)
       case Some(Admitted(env)) => Goto(s.(dispatches := s.dispatches + [KeyFor(env)]), w, Posted(env))
       case _ => s)
    case Return(w, outcome) =>
      (match At(s, w)
       case Some(Posted(env)) =>
         var recorded := s.(outcomes := s.outcomes[KeyFor(env) := outcome]);
         if outcome.Delivered? then Goto(recorded, w, Answered(env)) else Goto(recorded, w, Failed(env, outcome.code))
       case _ => s)
    case Rewrite(w) =>
      (match At(s, w)
       case Some(Failed(env, code)) =>
         if !Restores(env, code) then s
         else if env.request !in s.claimed || env.request in s.active
         then Leave(s.(claimed := s.claimed - {env.request}), w)
         else Goto(s.(claimed := s.claimed[env.request := Retried(env, code)]), w, Restoring(env.request))
       case _ => s)
    case RenameBack(w) =>
      (match At(s, w)
       case Some(Restoring(r)) =>
         if r in s.claimed
         then Leave(s.(active := s.active[r := s.claimed[r]], claimed := s.claimed - {r}), w) else Leave(s, w)
       case _ => s)
    case Destroy(w) =>
      (match At(s, w)
       case Some(Failed(env, code)) =>
         if Restores(env, code) then s else Leave(s.(claimed := s.claimed - {env.request}), w)
       case Some(Answered(env)) => Leave(s.(claimed := s.claimed - {env.request}), w)
       case _ => s)
    case RemoveActive(r) => s.(active := s.active - {r})
    case RemoveClaimed(r) => s.(claimed := s.claimed - {r})
    case Crash(w) => Leave(s, w)
  }

  function Run(s: State, steps: seq<Step>): State {
    if steps == [] then s else Next(Run(s, steps[..|steps| - 1]), steps[|steps| - 1])
  }

  // ----- The invariant -----

  /** A retried envelope can only exist once the first attempt has failed retryably. */
  ghost predicate Justified(s: State, e: Envelope) {
    && 0 <= e.attempts <= 1
    && (e.attempts == 1 ==>
          Key(e.request, 1) in s.outcomes && FirstFailed(s.outcomes[Key(e.request, 1)]))
  }

  predicate FirstFailed(o: Outcome) { o.FailedWith? && IsRetryable(o.code) }

  ghost predicate Files(s: State) {
    && (forall r :: r in s.active ==> s.active[r].request == r && Justified(s, s.active[r]))
    && (forall r :: r in s.claimed ==> s.claimed[r].request == r && Justified(s, s.claimed[r]))
  }

  function Carried(pc: Pc): Option<Envelope> {
    match pc
    case Renamed(_) => None case Restoring(_) => None
    case Holding(e) => Some(e) case Admitted(e) => Some(e) case Posted(e) => Some(e)
    case Answered(e) => Some(e) case Failed(e, _) => Some(e)
  }

  /** What a single worker knows. */
  ghost predicate WorkerOk(s: State, pc: Pc) {
    && (Carried(pc).Some? ==> Justified(s, Carried(pc).value))
    && (pc.Admitted? ==> KeyFor(pc.env) in s.reserved && KeyFor(pc.env) !in s.dispatches)
    && (pc.Posted? ==> KeyFor(pc.env) in s.dispatches && KeyFor(pc.env) !in s.outcomes)
    && (pc.Failed? && IsRetryable(pc.code) ==>
          KeyFor(pc.env) in s.outcomes && FirstFailed(s.outcomes[KeyFor(pc.env)]))
  }

  predicate Owns(pc: Pc) { pc.Admitted? || pc.Posted? }

  ghost predicate Workers(s: State) {
    && (forall w :: w in s.workers ==> WorkerOk(s, s.workers[w]))
    // a reserved attempt is in at most one pair of hands
    && (forall v, w :: v in s.workers && w in s.workers && v != w && Owns(s.workers[v]) && Owns(s.workers[w])
          ==> KeyFor(s.workers[v].env) != KeyFor(s.workers[w].env))
  }

  /** Dispatch `j` is the first attempt, or follows a retryable failure of the first. */
  ghost predicate Warranted(s: State, j: nat)
    requires j < |s.dispatches|
  {
    var k := s.dispatches[j];
    && k in s.reserved
    && (k.attempt == 1 || (
          k.attempt == 2 && Key(k.request, 1) in s.dispatches[..j]
          && Key(k.request, 1) in s.outcomes && FirstFailed(s.outcomes[Key(k.request, 1)])))
  }

  ghost predicate Transport(s: State) {
    && Distinct(s.dispatches)
    && (forall j :: 0 <= j < |s.dispatches| ==> Warranted(s, j))
    && (forall k :: k in s.outcomes ==> k in s.dispatches)
  }

  ghost predicate Inv(s: State) { Files(s) && Workers(s) && Transport(s) }

  // ----- Preservation -----

  /** Steps that leave the ledger, the transport history and the outcomes alone. */
  ghost predicate SameHistory(s: State, t: State) {
    s.reserved == t.reserved && s.dispatches == t.dispatches && s.outcomes == t.outcomes
  }

  lemma {:induction false} HistoryKeeps(s: State, t: State)
    requires SameHistory(s, t)
    ensures forall e :: Justified(s, e) <==> Justified(t, e)
    ensures forall pc :: WorkerOk(s, pc) <==> WorkerOk(t, pc)
    ensures Transport(s) <==> Transport(t)
  {
    assert forall j :: 0 <= j < |s.dispatches| ==> (Warranted(s, j) <==> Warranted(t, j));
  }

  /** Files that come from old files keep their justification when the history stands still. */
  lemma {:induction false} FilesCarryOver(s: State, t: State)
    requires Inv(s) && SameHistory(s, t)
    requires forall r :: r in t.active ==> FromFile(s, r, t.active[r])
    requires forall r :: r in t.claimed ==> FromFile(s, r, t.claimed[r])
    ensures Files(t)
  {
    HistoryKeeps(s, t);
  }

  lemma {:induction false} FilesShrink(s: State, t: State)
    requires Inv(s) && SameHistory(s, t) && t.active == s.active
    requires forall r :: r in t.claimed ==> r in s.claimed && t.claimed[r] == s.claimed[r]
    ensures Files(t)
  {
    FilesCarryOver(s, t);
  }

  /** `e` is an envelope already filed under `r`, or a new first attempt. */
  ghost predicate FromFile(s: State, r: Id, e: Envelope) {
    || (r in s.active && s.active[r] == e)
    || (r in s.claimed && s.claimed[r] == e)
    || (e.request == r && e.attempts == 0)
  }

  /** A worker that moves without acquiring a key, or leaves, disturbs nobody else. */
  lemma {:induction false} OneWorkerMoves(s: State, t: State, w: Id)
    requires Inv(s) && SameHistory(s, t)
    requires forall v :: v in t.workers && v != w ==> v in s.workers && t.workers[v] == s.workers[v]
    requires w in t.workers ==> WorkerOk(s, t.workers[w]) && !Owns(t.workers[w])
    ensures Workers(t)
  {
    HistoryKeeps(s, t);
    forall v | v in t.workers ensures WorkerOk(t, t.workers[v]) {
      if v != w { assert WorkerOk(s, s.workers[v]); }
    }
  }

  lemma {:induction false} FileStepsKeep(s: State, step: Step)
    requires Inv(s) && (step.Persist? || step.RemoveActive? || step.RemoveClaimed?)
    ensures Inv(Next(s, step))
  {
    HistoryKeeps(s, Next(s, step));
    FilesCarryOver(s, Next(s, step));
  }

  lemma {:induction false} RenameKeeps(s: State, w: Id, r: Id)
    requires Inv(s)
    ensures Inv(Next(s, Rename(w, r)))
  {
    if w !in s.workers && r in s.active {
      HistoryKeeps(s, Next(s, Rename(w, r)));
      FilesCarryOver(s, Next(s, Rename(w, r)));
      OneWorkerMoves(s, Next(s, Rename(w, r)), w);
    }
  }

  lemma {:induction false} RenameBackKeeps(s: State, w: Id)
    requires Inv(s)
    ensures Inv(Next(s, RenameBack(w)))
  {
    if w in s.workers && s.workers[w].Restoring? {
      var t := Next(s, RenameBack(w));
      HistoryKeeps(s, t);
      FilesCarryOver(s, t);
      OneWorkerMoves(s, t, w);
    }
  }

  lemma {:induction false} ReadClaimKeeps(s: State, w: Id, now: Instant)
    requires Inv(s)
    ensures Inv(Next(s, ReadClaim(w, now)))
  {
    if w in s.workers && s.workers[w].Renamed? {
      var t := Next(s, ReadClaim(w, now));
      assert t.active == s.active;
      FilesShrink(s, t);
      OneWorkerMoves(s, t, w);
      HistoryKeeps(s, t);
    }
  }

  lemma {:induction false} RefuseKeeps(s: State, w: Id, code: Code)
    requires Inv(s)
    ensures Inv(Next(s, Refuse(w, code)))
  {
    var t := Next(s, Refuse(w, code));
    HistoryKeeps(s, t);
    FilesCarryOver(s, t);
    if w in s.workers && t != s {
      assert WorkerOk(s, s.workers[w]);
      OneWorkerMoves(s, t, w);
    }
  }

  lemma {:induction false} LeavingKeeps(s: State, step: Step)
    requires Inv(s) && (step.Destroy? || step.Crash?)
    ensures Inv(Next(s, step))
  {
    var t := Next(s, step);
    HistoryKeeps(s, t);
    FilesCarryOver(s, t);
    if t != s { OneWorkerMoves(s, t, step.worker); }
  }

  lemma {:induction false} RewriteKeeps(s: State, w: Id)
    requires Inv(s)
    ensures Inv(Next(s, Rewrite(w)))
  {
    HistoryKeeps(s, Next(s, Rewrite(w)));
    if w in s.workers {
      assert WorkerOk(s, s.workers[w]);
    }
  }

  /** The history grows, and only key `k` gains a dispatch or an outcome. */
  ghost predicate GrowsAt(s: State, t: State, k: Key) {
    && s.reserved <= t.reserved
    && (forall key :: key in s.dispatches ==> key in t.dispatches)
    && (forall key :: key in t.dispatches && key != k ==> key in s.dispatches)
    && (forall key :: key in s.outcomes ==> key in t.outcomes && t.outcomes[key] == s.outcomes[key])
    && (forall key :: key in t.outcomes && key != k ==> key in s.outcomes)
  }

  lemma {:induction false} JustifiedStays(s: State, t: State, k: Key, e: Envelope)
    requires GrowsAt(s, t, k) && Justified(s, e)
    ensures Justified(t, e)
  {
  }

  lemma {:induction false} BystanderOk(s: State, t: State, k: Key, pc: Pc)
    requires GrowsAt(s, t, k) && WorkerOk(s, pc) && (Owns(pc) ==> KeyFor(pc.env) != k)
    ensures WorkerOk(t, pc)
  {
    if Carried(pc).Some? { JustifiedStays(s, t, k, Carried(pc).value); }
  }

  /** One worker moves on with its own key; files stand still and the others are undisturbed. */
  lemma {:induction false} OneWorkerProgresses(s: State, t: State, w: Id, k: Key)
    requires Inv(s) && GrowsAt(s, t, k) && t.active == s.active && t.claimed == s.claimed
    requires w in t.workers && WorkerOk(t, t.workers[w]) && (Owns(t.workers[w]) ==> KeyFor(t.workers[w].env) == k)
    requires forall v :: v in t.workers && v != w ==> v in s.workers && t.workers[v] == s.workers[v]
    requires forall v :: v in s.workers && v != w && Owns(s.workers[v]) ==> KeyFor(s.workers[v].env) != k
    ensures Files(t) && Workers(t)
  {
    forall e | Justified(s, e) ensures Justified(t, e) { JustifiedStays(s, t, k, e); }
    forall v | v in t.workers ensures WorkerOk(t, t.workers[v]) {
      if v != w { BystanderOk(s, t, k, s.workers[v]); }
    }
  }

  lemma {:induction false} DispatchedIsReserved(s: State, k: Key)
    requires Transport(s)
    ensures k in s.dispatches ==> k in s.reserved
  {
    if k in s.dispatches {
      var j :| 0 <= j < |s.dispatches| && s.dispatches[j] == k;
      assert Warranted(s, j);
    }
  }

  lemma {:induction false} OwnedIsReserved(s: State, w: Id)
    requires Inv(s) && w in s.workers && Owns(s.workers[w])
    ensures KeyFor(s.workers[w].env) in s.reserved
  {
    assert WorkerOk(s, s.workers[w]);
    DispatchedIsReserved(s, KeyFor(s.workers[w].env));
  }

  lemma {:induction false} ReserveKeeps(s: State, w: Id, withinBudget: bool)
    requires Inv(s)
    ensures Inv(Next(s, Reserve(w, withinBudget)))
  {
    var t := Next(s, Reserve(w, withinBudget));
    if w in s.workers && s.workers[w].Holding? {
      assert WorkerOk(s, s.workers[w]);
      var k := KeyFor(s.workers[w].env);
      if withinBudget && k !in s.reserved {
        DispatchedIsReserved(s, k);
        forall v | v in s.workers && v != w && Owns(s.workers[v]) ensures KeyFor(s.workers[v].env) != k {
          OwnedIsReserved(s, v);
        }
        OneWorkerProgresses(s, t, w, k);
        MoreReserved(s, t);
      } else {
        BudgetRefusalKeeps(s, w);
      }
    }
  }

  lemma {:induction false} BudgetRefusalKeeps(s: State, w: Id)
    requires Inv(s) && w in s.workers && s.workers[w].Holding?
    ensures Inv(Goto(s, w, Failed(s.workers[w].env, BudgetExceeded)))
  {
    var t := Goto(s, w, Failed(s.workers[w].env, BudgetExceeded));
    assert WorkerOk(s, s.workers[w]);
    HistoryKeeps(s, t);
    FilesCarryOver(s, t);
    OneWorkerMoves(s, t, w);
  }

  lemma {:induction false} MoreReserved(s: State, t: State)
    requires Transport(s) && s.reserved <= t.reserved && t.dispatches == s.dispatches && t.outcomes == s.outcomes
    ensures Transport(t)
  {
    forall j | 0 <= j < |t.dispatches| ensures Warranted(t, j) { assert Warranted(s, j); }
  }

  lemma {:induction false} PostKeeps(s: State, w: Id)
    requires Inv(s)
    ensures Inv(Next(s, Post(w)))
  {
    var t := Next(s, Post(w));
    if w in s.workers && s.workers[w].Admitted? {
      assert WorkerOk(s, s.workers[w]);
      var k := KeyFor(s.workers[w].env);
      FirstIsDispatched(s, k);
      MoreDispatched(s, t, k);
      OneWorkerProgresses(s, t, w, k);
    }
  }

  /** A second attempt's envelope is justified only by a dispatched first attempt. */
  ghost predicate MayDispatch(s: State, k: Key) {
    k.attempt == 1 || (
      k.attempt == 2 && Key(k.request, 1) in s.dispatches
      && Key(k.request, 1) in s.outcomes && FirstFailed(s.outcomes[Key(k.request, 1)]))
  }

  lemma {:induction false} FirstIsDispatched(s: State, k: Key)
    requires Transport(s)
    requires exists e :: Justified(s, e) && KeyFor(e) == k
    ensures MayDispatch(s, k)
  {
  }

  lemma {:induction false} MoreDispatched(s: State, t: State, k: Key)
    requires Transport(s) && t.reserved == s.reserved && t.dispatches == s.dispatches + [k] && t.outcomes == s.outcomes
    requires k in s.reserved && k !in s.dispatches && MayDispatch(s, k)
    ensures Transport(t)
  {
    forall j | 0 <= j < |t.dispatches| ensures Warranted(t, j) {
      if j < |s.dispatches| {
        assert Warranted(s, j) && t.dispatches[..j] == s.dispatches[..j];
      } else {
        assert t.dispatches[..j] == s.dispatches;
      }
    }
  }

  lemma {:induction false} ReturnKeeps(s: State, w: Id, outcome: Outcome)
    requires Inv(s)
    ensures Inv(Next(s, Return(w, outcome)))
  {
    var t := Next(s, Return(w, outcome));
    if w in s.workers && s.workers[w].Posted? {
      assert WorkerOk(s, s.workers[w]);
      var k := KeyFor(s.workers[w].env);
      MoreOutcomes(s, t, k);
      JustifiedStays(s, t, k, s.workers[w].env);
      OneWorkerProgresses(s, t, w, k);
    }
  }

  lemma {:induction false} MoreOutcomes(s: State, t: State, k: Key)
    requires Transport(s) && GrowsAt(s, t, k) && t.dispatches == s.dispatches && k in s.dispatches
    ensures Transport(t)
  {
    forall j | 0 <= j < |t.dispatches| ensures Warranted(t, j) { assert Warranted(s, j); }
  }

  lemma {:induction false} StepKeepsInv(s: State, step: Step)
    requires Inv(s)
    ensures Inv(Next(s, step))
  {
    match step
    case Reserve(w, withinBudget) => ReserveKeeps(s, w, withinBudget);
    case Post(w) => PostKeeps(s, w);
    case Return(w, outcome) => ReturnKeeps(s, w, outcome);
    case Rewrite(w) => RewriteKeeps(s, w);
    case Rename(w, r) => RenameKeeps(s, w, r);
    case RenameBack(w) => RenameBackKeeps(s, w);
    case ReadClaim(w, now) => ReadClaimKeeps(s, w, now);
    case Refuse(w, code) => RefuseKeeps(s, w, code);
    case Destroy(_) => LeavingKeeps(s, step);
    case Crash(_) => LeavingKeeps(s, step);
    case _ => FileStepsKeep(s, step);
  }

  lemma {:induction false} ReachableInv(steps: seq<Step>)
    ensures Inv(Run(INITIAL, steps))
  {
    if steps != [] {
      ReachableInv(steps[..|steps| - 1]);
      StepKeepsInv(Run(INITIAL, steps[..|steps| - 1]), steps[|steps| - 1]);
    }
  }

  // ----- Theorems over every run -----

  /** No attempt of a request ever reaches the transport twice. */
  lemma {:induction false} EachAttemptAtMostOnce(steps: seq<Step>)
    ensures Distinct(Run(INITIAL, steps).dispatches)
    ensures forall k :: k in Run(INITIAL, steps).dispatches ==> k.attempt in {1, 2} && k in Run(INITIAL, steps).reserved
  {
    ReachableInv(steps);
    var s := Run(INITIAL, steps);
    forall k | k in s.dispatches ensures k.attempt in {1, 2} && k in s.reserved {
      var j :| 0 <= j < |s.dispatches| && s.dispatches[j] == k;
      assert Warranted(s, j);
    }
  }

  /** The failures after which one more attempt is allowed. */
  predicate Transient(o: Outcome) {
    o == FailedWith(Timeout) || o == FailedWith(Quota) || o == FailedWith(ProviderUnavailable) || o == FailedWith(Network)
  }

  /**
   * Two dispatches of one request are its first and second attempt, in that order, and the first
   * failed retryably; so nothing is ever dispatched after a delivered answer, and never a third time.
   */
  lemma {:induction false} RetryOnlyAfterRetryableFailure(steps: seq<Step>, i: nat, j: nat)
    requires i < j < |Run(INITIAL, steps).dispatches|
    requires Run(INITIAL, steps).dispatches[i].request == Run(INITIAL, steps).dispatches[j].request
    ensures var s := Run(INITIAL, steps);
      && s.dispatches[i].attempt == 1 && s.dispatches[j].attempt == 2
      && s.dispatches[i] in s.outcomes && Transient(s.outcomes[s.dispatches[i]])
  {
    ReachableInv(steps);
    var s := Run(INITIAL, steps);
    assert Warranted(s, i) && Warranted(s, j);
    assert s.dispatches[i] != s.dispatches[j];
  }

  lemma {:induction false} NoThirdDispatch(steps: seq<Step>, i: nat, j: nat, k: nat)
    requires i < j < k < |Run(INITIAL, steps).dispatches|
    ensures var d := Run(INITIAL, steps).dispatches; !(d[i].request == d[j].request == d[k].request)
  {
    var d := Run(INITIAL, steps).dispatches;
    if d[i].request == d[j].request == d[k].request {
      RetryOnlyAfterRetryableFailure(steps, i, j);
      RetryOnlyAfterRetryableFailure(steps, j, k);
    }
  }

  // ----- The provider and its envelope store, one worker at a time -----

  lemma {:induction false} RunAppend(s: State, first: seq<Step>, second: seq<Step>)
    ensures Run(s, first + second) == Run(Run(s, first), second)
  {
    if second == [] {
      assert first + second == first;
    } else {
      RunAppend(s, first, second[..|second| - 1]);
      assert (first + second)[..|first + second| - 1] == first + second[..|second| - 1];
    }
  }

  lemma {:induction false} RunOne(s: State, step: Step)
    ensures Run(s, [step]) == Next(s, step)
  {
    assert Run(s, [step][..0]) == s;
  }

  lemma {:induction false} RunTwo(s: State, first: Step, second: Step)
    ensures Run(s, [first, second]) == Next(Next(s, first), second)
  {
    RunOne(s, first);
    RunOne(Next(s, first), second);
    RunAppend(s, [first], [second]);
  }

  lemma {:induction false} RunKeepsInv(s: State, steps: seq<Step>)
    requires Inv(s)
    ensures Inv(Run(s, steps))
  {
    if steps != [] {
      RunKeepsInv(s, steps[..|steps| - 1]);
      StepKeepsInv(Run(s, steps[..|steps| - 1]), steps[|steps| - 1]);
    }
  }

  datatype Answer = Response | Failure(code: Code)

  /** What the world outside the store decides during one call. */
  datatype World = World(authorised: bool, withinBudget: bool, credential: bool, reply: Outcome, invalid: Option<Code>)
  {
    predicate Possible() { invalid.Some? ==> !IsRetryable(invalid.value) }
  }

  function Finished(env: Envelope, answer: Answer): Pc {
    if answer.Response? then Answered(env) else Failed(env, answer.code)
  }

  /** The protocol's moves when worker 0 is alone. */
  lemma {:induction false} Alone(s: State, a: Pc, b: Pc)
    requires s.workers == map[0 := a]
    ensures Goto(s, 0, b) == s.(workers := map[0 := b])
    ensures Leave(s, 0) == s.(workers := map[])
  {
    assert map[0 := a][0 := b] == map[0 := b];
    assert map[0 := a] - {0} == map[];
  }

  lemma {:induction false} RefuseAlone(s: State, env: Envelope, a: Pc, code: Code)
    requires s.workers == map[0 := a] && a in {Holding(env), Admitted(env), Answered(env)} && !IsRetryable(code)
    ensures Next(s, Refuse(0, code)) == s.(workers := map[0 := Failed(env, code)])
  {
    Alone(s, a, Failed(env, code));
  }

  lemma {:induction false} ReserveAlone(s: State, env: Envelope, withinBudget: bool)
    requires s.workers == map[0 := Holding(env)]
    ensures Next(s, Reserve(0, withinBudget)) == if withinBudget && KeyFor(env) !in s.reserved
      then s.(reserved := s.reserved + {KeyFor(env)}, workers := map[0 := Admitted(env)])
      else s.(workers := map[0 := Failed(env, BudgetExceeded)])
  {
    Alone(s, Holding(env), Failed(env, BudgetExceeded));
    Alone(s.(reserved := s.reserved + {KeyFor(env)}), Holding(env), Admitted(env));
  }

  lemma {:induction false} TransportAlone(s: State, env: Envelope, reply: Outcome)
    requires s.workers == map[0 := Admitted(env)]
    ensures Run(s, [Post(0), Return(0, reply)])
      == s.(dispatches := s.dispatches + [KeyFor(env)], outcomes := s.outcomes[KeyFor(env) := reply],
            workers := map[0 := if reply.Delivered? then Answered(env) else Failed(env, reply.code)])
  {
    RunTwo(s, Post(0), Return(0, reply));
    var posted := s.(dispatches := s.dispatches + [KeyFor(env)]);
    Alone(posted, Admitted(env), Posted(env));
    var recorded := posted.(outcomes := s.outcomes[KeyFor(env) := reply], workers := map[0 := Posted(env)]);
    Alone(recorded, Posted(env), if reply.Delivered? then Answered(env) else Failed(env, reply.code));
  }

  lemma {:induction false} PutRemove<V>(m: map<Id, V>, r: Id, v: V)
    requires r !in m
    ensures m[r := v] - {r} == m
  {
  }

  predicate Usable(e: Envelope, r: Id, now: Instant) { e.request == r && now < e.expiresAt && e.attempts < 2 }

  lemma {:induction false} ClaimAlone(s: State, r: Id, now: Instant)
    requires s.workers == map[] && r in s.active && r !in s.claimed
    ensures Run(s, [Rename(0, r), ReadClaim(0, now)]) == if Usable(s.active[r], r, now)
      then s.(active := s.active - {r}, claimed := s.claimed[r := s.active[r]], workers := map[0 := Holding(s.active[r])])
      else s.(active := s.active - {r})
  {
    RunTwo(s, Rename(0, r), ReadClaim(0, now));
    var moved := s.(active := s.active - {r}, claimed := s.claimed[r := s.active[r]], workers := map[0 := Renamed(r)]);
    assert Next(s, Rename(0, r)) == moved;
    PutRemove(s.claimed, r, s.active[r]);
    Alone(moved, Renamed(r), Holding(s.active[r]));
    Alone(moved.(claimed := s.claimed), Renamed(r), Renamed(r));
  }

  lemma {:induction false} RestoreAlone(s: State, env: Envelope, code: Code)
    requires s.workers == map[0 := Failed(env, code)] && Restores(env, code)
    requires env.request in s.claimed && env.request !in s.active
    ensures Run(s, [Rewrite(0), RenameBack(0)]) == s.(
      active := s.active[env.request := Retried(env, code)], claimed := s.claimed - {env.request}, workers := map[])
  {
    RunTwo(s, Rewrite(0), RenameBack(0));
    var rewritten := s.(claimed := s.claimed[env.request := Retried(env, code)]);
    Alone(rewritten, Failed(env, code), Restoring(env.request));
    assert rewritten.claimed - {env.request} == s.claimed - {env.request};
    Alone(rewritten.(active := s.active[env.request := Retried(env, code)], claimed := s.claimed - {env.request},
                     workers := map[0 := Restoring(env.request)]), Restoring(env.request), Restoring(env.request));
  }

  lemma {:induction false} DestroyAlone(s: State, env: Envelope, answer: Answer)
    requires s.workers == map[0 := Finished(env, answer)] && !(answer.Failure? && Restores(env, answer.code))
    ensures Run(s, [Destroy(0)]) == s.(claimed := s.claimed - {env.request}, workers := map[])
  {
    RunOne(s, Destroy(0));
    Alone(s.(claimed := s.claimed - {env.request}), Finished(env, answer), Finished(env, answer));
  }

  /** One call, by what it met: its answer, its reservation, its dispatch and the envelope it leaves for a retry. */
  predicate Called(s: State, t: State, r: Id, now: Instant, world: World, answer: Answer) {
    if r in s.claimed || r !in s.active || s.active[r].expiresAt <= now then
      && answer == Failure(InvalidAuthority) && (r in t.active <==> r in s.active && r in s.claimed)
      && t.reserved == s.reserved && t.outcomes == s.outcomes && t.dispatches == s.dispatches
    else
      var env, key := s.active[r], Key(r, s.active[r].attempts + 1);
      var admitted := world.authorised && world.withinBudget && key !in s.reserved;
      var sent := admitted && world.credential;
      && t.reserved == (if admitted then s.reserved + {key} else s.reserved)
      && t.dispatches == (if sent then s.dispatches + [key] else s.dispatches)
      && t.outcomes == (if sent then s.outcomes[key := world.reply] else s.outcomes)
      && (answer == Response <==> sent && world.reply == Delivered && world.invalid == None)
      && (!world.authorised ==> answer == Failure(InvalidAuthority))
      && (world.authorised && !admitted ==> answer == Failure(BudgetExceeded))
      && (admitted && !sent ==> answer == Failure(MissingCredential))
      && (sent && world.reply.FailedWith? ==> answer == Failure(world.reply.code))
      && (sent && world.reply == Delivered && world.invalid.Some? ==> answer == Failure(world.invalid.value))
      && (r in t.active <==> sent && env.attempts == 0 && Transient(world.reply))
      && (r in t.active ==> t.active[r] == Envelope(r, 1, Some(world.reply.code), env.expiresAt, env.digest))
  }

  /** Whether the call reaches the transport. */
  predicate SendsWith(reserved: set<Key>, env: Envelope, world: World) {
    world.authorised && world.withinBudget && KeyFor(env) !in reserved && world.credential
  }

  function AnswerWith(reserved: set<Key>, env: Envelope, world: World): Answer {
    if !world.authorised then Failure(InvalidAuthority)
    else if !world.withinBudget || KeyFor(env) in reserved then Failure(BudgetExceeded)
    else if !world.credential then Failure(MissingCredential)
    else if world.reply.FailedWith? then Failure(world.reply.code)
    else if world.invalid.Some? then Failure(world.invalid.value) else Response
  }

  /** An envelope taken aside, sent as far as the world lets it, and settled. */
  lemma {:induction false} AttemptIsCalled(s: State, t: State, r: Id, now: Instant, world: World)
    requires r !in s.claimed && r in s.active && now < s.active[r].expiresAt && s.active[r].request == r && world.Possible()
    requires 0 <= s.active[r].attempts
    requires var env, answer := s.active[r], AnswerWith(s.reserved, s.active[r], world);
      && t.dispatches == s.dispatches + (if SendsWith(s.reserved, env, world) then [KeyFor(env)] else [])
      && t.reserved == (if world.authorised && world.withinBudget then s.reserved + {KeyFor(env)} else s.reserved)
      && t.outcomes == (if SendsWith(s.reserved, env, world) then s.outcomes[KeyFor(env) := world.reply] else s.outcomes)
      && t.active == (if answer.Failure? && Restores(env, answer.code)
                      then (s.active - {r})[r := Retried(env, answer.code)] else s.active - {r})
    ensures Called(s, t, r, now, world, AnswerWith(s.reserved, s.active[r], world))
  {
  }

  class ProtectedProvider {
    var active: map<Id, Envelope>
    var claimed: map<Id, Envelope>
    var reserved: set<Key>
    var dispatches: seq<Key>
    var outcomes: map<Key, Outcome>

    /** The protocol state in which this call's worker is at `pc`. */
    function Snapshot(pc: Option<Pc>): State
      reads this
    {
      State(active, claimed, reserved, dispatches, outcomes, if pc.Some? then map[0 := pc.value] else map[])
    }

    ghost predicate Valid()
      reads this
    {
      Inv(Snapshot(None))
    }

    constructor ()
      ensures Valid() && Snapshot(None) == INITIAL
    {
      active, claimed, reserved, dispatches, outcomes := map[], map[], {}, [], map[];
    }

    /** Any valid envelope is filed; the provider only builds envelopes without attempts. */
    method Persist(env: Envelope) returns (ok: bool)
      requires Valid() && env.Valid()
      modifies this
      ensures ok <==> old(env.request !in active && env.request !in claimed)
      ensures Snapshot(None) == if ok then old(Snapshot(None).(active := active[env.request := env])) else old(Snapshot(None))
      ensures ok && env.attempts == 0 ==> Snapshot(None) == Next(old(Snapshot(None)), Step.Persist(env))
      ensures !ok || env.attempts == 0 ==> Valid()
    {
      ok := env.request !in active && env.request !in claimed;
      StepKeepsInv(Snapshot(None), Step.Persist(env));
      if ok { active := active[env.request := env]; }
    }

    method Cancel(r: Id)
      requires Valid()
      modifies this
      ensures r !in active && r !in claimed
      ensures Valid() && Snapshot(None) == Run(old(Snapshot(None)), [RemoveActive(r), RemoveClaimed(r)])
    {
      RunTwo(Snapshot(None), RemoveActive(r), RemoveClaimed(r));
      RunKeepsInv(Snapshot(None), [RemoveActive(r), RemoveClaimed(r)]);
      active := active - {r};
      claimed := claimed - {r};
    }

    /** Move the active envelope aside and check it; an unusable one is destroyed. */
    method Claim(r: Id, now: Instant) returns (env: Option<Envelope>)
      requires Valid()
      modifies this
      ensures env.Some? <==> old(r !in claimed && r in active && now < active[r].expiresAt)
      ensures env.Some? ==> env.value == old(active[r]) && env.value.request == r
      ensures reserved == old(reserved) && dispatches == old(dispatches) && outcomes == old(outcomes)
      ensures active == if old(r in claimed) then old(active) else old(active) - {r}
      ensures claimed == if env.Some? then old(claimed)[r := env.value] else old(claimed)
      ensures Snapshot(if env.Some? then Some(Holding(env.value)) else None)
        == if old(r in claimed || r !in active) then old(Snapshot(None)) else Run(old(Snapshot(None)), [Rename(0, r), ReadClaim(0, now)])
    {
      if r in claimed || r !in active { return None; }
      ClaimAlone(Snapshot(None), r, now);
      PutRemove(claimed, r, active[r]);
      claimed := claimed[r := active[r]];
      active := active - {r};
      if claimed[r].request != r || claimed[r].expiresAt <= now || claimed[r].attempts >= 2 {
        claimed := claimed - {r};
        return None;
      }
      return Some(claimed[r]);
    }

    /** The part of _generate that reserves, posts and reads the reply. */
    method Send(env: Envelope, world: World) returns (answer: Answer, ghost trace: seq<Step>)
      requires world.Possible()
      modifies this
      ensures Snapshot(Some(Finished(env, answer))) == Run(old(Snapshot(Some(Holding(env)))), trace)
      ensures active == old(active) && claimed == old(claimed)
      ensures dispatches == old(dispatches) + if old(Sends(env, world)) then [KeyFor(env)] else []
      ensures reserved == if world.authorised && world.withinBudget then old(reserved) + {KeyFor(env)} else old(reserved)
      ensures outcomes == if old(Sends(env, world)) then old(outcomes)[KeyFor(env) := world.reply] else old(outcomes)
      ensures answer == old(Expected(env, world))
    {
      ghost var start := Snapshot(Some(Holding(env)));
      if !world.authorised {
        RunOne(start, Refuse(0, InvalidAuthority));
        RefuseAlone(start, env, Holding(env), InvalidAuthority);
        return Failure(InvalidAuthority), [Refuse(0, InvalidAuthority)];
      }
      ghost var reserve := Reserve(0, world.withinBudget);
      ReserveAlone(start, env, world.withinBudget);
      if !world.withinBudget || KeyFor(env) in reserved {
        RunOne(start, reserve);
        return Failure(BudgetExceeded), [reserve];
      }
      reserved := reserved + {KeyFor(env)};
      if !world.credential {
        RunTwo(start, reserve, Refuse(0, MissingCredential));
        RefuseAlone(Snapshot(Some(Admitted(env))), env, Admitted(env), MissingCredential);
        return Failure(MissingCredential), [reserve, Refuse(0, MissingCredential)];
      }
      answer, trace := Transport(env, world);
      RunOne(start, reserve);
      RunAppend(start, [reserve], trace);
      trace := [reserve] + trace;
    }

    method Transport(env: Envelope, world: World) returns (answer: Answer, ghost trace: seq<Step>)
      requires world.Possible()
      modifies this`dispatches, this`outcomes
      ensures Snapshot(Some(Finished(env, answer))) == Run(old(Snapshot(Some(Admitted(env)))), trace)
      ensures dispatches == old(dispatches) + [KeyFor(env)]
      ensures outcomes == old(outcomes)[KeyFor(env) := world.reply]
      ensures answer == match world.reply
        case FailedWith(code) => Failure(code)
        case Delivered => if world.invalid.Some? then Failure(world.invalid.value) else Response
    {
      ghost var start := Snapshot(Some(Admitted(env)));
      trace := [Post(0), Return(0, world.reply)];
      TransportAlone(start, env, world.reply);
      dispatches := dispatches + [KeyFor(env)];
      outcomes := outcomes[KeyFor(env) := world.reply];
      if world.reply.FailedWith? { return Failure(world.reply.code), trace; }
      if world.invalid.None? { return Response, trace; }
      RunAppend(start, trace, [Refuse(0, world.invalid.value)]);
      RunOne(Run(start, trace), Refuse(0, world.invalid.value));
      RefuseAlone(Snapshot(Some(Answered(env))), env, Answered(env), world.invalid.value);
      return Failure(world.invalid.value), trace + [Refuse(0, world.invalid.value)];
    }

    /** Whether the call reaches the transport. */
    predicate Sends(env: Envelope, world: World)
      reads this
    {
      SendsWith(reserved, env, world)
    }

    function Expected(env: Envelope, world: World): Answer
      reads this
    {
      AnswerWith(reserved, env, world)
    }

    /** Restore the envelope for one retry, or destroy it. */
    method Settle(env: Envelope, answer: Answer) returns (ghost trace: seq<Step>)
      requires env.request in claimed && env.request !in active
      modifies this`active, this`claimed
      ensures Snapshot(None) == Run(old(Snapshot(Some(Finished(env, answer)))), trace)
      ensures claimed == old(claimed) - {env.request}
      ensures active == if answer.Failure? && Restores(env, answer.code)
        then old(active)[env.request := Retried(env, answer.code)] else old(active)
    {
      ghost var start := Snapshot(Some(Finished(env, answer)));
      if answer.Failure? && Restores(env, answer.code) {
        RestoreAlone(start, env, answer.code);
        active := active[env.request := Retried(env, answer.code)];
        claimed := claimed - {env.request};
        return [Rewrite(0), RenameBack(0)];
      }
      DestroyAlone(start, env, answer);
      claimed := claimed - {env.request};
      return [Destroy(0)];
    }

    /**
     * One protected call. It reaches the transport exactly when an unclaimed, unexpired envelope is
     * there, the approval matches, and the ledger admits this attempt for the first time. Afterwards
     * the envelope is gone, unless the first attempt failed retryably: then it waits with one attempt.
     */
    method GenerateProtected(r: Id, now: Instant, world: World) returns (answer: Answer, ghost trace: seq<Step>)
      requires Valid() && world.Possible()
      modifies this
      ensures Valid() && Snapshot(None) == Run(old(Snapshot(None)), trace)
      ensures claimed == old(claimed) && (old(r in claimed) ==> active == old(active))
      ensures forall q :: q != r ==> (q in active <==> q in old(active)) && (q in active ==> active[q] == old(active)[q])
      ensures Called(old(Snapshot(None)), Snapshot(None), r, now, world, answer)
    {
      ghost var start := Snapshot(None);
      if r !in claimed && r in active { PutRemove(claimed, r, active[r]); }
      var env := Claim(r, now);
      if env.None? {
        trace := if old(r in claimed || r !in active) then [] else [Rename(0, r), ReadClaim(0, now)];
        RunKeepsInv(start, trace);
        return Failure(InvalidAuthority), trace;
      }
      ghost var more;
      answer, more := Attempt(env.value, world);
      trace := [Rename(0, r), ReadClaim(0, now)] + more;
      RunAppend(start, [Rename(0, r), ReadClaim(0, now)], more);
      RunKeepsInv(start, trace);
      AttemptIsCalled(start, Snapshot(None), r, now, world);
    }

    /** Send a claimed envelope, then restore or destroy it. */
    method Attempt(env: Envelope, world: World) returns (answer: Answer, ghost trace: seq<Step>)
      requires world.Possible() && env.request in claimed && env.request !in active
      modifies this
      ensures Snapshot(None) == Run(old(Snapshot(Some(Holding(env)))), trace)
      ensures dispatches == old(dispatches) + if old(Sends(env, world)) then [KeyFor(env)] else []
      ensures reserved == if world.authorised && world.withinBudget then old(reserved) + {KeyFor(env)} else old(reserved)
      ensures outcomes == if old(Sends(env, world)) then old(outcomes)[KeyFor(env) := world.reply] else old(outcomes)
      ensures answer == old(Expected(env, world))
      ensures claimed == old(claimed) - {env.request}
      ensures active == if answer.Failure? && Restores(env, answer.code)
        then old(active)[env.request := Retried(env, answer.code)] else old(active)
    {
      ghost var start := Snapshot(Some(Holding(env)));
      ghost var more;
      answer, trace := Send(env, world);
      more := Settle(env, answer);
      RunAppend(start, trace, more);
      trace := trace + more;
    }

    predicate Claims(r: Id, now: Instant)
      reads this
    {
      r !in claimed && r in active && now < active[r].expiresAt
    }
  }
}
