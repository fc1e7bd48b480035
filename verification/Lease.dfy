/** Distributed fill leases: a token store with expiry, the fill attempts of every
    process, and each attempt's renewal goroutine and worker task. */
module Lease {
  type Id = nat

  /** A stored token is live until the clock reaches its expiry. An attempt's
      number is its token: each attempt draws a fresh one. */
  datatype Entry = Entry(token: Id, expires: nat)

  type Tokens = map<string, Entry>

  predicate Live(tokens: Tokens, clock: nat, key: string) {
    key in tokens && clock < tokens[key].expires
  }

  predicate Holds(tokens: Tokens, clock: nat, key: string, token: Id) {
    Live(tokens, clock, key) && tokens[key].token == token
  }

  /** `SET key token NX PX ttl` */
  function AcquireToken(tokens: Tokens, clock: nat, key: string, token: Id, ttl: nat): Tokens {
    if Live(tokens, clock, key) then tokens else tokens[key := Entry(token, clock + ttl)]
  }

  /** Delete the key if it holds this token. */
  function ReleaseToken(tokens: Tokens, clock: nat, key: string, token: Id): Tokens {
    if Holds(tokens, clock, key, token) then tokens - {key} else tokens
  }

  /** Renew the expiry if the key holds this token. */
  function ExtendToken(tokens: Tokens, clock: nat, key: string, token: Id, ttl: nat): Tokens {
    if Holds(tokens, clock, key, token) then tokens[key := Entry(token, clock + ttl)] else tokens
  }

  /** Only the holder of a live token can end it or move its expiry. */
  lemma ForeignTokenHarmless(tokens: Tokens, clock: nat, key: string, holder: Id, other: Id, ttl: nat)
    requires Holds(tokens, clock, key, holder) && other != holder
    ensures AcquireToken(tokens, clock, key, other, ttl) == tokens
    ensures ReleaseToken(tokens, clock, key, other) == tokens
    ensures ExtendToken(tokens, clock, key, other, ttl) == tokens
  {
  }

  /** The renewal goroutine. */
  datatype Routine =
    | Off
    | Timer
    | Submitting       // about to look at its context
    | Ready            // the context was live; about to hand over the renewal
    | Backoff          // the pool was full
    | Awaiting         // the renewal was admitted; waiting for it to finish
    | Exited

  /** The worker task that renews once. */
  datatype Task = NoTask | Queued | Running

  datatype Phase =
    | Starting
    | Refused                        // another process has the lease
    | Filling(leased: bool)
    | Stopping                       // the fill returned; waiting for the routine
    | Releasing
    | Released(gone: bool)           // whether the release reached the store
    | Returned                       // after a fill without a lease

  /** `lost`: the lease expired. `lockerFailed`: acquiring it reported an error.
      `lateAcquire`, `lateExtend` and `lateRelease`: a command whose reply was lost
      may still reach the store. `canceled` is the renewal's context. */
  datatype Attempt = Attempt(
    key: string, locker: bool, phase: Phase, routine: Routine, task: Task, canceled: bool,
    lost: bool, lockerFailed: bool, lateAcquire: bool, lateExtend: bool, lateRelease: bool)

  datatype State = State(clock: nat, tokens: Tokens, attempts: seq<Attempt>, ttl: nat)

  /** What became of a command: its effect and its reply. */
  datatype Delivery = Applied | NotApplied | Delayed

  datatype Step =
    | Tick(elapsed: nat)
    | CancelContext(a: Id)
    | Acquire(a: Id, failed: bool, delivery: Delivery, scheduler: bool)
    | FinishFill(a: Id)
    | Stop(a: Id)
    | Release(a: Id, delivery: Delivery)
    | Fire(a: Id, expired: bool)
    | Look(a: Id)
    | Submit(a: Id, accepted: bool, overload: bool)
    | Retry(a: Id, waited: bool)
    | StartTask(a: Id)
    | Extend(a: Id, delivery: Delivery)
    | Collect(a: Id)
    | LateAcquire(a: Id)
    | LateExtend(a: Id)
    | LateRelease(a: Id)

  predicate Enabled(s: State, step: Step) {
    step.Tick? || (step.a < |s.attempts| &&
      var q := s.attempts[step.a];
      match step
      case CancelContext(_) => true
      case Acquire(_, failed, delivery, _) => q.phase.Starting? && (!failed ==> delivery.Applied?)
      case FinishFill(_) => q.phase.Filling?
      case Stop(_) => q.phase.Stopping? && (q.routine.Off? || q.routine.Exited?)
      case Release(_, _) => q.phase.Releasing?
      case Fire(_, expired) => q.routine.Timer? && (!expired ==> q.canceled)
      case Look(_) => q.routine.Submitting?
      case Submit(_, _, _) => q.routine.Ready?
      case Retry(_, waited) => q.routine.Backoff? && (!waited ==> q.canceled)
      case StartTask(_) => q.task.Queued?
      case Extend(_, _) => q.task.Running?
      case Collect(_) => q.routine.Awaiting? && q.task.NoTask?
      case LateAcquire(_) => q.lateAcquire
      case LateExtend(_) => q.lateExtend
      case LateRelease(_) => q.lateRelease)
  }

  /** An attempt whose live token the passing time ends has lost its lease. */
  function Aged(s: State, clock: nat, a: Id): Attempt
    requires a < |s.attempts|
  {
    var q := s.attempts[a];
    q.(lost := q.lost || (Holds(s.tokens, s.clock, q.key, a) && !Live(s.tokens, clock, q.key)))
  }

  /** `acquireFillLease` and the start of the renewal; `free` is whether no live
      token is at the key. */
  function AfterAcquire(q: Attempt, free: bool, failed: bool, delivery: Delivery, renews: bool): (next: Attempt)
    ensures next.key == q.key && next.lost == q.lost && next.canceled == q.canceled
  {
    if !UsesLocker(q) then q.(phase := Filling(false))
    else if failed then q.(phase := Filling(false), lockerFailed := true, lateAcquire := delivery.Delayed?)
    else if !free then q.(phase := Refused)
    else q.(phase := Filling(true), routine := if renews then Timer else Off)
  }

  predicate UsesLocker(q: Attempt) { q.locker && q.key != "" }

  /** The steps of the renewal goroutine and its worker task. */
  predicate Renews(step: Step) {
    step.Fire? || step.Look? || step.Submit? || step.Retry? || step.StartTask? || step.Extend? || step.Collect?
  }

  function RenewalAfter(q: Attempt, step: Step): (next: Attempt)
    requires Renews(step)
    ensures next.key == q.key && next.lost == q.lost && next.canceled == q.canceled
  {
    match step
    case Fire(_, expired) => q.(routine := if expired then Submitting else Exited)
    case Look(_) => q.(routine := if q.canceled then Exited else Ready)
    case Submit(_, accepted, overload) =>
      if accepted then q.(routine := Awaiting, task := Queued) else q.(routine := if overload then Backoff else Exited)
    case Retry(_, waited) => q.(routine := if waited then Submitting else Exited)
    case StartTask(_) => q.(task := if q.canceled then NoTask else Running)
    case Extend(_, delivery) => q.(task := NoTask, lateExtend := q.lateExtend || delivery.Delayed?)
    case Collect(_) => q.(routine := if q.canceled then Exited else Timer)
  }

  /** What a step does to its attempt. */
  function AttemptAfter(s: State, step: Step): (next: Attempt)
    requires !step.Tick? && Enabled(s, step)
    ensures next.key == s.attempts[step.a].key && next.lost == s.attempts[step.a].lost
  {
    var q := s.attempts[step.a];
    if Renews(step) then RenewalAfter(q, step)
    else
      match step
      case CancelContext(_) => q.(canceled := true)
      case Acquire(_, failed, delivery, scheduler) =>
        AfterAcquire(q, !Live(s.tokens, s.clock, q.key), failed, delivery, scheduler && s.ttl / 2 > 0)
      case FinishFill(_) => if q.phase.leased then q.(phase := Stopping, canceled := true) else q.(phase := Returned)
      case Stop(_) => q.(phase := Releasing)
      case Release(_, delivery) => q.(phase := Released(delivery.Applied?), lateRelease := delivery.Delayed?)
      case LateAcquire(_) => q.(lateAcquire := false)
      case LateExtend(_) => q.(lateExtend := false)
      case LateRelease(_) => q.(lateRelease := false)
  }

  /** What a step does to the store. */
  function TokensAfter(s: State, step: Step): Tokens
    requires !step.Tick? && Enabled(s, step)
  {
    var q := s.attempts[step.a];
    match step
    case Acquire(_, _, Applied, _) =>
      if UsesLocker(q) then AcquireToken(s.tokens, s.clock, q.key, step.a, s.ttl) else s.tokens
    case Release(_, Applied) => ReleaseToken(s.tokens, s.clock, q.key, step.a)
    case Extend(_, Applied) => ExtendToken(s.tokens, s.clock, q.key, step.a, s.ttl)
    case LateAcquire(_) => AcquireToken(s.tokens, s.clock, q.key, step.a, s.ttl)
    case LateExtend(_) => ExtendToken(s.tokens, s.clock, q.key, step.a, s.ttl)
    case LateRelease(_) => ReleaseToken(s.tokens, s.clock, q.key, step.a)
    case _ => s.tokens
  }

  function Do(s: State, step: Step): State
    requires Enabled(s, step)
  {
    if step.Tick? then
      var clock := s.clock + step.elapsed;
      s.(clock := clock, attempts := seq(|s.attempts|, a requires 0 <= a < |s.attempts| => Aged(s, clock, a)))
    else
      s.(tokens := TokensAfter(s, step), attempts := s.attempts[step.a := AttemptAfter(s, step)])
  }

  predicate Fresh(q: Attempt) {
    && q.phase.Starting? && q.routine.Off? && q.task.NoTask? && !q.lost && !q.lockerFailed
    && !q.lateAcquire && !q.lateExtend && !q.lateRelease
  }

  predicate Init(s: State) {
    s.tokens == map[] && s.ttl > 0 && forall a :: 0 <= a < |s.attempts| ==> Fresh(s.attempts[a])
  }

  // ---------------------------------------------------------------------------
  // The invariant

  predicate Leased(q: Attempt) {
    q.phase == Filling(true) || q.phase.Stopping? || q.phase.Releasing?
  }

  /** The store never holds the attempt's token. */
  ghost predicate Absent(s: State, a: Id) {
    forall k :: k in s.tokens ==> s.tokens[k].token != a
  }

  ghost predicate AttemptOk(s: State, a: Id)
    requires a < |s.attempts|
  {
    var q := s.attempts[a];
    && (forall k :: k in s.tokens && s.tokens[k].token == a ==> k == q.key)
    && (q.phase.Starting? ==> Fresh(q) && Absent(s, a))
    && (q.phase.Refused? ==> Absent(s, a))
    && (Leased(q) && !q.lost ==> Holds(s.tokens, s.clock, q.key, a))
    && (q.phase.Releasing? || q.phase.Released? ==> (q.routine.Off? || q.routine.Exited?) && q.task.NoTask?)
    && (q.phase == Released(true) ==> !Holds(s.tokens, s.clock, q.key, a))
    && (!q.task.NoTask? ==> q.routine.Awaiting?)
    && (!q.routine.Off? ==> Leased(q) || q.phase.Released?)
    && (q.phase == Filling(false) ==> !q.locker || q.key == "" || q.lockerFailed)
    && (q.phase.Stopping? ==> q.canceled)
    && (q.lateAcquire ==> q.lockerFailed) && (q.lateRelease ==> q.phase == Released(false))
    && (q.lockerFailed ==> q.phase == Filling(false) || q.phase.Returned?)
  }

  /** No token outlives one term from now. */
  ghost predicate WithinTerm(s: State) {
    forall k :: k in s.tokens ==> s.tokens[k].expires <= s.clock + s.ttl
  }

  ghost predicate Inv(s: State) {
    s.ttl > 0 && WithinTerm(s) && forall a: Id :: a < |s.attempts| ==> AttemptOk(s, a)
  }

  lemma TermKept(s: State, step: Step)
    requires Enabled(s, step) && WithinTerm(s)
    ensures WithinTerm(Do(s, step)) && Do(s, step).ttl == s.ttl
  {
  }

  lemma TickKeeps(s: State, step: Step, j: Id)
    requires step.Tick? && j < |s.attempts| && AttemptOk(s, j)
    ensures AttemptOk(Do(s, step), j)
  {
  }

  /** The steps that send a command to the store. */
  predicate Commands(step: Step) {
    step.Acquire? || step.LateAcquire? || step.Extend? || step.LateExtend? || step.Release? || step.LateRelease?
  }

  lemma LocalStepKeeps(s: State, step: Step)
    requires !step.Tick? && !Commands(step) && Enabled(s, step) && AttemptOk(s, step.a)
    ensures AttemptOk(Do(s, step), step.a)
  {
    assert Do(s, step).tokens == s.tokens;
  }

  lemma AcquireKeeps(s: State, step: Step)
    requires (step.Acquire? || step.LateAcquire?) && Enabled(s, step) && AttemptOk(s, step.a) && s.ttl > 0
    ensures AttemptOk(Do(s, step), step.a)
  {
  }

  lemma CommandKeeps(s: State, step: Step)
    requires (step.Release? || step.LateRelease? || step.Extend? || step.LateExtend?) && Enabled(s, step) &&
      AttemptOk(s, step.a) && s.ttl > 0
    ensures AttemptOk(Do(s, step), step.a)
  {
  }

  /** A command leaves every other attempt's live token as it was, and stores no
      token but its own. */
  ghost predicate Spares(s: State, t: State, a: Id) {
    && (forall k :: Live(s.tokens, s.clock, k) && s.tokens[k].token != a ==>
      k in t.tokens && t.tokens[k] == s.tokens[k])
    && (forall k :: k in t.tokens && t.tokens[k].token != a ==> k in s.tokens && t.tokens[k] == s.tokens[k])
  }

  lemma CommandSpares(s: State, step: Step)
    requires !step.Tick? && Enabled(s, step)
    ensures var t := Do(s, step);
      && Spares(s, t, step.a) && t.clock == s.clock && |t.attempts| == |s.attempts|
      && forall j: Id :: j < |s.attempts| && j != step.a ==> t.attempts[j] == s.attempts[j]
  {
    if !Commands(step) {
      assert Do(s, step).tokens == s.tokens;
    }
  }

  lemma OthersKeep(s: State, t: State, a: Id, j: Id)
    requires Spares(s, t, a) && t.clock == s.clock && |t.attempts| == |s.attempts|
    requires j < |s.attempts| && j != a && AttemptOk(s, j) && t.attempts[j] == s.attempts[j]
    ensures AttemptOk(t, j)
  {
  }

  lemma StepKeeps(s: State, step: Step)
    requires Inv(s) && Enabled(s, step)
    ensures Inv(Do(s, step))
  {
    var t := Do(s, step);
    TermKept(s, step);
    forall j: Id | j < |t.attempts| ensures AttemptOk(t, j) {
      if step.Tick? {
        TickKeeps(s, step, j);
      } else if j != step.a {
        CommandSpares(s, step);
        OthersKeep(s, t, step.a, j);
      } else if !Commands(step) {
        LocalStepKeeps(s, step);
      } else if step.Acquire? || step.LateAcquire? {
        AcquireKeeps(s, step);
      } else {
        CommandKeeps(s, step);
      }
    }
  }

  // ---------------------------------------------------------------------------
  // Every run

  ghost predicate Run(states: seq<State>, steps: seq<Step>) {
    && |states| == |steps| + 1 && Init(states[0])
    && forall i :: 0 <= i < |steps| ==> Enabled(states[i], steps[i]) && states[i + 1] == Do(states[i], steps[i])
  }

  lemma {:induction false} RunKeeps(states: seq<State>, steps: seq<Step>, i: nat)
    requires Run(states, steps) && i < |states|
    ensures Inv(states[i])
  {
    if i > 0 {
      RunKeeps(states, steps, i - 1);
      StepKeeps(states[i - 1], steps[i - 1]);
    }
  }

  /** Why an attempt may fill beside another: it has no lease because there is no
      locker or the locker failed, or its lease expired. */
  predicate Excused(q: Attempt) {
    !q.locker || q.lockerFailed || q.lost
  }

  /** Two attempts fill one key at once only when one of them is excused. */
  lemma FillsExclude(states: seq<State>, steps: seq<Step>, i: nat, a: Id, b: Id)
    requires Run(states, steps) && i < |states| && a < |states[i].attempts| && b < |states[i].attempts| && a != b
    requires states[i].attempts[a].phase.Filling? && states[i].attempts[b].phase.Filling?
    requires states[i].attempts[a].key == states[i].attempts[b].key != ""
    ensures Excused(states[i].attempts[a]) || Excused(states[i].attempts[b])
  {
    RunKeeps(states, steps, i);
    assert AttemptOk(states[i], a) && AttemptOk(states[i], b);
  }

  /** The renewal never extends the lease once the release has begun, and a late
      extend cannot bring a released token back. */
  lemma NoExtendAfterRelease(states: seq<State>, steps: seq<Step>, i: nat, a: Id, delivery: Delivery)
    requires Run(states, steps) && i < |states| && a < |states[i].attempts|
    requires states[i].attempts[a].phase.Releasing? || states[i].attempts[a].phase.Released?
    ensures !Enabled(states[i], Extend(a, delivery)) && !Enabled(states[i], StartTask(a))
    ensures states[i].attempts[a].phase == Released(true) && Enabled(states[i], LateExtend(a)) ==>
      Do(states[i], LateExtend(a)).tokens == states[i].tokens
  {
    RunKeeps(states, steps, i);
    assert AttemptOk(states[i], a);
  }

  /** Stopping the renewal waits for an admitted task. */
  lemma StopWaits(states: seq<State>, steps: seq<Step>, i: nat, a: Id)
    requires Run(states, steps) && i < |states| && a < |states[i].attempts| && Enabled(states[i], Stop(a))
    ensures states[i].attempts[a].task.NoTask? &&
      (states[i].attempts[a].routine.Off? || states[i].attempts[a].routine.Exited?)
  {
    RunKeeps(states, steps, i);
    assert AttemptOk(states[i], a);
  }

  /** The attempt's own release reaches the store. */
  predicate Ends(step: Step, a: Id) {
    (step.Release? || step.LateRelease?) && step.a == a
  }

  /** A live token stays with its attempt, for at least as long as it had, and the
      lease is not lost, through every step but its own release and the passing of time. */
  lemma TokenStays(s: State, step: Step, a: Id)
    requires Enabled(s, step) && a < |s.attempts| && Holds(s.tokens, s.clock, s.attempts[a].key, a)
    requires forall k :: k in s.tokens && s.tokens[k].token == a ==> k == s.attempts[a].key
    requires !Ends(step, a)
    requires WithinTerm(s) && Do(s, step).clock < s.tokens[s.attempts[a].key].expires
    ensures var t := Do(s, step); var key := s.attempts[a].key;
      && Holds(t.tokens, t.clock, key, a) && s.tokens[key].expires <= t.tokens[key].expires
      && t.attempts[a].key == key && t.attempts[a].lost == s.attempts[a].lost
  {
    if !step.Tick? {
      if step.a == a {
        OwnTokenStays(s, step, a);
      } else {
        CommandSpares(s, step);
      }
    }
  }

  lemma OwnTokenStays(s: State, step: Step, a: Id)
    requires !step.Tick? && Enabled(s, step) && step.a == a && Holds(s.tokens, s.clock, s.attempts[a].key, a)
    requires !Ends(step, a) && WithinTerm(s)
    ensures var t := Do(s, step); var key := s.attempts[a].key;
      && Holds(t.tokens, t.clock, key, a) && s.tokens[key].expires <= t.tokens[key].expires
      && |t.attempts| == |s.attempts| && t.attempts[a].key == key && t.attempts[a].lost == s.attempts[a].lost
  {
    var key := s.attempts[a].key;
    OwnTokens(s, step, key);
    assert Do(s, step).attempts[a].key == key;
  }

  /** On its own live token an attempt's command renews it or does nothing. */
  lemma OwnTokens(s: State, step: Step, key: string)
    requires !step.Tick? && Enabled(s, step) && !Ends(step, step.a)
    requires key == s.attempts[step.a].key && Holds(s.tokens, s.clock, key, step.a)
    ensures TokensAfter(s, step) == s.tokens ||
      TokensAfter(s, step) == ExtendToken(s.tokens, s.clock, key, step.a, s.ttl)
  {
  }

  /** Nothing but its own release ends a lease before it expires, or makes it lost. */
  lemma {:induction false} LeaseLasts(states: seq<State>, steps: seq<Step>, i: nat, j: nat, a: Id)
    requires Run(states, steps) && i <= j < |states| && a < |states[i].attempts|
    requires Holds(states[i].tokens, states[i].clock, states[i].attempts[a].key, a)
    requires forall n :: i <= n < j ==> !Ends(steps[n], a)
    requires states[j].clock < states[i].tokens[states[i].attempts[a].key].expires
    ensures var key := states[i].attempts[a].key;
      && a < |states[j].attempts| && states[j].attempts[a].key == key &&
        Holds(states[j].tokens, states[j].clock, key, a)
      && states[j].attempts[a].lost == states[i].attempts[a].lost
      && states[i].tokens[key].expires <= states[j].tokens[key].expires
    decreases j - i
  {
    if i < j {
      ClockGrows(states[j - 1], steps[j - 1]);
      LeaseLasts(states, steps, i, j - 1, a);
      RunKeeps(states, steps, j - 1);
      assert AttemptOk(states[j - 1], a);
      TokenStays(states[j - 1], steps[j - 1], a);
    }
  }

  lemma ClockGrows(s: State, step: Step)
    requires Enabled(s, step)
    ensures s.clock <= Do(s, step).clock && Do(s, step).ttl == s.ttl && |Do(s, step).attempts| == |s.attempts|
  {
  }

  /** What acquiring comes to: a lease if there is a locker, a key and no live token;
      a refusal if another token is live; and a fill without a lease if there is no
      locker, no key or the locker failed. */
  lemma AcquireDecides(states: seq<State>, steps: seq<Step>, i: nat, a: Id, failed: bool, delivery: Delivery,
                       scheduler: bool)
    requires Run(states, steps) && i < |steps| && steps[i] == Acquire(a, failed, delivery, scheduler)
    ensures var q, phase := states[i].attempts[a], states[i + 1].attempts[a].phase;
      var asks := q.locker && q.key != "" && !failed;
      var taken := q.key in states[i].tokens && states[i].clock < states[i].tokens[q.key].expires;
      && (phase == Filling(true) <==> asks && !taken) && (phase == Refused <==> asks && taken)
      && (phase == Filling(false) <==> !asks)
  {
    RunKeeps(states, steps, i);
    assert AttemptOk(states[i], a);
  }

  /** The commands that reach the store, at once or late, whatever their reply was. */
  predicate Reaches(step: Step) {
    || ((step.Acquire? || step.Extend? || step.Release?) && step.delivery.Applied?)
    || step.LateAcquire? || step.LateExtend? || step.LateRelease?
  }

  /** What a command does to the store once it reaches it, even if its sender was told
      that it failed: an acquire takes a free key for a full term, an extend renews its
      own live token, a release ends it; anything else leaves the store as it was. */
  lemma CommandReaches(s: State, step: Step)
    requires Commands(step) && Enabled(s, step) && UsesLocker(s.attempts[step.a])
    ensures var key := s.attempts[step.a].key; var t := Do(s, step).tokens;
      var live := key in s.tokens && s.clock < s.tokens[key].expires;
      var own := live && s.tokens[key].token == step.a;
      if !Reaches(step) then t == s.tokens
      else if step.Acquire? || step.LateAcquire? then
        if live then t == s.tokens else t == s.tokens[key := Entry(step.a, s.clock + s.ttl)]
      else if !own then t == s.tokens
      else if step.Extend? || step.LateExtend? then t == s.tokens[key := Entry(step.a, s.clock + s.ttl)]
      else t == s.tokens - {key}
  {
  }

  /** What ends the routine's context. */
  predicate EndsContext(s: State, step: Step, a: Id) {
    !step.Tick? && step.a == a && a < |s.attempts| &&
    (step.CancelContext? || (step.FinishFill? && s.attempts[a].phase == Filling(true)))
  }

  ghost predicate ContextEnds(states: seq<State>, steps: seq<Step>, i: nat, j: nat, a: Id) {
    exists n :: i <= n < j && n < |steps| && n < |states| && EndsContext(states[n], steps[n], a)
  }

  lemma ContextEndsMore(states: seq<State>, steps: seq<Step>, i: nat, j: nat, a: Id)
    requires i < j <= |steps| && j <= |states|
    ensures ContextEnds(states, steps, i, j, a) <==>
      ContextEnds(states, steps, i, j - 1, a) || EndsContext(states[j - 1], steps[j - 1], a)
  {
  }

  lemma ContextNext(s: State, step: Step, a: Id)
    requires Enabled(s, step) && a < |s.attempts| && a < |Do(s, step).attempts|
    ensures Do(s, step).attempts[a].canceled <==> s.attempts[a].canceled || EndsContext(s, step, a)
  {
    if !step.Tick? && step.a == a {
      OwnContext(s, step);
    } else {
      assert Do(s, step).attempts[a] ==
        if step.Tick? then Aged(s, s.clock + step.elapsed, a) else s.attempts[a];
    }
  }

  lemma OwnContext(s: State, step: Step)
    requires !step.Tick? && Enabled(s, step)
    ensures AttemptAfter(s, step).canceled <==> s.attempts[step.a].canceled || EndsContext(s, step, step.a)
  {
    if Renews(step) {
      assert AttemptAfter(s, step) == RenewalAfter(s.attempts[step.a], step);
    } else if step.Stop? || step.Release? || step.LateAcquire? || step.LateExtend? || step.LateRelease? {
      PhaseContext(s, step);
    }
  }

  lemma PhaseContext(s: State, step: Step)
    requires step.Stop? || step.Release? || step.LateAcquire? || step.LateExtend? || step.LateRelease?
    requires Enabled(s, step)
    ensures AttemptAfter(s, step).canceled <==> s.attempts[step.a].canceled || EndsContext(s, step, step.a)
  {
  }

  /** The routine's context ends with the caller's or when the fill it protects is over,
      and in no other way. */
  lemma {:induction false} ContextEndedIff(states: seq<State>, steps: seq<Step>, i: nat, j: nat, a: Id)
    requires Run(states, steps) && i <= j < |states| && a < |states[i].attempts|
    ensures a < |states[j].attempts|
    ensures states[j].attempts[a].canceled <==>
      states[i].attempts[a].canceled || ContextEnds(states, steps, i, j, a)
    decreases j - i
  {
    if i < j {
      ContextEndedIff(states, steps, i, j - 1, a);
      ClockGrows(states[j - 1], steps[j - 1]);
      ContextNext(states[j - 1], steps[j - 1], a);
      ContextEndsMore(states, steps, i, j, a);
    }
  }

  /** A granted lease is held for a full term, whatever the other processes do. */
  lemma AcquireGivesFullTerm(states: seq<State>, steps: seq<Step>, i: nat, j: nat, a: Id, scheduler: bool)
    requires Run(states, steps) && i < j < |states| && a < |states[i].attempts|
    requires steps[i] == Acquire(a, false, Applied, scheduler) && states[i + 1].attempts[a].phase == Filling(true)
    requires forall n :: i < n < j ==> !Ends(steps[n], a)
    requires states[j].clock < states[i].clock + states[i].ttl
    ensures !Live(states[i].tokens, states[i].clock, states[i].attempts[a].key)
    ensures states[i + 1].attempts[a].routine == if scheduler && states[i].ttl >= 2 then Timer else Off
    ensures a < |states[j].attempts| && Holds(states[j].tokens, states[j].clock, states[i].attempts[a].key, a)
    ensures !states[j].attempts[a].lost
  {
    RunKeeps(states, steps, i);
    assert AttemptOk(states[i], a);
    LeaseLasts(states, steps, i + 1, j, a);
  }

  /** While the context is live and the routine runs, it can take its next step. */
  lemma RenewalCanStep(states: seq<State>, steps: seq<Step>, i: nat, a: Id)
    requires Run(states, steps) && i < |states| && a < |states[i].attempts|
    requires !states[i].attempts[a].routine.Off? && !states[i].attempts[a].routine.Exited?
    ensures exists step :: Renews(step) && step.a == a && Enabled(states[i], step)
  {
    var q := states[i].attempts[a];
    RunKeeps(states, steps, i);
    assert AttemptOk(states[i], a);
    var step :=
      match q.routine
      case Timer => Fire(a, true)
      case Submitting => Look(a)
      case Ready => Submit(a, true, false)
      case Backoff => Retry(a, true)
      case _ => if q.task.Queued? then StartTask(a) else if q.task.Running? then Extend(a, Applied) else Collect(a);
    assert Renews(step) && Enabled(states[i], step);
  }

  /** The routine ends only with its context, or when the pool refuses a renewal for
      another reason than overload. */
  lemma {:induction false} RenewalEnds(states: seq<State>, steps: seq<Step>, j: nat, a: Id)
    requires Run(states, steps) && j < |states| && a < |states[j].attempts|
    requires states[j].attempts[a].routine.Exited? && !states[j].attempts[a].canceled
    ensures exists i :: 0 <= i < j && steps[i] == Submit(a, false, false)
  {
    assert j > 0;
    ClockGrows(states[j - 1], steps[j - 1]);
    RunKeeps(states, steps, j - 1);
    assert AttemptOk(states[j - 1], a);
    AttemptSteps(states[j - 1], steps[j - 1], a);
    if steps[j - 1] != Submit(a, false, false) {
      RenewalEnds(states, steps, j - 1, a);
    }
  }

  /** How one step moves a routine: what ends it, and what finishes its round. */
  predicate Moved(q: Attempt, next: Attempt, step: Step, a: Id) {
    && (q.canceled ==> next.canceled)
    && (next.routine.Exited? && !next.canceled && !q.routine.Exited? ==> step == Submit(a, false, false))
    && (Served(next) ==> Served(q) || (step.Extend? && step.a == a))
  }

  lemma RenewalMoves(q: Attempt, step: Step)
    requires Renews(step)
    requires step.Fire? && !step.expired ==> q.canceled
    requires step.Retry? && !step.waited ==> q.canceled
    ensures Moved(q, RenewalAfter(q, step), step, step.a)
  {
  }

  lemma OwnStepMoves(s: State, step: Step)
    requires !step.Tick? && Enabled(s, step) && AttemptOk(s, step.a)
    ensures Moved(s.attempts[step.a], AttemptAfter(s, step), step, step.a)
  {
    if Renews(step) {
      RenewalMoves(s.attempts[step.a], step);
    }
  }

  lemma AttemptSteps(s: State, step: Step, a: Id)
    requires Enabled(s, step) && a < |s.attempts| && AttemptOk(s, a)
    ensures Moved(s.attempts[a], Do(s, step).attempts[a], step, a)
  {
    if !step.Tick? && step.a == a {
      OwnStepMoves(s, step);
    } else {
      assert Do(s, step).attempts[a] == if step.Tick? then Aged(s, s.clock + step.elapsed, a) else s.attempts[a];
    }
  }

  /** The renewal that was admitted is over, and it was not dropped. */
  predicate Served(q: Attempt) {
    q.routine.Awaiting? && q.task.NoTask? && !q.canceled
  }

  /** Each round of a live renewal sends one: whenever the routine has waited for an
      admitted renewal, that one has sent its extend. */
  lemma {:induction false} RoundExtends(states: seq<State>, steps: seq<Step>, j: nat, a: Id)
    requires Run(states, steps) && j < |states| && a < |states[j].attempts| && Served(states[j].attempts[a])
    ensures exists i ::
      && 0 <= i < j && steps[i].Extend? && steps[i].a == a
      && forall n :: i < n < j ==> !(steps[n].Submit? && steps[n].a == a)
  {
    assert j > 0;
    ClockGrows(states[j - 1], steps[j - 1]);
    RunKeeps(states, steps, j - 1);
    assert AttemptOk(states[j - 1], a);
    AttemptSteps(states[j - 1], steps[j - 1], a);
    if !(steps[j - 1].Extend? && steps[j - 1].a == a) {
      RoundExtends(states, steps, j - 1, a);
    }
  }

  /** How many steps of the routine are left until the next extend. */
  function Left(q: Attempt): nat {
    match q.routine
    case Timer => 5
    case Submitting => 4
    case Ready => 3
    case Awaiting => if q.task.Queued? then 2 else if q.task.Running? then 1 else 6
    case _ => 0
  }

  predicate RenewsFor(step: Step, a: Id) {
    Renews(step) && step.a == a
  }

  function Renewals(steps: seq<Step>, a: Id): nat {
    if steps == [] then 0 else Renewals(steps[..|steps| - 1], a) + if RenewsFor(steps[|steps| - 1], a) then 1 else 0
  }

  lemma OneMore(steps: seq<Step>, i: nat, j: nat, a: Id)
    requires i < j <= |steps|
    ensures Renewals(steps[i..j], a) == Renewals(steps[i..j - 1], a) + if RenewsFor(steps[j - 1], a) then 1 else 0
  {
    assert steps[i..j][..j - i - 1] == steps[i..j - 1];
  }

  /** Not an extend of this attempt, nor a refusal of its renewal. */
  predicate Smooth(step: Step, a: Id) {
    step.Extend? || step.Submit? ==> step.a != a || (step.Submit? && step.accepted)
  }

  /** A live routine that no pool refuses sends an extend at least every sixth step. */
  lemma {:induction false} RoundIsShort(states: seq<State>, steps: seq<Step>, i: nat, j: nat, a: Id)
    requires Run(states, steps) && i <= j < |states| && a < |states[i].attempts|
    requires !states[i].attempts[a].routine.Off? && !states[i].attempts[a].routine.Exited?
    requires !states[i].attempts[a].routine.Backoff?
    requires a < |states[j].attempts| && !states[j].attempts[a].canceled
    requires forall n :: i <= n < j ==> Smooth(steps[n], a)
    ensures Renewals(steps[i..j], a) <= 5
  {
    LeftShrinks(states, steps, i, j, a);
  }

  lemma {:induction false} LeftShrinks(states: seq<State>, steps: seq<Step>, i: nat, j: nat, a: Id)
    requires Run(states, steps) && i <= j < |states| && a < |states[i].attempts| && 0 < Left(states[i].attempts[a])
    requires a < |states[j].attempts| && !states[j].attempts[a].canceled
    requires forall n :: i <= n < j ==> Smooth(steps[n], a)
    ensures 0 < Left(states[j].attempts[a]) == Left(states[i].attempts[a]) - Renewals(steps[i..j], a)
    decreases j - i
  {
    if i < j {
      RunKeeps(states, steps, j - 1);
      StaysLive(states[j - 1], steps[j - 1], a);
      LeftShrinks(states, steps, i, j - 1, a);
      LeftAfter(states[j - 1], steps[j - 1], a);
      OneMore(steps, i, j, a);
    }
  }

  lemma StaysLive(s: State, step: Step, a: Id)
    requires Enabled(s, step) && Inv(s) && a < |Do(s, step).attempts| && !Do(s, step).attempts[a].canceled
    ensures a < |s.attempts| && !s.attempts[a].canceled && AttemptOk(s, a)
  {
    ClockGrows(s, step);
    assert AttemptOk(s, a);
    AttemptSteps(s, step, a);
  }

  lemma LeftAfter(s: State, step: Step, a: Id)
    requires Enabled(s, step) && a < |s.attempts| && AttemptOk(s, a) && 0 < Left(s.attempts[a])
    requires !Do(s, step).attempts[a].canceled
    requires Smooth(step, a)
    ensures 0 < Left(Do(s, step).attempts[a]) == Left(s.attempts[a]) - if RenewsFor(step, a) then 1 else 0
  {
    var q := s.attempts[a];
    if !step.Tick? && step.a == a {
      if Renews(step) {
        LeftOfRenewal(s, step);
      } else {
        LeftElsewhere(s, step);
      }
    } else {
      assert Do(s, step).attempts[a] == if step.Tick? then Aged(s, s.clock + step.elapsed, a) else q;
    }
  }

  lemma LeftOfRenewal(s: State, step: Step)
    requires Renews(step) && Enabled(s, step) && 0 < Left(s.attempts[step.a]) && !step.Extend?
    requires !RenewalAfter(s.attempts[step.a], step).canceled && (step.Submit? ==> step.accepted)
    requires !s.attempts[step.a].task.NoTask? ==> s.attempts[step.a].routine.Awaiting?
    ensures 0 < Left(RenewalAfter(s.attempts[step.a], step)) == Left(s.attempts[step.a]) - 1
  {
  }

  lemma LeftElsewhere(s: State, step: Step)
    requires !step.Tick? && !Renews(step) && Enabled(s, step) && AttemptOk(s, step.a)
    requires 0 < Left(s.attempts[step.a])
    ensures Left(AttemptAfter(s, step)) == Left(s.attempts[step.a])
  {
  }

  /** How many steps of the routine are left once its context has ended. */
  function Rest(q: Attempt): (n: nat)
    ensures n <= 3
  {
    match q.routine
    case Timer => 2
    case Submitting => 1
    case Ready => 3
    case Backoff => 2
    case Awaiting => if q.task.NoTask? then 1 else 2
    case _ => 0
  }

  /** The routine's context has ended, and the attempt is past starting a routine. */
  predicate Ending(q: Attempt) {
    q.canceled && !q.phase.Starting?
  }

  lemma RestAfter(q: Attempt, step: Step)
    requires Renews(step) && Ending(q) && 0 < Rest(q)
    requires step.Fire? ==> q.routine.Timer?
    requires step.Look? ==> q.routine.Submitting?
    requires step.Submit? ==> q.routine.Ready?
    requires step.Retry? ==> q.routine.Backoff?
    requires step.StartTask? || step.Extend? ==> q.routine.Awaiting? && !q.task.NoTask?
    requires step.Collect? ==> q.routine.Awaiting? && q.task.NoTask?
    ensures Ending(RenewalAfter(q, step)) && Rest(RenewalAfter(q, step)) < Rest(q)
  {
  }

  lemma RestShrinks(s: State, step: Step, a: Id)
    requires Enabled(s, step) && a < |s.attempts| && AttemptOk(s, a) && Ending(s.attempts[a])
    requires a < |Do(s, step).attempts|
    ensures Ending(Do(s, step).attempts[a])
    ensures Rest(Do(s, step).attempts[a]) + (if RenewsFor(step, a) then 1 else 0) <= Rest(s.attempts[a])
  {
    var q := s.attempts[a];
    if !step.Tick? && step.a == a {
      if Renews(step) {
        RestAfter(q, step);
      } else {
        RestElsewhere(s, step);
      }
    } else {
      assert Do(s, step).attempts[a] == if step.Tick? then Aged(s, s.clock + step.elapsed, a) else q;
    }
  }

  lemma RestKept(s: State, step: Step, a: Id)
    requires Inv(s) && Enabled(s, step) && a < |s.attempts| && Ending(s.attempts[a])
    ensures a < |Do(s, step).attempts| && Ending(Do(s, step).attempts[a])
    ensures Rest(Do(s, step).attempts[a]) + (if RenewsFor(step, a) then 1 else 0) <= Rest(s.attempts[a])
  {
    ClockGrows(s, step);
    assert AttemptOk(s, a);
    RestShrinks(s, step, a);
  }

  lemma RestElsewhere(s: State, step: Step)
    requires !step.Tick? && !Renews(step) && Enabled(s, step) && AttemptOk(s, step.a)
    requires Ending(s.attempts[step.a])
    ensures Ending(AttemptAfter(s, step))
    ensures Rest(AttemptAfter(s, step)) <= Rest(s.attempts[step.a])
  {
  }

  /** After its context has ended the routine takes at most three more steps. */
  lemma {:induction false} CanceledRoutineEnds(states: seq<State>, steps: seq<Step>, i: nat, j: nat, a: Id)
    requires Run(states, steps) && i <= j < |states| && a < |states[i].attempts| && Ending(states[i].attempts[a])
    ensures a < |states[j].attempts| && Ending(states[j].attempts[a])
    ensures Rest(states[j].attempts[a]) + Renewals(steps[i..j], a) <= Rest(states[i].attempts[a])
    decreases j - i
  {
    if i < j {
      CanceledRoutineEnds(states, steps, i, j - 1, a);
      RunKeeps(states, steps, j - 1);
      RestKept(states[j - 1], steps[j - 1], a);
      OneMore(steps, i, j, a);
    }
  }

  /** Stopping the renewal never waits for ever: its context has ended, so at most
      three steps of the routine are left, and until the stop can return one of them
      can be taken. */
  lemma StopReturns(states: seq<State>, steps: seq<Step>, i: nat, j: nat, a: Id)
    requires Run(states, steps) && i <= j < |states| && a < |states[i].attempts|
    requires states[i].attempts[a].phase.Stopping?
    ensures Renewals(steps[i..j], a) <= 3
    ensures Enabled(states[i], Stop(a)) || exists step :: Renews(step) && step.a == a && Enabled(states[i], step)
  {
    RunKeeps(states, steps, i);
    assert AttemptOk(states[i], a);
    CanceledRoutineEnds(states, steps, i, j, a);
    if !Enabled(states[i], Stop(a)) {
      RenewalCanStep(states, steps, i, a);
    }
  }

  /** The steps of an attempt itself, apart from its routine. */
  predicate Attempts(step: Step) {
    step.Acquire? || step.FinishFill? || step.Stop? || step.Release?
  }

  /** An attempt is never stuck before it was refused, has returned or has released. */
  lemma AttemptNeverStuck(states: seq<State>, steps: seq<Step>, i: nat, a: Id)
    requires Run(states, steps) && i < |states| && a < |states[i].attempts|
    requires var phase := states[i].attempts[a].phase; !phase.Refused? && !phase.Released? && !phase.Returned?
    ensures exists step :: (Attempts(step) || Renews(step)) && step.a == a && Enabled(states[i], step)
  {
    var q := states[i].attempts[a];
    match q.phase
    case Starting => assert Enabled(states[i], Acquire(a, false, Applied, true));
    case Filling(_) => assert Enabled(states[i], FinishFill(a));
    case Stopping => StopReturns(states, steps, i, i, a);
    case Releasing => assert Enabled(states[i], Release(a, Applied));
  }

  /** A renewal that reaches the store gives the lease a full term, whatever the
      other processes then do. */
  lemma RenewalGivesFullTerm(states: seq<State>, steps: seq<Step>, i: nat, j: nat, a: Id)
    requires Run(states, steps) && i < j < |states| && a < |states[i].attempts| && steps[i] == Extend(a, Applied)
    requires Holds(states[i].tokens, states[i].clock, states[i].attempts[a].key, a)
    requires forall n :: i <= n < j ==> !Ends(steps[n], a)
    requires states[j].clock < states[i].clock + states[i].ttl
    ensures a < |states[j].attempts| && Holds(states[j].tokens, states[j].clock, states[i].attempts[a].key, a)
    ensures states[j].attempts[a].lost == states[i].attempts[a].lost
  {
    RunKeeps(states, steps, i);
    LeaseLasts(states, steps, i + 1, j, a);
  }
}
