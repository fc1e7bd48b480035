/** In-process fill coalescing: the tracker's shared map of running fills, and the
    requests that own or follow them, as steps that interleave in any order. */
module Coalesce {
  import opened Records

  type Id = nat

  /** `CanceledBy` is an error that a request's own ended context caused. */
  datatype Error = CanceledBy(request: Id) | Broken

  datatype Outcome = Hit | Filled | Failed(error: Error)

  /** What `Finish` records: nothing, the error, or the error marked as the
      owner's own cancellation. */
  datatype Tracked = Success | Shared(error: Error) | OwnerCanceled(cause: Error)

  /** Where an owner is between `Begin` and the end of `Finish`'s delete. */
  datatype Stage =
    | Checking                                  // about to look for a stored artifact
    | Leasing                                   // it was missing; about to ask for the lease
    | Filling
    | Polling                                   // another process has the lease
    | Settling(out: Outcome)                    // the fill is over
    | Deleting(result: Outcome, tracked: Tracked)

  datatype Phase =
    | Idle                                      // about to call `Begin`
    | Owner(fill: Option<Id>, stage: Stage)     // no fill: the key is empty
    | Closing(closing: Id, out: Outcome, tracked: Tracked)
    | Waiting(on: Id)
    | Rechecking                                // the fill succeeded; about to look again
    | Returned(outcome: Outcome)

  datatype Request = Request(key: string, canceled: bool, phase: Phase)

  /** A `coalescer.Fill`: its owner, how often `done` was closed, and its error. */
  datatype Fill = Fill(owner: Id, key: string, closes: nat, tracked: Tracked)

  datatype State = State(
    requests: seq<Request>, running: map<string, Id>, fills: seq<Fill>,
    stored: set<string>, successes: map<string, nat>)

  /** The answer of `req.Wait()`. */
  datatype Answer = Found | Missing | Error(error: Error)

  datatype Step =
    | Cancel(r: Id)
    | Begin(r: Id)
    | Check(r: Id, answer: Answer)
    | Lease(r: Id, acquired: bool)
    | Fill(r: Id, ok: bool, error: Error)
    | Poll(r: Id, waited: bool)
    | Settle(r: Id)
    | Delete(r: Id)
    | Close(r: Id)
    | Wake(r: Id)                               // the fill's `done` is closed
    | GiveUp(r: Id)                             // the caller's context ended
    | Recheck(r: Id, answer: Answer)

  function Successes(s: State, key: string): nat {
    if key in s.successes then s.successes[key] else 0
  }

  /** A request's work fails because of its own ended context, or otherwise. */
  predicate MayFail(q: Request, r: Id, e: Error) {
    e == Broken || (e == CanceledBy(r) && q.canceled)
  }

  /** `sticky`: once a fill succeeded, every later lookup of its key finds it. */
  predicate Answers(s: State, sticky: bool, q: Request, r: Id, answer: Answer) {
    && (sticky && q.key in s.stored ==> answer == Found)
    && (answer.Error? ==> MayFail(q, r, answer.error))
  }

  predicate Enabled(s: State, sticky: bool, step: Step) {
    step.r < |s.requests| &&
    var q := s.requests[step.r];
    match step
    case Cancel(_) => true
    case Begin(_) => q.phase.Idle? && (q.key in s.running ==> s.running[q.key] < |s.fills|)
    case Check(_, answer) => q.phase.Owner? && q.phase.stage.Checking? && Answers(s, sticky, q, step.r, answer)
    case Lease(_, _) => q.phase.Owner? && q.phase.stage.Leasing?
    case Fill(_, ok, error) => q.phase.Owner? && q.phase.stage.Filling? && (!ok ==> MayFail(q, step.r, error))
    case Poll(_, waited) => q.phase.Owner? && q.phase.stage.Polling? && (!waited ==> q.canceled)
    case Settle(_) => q.phase.Owner? && q.phase.stage.Settling?
    case Delete(_) => q.phase.Owner? && q.phase.stage.Deleting?
    case Close(_) => q.phase.Closing? && q.phase.closing < |s.fills|
    case Wake(_) => q.phase.Waiting? && q.phase.on < |s.fills| && s.fills[q.phase.on].closes > 0
    case GiveUp(_) => q.phase.Waiting? && q.canceled
    case Recheck(_, answer) => q.phase.Rechecking? && Answers(s, sticky, q, step.r, answer)
  }

  function Goto(s: State, r: Id, phase: Phase): State
    requires r < |s.requests|
  {
    s.(requests := s.requests[r := s.requests[r].(phase := phase)])
  }

  function OwnerAt(s: State, r: Id, stage: Stage): State
    requires r < |s.requests| && s.requests[r].phase.Owner?
  {
    Goto(s, r, Owner(s.requests[r].phase.fill, stage))
  }

  function TrackedError(q: Request, out: Outcome): Tracked {
    if !out.Failed? then Success else if q.canceled then OwnerCanceled(out.error) else Shared(out.error)
  }

  function Do(s: State, sticky: bool, step: Step): State
    requires Enabled(s, sticky, step)
  {
    var r := step.r;
    var q := s.requests[r];
    match step
    case Cancel(_) => s.(requests := s.requests[r := q.(canceled := true)])
    case Begin(_) =>
      if q.key == "" then Goto(s, r, Owner(None, Checking))
      else if q.key in s.running then Goto(s, r, Waiting(s.running[q.key]))
      else Goto(s, r, Owner(Some(|s.fills|), Checking)).(
        running := s.running[q.key := |s.fills|], fills := s.fills + [Fill.Fill(r, q.key, 0, Success)])
    case Check(_, answer) =>
      if answer.Found? then OwnerAt(s, r, Settling(Hit))
      else if answer.Error? then OwnerAt(s, r, Settling(Failed(answer.error)))
      else OwnerAt(s, r, Leasing)
    case Lease(_, acquired) => OwnerAt(s, r, if acquired then Filling else Polling)
    case Fill(_, ok, error) =>
      if ok then OwnerAt(s, r, Settling(Filled)).(
        stored := s.stored + {q.key}, successes := s.successes[q.key := Successes(s, q.key) + 1])
      else OwnerAt(s, r, Settling(Failed(error)))
    case Poll(_, waited) => OwnerAt(s, r, if waited then Checking else Settling(Failed(CanceledBy(r))))
    case Settle(_) => OwnerAt(s, r, Deleting(q.phase.stage.out, TrackedError(q, q.phase.stage.out)))
    case Delete(_) =>
      if q.phase.fill.None? then Goto(s, r, Returned(q.phase.stage.result))
      else
        var closing := Closing(q.phase.fill.value, q.phase.stage.result, q.phase.stage.tracked);
        Goto(s, r, closing).(running := s.running - {q.key})
    case Close(_) =>
      var f := s.fills[q.phase.closing];
      Goto(s, r, Returned(q.phase.out)).(
        fills := s.fills[q.phase.closing := f.(closes := f.closes + 1, tracked := q.phase.tracked)])
    case Wake(_) =>
      (match s.fills[q.phase.on].tracked
       case Success => Goto(s, r, Rechecking)
       case Shared(e) => Goto(s, r, Returned(Failed(if q.canceled then CanceledBy(r) else e)))
       case OwnerCanceled(_) => Goto(s, r, if q.canceled then Returned(Failed(CanceledBy(r))) else Idle))
    case GiveUp(_) => Goto(s, r, Returned(Failed(CanceledBy(r))))
    case Recheck(_, answer) =>
      if answer.Found? then Goto(s, r, Returned(Hit))
      else if answer.Error? then Goto(s, r, Returned(Failed(answer.error)))
      else Goto(s, r, Idle)
  }

  predicate Init(s: State) {
    && (forall r :: 0 <= r < |s.requests| ==> s.requests[r].phase.Idle?)
    && s.running == map[] && s.fills == [] && s.stored == {} && s.successes == map[]
  }

  // ---------------------------------------------------------------------------
  // The invariant

  /** An owner's fill is open and is the one that the map holds for its key. */
  predicate Registered(s: State, r: Id, id: Id)
    requires r < |s.requests|
  {
    && id < |s.fills| && s.fills[id].owner == r && s.fills[id].key == s.requests[r].key && s.fills[id].closes == 0
    && s.requests[r].key in s.running && s.running[s.requests[r].key] == id
  }

  /** A cancellation error is returned only to the request whose context ended. */
  predicate OwnError(q: Request, r: Id, out: Outcome) {
    out.Failed? && out.error.CanceledBy? ==> out.error.request == r && q.canceled
  }

  /** An error shared with followers is never a cancellation. */
  predicate Shareable(t: Tracked) {
    t.Shared? ==> t.error == Broken
  }

  predicate StageOk(s: State, sticky: bool, r: Id, q: Request, stage: Stage) {
    match stage
    case Leasing => sticky && q.key != "" ==> q.key !in s.stored
    case Filling => sticky && q.key != "" ==> q.key !in s.stored
    case Settling(out) => OwnError(q, r, out)
    case Deleting(out, tracked) => OwnError(q, r, out) && Shareable(tracked)
    case _ => true
  }

  predicate RequestOk(s: State, sticky: bool, r: Id)
    requires r < |s.requests|
  {
    var q := s.requests[r];
    match q.phase
    case Owner(fill, stage) =>
      (fill.None? <==> q.key == "") && (fill.Some? ==> Registered(s, r, fill.value)) && StageOk(s, sticky, r, q, stage)
    case Closing(id, out, tracked) =>
      && id < |s.fills| && s.fills[id].owner == r && s.fills[id].closes == 0
      && OwnError(q, r, out) && Shareable(tracked)
    case Waiting(on) => on < |s.fills| && s.fills[on].key == q.key
    case Returned(out) => OwnError(q, r, out)
    case _ => true
  }

  predicate Owns(s: State, r: Id, id: Id) {
    r < |s.requests| && s.requests[r].phase.Owner? && s.requests[r].phase.fill == Some(id)
  }

  predicate Closes(s: State, r: Id, id: Id) {
    r < |s.requests| && s.requests[r].phase.Closing? && s.requests[r].phase.closing == id
  }

  /** `done` is open exactly while its owner has not closed it. */
  predicate FillOk(s: State, id: Id)
    requires id < |s.fills|
  {
    var f := s.fills[id];
    f.closes <= 1 && (f.closes == 0 ==> Owns(s, f.owner, id) || Closes(s, f.owner, id)) && Shareable(f.tracked)
  }

  predicate KeyOk(s: State, k: string)
    requires k in s.running
  {
    var id := s.running[k];
    k != "" && id < |s.fills| && s.fills[id].key == k && Owns(s, s.fills[id].owner, id)
  }

  predicate SuccessOk(s: State, sticky: bool, k: string) {
    (Successes(s, k) > 0 ==> k in s.stored) && (sticky && k != "" ==> Successes(s, k) <= 1)
  }

  ghost predicate Inv(s: State, sticky: bool) {
    && (forall r: Id :: r < |s.requests| ==> RequestOk(s, sticky, r))
    && (forall id: Id :: id < |s.fills| ==> FillOk(s, id))
    && (forall k :: k in s.running ==> KeyOk(s, k))
    && (forall k :: SuccessOk(s, sticky, k))
  }

  /** The steps that change the map of running fills or a fill. */
  predicate Tracks(step: Step) {
    step.Begin? || step.Delete? || step.Close?
  }

  /** The steps of an owner's own loop, which keep its fill. */
  predicate Works(step: Step) {
    step.Check? || step.Lease? || step.Fill? || step.Poll? || step.Settle?
  }

  predicate Follows(p: Phase) { !p.Owner? && !p.Closing? }

  lemma UntrackedStep(s: State, sticky: bool, step: Step)
    requires Enabled(s, sticky, step) && !Tracks(step)
    ensures var t := Do(s, sticky, step);
      && t.running == s.running && t.fills == s.fills && |t.requests| == |s.requests|
      && (forall j: Id :: j < |s.requests| && j != step.r ==> t.requests[j] == s.requests[j])
      && t.requests[step.r].key == s.requests[step.r].key
      && (!step.Fill? ==> t.stored == s.stored && t.successes == s.successes)
      && (step.Cancel? ==> t.requests[step.r].phase == s.requests[step.r].phase)
      && (!step.Cancel? && !Works(step) ==> Follows(t.requests[step.r].phase) && Follows(s.requests[step.r].phase))
      && (Works(step) ==>
        s.requests[step.r].phase.Owner? && t.requests[step.r].phase.Owner? &&
          t.requests[step.r].phase.fill == s.requests[step.r].phase.fill)
  {
  }

  /** The request that steps. */
  lemma TrackerKeeps(s: State, sticky: bool, step: Step)
    requires Enabled(s, sticky, step) && RequestOk(s, sticky, step.r) && Tracks(step)
    requires s.requests[step.r].key in s.running ==> KeyOk(s, s.requests[step.r].key)
    ensures RequestOk(Do(s, sticky, step), sticky, step.r)
  {
  }

  lemma WorkerKeeps(s: State, sticky: bool, step: Step)
    requires Enabled(s, sticky, step) && RequestOk(s, sticky, step.r) && Works(step)
    ensures RequestOk(Do(s, sticky, step), sticky, step.r)
  {
  }

  lemma FollowerKeeps(s: State, sticky: bool, step: Step)
    requires Enabled(s, sticky, step) && RequestOk(s, sticky, step.r) && !Tracks(step) && !Works(step)
    requires forall id: Id :: id < |s.fills| ==> Shareable(s.fills[id].tracked)
    ensures RequestOk(Do(s, sticky, step), sticky, step.r)
  {
  }

  /** A request that does not step: no other owner shares its key or its fill. */
  lemma OthersKeep(s: State, sticky: bool, step: Step, j: Id)
    requires Enabled(s, sticky, step) && RequestOk(s, sticky, step.r) && j < |s.requests| && j != step.r &&
      RequestOk(s, sticky, j)
    ensures RequestOk(Do(s, sticky, step), sticky, j)
  {
    if !Tracks(step) {
      UntrackedStep(s, sticky, step);
    }
  }

  lemma FillsKeep(s: State, sticky: bool, step: Step, id: Id)
    requires Enabled(s, sticky, step) && RequestOk(s, sticky, step.r) && id < |Do(s, sticky, step).fills|
    requires id < |s.fills| ==> FillOk(s, id)
    ensures FillOk(Do(s, sticky, step), id)
  {
    if !Tracks(step) {
      UntrackedStep(s, sticky, step);
    }
  }

  lemma KeysKeep(s: State, sticky: bool, step: Step, k: string)
    requires Enabled(s, sticky, step) && RequestOk(s, sticky, step.r) && k in Do(s, sticky, step).running
    requires k in s.running ==> KeyOk(s, k)
    ensures KeyOk(Do(s, sticky, step), k)
  {
    if !Tracks(step) {
      UntrackedStep(s, sticky, step);
    }
  }

  lemma SuccessesKeep(s: State, sticky: bool, step: Step, k: string)
    requires Enabled(s, sticky, step) && RequestOk(s, sticky, step.r) && SuccessOk(s, sticky, k)
    ensures SuccessOk(Do(s, sticky, step), sticky, k)
  {
  }

  lemma StepKeeps(s: State, sticky: bool, step: Step)
    requires Inv(s, sticky) && Enabled(s, sticky, step)
    ensures Inv(Do(s, sticky, step), sticky)
  {
    var t := Do(s, sticky, step);
    forall r: Id | r < |t.requests| ensures RequestOk(t, sticky, r) {
      if r != step.r {
        OthersKeep(s, sticky, step, r);
      } else if Tracks(step) {
        TrackerKeeps(s, sticky, step);
      } else if Works(step) {
        WorkerKeeps(s, sticky, step);
      } else {
        forall id: Id | id < |s.fills| ensures Shareable(s.fills[id].tracked) {
          assert FillOk(s, id);
        }
        FollowerKeeps(s, sticky, step);
      }
    }
    forall id: Id | id < |t.fills| ensures FillOk(t, id) { FillsKeep(s, sticky, step, id); }
    forall k | k in t.running ensures KeyOk(t, k) { KeysKeep(s, sticky, step, k); }
    forall k ensures SuccessOk(t, sticky, k) { SuccessesKeep(s, sticky, step, k); }
  }

  // ---------------------------------------------------------------------------
  // Every run

  /** A run: any requests, any interleaving of their steps. */
  ghost predicate Run(states: seq<State>, steps: seq<Step>, sticky: bool) {
    && |states| == |steps| + 1 && Init(states[0])
    && forall i :: 0 <= i < |steps| ==>
      Enabled(states[i], sticky, steps[i]) && states[i + 1] == Do(states[i], sticky, steps[i])
  }

  lemma {:induction false} RunKeeps(states: seq<State>, steps: seq<Step>, sticky: bool, i: nat)
    requires Run(states, steps, sticky) && i < |states|
    ensures Inv(states[i], sticky)
  {
    if i > 0 {
      RunKeeps(states, steps, sticky, i - 1);
      StepKeeps(states[i - 1], sticky, steps[i - 1]);
    }
  }

  /** In every reachable state each nonempty key has at most one active owner, and
      the map holds that owner's fill. */
  lemma OneOwner(states: seq<State>, steps: seq<Step>, sticky: bool, i: nat, a: Id, b: Id)
    requires Run(states, steps, sticky) && i < |states| && a < |states[i].requests| && b < |states[i].requests|
    requires states[i].requests[a].phase.Owner? && states[i].requests[b].phase.Owner?
    requires states[i].requests[a].key == states[i].requests[b].key != ""
    ensures a == b && states[i].requests[a].key in states[i].running
    ensures states[i].requests[a].phase.fill == Some(states[i].running[states[i].requests[a].key])
  {
    RunKeeps(states, steps, sticky, i);
    assert RequestOk(states[i], sticky, a) && RequestOk(states[i], sticky, b);
  }

  /** No `done` is ever closed twice, and an owner that returned has closed its own. */
  lemma DoneClosedOnce(states: seq<State>, steps: seq<Step>, sticky: bool, i: nat, id: Id)
    requires Run(states, steps, sticky) && i < |states| && id < |states[i].fills|
    ensures states[i].fills[id].closes <= 1
    ensures var owner := states[i].fills[id].owner;
      owner < |states[i].requests| && states[i].requests[owner].phase.Returned? ==> states[i].fills[id].closes == 1
  {
    RunKeeps(states, steps, sticky, i);
    assert FillOk(states[i], id);
  }

  /** When a successful fill makes every later lookup succeed, at most one fill of
      a nonempty key ever succeeds. */
  lemma FillsOnce(states: seq<State>, steps: seq<Step>, i: nat, key: string)
    requires Run(states, steps, true) && i < |states| && key != ""
    ensures Successes(states[i], key) <= 1
  {
    RunKeeps(states, steps, true, i);
    assert SuccessOk(states[i], true, key);
  }

  /** A request whose own context is live never returns a cancellation error. */
  lemma LiveFollowerNotCanceled(states: seq<State>, steps: seq<Step>, sticky: bool, i: nat, r: Id)
    requires Run(states, steps, sticky) && i < |states| && r < |states[i].requests| &&
      states[i].requests[r].phase.Returned?
    requires !states[i].requests[r].canceled
    ensures states[i].requests[r].phase.outcome in {Hit, Filled, Failed(Broken)}
  {
    RunKeeps(states, steps, sticky, i);
    assert RequestOk(states[i], sticky, r);
    var out := states[i].requests[r].phase.outcome;
    assert out == Hit || out == Filled || out == Failed(out.error);
    assert out.Failed? ==> out.error == Broken;
  }

  /** No follower waits on an abandoned fill: while `done` is open, some other
      request owns the fill and has steps left before it closes it. */
  lemma WaitIsServed(states: seq<State>, steps: seq<Step>, sticky: bool, i: nat, r: Id)
    requires Run(states, steps, sticky) && i < |states| && r < |states[i].requests| &&
      states[i].requests[r].phase.Waiting?
    ensures var s := states[i]; var on := s.requests[r].phase.on;
      && on < |s.fills| && s.fills[on].key == s.requests[r].key
      && (Enabled(s, sticky, Wake(r)) ||
          (s.fills[on].owner != r && (Owns(s, s.fills[on].owner, on) || Enabled(s, sticky, Close(s.fills[on].owner)))))
  {
    RunKeeps(states, steps, sticky, i);
    assert RequestOk(states[i], sticky, r) && FillOk(states[i], states[i].requests[r].phase.on);
  }

  /** No request is ever stuck: until it has returned it has a step of its own, or it
      waits for a fill that is still open; and a follower whose context has ended can leave. */
  lemma NeverStuck(states: seq<State>, steps: seq<Step>, sticky: bool, i: nat, r: Id)
    requires Run(states, steps, sticky) && i < |states| && r < |states[i].requests|
    requires !states[i].requests[r].phase.Returned?
    ensures
      || (exists step: Step :: step.r == r && !step.Cancel? && Enabled(states[i], sticky, step))
      || (states[i].requests[r].phase.Waiting? && !states[i].requests[r].canceled &&
          FillOpen(states[i], states[i].requests[r].phase.on))
  {
    var s := states[i];
    RunKeeps(states, steps, sticky, i);
    assert RequestOk(s, sticky, r);
    match s.requests[r].phase
    case Idle =>
      assert s.requests[r].key in s.running ==> KeyOk(s, s.requests[r].key);
      assert Enabled(s, sticky, Begin(r));
    case Owner(_, stage) =>
      var step := OwnStep(r, stage);
      assert Enabled(s, sticky, step);
    case Closing(_, _, _) => assert Enabled(s, sticky, Close(r));
    case Waiting(on) =>
      assert s.fills[on].closes > 0 ==> Enabled(s, sticky, Wake(r));
      assert s.requests[r].canceled ==> Enabled(s, sticky, GiveUp(r));
    case Rechecking => assert Enabled(s, sticky, Recheck(r, Found));
  }

  /** The fill's `done` is not closed yet. */
  predicate FillOpen(s: State, id: Id) {
    id < |s.fills| && s.fills[id].closes == 0
  }

  ghost predicate Cancels(steps: seq<Step>, i: nat, j: nat, r: Id) {
    exists n :: i <= n < j && n < |steps| && steps[n] == Cancel(r)
  }

  lemma CancelsMore(steps: seq<Step>, i: nat, j: nat, r: Id)
    requires i < j <= |steps|
    ensures Cancels(steps, i, j, r) <==> Cancels(steps, i, j - 1, r) || steps[j - 1] == Cancel(r)
  {
  }

  /** A context ends once and for all, and only when it is cancelled. */
  lemma {:induction false} CanceledIff(states: seq<State>, steps: seq<Step>, sticky: bool, i: nat, j: nat, r: Id)
    requires Run(states, steps, sticky) && i <= j < |states| && r < |states[i].requests|
    ensures r < |states[j].requests|
    ensures states[j].requests[r].canceled <==>
      states[i].requests[r].canceled || Cancels(steps, i, j, r)
    decreases j - i
  {
    if i < j {
      CanceledIff(states, steps, sticky, i, j - 1, r);
      CanceledNext(states[j - 1], sticky, steps[j - 1], r);
      CancelsMore(steps, i, j, r);
    }
  }

  lemma CanceledNext(s: State, sticky: bool, step: Step, r: Id)
    requires Enabled(s, sticky, step) && r < |s.requests|
    ensures r < |Do(s, sticky, step).requests|
    ensures Do(s, sticky, step).requests[r].canceled <==> s.requests[r].canceled || step == Cancel(r)
  {
  }

  /** A lookup may find the artifact, may miss it unless a success is kept, and may fail
      for any reason but another request's context; a fill may succeed or fail alike. */
  lemma AnswersPossible(s: State, sticky: bool, r: Id, e: Error)
    requires r < |s.requests| && (e.CanceledBy? ==> e.request == r && s.requests[r].canceled)
    ensures var phase := s.requests[r].phase;
      && (phase.Owner? && phase.stage.Checking? ==>
        && Enabled(s, sticky, Check(r, Found))
        && (!sticky || s.requests[r].key !in s.stored ==>
          Enabled(s, sticky, Check(r, Missing)) && Enabled(s, sticky, Check(r, Answer.Error(e)))))
      && (phase.Rechecking? ==>
        && Enabled(s, sticky, Recheck(r, Found))
        && (!sticky || s.requests[r].key !in s.stored ==>
          Enabled(s, sticky, Recheck(r, Missing)) && Enabled(s, sticky, Recheck(r, Answer.Error(e)))))
      && (phase.Owner? && phase.stage.Filling? ==>
        Enabled(s, sticky, Step.Fill(r, true, e)) && Enabled(s, sticky, Step.Fill(r, false, e)))
  {
  }

  function OwnStep(r: Id, stage: Stage): Step {
    match stage
    case Checking => Check(r, Found)
    case Leasing => Lease(r, true)
    case Filling => Step.Fill(r, true, Broken)
    case Polling => Poll(r, true)
    case Settling(_) => Settle(r)
    case Deleting(_, _) => Delete(r)
  }

  // ---------------------------------------------------------------------------
  // What followers learn

  /** The verdict on the fill `id`: on its way from the owner, or published. */
  predicate Carries(s: State, id: Id, tracked: Tracked) {
    id < |s.fills| && s.fills[id].owner < |s.requests| &&
    var phase := s.requests[s.fills[id].owner].phase;
    || (phase.Owner? && phase.fill == Some(id) && phase.stage.Deleting? && phase.stage.tracked == tracked)
    || (phase.Closing? && phase.closing == id && phase.tracked == tracked)
    || (s.fills[id].closes == 1 && s.fills[id].tracked == tracked)
  }

  lemma CarriesOn(s: State, sticky: bool, step: Step, id: Id, tracked: Tracked)
    requires Enabled(s, sticky, step) && RequestOk(s, sticky, step.r) && Carries(s, id, tracked) && FillOk(s, id)
    ensures Carries(Do(s, sticky, step), id, tracked)
  {
    if !Tracks(step) {
      UntrackedStep(s, sticky, step);
      assert step.Cancel? || Works(step) || s.fills[id].owner != step.r || s.fills[id].closes == 1;
    }
  }

  lemma {:induction false} VerdictKept(states: seq<State>, steps: seq<Step>, sticky: bool, i: nat, j: nat, id: Id,
                                       tracked: Tracked)
    requires Run(states, steps, sticky) && i <= j < |states| && Carries(states[i], id, tracked)
    ensures Carries(states[j], id, tracked)
    decreases j - i
  {
    if i < j {
      VerdictKept(states, steps, sticky, i, j - 1, id, tracked);
      RunKeeps(states, steps, sticky, j - 1);
      assert RequestOk(states[j - 1], sticky, steps[j - 1].r) && FillOk(states[j - 1], id);
      CarriesOn(states[j - 1], sticky, steps[j - 1], id, tracked);
    }
  }

  /** What a live follower does once the fill is over, however many steps lie
      between: after a success it looks again; after a failure of an owner whose own
      context had ended it starts over; any other failure it returns as it was. */
  lemma FollowerLearns(states: seq<State>, steps: seq<Step>, sticky: bool, i: nat, j: nat, id: Id, out: Outcome, r: Id)
    requires Run(states, steps, sticky) && i < j < |steps| && steps[i].Settle? && steps[j] == Wake(r)
    requires states[i].requests[steps[i].r].phase == Owner(Some(id), Settling(out))
    requires states[j].requests[r].phase == Waiting(id) && !states[j].requests[r].canceled
    ensures states[j + 1].requests[r].phase ==
      if !out.Failed? then Rechecking
      else if states[i].requests[steps[i].r].canceled then Idle
      else Returned(Failed(out.error))
  {
    var o := steps[i].r;
    var tracked := TrackedError(states[i].requests[o], out);
    RunKeeps(states, steps, sticky, i);
    RunKeeps(states, steps, sticky, j);
    assert RequestOk(states[i], sticky, o);
    assert Carries(states[i + 1], id, tracked);
    VerdictKept(states, steps, sticky, i + 1, j, id, tracked);
    assert FillOk(states[j], id) && RequestOk(states[j], sticky, states[j].fills[id].owner);
    assert states[j].fills[id].tracked == tracked;
  }

  // ---------------------------------------------------------------------------
  // What a request returns

  /** The outcome that a step's answer decides for its own request, if it does: a hit, a
      finished fill, an error as it was reported, or the request's own ended context. */
  function Decides(s: State, step: Step): Option<Outcome>
    requires step.r < |s.requests|
  {
    match step
    case Check(_, answer) => Looked(answer)
    case Recheck(_, answer) => Looked(answer)
    case Fill(_, ok, error) => Some(if ok then Filled else Failed(error))
    case Poll(r, waited) => if waited then None else Some(Failed(CanceledBy(r)))
    case GiveUp(r) => Some(Failed(CanceledBy(r)))
    case Wake(r) => Heard(s, r)
    case _ => None
  }

  function Looked(answer: Answer): Option<Outcome> {
    match answer
    case Found => Some(Hit)
    case Missing => None
    case Error(e) => Some(Failed(e))
  }

  /** A follower whose context ended returns that; a live one returns a shared error. */
  function Heard(s: State, r: Id): Option<Outcome>
    requires r < |s.requests|
  {
    var q := s.requests[r];
    if !q.phase.Waiting? || q.phase.on >= |s.fills| || s.fills[q.phase.on].tracked.Success? then None
    else if q.canceled then Some(Failed(CanceledBy(r)))
    else if s.fills[q.phase.on].tracked.Shared? then Some(Failed(s.fills[q.phase.on].tracked.error))
    else None
  }

  /** The outcome is on its way to the caller, or returned. */
  predicate Committed(p: Phase, out: Outcome) {
    || (p.Owner? && p.stage.Settling? && p.stage.out == out)
    || (p.Owner? && p.stage.Deleting? && p.stage.result == out)
    || (p.Closing? && p.out == out)
    || (p.Returned? && p.outcome == out)
  }

  /** A step commits its request exactly to what it decides; commitments stay. */
  lemma StepCommits(s: State, sticky: bool, step: Step, r: Id, out: Outcome)
    requires Enabled(s, sticky, step) && r < |s.requests|
    ensures |Do(s, sticky, step).requests| == |s.requests|
    ensures Committed(Do(s, sticky, step).requests[r].phase, out) <==>
      Committed(s.requests[r].phase, out) || (step.r == r && Decides(s, step) == Some(out))
  {
    if !Acts(step, r) {
      PhaseStays(s, sticky, step, r);
    } else if Works(step) {
      WorkCommits(s, sticky, step, out);
    } else if step.Wake? {
      WakeCommits(s, sticky, step, out);
    } else {
      OtherCommits(s, sticky, step, out);
    }
  }

  lemma WorkCommits(s: State, sticky: bool, step: Step, out: Outcome)
    requires Enabled(s, sticky, step) && Works(step)
    ensures |Do(s, sticky, step).requests| == |s.requests|
    ensures Committed(Do(s, sticky, step).requests[step.r].phase, out) <==>
      Committed(s.requests[step.r].phase, out) || Decides(s, step) == Some(out)
  {
  }

  lemma WakeCommits(s: State, sticky: bool, step: Step, out: Outcome)
    requires Enabled(s, sticky, step) && step.Wake?
    ensures |Do(s, sticky, step).requests| == |s.requests|
    ensures Committed(Do(s, sticky, step).requests[step.r].phase, out) <==>
      Committed(s.requests[step.r].phase, out) || Decides(s, step) == Some(out)
  {
  }

  lemma OtherCommits(s: State, sticky: bool, step: Step, out: Outcome)
    requires Enabled(s, sticky, step) && Acts(step, step.r) && !Works(step) && !step.Wake?
    ensures |Do(s, sticky, step).requests| == |s.requests|
    ensures Committed(Do(s, sticky, step).requests[step.r].phase, out) <==>
      Committed(s.requests[step.r].phase, out) || Decides(s, step) == Some(out)
  {
  }

  lemma {:induction false} CommitmentStays(states: seq<State>, steps: seq<Step>, sticky: bool, i: nat, j: nat, r: Id,
                                           out: Outcome)
    requires Run(states, steps, sticky) && i <= j < |states| && r < |states[i].requests|
    requires Committed(states[i].requests[r].phase, out)
    ensures r < |states[j].requests| && Committed(states[j].requests[r].phase, out)
    decreases j - i
  {
    if i < j {
      CommitmentStays(states, steps, sticky, i, j - 1, r, out);
      StepCommits(states[j - 1], sticky, steps[j - 1], r, out);
    }
  }

  /** What a step decides is what its request returns, whatever happens in between. */
  lemma ReturnsDecision(states: seq<State>, steps: seq<Step>, sticky: bool, i: nat, j: nat)
    requires Run(states, steps, sticky) && i < j < |states| && Decides(states[i], steps[i]).Some?
    requires steps[i].r < |states[j].requests| && states[j].requests[steps[i].r].phase.Returned?
    ensures states[j].requests[steps[i].r].phase.outcome == Decides(states[i], steps[i]).value
  {
    StepCommits(states[i], sticky, steps[i], steps[i].r, Decides(states[i], steps[i]).value);
    CommitmentStays(states, steps, sticky, i + 1, j, steps[i].r, Decides(states[i], steps[i]).value);
  }

  /** And nothing is returned that no step of the request decided. */
  lemma {:induction false} ReturnedWasDecided(states: seq<State>, steps: seq<Step>, sticky: bool, j: nat, r: Id,
                                              out: Outcome)
    requires Run(states, steps, sticky) && j < |states| && r < |states[j].requests|
    requires Committed(states[j].requests[r].phase, out)
    ensures exists i :: 0 <= i < j && steps[i].r == r && Decides(states[i], steps[i]) == Some(out)
  {
    assert j > 0;
    StepCommits(states[j - 1], sticky, steps[j - 1], r, out);
    if !(steps[j - 1].r == r && Decides(states[j - 1], steps[j - 1]) == Some(out)) {
      ReturnedWasDecided(states, steps, sticky, j - 1, r, out);
    }
  }

  /** The step is one of the request's own work, not the end of its context. */
  predicate Acts(step: Step, r: Id) { step.r == r && !step.Cancel? }

  lemma PhaseStays(s: State, sticky: bool, step: Step, r: Id)
    requires Enabled(s, sticky, step) && r < |s.requests| && !Acts(step, r)
    ensures |Do(s, sticky, step).requests| == |s.requests|
    ensures Do(s, sticky, step).requests[r].phase == s.requests[r].phase
  {
  }

  lemma {:induction false} PhaseWaits(states: seq<State>, steps: seq<Step>, sticky: bool, i: nat, j: nat, r: Id)
    requires Run(states, steps, sticky) && i <= j < |states| && r < |states[i].requests|
    requires forall n :: i <= n < j ==> !Acts(steps[n], r)
    ensures r < |states[j].requests| && states[j].requests[r].phase == states[i].requests[r].phase
    decreases j - i
  {
    if i < j {
      PhaseWaits(states, steps, sticky, i, j - 1, r);
      PhaseStays(states[j - 1], sticky, steps[j - 1], r);
    }
  }

  /** What a request does next when a step decides nothing yet: after a miss it asks for
      the lease, with the lease it fills, without it polls, then looks again; a follower
      that misses after a success starts over. */
  lemma WorkOrder(states: seq<State>, steps: seq<Step>, sticky: bool, i: nat, j: nat)
    requires Run(states, steps, sticky) && i < j < |steps| && Acts(steps[i], steps[i].r)
    requires Acts(steps[j], steps[i].r) && forall n :: i < n < j ==> !Acts(steps[n], steps[i].r)
    ensures match steps[i]
      case Check(_, answer) => if answer.Missing? then steps[j].Lease? else steps[j].Settle?
      case Lease(_, acquired) => if acquired then steps[j].Fill? else steps[j].Poll?
      case Fill(_, _, _) => steps[j].Settle?
      case Poll(_, waited) => if waited then steps[j].Check? else steps[j].Settle?
      case Settle(_) => steps[j].Delete?
      case Recheck(_, answer) => answer.Missing? && steps[j].Begin?
      case _ => true
  {
    PhaseWaits(states, steps, sticky, i + 1, j, steps[i].r);
  }

  lemma {:induction false} SettleFound(states: seq<State>, steps: seq<Step>, sticky: bool, i: nat, j: nat, o: Id,
                                       id: Id, out: Outcome) returns (k: nat)
    requires Run(states, steps, sticky) && i <= j < |states| && o < |states[i].requests|
    requires states[i].requests[o].phase == Owner(Some(id), Settling(out))
    requires id < |states[j].fills| && states[j].fills[id].closes > 0
    ensures i <= k < j && steps[k] == Settle(o) && o < |states[k].requests|
    ensures states[k].requests[o].phase == Owner(Some(id), Settling(out))
    decreases j - i
  {
    RunKeeps(states, steps, sticky, i);
    assert RequestOk(states[i], sticky, o);
    if steps[i] == Settle(o) {
      return i;
    }
    assert !Acts(steps[i], o);
    PhaseStays(states[i], sticky, steps[i], o);
    k := SettleFound(states, steps, sticky, i + 1, j, o, id, out);
  }

  /** From the owner's answer to its followers: whatever step decided the owner's
      outcome, a live follower of that fill looks again after a success, starts over if
      the owner's own context had ended when it settled, and otherwise returns the very
      error that the owner met. */
  lemma FollowerHearsOwner(states: seq<State>, steps: seq<Step>, sticky: bool, i: nat, j: nat, id: Id, r: Id)
    requires Run(states, steps, sticky) && i < j < |steps| && Works(steps[i]) && Decides(states[i], steps[i]).Some?
    requires states[i].requests[steps[i].r].phase.fill == Some(id) && steps[j] == Wake(r)
    requires states[j].requests[r].phase == Waiting(id) && !states[j].requests[r].canceled
    ensures var out := Decides(states[i], steps[i]).value; var o := steps[i].r;
      exists k :: i < k < j && steps[k] == Settle(o) && o < |states[k].requests| &&
        states[j + 1].requests[r].phase ==
          if !out.Failed? then Rechecking
          else if states[k].requests[o].canceled then Idle
          else Returned(Failed(out.error))
  {
    var o, out := steps[i].r, Decides(states[i], steps[i]).value;
    UntrackedStep(states[i], sticky, steps[i]);
    assert states[i + 1].requests[o].phase == Owner(Some(id), Settling(out));
    var k := SettleFound(states, steps, sticky, i + 1, j, o, id, out);
    FollowerLearns(states, steps, sticky, k, j, id, out, r);
  }
}
