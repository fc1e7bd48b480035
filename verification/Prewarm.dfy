/** Admission permits for prewarming an image's blobs. A request's handler, the
    callback that its ended context starts, and a pool worker race over one plan;
    their steps interleave in any order. */
module Prewarm {
  type Id = nat

  const PERMITS := 4

  datatype Handler =
    | Start
    | Admitted          // has a permit; parsing the manifest
    | Dropping          // no plan; about to release
    | Publishing        // registering the callback, with the plan's mutex held
    | Planned           // the response is being completed
    | Taking
    | TakeLost          // the context ended; about to discard
    | TakeReleasing
    | Submitting        // took the work and its release
    | GivingUp          // no worker; about to release
    | Leaving           // the deferred discard
    | LeaveReleasing
    | Done

  /** The callback that `context.AfterFunc` registered. */
  datatype Callback = Unregistered | Pending | Discarding | CallbackReleasing | Finished | Stopped

  datatype Worker = Unused | Queued | WorkerReleasing | Ended

  /** `work`, `release` and `stopCancel` say whether the plan's field is set. */
  datatype Plan = Plan(work: bool, release: bool, stopCancel: bool, locked: bool)

  datatype Request = Request(
    canceled: bool, handler: Handler, callback: Callback, worker: Worker, plan: Plan,
    acquired: bool, releases: nat, runs: nat, discarded: bool)

  datatype State = State(free: nat, requests: seq<Request>)

  datatype Step =
    | Cancel(r: Id)
    | Skip(r: Id)                        // nothing to prewarm
    | Admit(r: Id)
    | Parse(r: Id, ok: bool)
    | Drop(r: Id)
    | Publish(r: Id)
    | Complete(r: Id, ok: bool)
    | Take(r: Id)
    | DiscardInTake(r: Id)
    | ReleaseInTake(r: Id)
    | Submit(r: Id, accepted: bool)
    | GiveUp(r: Id)
    | Leave(r: Id)
    | LeaveRelease(r: Id)
    | StartCallback(r: Id)
    | CallbackDiscard(r: Id)
    | CallbackRelease(r: Id)
    | Run(r: Id)
    | WorkerRelease(r: Id)

  predicate Enabled(s: State, step: Step) {
    step.r < |s.requests| && CanStep(s.requests[step.r], step)
  }

  predicate CanStep(q: Request, step: Step) {
    match step
    case Cancel(_) => true
    case Skip(_) => q.handler.Start?
    case Admit(_) => q.handler.Start?
    case Parse(_, _) => q.handler.Admitted?
    case Drop(_) => q.handler.Dropping?
    case Publish(_) => q.handler.Publishing?
    case Complete(_, _) => q.handler.Planned?
    case Take(_) => q.handler.Taking? && !q.plan.locked
    case DiscardInTake(_) => q.handler.TakeLost? && !q.plan.locked
    case ReleaseInTake(_) => q.handler.TakeReleasing?
    case Submit(_, _) => q.handler.Submitting?
    case GiveUp(_) => q.handler.GivingUp?
    case Leave(_) => q.handler.Leaving? && !q.plan.locked
    case LeaveRelease(_) => q.handler.LeaveReleasing?
    case StartCallback(_) => q.callback.Pending? && q.canceled
    case CallbackDiscard(_) => q.callback.Discarding? && !q.plan.locked
    case CallbackRelease(_) => q.callback.CallbackReleasing?
    case Run(_) => q.worker.Queued?
    case WorkerRelease(_) => q.worker.WorkerReleasing?
  }

  /** The locked part of `discard`, when the plan still has its work. */
  function Discarded(q: Request): Request {
    q.(plan := Plan(false, false, false, q.plan.locked), discarded := true,
       callback := if q.callback.Pending? then Stopped else q.callback)
  }

  /** `stopCancel()`: true when it kept the callback from ever starting. */
  predicate Stops(q: Request) { q.callback.Pending? }

  function Released(q: Request): Request { q.(releases := q.releases + 1) }

  /** What a step does to its request. `free` is whether a permit is left. */
  function Next(q: Request, step: Step, free: bool): Request {
    match step
    case Cancel(_) => q.(canceled := true)
    case Skip(_) => q.(handler := Done)
    case Admit(_) => if q.canceled || !free then q.(handler := Done) else q.(handler := Admitted, acquired := true)
    case Parse(_, ok) =>
      if ok then q.(handler := Publishing, plan := Plan(true, true, false, true), callback := Pending)
      else q.(handler := Dropping)
    case Drop(_) => Released(q).(handler := Done)
    case Publish(_) => q.(handler := Planned, plan := q.plan.(stopCancel := true, locked := false))
    case Complete(_, ok) => q.(handler := if ok then Taking else Leaving)
    case Take(_) =>
      if !q.plan.work then q.(handler := Leaving)
      else if q.canceled || !Stops(q) then q.(handler := TakeLost)
      else q.(handler := Submitting, callback := Stopped, plan := Plan(false, false, false, false))
    case DiscardInTake(_) => if !q.plan.work then q.(handler := Leaving) else Discarded(q).(handler := TakeReleasing)
    case ReleaseInTake(_) => Released(q).(handler := Leaving)
    case Submit(_, accepted) => if accepted then q.(handler := Leaving, worker := Queued) else q.(handler := GivingUp)
    case GiveUp(_) => Released(q).(handler := Leaving)
    case Leave(_) => if !q.plan.work then q.(handler := Done) else Discarded(q).(handler := LeaveReleasing)
    case LeaveRelease(_) => Released(q).(handler := Done)
    case StartCallback(_) => q.(callback := Discarding)
    case CallbackDiscard(_) =>
      if !q.plan.work then q.(callback := Finished) else Discarded(q).(callback := CallbackReleasing)
    case CallbackRelease(_) => Released(q).(callback := Finished)
    case Run(_) => q.(runs := q.runs + 1, worker := WorkerReleasing)
    case WorkerRelease(_) => Released(q).(worker := Ended)
  }

  /** Admission takes a permit; only the first call of `release` returns it. */
  function Do(s: State, step: Step): State
    requires Enabled(s, step)
  {
    var q := s.requests[step.r];
    var next := Next(q, step, s.free > 0);
    State(FreeAfter(s, q, next), s.requests[step.r := next])
  }

  function FreeAfter(s: State, q: Request, next: Request): nat {
    if next.acquired && !q.acquired && s.free > 0 then s.free - 1
    else if next.releases > q.releases && q.releases == 0 then s.free + 1
    else s.free
  }

  predicate Fresh(q: Request) {
    && q.handler.Start? && q.callback.Unregistered? && q.worker.Unused? && q.plan == Plan(false, false, false, false)
    && !q.acquired && q.releases == 0 && q.runs == 0 && !q.discarded
  }

  predicate Init(s: State) {
    s.free == PERMITS && forall r :: 0 <= r < |s.requests| ==> Fresh(s.requests[r])
  }

  // ---------------------------------------------------------------------------
  // The invariant of one request

  function One(b: bool): nat { if b then 1 else 0 }

  /** The handler itself has the release. */
  predicate Owing(h: Handler) {
    h.Admitted? || h.Dropping? || h.TakeReleasing? || h.Submitting? || h.GivingUp? || h.LeaveReleasing?
  }

  /** The plan may still have its work. */
  predicate Open(h: Handler) {
    h.Publishing? || h.Planned? || h.Taking? || h.TakeLost? || h.Leaving?
  }

  predicate Unplanned(h: Handler) {
    h.Start? || h.Admitted? || h.Dropping?
  }

  predicate WorkerOwes(w: Worker) { w.Queued? || w.WorkerReleasing? }

  /** The place from which `release` will still be called, if the permit is held:
      the handler, the plan, the callback or the worker, and never two of them. */
  predicate OneOwes(q: Request) {
    && (Owing(q.handler) || q.plan.release || q.callback.CallbackReleasing? || WorkerOwes(q.worker) <==>
      q.acquired && q.releases == 0)
    && !(Owing(q.handler) && (q.plan.release || q.callback.CallbackReleasing? || WorkerOwes(q.worker)))
    && !(q.plan.release && (q.callback.CallbackReleasing? || WorkerOwes(q.worker)))
    && !(q.callback.CallbackReleasing? && WorkerOwes(q.worker))
    && q.releases <= 1 && (q.releases == 1 ==> q.acquired)
  }

  predicate RequestOk(q: Request) {
    && OneOwes(q)
    && q.plan.work == q.plan.release
    && q.plan.locked == q.handler.Publishing?
    && (q.plan.work ==> q.plan.stopCancel || q.plan.locked)
    && (q.plan.work ==> Open(q.handler) && !q.discarded)
    && (q.plan.work ==> q.callback.Pending? || q.callback.Discarding?)
    && (q.callback.Pending? ==> q.plan.work)
    && (Unplanned(q.handler) ==> q.callback.Unregistered? && !q.plan.work && !q.discarded)
    && (q.handler.Publishing? ==> q.plan.work)
    && (q.handler.Planned? && !q.plan.work ==> q.discarded)
    && ((q.handler.Planned? || q.handler.Taking?) && !q.plan.work ==> q.canceled)
    && (q.callback.Discarding? ==> q.canceled)
    && (q.handler.Submitting? || q.handler.GivingUp? ==> !q.discarded)
    && (!q.worker.Unused? ==> !q.discarded && (q.handler.Leaving? || q.handler.Done?))
    && (q.handler.Start? ==> !q.acquired && q.worker.Unused?)
    && (q.worker.Ended? ==> q.releases == 1)
    && q.runs == (if q.worker.WorkerReleasing? || q.worker.Ended? then 1 else 0)
    && (q.callback.CallbackReleasing? ==> q.discarded)
  }

  lemma RequestKeeps(q: Request, step: Step, free: bool)
    requires RequestOk(q) && CanStep(q, step)
    ensures RequestOk(Next(q, step, free))
  {
  }

  // ---------------------------------------------------------------------------
  // Conservation of the permits

  predicate Holding(q: Request) { q.acquired && q.releases == 0 }

  /** How many requests hold a permit. */
  function Held(requests: seq<Request>): nat {
    if requests == [] then 0 else One(Holding(requests[0])) + Held(requests[1..])
  }

  ghost predicate Inv(s: State) {
    s.free + Held(s.requests) == 4 && forall r: Id :: r < |s.requests| ==> RequestOk(s.requests[r])
  }

  /** Replacing one request changes the count by that request only. */
  lemma {:induction false} HeldChange(requests: seq<Request>, r: Id, next: Request)
    requires r < |requests|
    ensures Held(requests[r := next]) + One(Holding(requests[r])) == Held(requests) + One(Holding(next))
  {
    if r == 0 {
      assert requests[0 := next][1..] == requests[1..];
    } else {
      assert requests[r := next][1..] == requests[1..][r - 1 := next];
      HeldChange(requests[1..], r - 1, next);
    }
  }

  lemma PermitsKept(s: State, step: Step)
    requires Inv(s) && Enabled(s, step)
    ensures var t := Do(s, step); t.free + Held(t.requests) == 4
  {
    var q, next := s.requests[step.r], Next(s.requests[step.r], step, s.free > 0);
    assert RequestOk(q);
    Moves(q, step, s.free > 0);
    HeldChange(s.requests, step.r, next);
    Exchanged(s, step.r, q, next);
  }

  /** The permit counter moves as the request does. */
  lemma Exchanged(s: State, r: Id, q: Request, next: Request)
    requires r < |s.requests| && s.requests[r] == q && RequestOk(q)
    requires next.acquired && !q.acquired ==> s.free > 0 && next.releases == q.releases == 0
    requires q.acquired ==> next.acquired
    requires next.releases == q.releases || (next.releases == 1 && q.releases == 0 && q.acquired)
    ensures FreeAfter(s, q, next) + One(Holding(next)) == s.free + One(Holding(q))
  {
  }

  /** A step takes a permit only if one is free, or calls `release` at most once. */
  lemma Moves(q: Request, step: Step, free: bool)
    requires RequestOk(q) && CanStep(q, step)
    ensures var next := Next(q, step, free);
      && (next.acquired && !q.acquired ==> free && next.releases == q.releases == 0)
      && (q.acquired ==> next.acquired)
      && (next.releases == q.releases || (next.releases == 1 && q.releases == 0 && q.acquired))
  {
  }

  lemma StepKeeps(s: State, step: Step)
    requires Inv(s) && Enabled(s, step)
    ensures Inv(Do(s, step))
  {
    PermitsKept(s, step);
    forall r: Id | r < |s.requests| ensures RequestOk(Do(s, step).requests[r]) {
      if r == step.r {
        RequestKeeps(s.requests[r], step, s.free > 0);
      }
    }
  }

  lemma {:induction false} NoneHeld(requests: seq<Request>)
    requires forall r :: 0 <= r < |requests| ==> Fresh(requests[r])
    ensures Held(requests) == 0
  {
    if requests != [] {
      assert forall r :: 0 <= r < |requests| - 1 ==> requests[1..][r] == requests[r + 1];
      NoneHeld(requests[1..]);
    }
  }

  lemma InitInv(s: State)
    requires Init(s)
    ensures Inv(s)
  {
    NoneHeld(s.requests);
  }

  // ---------------------------------------------------------------------------
  // Every run

  ghost predicate Run(states: seq<State>, steps: seq<Step>) {
    && |states| == |steps| + 1 && Init(states[0])
    && forall i :: 0 <= i < |steps| ==> Enabled(states[i], steps[i]) && states[i + 1] == Do(states[i], steps[i])
  }

  /** Free and held permits always make four. */
  lemma {:induction false} RunKeeps(states: seq<State>, steps: seq<Step>, i: nat)
    requires Run(states, steps) && i < |states|
    ensures Inv(states[i])
  {
    if i == 0 {
      InitInv(states[0]);
    } else {
      RunKeeps(states, steps, i - 1);
      StepKeeps(states[i - 1], steps[i - 1]);
    }
  }

  /** `release` is called at most once, and exactly once when all are done. */
  lemma ReleasedOnce(states: seq<State>, steps: seq<Step>, i: nat, r: Id)
    requires Run(states, steps) && i < |states| && r < |states[i].requests|
    ensures var q := states[i].requests[r];
      && q.releases <= 1 && (q.releases == 1 ==> q.acquired)
      && (q.handler.Done? && !q.callback.CallbackReleasing? && !WorkerOwes(q.worker) && q.acquired ==> q.releases == 1)
  {
    RunKeeps(states, steps, i);
    assert RequestOk(states[i].requests[r]);
  }

  /** The worker runs the fill at most once, and never once the plan was discarded. */
  lemma RunsOnce(states: seq<State>, steps: seq<Step>, i: nat, r: Id)
    requires Run(states, steps) && i < |states| && r < |states[i].requests|
    ensures states[i].requests[r].runs <= 1
    ensures states[i].requests[r].discarded ==> states[i].requests[r].runs == 0 && !Enabled(states[i], Step.Run(r))
  {
    RunKeeps(states, steps, i);
    assert RequestOk(states[i].requests[r]);
  }

  /** While the mutex is free and the plan has its work, `stopCancel` is set, so
      neither `take` nor `discard` calls a missing function. */
  lemma StopCancelSet(states: seq<State>, steps: seq<Step>, i: nat, r: Id)
    requires Run(states, steps) && i < |states| && r < |states[i].requests|
    requires states[i].requests[r].plan.work && !states[i].requests[r].plan.locked
    ensures states[i].requests[r].plan.stopCancel && states[i].requests[r].plan.release
  {
    RunKeeps(states, steps, i);
    assert RequestOk(states[i].requests[r]);
  }

  /** No callback outlives the work it guards: once the plan has lost its work, the
      registration is gone or the callback has started. */
  lemma NoCallbackLeft(states: seq<State>, steps: seq<Step>, i: nat, r: Id)
    requires Run(states, steps) && i < |states| && r < |states[i].requests|
    ensures states[i].requests[r].callback.Pending? ==>
      states[i].requests[r].plan.work && !states[i].requests[r].handler.Done?
  {
    RunKeeps(states, steps, i);
    assert RequestOk(states[i].requests[r]);
  }

  /** The steps of the callback and the worker, which need nobody's cooperation. */
  predicate FreesAlone(q: Request, r: Id) {
    || CanStep(q, StartCallback(r)) || CanStep(q, CallbackDiscard(r)) || CanStep(q, CallbackRelease(r))
    || CanStep(q, Step.Run(r)) || CanStep(q, WorkerRelease(r))
  }

  /** No permit is stranded: while one is held, the handler is still under way or
      the callback or the worker can step. When the context has ended, a handler
      that never finishes its response does not keep the permit either. */
  lemma NoPermitStranded(states: seq<State>, steps: seq<Step>, i: nat, r: Id)
    requires Run(states, steps) && i < |states| && r < |states[i].requests| && Holding(states[i].requests[r])
    ensures var q := states[i].requests[r];
      (!q.handler.Done? || FreesAlone(q, r)) && (q.handler.Planned? && q.canceled ==> FreesAlone(q, r))
  {
    RunKeeps(states, steps, i);
    assert RequestOk(states[i].requests[r]);
  }

  /** The steps of a request's handler. */
  predicate Handles(step: Step) {
    || step.Skip? || step.Admit? || step.Parse? || step.Drop? || step.Publish? || step.Complete? || step.Take?
    || step.DiscardInTake? || step.ReleaseInTake? || step.Submit? || step.GiveUp? || step.Leave? || step.LeaveRelease?
  }

  /** A handler is never stuck: not even on the plan's mutex. */
  lemma HandlerNeverStuck(states: seq<State>, steps: seq<Step>, i: nat, r: Id)
    requires Run(states, steps) && i < |states| && r < |states[i].requests| && !states[i].requests[r].handler.Done?
    ensures exists step :: Handles(step) && step.r == r && Enabled(states[i], step)
  {
    var q := states[i].requests[r];
    RunKeeps(states, steps, i);
    assert RequestOk(q);
    var step := HandlerStep(q.handler, r);
    assert Handles(step) && CanStep(q, step);
  }

  /** Nobody but the handler moves the handler. */
  lemma HandlerStays(s: State, step: Step, r: Id)
    requires Enabled(s, step) && r < |s.requests| && !(Handles(step) && step.r == r)
    ensures r < |Do(s, step).requests| && Do(s, step).requests[r].handler == s.requests[r].handler
  {
  }

  lemma {:induction false} HandlerWaits(states: seq<State>, steps: seq<Step>, i: nat, j: nat, r: Id)
    requires Run(states, steps) && i <= j < |states| && r < |states[i].requests|
    requires forall n :: i <= n < j ==> !(Handles(steps[n]) && steps[n].r == r)
    ensures r < |states[j].requests| && states[j].requests[r].handler == states[i].requests[r].handler
    decreases j - i
  {
    if i < j {
      HandlerWaits(states, steps, i, j - 1, r);
      HandlerStays(states[j - 1], steps[j - 1], r);
    }
  }

  /** What a handler does after each of its steps: an admitted one parses; without a plan
      it drops its permit, with one it publishes it and completes the response; after a
      completed response it takes the work, and what it took it submits; without a worker
      it gives up. */
  lemma HandlerOrder(states: seq<State>, steps: seq<Step>, i: nat, j: nat, r: Id)
    requires Run(states, steps) && i < j < |steps| && Handles(steps[i]) && Handles(steps[j])
    requires steps[i].r == steps[j].r == r && forall n :: i < n < j ==> !(Handles(steps[n]) && steps[n].r == r)
    ensures match steps[i]
      case Skip(_) => false
      case Admit(_) => steps[j].Parse?
      case Parse(_, ok) => if ok then steps[j].Publish? else steps[j].Drop?
      case Publish(_) => steps[j].Complete?
      case Complete(_, ok) => if ok then steps[j].Take? else steps[j].Leave?
      case Take(_) =>
        if !states[i].requests[r].plan.work then steps[j].Leave?
        else if states[i].requests[r].canceled then steps[j].DiscardInTake? else steps[j].Submit?
      case DiscardInTake(_) => if states[i].requests[r].plan.work then steps[j].ReleaseInTake? else steps[j].Leave?
      case Submit(_, accepted) => if accepted then steps[j].Leave? else steps[j].GiveUp?
      case Leave(_) => states[i].requests[r].plan.work && steps[j].LeaveRelease?
      case Drop(_) => false
      case LeaveRelease(_) => false
      case _ => steps[j].Leave?
  {
    RunKeeps(states, steps, i);
    assert RequestOk(states[i].requests[r]);
    HandlerNext(states[i].requests[r], steps[i], states[i].free > 0);
    HandlerWaits(states, steps, i + 1, j, r);
    HandlerTurn(states[j].requests[r], steps[j]);
  }

  lemma HandlerNext(q: Request, step: Step, free: bool)
    requires RequestOk(q) && CanStep(q, step) && Handles(step)
    ensures var next := Next(q, step, free).handler;
      match step
      case Skip(_) => next == Done
      case Admit(_) => next == Admitted || next == Done
      case Parse(_, ok) => next == if ok then Publishing else Dropping
      case Publish(_) => next == Planned
      case Complete(_, ok) => next == if ok then Taking else Leaving
      case Take(_) => next == if !q.plan.work then Leaving else if q.canceled then TakeLost else Submitting
      case DiscardInTake(_) => next == if q.plan.work then TakeReleasing else Leaving
      case Submit(_, accepted) => next == if accepted then Leaving else GivingUp
      case Leave(_) => next == if q.plan.work then LeaveReleasing else Done
      case Drop(_) => next == Done
      case LeaveRelease(_) => next == Done
      case _ => next == Leaving
  {
  }

  lemma HandlerTurn(q: Request, step: Step)
    requires CanStep(q, step) && Handles(step)
    ensures match q.handler
      case Admitted => step.Parse?
      case Dropping => step.Drop?
      case Publishing => step.Publish?
      case Planned => step.Complete?
      case Taking => step.Take?
      case TakeLost => step.DiscardInTake?
      case Submitting => step.Submit?
      case TakeReleasing => step.ReleaseInTake?
      case GivingUp => step.GiveUp?
      case Leaving => step.Leave?
      case LeaveReleasing => step.LeaveRelease?
      case Done => false
      case Start => true
  {
  }

  ghost predicate Cancels(steps: seq<Step>, i: nat, j: nat, r: Id) {
    exists n :: i <= n < j && n < |steps| && steps[n] == Cancel(r)
  }

  lemma CancelsMore(steps: seq<Step>, i: nat, j: nat, r: Id)
    requires i < j <= |steps|
    ensures Cancels(steps, i, j, r) <==> Cancels(steps, i, j - 1, r) || steps[j - 1] == Cancel(r)
  {
  }

  /** A context ends once and for all, and only when it is cancelled. */
  lemma {:induction false} CanceledIff(states: seq<State>, steps: seq<Step>, i: nat, j: nat, r: Id)
    requires Run(states, steps) && i <= j < |states| && r < |states[i].requests|
    ensures r < |states[j].requests|
    ensures states[j].requests[r].canceled <==>
      states[i].requests[r].canceled || Cancels(steps, i, j, r)
    decreases j - i
  {
    if i < j {
      CanceledIff(states, steps, i, j - 1, r);
      CanceledNext(states[j - 1], steps[j - 1], r);
      CancelsMore(steps, i, j, r);
    }
  }

  lemma CanceledNext(s: State, step: Step, r: Id)
    requires Enabled(s, step) && r < |s.requests|
    ensures r < |Do(s, step).requests|
    ensures Do(s, step).requests[r].canceled <==> s.requests[r].canceled || step == Cancel(r)
  {
  }

  function HandlerStep(h: Handler, r: Id): Step {
    match h
    case Start => Admit(r)
    case Admitted => Parse(r, true)
    case Dropping => Drop(r)
    case Publishing => Publish(r)
    case Planned => Complete(r, true)
    case Taking => Take(r)
    case TakeLost => DiscardInTake(r)
    case TakeReleasing => ReleaseInTake(r)
    case Submitting => Submit(r, true)
    case GivingUp => GiveUp(r)
    case Leaving => Leave(r)
    case LeaveReleasing => LeaveRelease(r)
    case Done => Skip(r)
  }

  /** A permit is taken exactly when one is free and the context is live. */
  lemma AdmittedIff(states: seq<State>, steps: seq<Step>, i: nat, r: Id)
    requires Run(states, steps) && i < |steps| && steps[i] == Admit(r)
    ensures Holding(states[i + 1].requests[r]) <==> states[i].free > 0 && !states[i].requests[r].canceled
    ensures states[i + 1].requests[r].handler == if Holding(states[i + 1].requests[r]) then Admitted else Done
  {
    RunKeeps(states, steps, i);
    assert RequestOk(states[i].requests[r]);
  }

  /** A handler with a live context always gets its work to submit. */
  lemma LiveTakeSubmits(states: seq<State>, steps: seq<Step>, i: nat, r: Id)
    requires Run(states, steps) && i < |steps| && steps[i] == Take(r) && !states[i].requests[r].canceled
    ensures states[i + 1].requests[r].handler.Submitting? && Holding(states[i + 1].requests[r])
  {
    RunKeeps(states, steps, i);
    assert RequestOk(states[i].requests[r]);
  }

  /** An accepted fill runs, or can still run, whatever the others do meanwhile. */
  lemma AcceptedRuns(states: seq<State>, steps: seq<Step>, i: nat, j: nat, r: Id)
    requires Run(states, steps) && i < j < |states| && steps[i] == Submit(r, true)
    ensures r < |states[j].requests|
    ensures states[j].requests[r].runs == 1 || Enabled(states[j], Step.Run(r))
  {
    AcceptedStays(states, steps, i, j, r);
  }

  lemma {:induction false} AcceptedStays(states: seq<State>, steps: seq<Step>, i: nat, j: nat, r: Id)
    requires Run(states, steps) && i < j < |states| && steps[i] == Submit(r, true)
    ensures r < |states[j].requests|
    ensures states[j].requests[r].runs == 1 || states[j].requests[r].worker.Queued?
    decreases j - i
  {
    if i + 1 < j {
      AcceptedStays(states, steps, i, j - 1, r);
      RunKeeps(states, steps, j - 1);
      GoesOn(states[j - 1], steps[j - 1], r);
    } else {
      SubmitQueues(states[i], r);
    }
  }

  lemma SubmitQueues(s: State, r: Id)
    requires Enabled(s, Submit(r, true))
    ensures r < |Do(s, Submit(r, true)).requests| && Do(s, Submit(r, true)).requests[r].worker.Queued?
  {
  }

  lemma GoesOn(s: State, step: Step, r: Id)
    requires Enabled(s, step) && r < |s.requests| && RequestOk(s.requests[r])
    requires s.requests[r].runs == 1 || s.requests[r].worker.Queued?
    ensures r < |Do(s, step).requests|
    ensures Do(s, step).requests[r].runs == 1 || Do(s, step).requests[r].worker.Queued?
  {
    if step.r == r {
      RanOrQueued(s.requests[r], step, s.free > 0);
    }
  }

  lemma RanOrQueued(q: Request, step: Step, free: bool)
    requires RequestOk(q) && CanStep(q, step) && (q.runs == 1 || q.worker.Queued?)
    ensures Next(q, step, free).runs == 1 || Next(q, step, free).worker.Queued?
  {
  }

  /** The context ended before the handler took the work, or the handler is past
      taking it without a worker. */
  predicate NeverRuns(q: Request) {
    q.worker.Unused? && (PastTake(q.handler) || (q.canceled && !q.handler.Submitting? && !q.handler.GivingUp?))
  }

  /** Taking the work failed, or is over. */
  predicate PastTake(h: Handler) {
    h.TakeLost? || h.TakeReleasing? || h.Leaving? || h.LeaveReleasing? || h.Done?
  }

  lemma NeverRunsKept(q: Request, step: Step, free: bool)
    requires NeverRuns(q) && CanStep(q, step)
    ensures NeverRuns(Next(q, step, free))
  {
  }

  lemma NextNeverRuns(s: State, step: Step, r: Id)
    requires Enabled(s, step) && r < |s.requests| && NeverRuns(s.requests[r])
    ensures |Do(s, step).requests| == |s.requests| && NeverRuns(Do(s, step).requests[r])
  {
    if step.r == r {
      NeverRunsKept(s.requests[r], step, s.free > 0);
    }
  }

  lemma {:induction false} NeverRunsLater(states: seq<State>, steps: seq<Step>, i: nat, j: nat, r: Id)
    requires Run(states, steps) && i <= j < |states| && r < |states[i].requests| && NeverRuns(states[i].requests[r])
    ensures r < |states[j].requests| && NeverRuns(states[j].requests[r])
    decreases j - i
  {
    if i < j {
      NeverRunsLater(states, steps, i, j - 1, r);
      NextNeverRuns(states[j - 1], steps[j - 1], r);
    }
  }

  lemma UnusedNeverRan(q: Request)
    requires RequestOk(q) && q.worker.Unused?
    ensures q.runs == 0
  {
  }

  /** A request whose context ends before its work is taken never runs its fill. */
  lemma EndedContextNeverRuns(states: seq<State>, steps: seq<Step>, i: nat, j: nat, r: Id)
    requires Run(states, steps) && i <= j < |states| && r < |states[i].requests| && NeverRuns(states[i].requests[r])
    ensures r < |states[j].requests| && states[j].requests[r].runs == 0
  {
    NeverRunsLater(states, steps, i, j, r);
    RunKeeps(states, steps, j);
    UnusedNeverRan(states[j].requests[r]);
  }
}
