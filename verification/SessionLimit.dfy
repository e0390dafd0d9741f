// Per-runner concurrency limits around the session lifecycle, composed with the gateway protocol.
// All sessions run on one event loop, so every step between two awaits is atomic.
module SessionLimit {
  import opened Common
  import G = Gateway

  type Id = string
  type Runner = string

  // Where a session task stands in _run_session_with_concurrency_limit and _run_session.
  // Everything but Waiting is inside _run_session.
  datatype Place = Waiting | Entered | Creating | Running | Finalizing | Aborting | Leaving

  datatype Task = Task(runner: Runner, at: Place)

  // _runner_semaphores (free permits) and the session tasks that have not returned.
  datatype Limiter = Limiter(semaphores: map<Runner, nat>, tasks: map<Id, Task>)

  // max_concurrent_sessions of each registered runner; zero means no limit.
  type Caps = map<Runner, nat>

  // ----- the permits -----

  // A task arrives: unlimited runners go straight in, the others find or create their semaphore.
  function Arrive(l: Limiter, id: Id, r: Runner, caps: Caps): Limiter
    requires r in caps
  {
    if caps[r] == 0 then l.(tasks := l.tasks[id := Task(r, Entered)])
    else Limiter(if r in l.semaphores then l.semaphores else l.semaphores[r := caps[r]], l.tasks[id := Task(r, Waiting)])
  }

  predicate CanEnter(l: Limiter, id: Id) {
    id in l.tasks && l.tasks[id].at == Waiting
    && l.tasks[id].runner in l.semaphores && l.semaphores[l.tasks[id].runner] > 0
  }

  function Enter(l: Limiter, id: Id): Limiter
    requires CanEnter(l, id)
  {
    var r := l.tasks[id].runner;
    Limiter(l.semaphores[r := l.semaphores[r] - 1], l.tasks[id := Task(r, Entered)])
  }

  // Leaving `async with` returns the permit.
  function Depart(l: Limiter, id: Id): Limiter
    requires id in l.tasks
  {
    var r := l.tasks[id].runner;
    Limiter(if r in l.semaphores then l.semaphores[r := l.semaphores[r] + 1] else l.semaphores, l.tasks - {id})
  }

  function Shift(l: Limiter, id: Id, at: Place): Limiter
    requires id in l.tasks
  {
    l.(tasks := l.tasks[id := l.tasks[id].(at := at)])
  }

  // Those session coroutines of a runner that are inside _run_session.
  function Inside(tasks: map<Id, Task>, r: Runner): set<Id> {
    set id | id in tasks && tasks[id].runner == r && tasks[id].at != Waiting
  }

  // Free permits and sessions inside add up to the cap.
  ghost predicate Capped(l: Limiter, caps: Caps) {
    && (forall id | id in l.tasks :: l.tasks[id].runner in caps)
    && (forall r | r in l.semaphores :: PermitsAddUp(l, r, caps))
    && (forall id | id in l.tasks && caps[l.tasks[id].runner] > 0 :: l.tasks[id].runner in l.semaphores)
    && (forall id | id in l.tasks && l.tasks[id].at == Waiting :: caps[l.tasks[id].runner] > 0)
  }

  predicate PermitsAddUp(l: Limiter, r: Runner, caps: Caps)
    requires r in l.semaphores
  {
    r in caps && caps[r] > 0 && l.semaphores[r] + |Inside(l.tasks, r)| == caps[r]
  }

  lemma InsideAdd(tasks: map<Id, Task>, id: Id, t: Task, r: Runner)
    requires id !in Inside(tasks, r)
    ensures |Inside(tasks[id := t], r)| == |Inside(tasks, r)| + if t.runner == r && t.at != Waiting then 1 else 0
  {
    assert Inside(tasks[id := t], r) == Inside(tasks, r) + if t.runner == r && t.at != Waiting then {id} else {};
  }

  lemma InsideRemove(tasks: map<Id, Task>, id: Id, r: Runner)
    ensures |Inside(tasks - {id}, r)| == |Inside(tasks, r)| - if id in Inside(tasks, r) then 1 else 0
  {
    assert Inside(tasks - {id}, r) == Inside(tasks, r) - {id};
  }

  lemma ArriveCapped(l: Limiter, id: Id, r: Runner, caps: Caps)
    requires Capped(l, caps) && r in caps && id !in l.tasks
    ensures Capped(Arrive(l, id, r, caps), caps)
  {
    var l' := Arrive(l, id, r, caps);
    forall q | q in l'.semaphores ensures PermitsAddUp(l', q, caps) {
      InsideAdd(l.tasks, id, l'.tasks[id], q);
      if q in l.semaphores {
        assert PermitsAddUp(l, q, caps);
      } else {
        assert Inside(l.tasks, q) == {};
      }
    }
  }

  lemma EnterCapped(l: Limiter, id: Id, caps: Caps)
    requires Capped(l, caps) && CanEnter(l, id)
    ensures Capped(Enter(l, id), caps)
  {
    var l' := Enter(l, id);
    forall q | q in l'.semaphores ensures PermitsAddUp(l', q, caps) {
      assert PermitsAddUp(l, q, caps);
      InsideAdd(l.tasks, id, l'.tasks[id], q);
    }
  }

  lemma DepartCapped(l: Limiter, id: Id, caps: Caps)
    requires Capped(l, caps) && id in l.tasks && l.tasks[id].at != Waiting
    ensures Capped(Depart(l, id), caps)
  {
    var l' := Depart(l, id);
    forall q | q in l'.semaphores ensures PermitsAddUp(l', q, caps) {
      assert PermitsAddUp(l, q, caps);
      InsideRemove(l.tasks, id, q);
    }
  }

  lemma ShiftCapped(l: Limiter, id: Id, at: Place, caps: Caps)
    requires Capped(l, caps) && id in l.tasks && l.tasks[id].at != Waiting && at != Waiting
    ensures Capped(Shift(l, id, at), caps)
  {
    var l' := Shift(l, id, at);
    forall q | q in l'.semaphores ensures PermitsAddUp(l', q, caps) {
      assert PermitsAddUp(l, q, caps);
      assert Inside(l'.tasks, q) == Inside(l.tasks, q);
    }
  }

  // The semaphore table of one event loop, with the session coroutines it governs.
  class RunnerLimits {
    const caps: Caps
    var semaphores: map<Runner, nat>
    var tasks: map<Id, Task>

    ghost predicate Valid() reads this { Capped(Contents(), caps) }

    ghost function Contents(): Limiter reads this { Limiter(semaphores, tasks) }

    constructor (limits: Caps)
      ensures Valid() && caps == limits && Contents() == Limiter(map[], map[])
    {
      caps := limits;
      semaphores, tasks := map[], map[];
    }

    // The lookup before `async with`: an unlimited runner's task goes straight in; otherwise the
    // semaphore is found or created, and the coroutine queues for a permit.
    method Request(id: Id, runner: Runner)
      requires Valid() && runner in caps && id !in tasks
      modifies this
      ensures Valid() && Contents() == Arrive(old(Contents()), id, runner, caps)
    {
      ArriveCapped(Contents(), id, runner, caps);
      var cap := caps[runner];
      if cap == 0 {
        tasks := tasks[id := Task(runner, Entered)];
      } else {
        if runner !in semaphores {
          semaphores := semaphores[runner := cap];
        }
        tasks := tasks[id := Task(runner, Waiting)];
      }
    }

    // A waiting task is let in exactly when fewer sessions of its runner are inside than its cap allows.
    method TryAcquire(id: Id) returns (entered: bool)
      requires Valid() && id in tasks && tasks[id].at == Waiting && tasks[id].runner in semaphores
      modifies this
      ensures Valid() && entered == CanEnter(old(Contents()), id)
      ensures Contents() == if entered then Enter(old(Contents()), id) else old(Contents())
      ensures entered <==> old(|Inside(tasks, tasks[id].runner)|) < caps[old(tasks[id].runner)]
    {
      var runner := tasks[id].runner;
      assert PermitsAddUp(Contents(), runner, caps);
      entered := semaphores[runner] > 0;
      if entered {
        EnterCapped(Contents(), id, caps);
        semaphores := semaphores[runner := semaphores[runner] - 1];
        tasks := tasks[id := Task(runner, Entered)];
      }
    }

    // Leaving _run_session, by return or by exception.
    method Return(id: Id)
      requires Valid() && id in tasks && tasks[id].at != Waiting
      modifies this
      ensures Valid() && Contents() == Depart(old(Contents()), id)
    {
      DepartCapped(Contents(), id, caps);
      var runner := tasks[id].runner;
      if runner in semaphores {
        semaphores := semaphores[runner := semaphores[runner] + 1];
      }
      tasks := tasks - {id};
      assert Contents() == Depart(old(Contents()), id);
    }
  }

  // ----- the composed system -----

  // leaked: sessions whose abort failed, still routed although their task has moved on.
  datatype Pool = Pool(gateway: G.System, limiter: Limiter, known: set<Id>, leaked: set<Id>)

  datatype Step =
    | Start(id: Id, runner: Runner)
    | Acquire(id: Id)
    | CreateCall(id: Id)
    | Remote(step: G.Step)
    | CreateDone(id: Id)
    | RunnerDone(id: Id, ok: bool)
    | FinalizeDone(id: Id)
    | AbortDone(id: Id)
    | Leave(id: Id)

  function Init(gateways: nat): Pool { Pool(G.Init(gateways), Limiter(map[], map[]), {}, {}) }

  predicate TaskAt(p: Pool, id: Id, at: Place) { id in p.limiter.tasks && p.limiter.tasks[id].at == at }

  // The coroutine moves on and the gateway takes the step it causes.
  function Move(p: Pool, id: Id, at: Place, gateway: G.System): Pool
    requires id in p.limiter.tasks
  {
    p.(limiter := Shift(p.limiter, id, at), gateway := gateway)
  }

  predicate IsRemote(step: G.Step) { step.RemoteCreate? || step.RemoteFinalize? || step.RemoteAbort? }

  function Next(p: Pool, step: Step, caps: Caps): Pool {
    var g := p.gateway;
    match step
    case Start(id, runner) =>
      if id in p.known || runner !in caps then p
      else p.(limiter := Arrive(p.limiter, id, runner, caps), known := p.known + {id})
    case Acquire(id) =>
      if CanEnter(p.limiter, id) then p.(limiter := Enter(p.limiter, id)) else p
    case CreateCall(id) =>
      if !TaskAt(p, id, Entered) then p
      else Move(p, id, if g.manager.load == [] then Leaving else Creating, G.Next(g, G.BeginCreate(id)))
    case Remote(r) =>
      if IsRemote(r) then p.(gateway := G.Next(g, r)) else p
    case CreateDone(id) =>
      if !TaskAt(p, id, Creating) then p
      else if G.At(g, id, G.Created) then Move(p, id, Running, G.Next(g, G.EndCreate(id)))
      else if G.At(g, id, G.CreateRaised) then Move(p, id, Leaving, G.Next(g, G.EndCreate(id)))
      else p
    case RunnerDone(id, ok) =>
      if !TaskAt(p, id, Running) then p
      else if ok then Move(p, id, Finalizing, G.Next(g, G.BeginFinalize(id)))
      else Move(p, id, Aborting, G.Next(g, G.BeginAbort(id)))
    case FinalizeDone(id) =>
      if !TaskAt(p, id, Finalizing) then p
      // Selecting, scoring and dumping trajectories need no gateway; a selection error runs into
      // the manager's KeyError. Either way the coroutine leaves without touching the gateway again.
      else if G.At(g, id, G.Finalized) then Move(p, id, Leaving, G.Next(g, G.EndFinalize(id)))
      else if G.At(g, id, G.FinalizeRaised) then
        Move(p, id, Aborting, G.Next(G.Next(g, G.EndFinalize(id)), G.BeginAbort(id)))
      else p
    case AbortDone(id) =>
      if !TaskAt(p, id, Aborting) then p
      else if G.At(g, id, G.Aborted) then Move(p, id, Leaving, G.Next(g, G.EndAbort(id)))
      else if G.At(g, id, G.AbortRaised) then
        Move(p, id, Leaving, G.Next(g, G.EndAbort(id))).(leaked := p.leaked + {id})
      else p
    case Leave(id) =>
      if TaskAt(p, id, Leaving) then p.(limiter := Depart(p.limiter, id)) else p
  }

  function Run(gateways: nat, steps: seq<Step>, caps: Caps): Pool {
    if steps == [] then Init(gateways) else Next(Run(gateways, steps[..|steps| - 1], caps), steps[|steps| - 1], caps)
  }

  // What a task's place says about its session at the gateway.
  predicate Matches(at: Place, session: G.Phase) {
    match at
    case Creating => session.Creating? || session.Created? || session.CreateRaised?
    case Running => session.Live?
    case Finalizing => session.Finalizing? || session.Finalized? || session.FinalizeRaised?
    case Aborting => session.Aborting? || session.Aborted? || session.AbortRaised?
    case _ => false
  }

  predicate Busy(at: Place) { at.Creating? || at.Running? || at.Finalizing? || at.Aborting? }

  // A routed session belongs to a task at a matching place, or was leaked by a failed abort.
  predicate Linked(p: Pool, id: Id)
    requires id in p.gateway.sessions
  {
    if id in p.leaked then p.gateway.sessions[id].at == G.Live
    else id in p.limiter.tasks && Matches(p.limiter.tasks[id].at, p.gateway.sessions[id].at)
  }

  // A task's place says whether it has a session.
  predicate Owns(p: Pool, id: Id)
    requires id in p.limiter.tasks
  {
    var at := p.limiter.tasks[id].at;
    (Busy(at) ==> id in p.gateway.sessions && id !in p.leaked)
    && (at == Waiting || at == Entered ==> id !in p.gateway.used && id !in p.leaked)
  }

  ghost predicate Inv(p: Pool) {
    && (forall id | id in p.gateway.sessions :: Linked(p, id))
    && (forall id | id in p.limiter.tasks :: Owns(p, id))
    && p.gateway.sessions.Keys <= p.gateway.used <= p.known
    && p.limiter.tasks.Keys <= p.known && p.leaked <= p.known
    && |p.gateway.actors| == |p.gateway.manager.load|
    && (forall id | id in p.gateway.sessions :: p.gateway.sessions[id].g < |p.gateway.manager.load|)
  }

  lemma LimiterNext(p: Pool, step: Step, caps: Caps)
    requires Capped(p.limiter, caps) && p.limiter.tasks.Keys <= p.known
    ensures Capped(Next(p, step, caps).limiter, caps)
  {
    if step.Start? || step.Acquire? || step.Leave? {
      PermitNext(p, step, caps);
    } else if !step.Remote? && Next(p, step, caps).limiter != p.limiter {
      ShiftNext(p, step, caps);
    }
  }

  lemma PermitNext(p: Pool, step: Step, caps: Caps)
    requires Capped(p.limiter, caps) && p.limiter.tasks.Keys <= p.known && (step.Start? || step.Acquire? || step.Leave?)
    ensures Capped(Next(p, step, caps).limiter, caps)
  {
    if step.Start? {
      if step.id !in p.known && step.runner in caps { ArriveCapped(p.limiter, step.id, step.runner, caps); }
    } else if step.Acquire? {
      if CanEnter(p.limiter, step.id) { EnterCapped(p.limiter, step.id, caps); }
    } else if TaskAt(p, step.id, Leaving) {
      DepartCapped(p.limiter, step.id, caps);
    }
  }

  lemma ShiftNext(p: Pool, step: Step, caps: Caps)
    requires Capped(p.limiter, caps) && !step.Start? && !step.Acquire? && !step.Leave? && !step.Remote?
    requires Next(p, step, caps).limiter != p.limiter
    ensures Capped(Next(p, step, caps).limiter, caps)
  {
    ShiftCapped(p.limiter, step.id, Next(p, step, caps).limiter.tasks[step.id].at, caps);
  }

  // A gateway step about one session leaves every other session alone.
  ghost predicate OnlyTouches(g: G.System, g': G.System, id: Id) {
    && (forall o | o in g'.sessions && o != id :: o in g.sessions && g'.sessions[o] == g.sessions[o])
    && (forall o | o in g.sessions && o != id :: o in g'.sessions)
    && (forall o | o in g'.used && o != id :: o in g.used) && g.used <= g'.used
    && |g'.actors| == |g.actors| && |g'.manager.load| == |g.manager.load|
    && (id in g'.sessions ==> id in g'.used && g'.sessions[id].g < |g'.manager.load|)
  }

  function Subject(step: G.Step): Id { step.id }

  predicate Sane(g: G.System) {
    |g.actors| == |g.manager.load| && g.sessions.Keys <= g.used
    && forall id | id in g.sessions :: g.sessions[id].g < |g.manager.load|
  }

  lemma RemoteStepIsLocal(g: G.System, step: G.Step)
    requires Sane(g) && IsRemote(step)
    ensures Sane(G.Next(g, step)) && OnlyTouches(g, G.Next(g, step), Subject(step))
  {}

  lemma ManagerStepIsLocal(g: G.System, step: G.Step)
    requires Sane(g) && !IsRemote(step)
    ensures Sane(G.Next(g, step)) && OnlyTouches(g, G.Next(g, step), Subject(step))
  {}

  lemma GatewayStepIsLocal(g: G.System, step: G.Step)
    requires Sane(g)
    ensures Sane(G.Next(g, step)) && OnlyTouches(g, G.Next(g, step), Subject(step))
  {
    if IsRemote(step) { RemoteStepIsLocal(g, step); } else { ManagerStepIsLocal(g, step); }
  }

  // Only the coroutine and the session of one id changed, and they still match.
  lemma LocalChange(p: Pool, p': Pool, id: Id)
    requires Inv(p) && OnlyTouches(p.gateway, p'.gateway, id) && Sane(p'.gateway)
    requires forall o | o in p'.limiter.tasks && o != id :: o in p.limiter.tasks && p'.limiter.tasks[o] == p.limiter.tasks[o]
    requires forall o | o in p.limiter.tasks && o != id :: o in p'.limiter.tasks
    requires forall o | o != id :: o in p'.leaked <==> o in p.leaked
    requires p.known <= p'.known && id in p'.known
    requires id in p'.gateway.sessions ==> Linked(p', id)
    requires id in p'.limiter.tasks ==> Owns(p', id)
    ensures Inv(p')
  {
    forall o | o in p'.gateway.sessions ensures Linked(p', o) {
      if o != id { assert Linked(p, o); }
    }
    forall o | o in p'.limiter.tasks ensures Owns(p', o) {
      if o != id { assert Owns(p, o); }
    }
  }

  lemma InvNext(p: Pool, step: Step, caps: Caps)
    requires Inv(p)
    ensures Inv(Next(p, step, caps))
  {
    var p' := Next(p, step, caps);
    match step
    case Start(id, runner) =>
      if id !in p.known && runner in caps { LocalChange(p, p', id); }
    case Acquire(id) =>
      if CanEnter(p.limiter, id) { assert Owns(p, id); LocalChange(p, p', id); }
    case Leave(id) =>
      if TaskAt(p, id, Leaving) { LeaveInv(p, id, caps); }
    case Remote(r) =>
      if IsRemote(r) { RemoteInv(p, r, caps); }
    case CreateCall(id) => if TaskAt(p, id, Entered) { CreateCallInv(p, id, caps); }
    case CreateDone(id) => if TaskAt(p, id, Creating) { CreateDoneInv(p, id, caps); }
    case RunnerDone(id, ok) => if TaskAt(p, id, Running) { RunnerDoneInv(p, id, ok, caps); }
    case FinalizeDone(id) => if TaskAt(p, id, Finalizing) { FinalizeDoneInv(p, id, caps); }
    case AbortDone(id) => if TaskAt(p, id, Aborting) { AbortDoneInv(p, id, caps); }
  }

  lemma LeaveInv(p: Pool, id: Id, caps: Caps)
    requires Inv(p) && TaskAt(p, id, Leaving)
    ensures Inv(Next(p, Leave(id), caps))
  {
    if id in p.gateway.sessions { assert Linked(p, id); }
    LocalChange(p, Next(p, Leave(id), caps), id);
  }

  lemma RemoteInv(p: Pool, r: G.Step, caps: Caps)
    requires Inv(p) && IsRemote(r)
    ensures Inv(Next(p, Remote(r), caps))
  {
    GatewayStepIsLocal(p.gateway, r);
    if r.id in p.gateway.sessions {
      assert Linked(p, r.id);
      if r.id in p.limiter.tasks { assert Owns(p, r.id); }
      LocalChange(p, Next(p, Remote(r), caps), r.id);
    }
  }

  lemma CreateCallInv(p: Pool, id: Id, caps: Caps)
    requires Inv(p) && TaskAt(p, id, Entered)
    ensures Inv(Next(p, CreateCall(id), caps))
  {
    GatewayStepIsLocal(p.gateway, G.BeginCreate(id));
    assert Owns(p, id);
    LocalChange(p, Next(p, CreateCall(id), caps), id);
  }

  lemma CreateDoneInv(p: Pool, id: Id, caps: Caps)
    requires Inv(p) && TaskAt(p, id, Creating)
    ensures Inv(Next(p, CreateDone(id), caps))
  {
    GatewayStepIsLocal(p.gateway, G.EndCreate(id));
    assert Owns(p, id) && Linked(p, id);
    LocalChange(p, Next(p, CreateDone(id), caps), id);
  }

  lemma RunnerDoneInv(p: Pool, id: Id, ok: bool, caps: Caps)
    requires Inv(p) && TaskAt(p, id, Running)
    ensures Inv(Next(p, RunnerDone(id, ok), caps))
  {
    GatewayStepIsLocal(p.gateway, if ok then G.BeginFinalize(id) else G.BeginAbort(id));
    assert Owns(p, id) && Linked(p, id);
    LocalChange(p, Next(p, RunnerDone(id, ok), caps), id);
  }

  lemma FinalizeDoneInv(p: Pool, id: Id, caps: Caps)
    requires Inv(p) && TaskAt(p, id, Finalizing)
    ensures Inv(Next(p, FinalizeDone(id), caps))
  {
    assert Owns(p, id) && Linked(p, id);
    GatewayStepIsLocal(p.gateway, G.EndFinalize(id));
    if G.At(p.gateway, id, G.FinalizeRaised) {
      FinalizeRaisedInv(p, id, caps);
    } else {
      LocalChange(p, Next(p, FinalizeDone(id), caps), id);
    }
  }

  lemma FinalizeRaisedInv(p: Pool, id: Id, caps: Caps)
    requires Inv(p) && TaskAt(p, id, Finalizing) && G.At(p.gateway, id, G.FinalizeRaised)
    ensures Inv(Next(p, FinalizeDone(id), caps))
  {
    assert Owns(p, id) && Linked(p, id);
    var live := G.Move(p.gateway, id, G.Live);
    assert G.Next(p.gateway, G.EndFinalize(id)) == live;
    assert G.Next(live, G.BeginAbort(id)) == G.Move(live, id, G.Phase.Aborting);
    LocalChange(p, Next(p, FinalizeDone(id), caps), id);
  }

  lemma AbortDoneInv(p: Pool, id: Id, caps: Caps)
    requires Inv(p) && TaskAt(p, id, Aborting)
    ensures Inv(Next(p, AbortDone(id), caps))
  {
    if G.At(p.gateway, id, G.AbortRaised) {
      AbortRaisedInv(p, id, caps);
    } else if G.At(p.gateway, id, G.Aborted) {
      AbortedInv(p, id, caps);
    }
  }

  lemma AbortRaisedInv(p: Pool, id: Id, caps: Caps)
    requires Inv(p) && TaskAt(p, id, Aborting) && G.At(p.gateway, id, G.AbortRaised)
    ensures Inv(Next(p, AbortDone(id), caps))
  {
    assert Owns(p, id) && Linked(p, id);
    assert G.Next(p.gateway, G.EndAbort(id)) == G.Move(p.gateway, id, G.Live);
    LocalChange(p, Next(p, AbortDone(id), caps), id);
  }

  lemma AbortedInv(p: Pool, id: Id, caps: Caps)
    requires Inv(p) && TaskAt(p, id, Aborting) && G.At(p.gateway, id, G.Aborted)
    ensures Inv(Next(p, AbortDone(id), caps))
  {
    assert Owns(p, id) && Linked(p, id);
    assert G.Next(p.gateway, G.EndAbort(id)) == G.Forget(p.gateway, id);
    LocalChange(p, Next(p, AbortDone(id), caps), id);
  }

  // ----- results over runs -----

  lemma {:induction false} RunInv(gateways: nat, steps: seq<Step>, caps: Caps)
    ensures var p := Run(gateways, steps, caps); Inv(p) && Capped(p.limiter, caps)
  {
    if steps != [] {
      var prefix := steps[..|steps| - 1];
      RunInv(gateways, prefix, caps);
      InvNext(Run(gateways, prefix, caps), steps[|steps| - 1], caps);
      LimiterNext(Run(gateways, prefix, caps), steps[|steps| - 1], caps);
    }
  }

  // In every reachable state, at most max_concurrent_sessions sessions of a limited runner are
  // inside _run_session.
  lemma CapHolds(gateways: nat, steps: seq<Step>, caps: Caps, r: Runner)
    requires r in caps && caps[r] > 0
    ensures |Inside(Run(gateways, steps, caps).limiter.tasks, r)| <= caps[r]
  {
    RunInv(gateways, steps, caps);
    var l := Run(gateways, steps, caps).limiter;
    if r in l.semaphores {
      assert PermitsAddUp(l, r, caps);
    } else {
      assert Inside(l.tasks, r) == {};
    }
  }

  // In every reachable state a waiting session gets in exactly if fewer sessions of its runner are
  // inside than the cap allows, and a session of a runner without a cap never waits.
  lemma EntersIffRoom(gateways: nat, steps: seq<Step>, caps: Caps, id: Id)
    requires id in Run(gateways, steps, caps).limiter.tasks
    ensures var p := Run(gateways, steps, caps); var r := p.limiter.tasks[id].runner;
      && r in caps && (caps[r] == 0 ==> p.limiter.tasks[id].at != Waiting)
      && (p.limiter.tasks[id].at == Waiting ==>
            (TaskAt(Next(p, Acquire(id), caps), id, Entered) <==> |Inside(p.limiter.tasks, r)| < caps[r]))
  {
    RunInv(gateways, steps, caps);
    var l := Run(gateways, steps, caps).limiter;
    if l.tasks[id].at == Waiting { assert PermitsAddUp(l, l.tasks[id].runner, caps); }
  }

  // ----- no deadlock -----

  predicate SessionIs(p: Pool, id: Id, at: G.Phase) { id in p.gateway.sessions && p.gateway.sessions[id].at == at }

  // What moves a session's call on, or its task once the call is over.
  function Onward(p: Pool, id: Id): Step
    requires id in p.limiter.tasks
  {
    match p.limiter.tasks[id].at
    case Waiting => Acquire(id)
    case Entered => CreateCall(id)
    case Creating => if SessionIs(p, id, G.Phase.Creating) then Remote(G.RemoteCreate(id, true)) else CreateDone(id)
    case Running => RunnerDone(id, true)
    case Finalizing => if SessionIs(p, id, G.Phase.Finalizing) then Remote(G.RemoteFinalize(id, true)) else FinalizeDone(id)
    case Aborting => if SessionIs(p, id, G.Phase.Aborting) then Remote(G.RemoteAbort(id, true)) else AbortDone(id)
    case Leaving => Leave(id)
  }

  // How far a task inside _run_session is from returning.
  function Rank(p: Pool, id: Id): nat
    requires id in p.limiter.tasks
  {
    match p.limiter.tasks[id].at
    case Waiting => 10
    case Entered => 9
    case Creating => if SessionIs(p, id, G.Phase.Creating) then 8 else 7
    case Running => 6
    case Finalizing => if SessionIs(p, id, G.Phase.Finalizing) then 5 else 4
    case Aborting => if SessionIs(p, id, G.Phase.Aborting) then 3 else 2
    case Leaving => 1
  }

  // The task has come closer to returning, or has returned.
  predicate Closer(p: Pool, p': Pool, id: Id)
    requires id in p.limiter.tasks
  {
    id in p'.limiter.tasks ==> p'.limiter.tasks[id].at != Waiting && Rank(p', id) < Rank(p, id)
  }

  // A task inside _run_session is never stuck.
  lemma InsideMoves(p: Pool, id: Id, caps: Caps)
    requires Inv(p) && id in p.limiter.tasks && p.limiter.tasks[id].at != Waiting
    ensures Closer(p, Next(p, Onward(p, id), caps), id)
  {
    if Onward(p, id).Remote? { RemoteMoves(p, id, caps); } else if !TaskAt(p, id, Leaving) { TaskMoves(p, id, caps); }
  }

  lemma RemoteMoves(p: Pool, id: Id, caps: Caps)
    requires Inv(p) && id in p.limiter.tasks && Onward(p, id).Remote?
    ensures Closer(p, Next(p, Onward(p, id), caps), id)
  {
    assert Owns(p, id);
  }

  lemma TaskMoves(p: Pool, id: Id, caps: Caps)
    requires Inv(p) && id in p.limiter.tasks && !Onward(p, id).Remote? && !TaskAt(p, id, Waiting) && !TaskAt(p, id, Leaving)
    ensures Closer(p, Next(p, Onward(p, id), caps), id)
  {
    if TaskAt(p, id, Finalizing) || TaskAt(p, id, Aborting) { EndMoves(p, id, caps); } else { assert Owns(p, id); }
  }

  lemma EndMoves(p: Pool, id: Id, caps: Caps)
    requires Inv(p) && (TaskAt(p, id, Finalizing) || TaskAt(p, id, Aborting)) && !Onward(p, id).Remote?
    ensures Closer(p, Next(p, Onward(p, id), caps), id)
  {
    assert Owns(p, id) && Linked(p, id);
  }

  // As long as some session task has not returned, some step other than a new arrival changes the
  // state: tasks that wait for a permit wait for a task that can move.
  lemma NoDeadlock(gateways: nat, steps: seq<Step>, caps: Caps) returns (step: Step)
    requires Run(gateways, steps, caps).limiter.tasks != map[]
    ensures !step.Start? && Next(Run(gateways, steps, caps), step, caps) != Run(gateways, steps, caps)
  {
    var p := Run(gateways, steps, caps);
    RunInv(gateways, steps, caps);
    var id :| id in p.limiter.tasks;
    if p.limiter.tasks[id].at != Waiting {
      step := Onward(p, id);
      InsideMoves(p, id, caps);
    } else if CanEnter(p.limiter, id) {
      step := Acquire(id);
      AcquireMoves(p, id, caps);
    } else {
      var other := SomeoneInside(p.limiter, id, caps);
      step := Onward(p, other);
      InsideMoves(p, other, caps);
    }
  }

  lemma AcquireMoves(p: Pool, id: Id, caps: Caps)
    requires CanEnter(p.limiter, id)
    ensures Next(p, Acquire(id), caps) != p
  {
    assert Next(p, Acquire(id), caps).limiter.tasks[id].at == Entered;
  }

  // A task waits only for tasks that are inside.
  lemma SomeoneInside(l: Limiter, id: Id, caps: Caps) returns (other: Id)
    requires Capped(l, caps) && id in l.tasks && l.tasks[id].at == Waiting && !CanEnter(l, id)
    ensures other in l.tasks && l.tasks[other].at != Waiting && l.tasks[other].runner == l.tasks[id].runner
  {
    var r := l.tasks[id].runner;
    assert PermitsAddUp(l, r, caps);
    assert Inside(l.tasks, r) != {};
    other :| other in Inside(l.tasks, r);
  }

  // ----- every session can return -----

  lemma RunMore(gateways: nat, steps: seq<Step>, step: Step, caps: Caps)
    ensures Run(gateways, steps + [step], caps) == Next(Run(gateways, steps, caps), step, caps)
  {
    assert (steps + [step])[..|steps|] == steps;
  }

  lemma OthersStay(p: Pool, id: Id, caps: Caps)
    requires id in p.limiter.tasks
    ensures Next(p, Onward(p, id), caps).limiter.tasks - {id} == p.limiter.tasks - {id}
  {}

  lemma OneOnward(gateways: nat, steps: seq<Step>, caps: Caps, id: Id)
    requires var tasks := Run(gateways, steps, caps).limiter.tasks; id in tasks && tasks[id].at != Waiting
    ensures var p, p' := Run(gateways, steps, caps), Run(gateways, steps + [Onward(Run(gateways, steps, caps), id)], caps);
      Closer(p, p', id) && p'.limiter.tasks - {id} == p.limiter.tasks - {id}
  {
    var p := Run(gateways, steps, caps);
    RunInv(gateways, steps, caps);
    RunMore(gateways, steps, Onward(p, id), caps);
    InsideMoves(p, id, caps);
    OthersStay(p, id, caps);
  }

  lemma NothingToRemove(tasks: map<Id, Task>, id: Id)
    requires id !in tasks
    ensures tasks - {id} == tasks
  {}

  // A task inside _run_session can go on until it has left, with no other task moving.
  lemma {:induction false} CanLeave(gateways: nat, steps: seq<Step>, caps: Caps, id: Id) returns (more: seq<Step>)
    requires var tasks := Run(gateways, steps, caps).limiter.tasks; id in tasks && tasks[id].at != Waiting
    ensures Run(gateways, steps + more, caps).limiter.tasks == Run(gateways, steps, caps).limiter.tasks - {id}
    decreases Rank(Run(gateways, steps, caps), id)
  {
    var step := Onward(Run(gateways, steps, caps), id);
    OneOnward(gateways, steps, caps, id);
    more := [step];
    if id in Run(gateways, steps + [step], caps).limiter.tasks {
      var rest := CanLeave(gateways, steps + [step], caps, id);
      more := [step] + rest;
      assert steps + more == steps + [step] + rest;
    } else {
      NothingToRemove(Run(gateways, steps + [step], caps).limiter.tasks, id);
    }
  }

  // Wherever a run stands, every session task can still return: one that waits for a permit gets it
  // once a task of its runner has left.
  lemma CanReturn(gateways: nat, steps: seq<Step>, caps: Caps, id: Id) returns (more: seq<Step>)
    requires id in Run(gateways, steps, caps).limiter.tasks
    ensures id !in Run(gateways, steps + more, caps).limiter.tasks
  {
    if Run(gateways, steps, caps).limiter.tasks[id].at != Waiting {
      more := CanLeave(gateways, steps, caps, id);
    } else if CanEnter(Run(gateways, steps, caps).limiter, id) {
      more := EnterAndLeave(gateways, steps, caps, id);
    } else {
      var first := MakeRoom(gateways, steps, caps, id);
      var rest := EnterAndLeave(gateways, steps + first, caps, id);
      more := first + rest;
      assert steps + more == steps + first + rest;
    }
  }

  lemma MakeRoom(gateways: nat, steps: seq<Step>, caps: Caps, id: Id) returns (first: seq<Step>)
    requires TaskAt(Run(gateways, steps, caps), id, Waiting) && !CanEnter(Run(gateways, steps, caps).limiter, id)
    ensures CanEnter(Run(gateways, steps + first, caps).limiter, id)
  {
    RunInv(gateways, steps, caps);
    var other := SomeoneInside(Run(gateways, steps, caps).limiter, id, caps);
    first := CanLeave(gateways, steps, caps, other);
    RoomMade(gateways, steps, steps + first, caps, id, other);
  }

  lemma EnterAndLeave(gateways: nat, steps: seq<Step>, caps: Caps, id: Id) returns (more: seq<Step>)
    requires CanEnter(Run(gateways, steps, caps).limiter, id)
    ensures id !in Run(gateways, steps + more, caps).limiter.tasks
  {
    RunMore(gateways, steps, Acquire(id), caps);
    var rest := CanLeave(gateways, steps + [Acquire(id)], caps, id);
    more := [Acquire(id)] + rest;
    assert steps + more == steps + [Acquire(id)] + rest;
  }

  // When one task of a runner has left, another that waits can enter.
  lemma RoomMade(gateways: nat, steps: seq<Step>, later: seq<Step>, caps: Caps, id: Id, other: Id)
    requires var tasks := Run(gateways, steps, caps).limiter.tasks;
      && id in tasks && tasks[id].at == Waiting && other in tasks && tasks[other].at != Waiting && tasks[other].runner == tasks[id].runner
      && Run(gateways, later, caps).limiter.tasks == tasks - {other}
    ensures CanEnter(Run(gateways, later, caps).limiter, id)
  {
    var tasks, l := Run(gateways, steps, caps).limiter.tasks, Run(gateways, later, caps).limiter;
    var r := tasks[id].runner;
    EntersIffRoom(gateways, steps, caps, id);
    CapHolds(gateways, steps, caps, r);
    RunInv(gateways, later, caps);
    InsideRemove(tasks, other, r);
    assert PermitsAddUp(l, r, caps);
  }

  // ----- where each outcome leads -----

  // The task is at this place and its session in this phase, or routed nowhere.
  predicate Stands(p: Pool, id: Id, at: Place, phase: Option<G.Phase>) {
    TaskAt(p, id, at) && if phase.Some? then SessionIs(p, id, phase.value) else id !in p.gateway.sessions && id !in p.gateway.manager.routes
  }

  // A session's course through its calls: what raises is aborted or left, and every way ends in leaving.
  predicate Course(p: Pool, id: Id, caps: Caps, ok: bool)
    requires id in p.limiter.tasks
  {
    match p.limiter.tasks[id].at
    case Waiting => true
    case Entered => Stands(Next(p, CreateCall(id), caps), id, Creating, Some(G.Phase.Creating))
    case Creating =>
      && (SessionIs(p, id, G.Created) ==> Stands(Next(p, CreateDone(id), caps), id, Running, Some(G.Live)))
      && (SessionIs(p, id, G.CreateRaised) ==> Stands(Next(p, CreateDone(id), caps), id, Leaving, None))
    case Running =>
      Stands(Next(p, RunnerDone(id, ok), caps), id, if ok then Finalizing else Aborting,
             Some(if ok then G.Phase.Finalizing else G.Phase.Aborting))
    case Finalizing =>
      && (SessionIs(p, id, G.Finalized) ==> Stands(Next(p, FinalizeDone(id), caps), id, Leaving, None))
      && (SessionIs(p, id, G.FinalizeRaised) ==> Stands(Next(p, FinalizeDone(id), caps), id, Aborting, Some(G.Phase.Aborting)))
    case Aborting =>
      && (SessionIs(p, id, G.Aborted) ==> Stands(Next(p, AbortDone(id), caps), id, Leaving, None))
      && (SessionIs(p, id, G.AbortRaised) ==> Stands(Next(p, AbortDone(id), caps), id, Leaving, Some(G.Live)))
    case Leaving => id !in Next(p, Leave(id), caps).limiter.tasks
  }

  lemma CourseHolds(gateways: nat, steps: seq<Step>, caps: Caps, id: Id, ok: bool)
    requires gateways > 0 && id in Run(gateways, steps, caps).limiter.tasks
    ensures Course(Run(gateways, steps, caps), id, caps, ok)
  {
    RunInv(gateways, steps, caps);
    LoadLength(gateways, steps, caps);
    var p := Run(gateways, steps, caps);
    var at := p.limiter.tasks[id].at;
    if at.Entered? { CourseIn(p, id, caps, ok); }
    else if at.Creating? || at.Running? { CourseOn(p, id, caps, ok); }
    else if at.Finalizing? { CourseFinal(p, id, caps, ok); }
    else if at.Aborting? { CourseAbort(p, id, caps, ok); }
    else { CourseEnds(p, id, caps, ok); }
  }

  lemma CourseEnds(p: Pool, id: Id, caps: Caps, ok: bool)
    requires TaskAt(p, id, Waiting) || TaskAt(p, id, Leaving)
    ensures Course(p, id, caps, ok)
  {}

  lemma CourseIn(p: Pool, id: Id, caps: Caps, ok: bool)
    requires Inv(p) && TaskAt(p, id, Entered) && p.gateway.manager.load != []
    ensures Course(p, id, caps, ok)
  {
    assert Owns(p, id);
  }

  lemma CourseOn(p: Pool, id: Id, caps: Caps, ok: bool)
    requires Inv(p) && (TaskAt(p, id, Creating) || TaskAt(p, id, Running))
    ensures Course(p, id, caps, ok)
  {
    assert Owns(p, id) && Linked(p, id);
  }

  lemma CourseFinal(p: Pool, id: Id, caps: Caps, ok: bool)
    requires Inv(p) && TaskAt(p, id, Finalizing)
    ensures Course(p, id, caps, ok)
  {
    assert Owns(p, id) && Linked(p, id);
    if SessionIs(p, id, G.FinalizeRaised) { FinalizeRaisedGoesOn(p, id, caps); }
  }

  lemma CourseAbort(p: Pool, id: Id, caps: Caps, ok: bool)
    requires Inv(p) && TaskAt(p, id, Aborting)
    ensures Course(p, id, caps, ok)
  {
    assert Owns(p, id) && Linked(p, id);
  }

  lemma FinalizeRaisedGoesOn(p: Pool, id: Id, caps: Caps)
    requires Inv(p) && TaskAt(p, id, Finalizing) && SessionIs(p, id, G.FinalizeRaised)
    ensures Stands(Next(p, FinalizeDone(id), caps), id, Aborting, Some(G.Phase.Aborting))
  {
    assert G.Next(p.gateway, G.EndFinalize(id)) == G.Move(p.gateway, id, G.Live);
  }

  lemma SameLength(g: G.System, step: G.Step)
    ensures |G.Next(g, step).manager.load| == |g.manager.load|
  {}

  lemma {:induction false} LoadLength(gateways: nat, steps: seq<Step>, caps: Caps)
    ensures |Run(gateways, steps, caps).gateway.manager.load| == gateways
    decreases |steps|
  {
    if steps != [] {
      var p, step := Run(gateways, steps[..|steps| - 1], caps), steps[|steps| - 1];
      LoadLength(gateways, steps[..|steps| - 1], caps);
      NextMovesGateway(p, step, caps);
      SameLength(p.gateway, GatewayStepOf(step));
      if step.FinalizeDone? {
        SameLength(p.gateway, G.EndFinalize(step.id));
        SameLength(G.Next(p.gateway, G.EndFinalize(step.id)), G.BeginAbort(step.id));
      }
    }
  }

  // With one runner, the routed sessions are the capped ones and the leaked ones.
  lemma ReservedBound(gateways: nat, steps: seq<Step>, r: Runner, cap: nat)
    requires cap > 0
    ensures var p := Run(gateways, steps, map[r := cap]); |p.gateway.sessions| <= cap + |p.leaked|
  {
    var caps := map[r := cap];
    var p := Run(gateways, steps, caps);
    RunInv(gateways, steps, caps);
    CapHolds(gateways, steps, caps, r);
    var inside := Inside(p.limiter.tasks, r);
    forall id | id in p.gateway.sessions ensures id in inside + p.leaked {
      assert Linked(p, id);
    }
    SubsetSize(p.gateway.sessions.Keys, inside + p.leaked);
    assert |inside + p.leaked| == |inside| + |p.leaked - inside|;
    SubsetSize(p.leaked - inside, p.leaked);
  }

  lemma LeakedGrows(p: Pool, step: Step, caps: Caps)
    ensures p.leaked <= Next(p, step, caps).leaked
    ensures |p.leaked| <= |Next(p, step, caps).leaked|
  {
    assert p.leaked <= Next(p, step, caps).leaked;
    SubsetSize(p.leaked, Next(p, step, caps).leaked);
  }

  // The gateway keeps its invariant with a peak of at most the cap plus the leaked sessions.
  ghost predicate GatewayInv(p: Pool, gateways: nat, cap: nat) {
    exists peak: nat :: peak <= cap + |p.leaked| && G.Inv(p.gateway, gateways, peak)
  }

  // The gateway steps one step of the pool may cause.
  function GatewayStepOf(step: Step): G.Step {
    match step
    case CreateCall(id) => G.BeginCreate(id)
    case Remote(r) => r
    case CreateDone(id) => G.EndCreate(id)
    case RunnerDone(id, ok) => if ok then G.BeginFinalize(id) else G.BeginAbort(id)
    case FinalizeDone(id) => G.EndFinalize(id)
    case AbortDone(id) => G.EndAbort(id)
    case _ => G.EndAbort(step.id)
  }

  predicate GatewayMoved(g: G.System, g': G.System, step: Step) {
    g' == g || g' == G.Next(g, GatewayStepOf(step))
    || (step.FinalizeDone? && g' == G.Next(G.Next(g, G.EndFinalize(step.id)), G.BeginAbort(step.id)))
  }

  lemma NextMovesGateway(p: Pool, step: Step, caps: Caps)
    ensures GatewayMoved(p.gateway, Next(p, step, caps).gateway, step)
  {}

  lemma GatewayMovedInv(g: G.System, g': G.System, step: Step, gateways: nat, peak: nat)
    requires G.Inv(g, gateways, peak) && GatewayMoved(g, g', step)
    ensures G.Inv(g', gateways, G.Max(peak, |g'.sessions|))
  {
    G.SameSize(g);
    if g' != g {
      if g' == G.Next(g, GatewayStepOf(step)) {
        G.NextInv(g, GatewayStepOf(step), gateways, peak);
      } else {
        G.LaterStepInv(g, G.EndFinalize(step.id), gateways, peak);
        G.LaterStepInv(G.Next(g, G.EndFinalize(step.id)), G.BeginAbort(step.id), gateways, peak);
        G.SameSize(g');
      }
    }
  }

  lemma GatewayInvNext(p: Pool, p': Pool, step: Step, gateways: nat, cap: nat)
    requires GatewayMoved(p.gateway, p'.gateway, step) && |p.leaked| <= |p'.leaked|
    requires GatewayInv(p, gateways, cap) && |p'.gateway.sessions| <= cap + |p'.leaked|
    ensures GatewayInv(p', gateways, cap)
  {
    var peak: nat :| peak <= cap + |p.leaked| && G.Inv(p.gateway, gateways, peak);
    GatewayMovedInv(p.gateway, p'.gateway, step, gateways, peak);
  }

  lemma {:induction false} GatewayInvRun(gateways: nat, steps: seq<Step>, r: Runner, cap: nat)
    requires cap > 0
    ensures GatewayInv(Run(gateways, steps, map[r := cap]), gateways, cap)
  {
    if steps == [] {
      G.InitInv(gateways);
    } else {
      var prefix := steps[..|steps| - 1];
      GatewayInvRun(gateways, prefix, r, cap);
      ReservedBound(gateways, steps, r, cap);
      LeakedGrows(Run(gateways, prefix, map[r := cap]), steps[|steps| - 1], map[r := cap]);
      NextMovesGateway(Run(gateways, prefix, map[r := cap]), steps[|steps| - 1], map[r := cap]);
      GatewayInvNext(Run(gateways, prefix, map[r := cap]), Run(gateways, steps, map[r := cap]),
        steps[|steps| - 1], gateways, cap);
    }
  }

  // One runner with cap C: no gateway ever holds more than its rounded-up share of C plus the
  // sessions whose abort failed; without failed aborts that is the share of C.
  lemma CapBoundsLoad(gateways: nat, steps: seq<Step>, r: Runner, cap: nat, g: nat)
    requires cap > 0 && g < gateways
    ensures LoadWithin(Run(gateways, steps, map[r := cap]), gateways, g, cap)
  {
    GatewayInvRun(gateways, steps, r, cap);
    LoadOf(Run(gateways, steps, map[r := cap]), gateways, cap, g);
  }

  // Gateway g's counter is its session count, at most the rounded-up share of cap plus the leaked sessions.
  predicate LoadWithin(p: Pool, gateways: nat, g: nat, cap: nat)
    requires g < gateways
  {
    var m := p.gateway.manager;
    |m.load| == gateways && m.load[g] == |G.RoutedTo(m.routes, g)|
    && m.load[g] <= G.CeilDiv(cap + |p.leaked|, gateways)
  }

  lemma LoadOf(p: Pool, gateways: nat, cap: nat, g: nat)
    requires GatewayInv(p, gateways, cap) && g < gateways
    ensures LoadWithin(p, gateways, g, cap)
  {
    var peak: nat :| peak <= cap + |p.leaked| && G.Inv(p.gateway, gateways, peak);
    G.CeilDivMono(peak, cap + |p.leaked|, gateways);
  }

  predicate Leaks(p: Pool, step: Step) {
    step.AbortDone? && TaskAt(p, step.id, Aborting) && G.At(p.gateway, step.id, G.AbortRaised)
  }

  // Each failed abort leaks at most one slot.
  function FailedAborts(gateways: nat, steps: seq<Step>, caps: Caps): nat {
    if steps == [] then 0
    else
      var prefix, step := steps[..|steps| - 1], steps[|steps| - 1];
      FailedAborts(gateways, prefix, caps)
      + if Leaks(Run(gateways, prefix, caps), step) then 1 else 0
  }

  lemma LeakedNext(p: Pool, step: Step, caps: Caps)
    requires Inv(p)
    ensures |Next(p, step, caps).leaked| == |p.leaked| + if Leaks(p, step) then 1 else 0
  {
    if Leaks(p, step) {
      assert Owns(p, step.id);
      assert Next(p, step, caps).leaked == p.leaked + {step.id};
    } else {
      NoLeak(p, step, caps);
    }
  }

  lemma NoLeak(p: Pool, step: Step, caps: Caps)
    requires !Leaks(p, step)
    ensures Next(p, step, caps).leaked == p.leaked
  {}

  lemma {:induction false} LeakedAreFailedAborts(gateways: nat, steps: seq<Step>, caps: Caps)
    ensures |Run(gateways, steps, caps).leaked| == FailedAborts(gateways, steps, caps)
  {
    if steps != [] {
      var prefix, step := steps[..|steps| - 1], steps[|steps| - 1];
      LeakedAreFailedAborts(gateways, prefix, caps);
      RunInv(gateways, prefix, caps);
      LeakedNext(Run(gateways, prefix, caps), step, caps);
    }
  }
}
