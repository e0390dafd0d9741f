// Routing sessions to gateway actors, with every async call split at its await.
module Gateway {
  import opened Common

  type Id = string

  // ----- the manager's bookkeeping -----

  // active_sessions_per_gateway and _session_to_gateway_index.
  datatype Manager = Manager(load: seq<int>, routes: map<Id, nat>)

  // The first least-loaded gateway.
  predicate IsLeastLoaded(load: seq<int>, i: nat) {
    i < |load|
    && (forall j | 0 <= j < |load| :: load[i] <= load[j])
    && (forall j | 0 <= j < i :: load[i] < load[j])
  }

  function LeastLoaded(load: seq<int>): (i: nat)
    requires load != []
    ensures IsLeastLoaded(load, i)
  {
    if |load| == 1 then 0
    else
      var i := LeastLoaded(load[..|load| - 1]);
      assert forall j | 0 <= j < |load| - 1 :: load[..|load| - 1][j] == load[j];
      if load[|load| - 1] < load[i] then |load| - 1 else i
  }

  // create_session up to its await.
  function Reserve(m: Manager, id: Id): Manager
    requires m.load != []
  {
    var g := LeastLoaded(m.load);
    Manager(m.load[g := m.load[g] + 1], m.routes[id := g])
  }

  // Releasing a session whose gateway was looked up before the await: a failed create,
  // a finished finalize and a finished abort all do this.
  function Release(m: Manager, id: Id, g: nat): Manager
    requires g < |m.load|
  {
    Manager(m.load[g := m.load[g] - 1], m.routes - {id})
  }

  // The session count of one gateway, from the routes alone.
  function RoutedTo(routes: map<Id, nat>, g: nat): set<Id> {
    set id | id in routes && routes[id] == g
  }

  predicate Counted(m: Manager) {
    && (forall id | id in m.routes :: m.routes[id] < |m.load|)
    && (forall g | 0 <= g < |m.load| :: m.load[g] == |RoutedTo(m.routes, g)|)
    && Sum(m.load) == |m.routes|
  }

  lemma {:induction false} SumUpdate(xs: seq<int>, i: nat, x: int)
    requires i < |xs|
    ensures Sum(xs[i := x]) == Sum(xs) - xs[i] + x
  {
    if i == 0 {
      assert xs[i := x][1..] == xs[1..];
    } else {
      assert xs[i := x][1..] == xs[1..][i - 1 := x];
      SumUpdate(xs[1..], i - 1, x);
    }
  }

  lemma RoutedAdd(routes: map<Id, nat>, id: Id, g: nat, h: nat)
    requires id !in routes
    ensures RoutedTo(routes[id := g], h) == RoutedTo(routes, h) + if h == g then {id} else {}
    ensures |RoutedTo(routes[id := g], h)| == |RoutedTo(routes, h)| + if h == g then 1 else 0
  {}

  lemma ReserveCounted(m: Manager, id: Id)
    requires m.load != [] && Counted(m) && id !in m.routes
    ensures Counted(Reserve(m, id)) && |Reserve(m, id).routes| == |m.routes| + 1
  {
    var g, m' := LeastLoaded(m.load), Reserve(m, id);
    SumUpdate(m.load, g, m.load[g] + 1);
    forall h | 0 <= h < |m'.load| ensures m'.load[h] == |RoutedTo(m'.routes, h)| {
      RoutedAdd(m.routes, id, g, h);
    }
  }

  lemma RoutedRemove(routes: map<Id, nat>, id: Id, h: nat)
    requires id in routes
    ensures |RoutedTo(routes - {id}, h)| == |RoutedTo(routes, h)| - if h == routes[id] then 1 else 0
    ensures |routes - {id}| == |routes| - 1
  {
    var rest := routes - {id};
    assert rest[id := routes[id]] == routes;
    RoutedAdd(rest, id, routes[id], h);
    assert |rest.Keys| == |routes.Keys - {id}|;
  }

  lemma ReleaseCounted(m: Manager, id: Id)
    requires Counted(m) && id in m.routes
    ensures Counted(Release(m, id, m.routes[id])) && |Release(m, id, m.routes[id]).routes| == |m.routes| - 1
  {
    var g, m' := m.routes[id], Release(m, id, m.routes[id]);
    SumUpdate(m.load, g, m.load[g] - 1);
    RoutedRemove(m.routes, id, g);
    forall h | 0 <= h < |m'.load| ensures m'.load[h] == |RoutedTo(m'.routes, h)| {
      RoutedRemove(m.routes, id, h);
    }
  }

  lemma {:induction false} LeastTimesCount(load: seq<int>, x: int)
    requires forall j | 0 <= j < |load| :: x <= load[j]
    ensures |load| * x <= Sum(load)
  {
    if load != [] {
      LeastTimesCount(load[1..], x);
      assert |load| * x == x + (|load| - 1) * x;
    }
  }

  function CeilDiv(x: nat, n: nat): nat
    requires n > 0
  {
    (x + n - 1) / n
  }

  lemma CeilDivLeast(x: nat, n: nat, y: int)
    requires n > 0 && n * (y - 1) < x
    ensures y <= CeilDiv(x, n)
  {
    var c := CeilDiv(x, n);
    assert x + n - 1 == n * c + (x + n - 1) % n;
    if c + 1 <= y {
      if y - 1 >= 0 { MulMono(c, y - 1, n); }
    }
  }

  lemma CeilDivShare(x: nat, n: nat, y: nat)
    requires n > 0 && y <= CeilDiv(x, n)
    ensures n * (y - 1) < x
  {
    var c := CeilDiv(x, n);
    assert x + n - 1 == n * c + (x + n - 1) % n;
    MulMono(y, c, n);
    assert n * (y - 1) == n * y - n;
  }

  lemma CeilDivMono(x: nat, y: nat, n: nat)
    requires n > 0 && x <= y
    ensures CeilDiv(x, n) <= CeilDiv(y, n)
  {
    var c := CeilDiv(x, n);
    assert x + n - 1 == n * c + (x + n - 1) % n;
    if c > 0 {
      assert n * (c - 1) == n * c - n;
      CeilDivLeast(y, n, c);
    }
  }

  // ----- one gateway actor's session table -----

  // None stands for the raised error.
  function ActorCreate(sessions: set<Id>, id: Id, started: bool): Option<set<Id>> {
    if !started || id in sessions then None else Some(sessions + {id})
  }

  function ActorFinalize(sessions: set<Id>, id: Id, sessionOk: bool): Option<set<Id>> {
    if id !in sessions || !sessionOk then None else Some(sessions - {id})
  }

  function ActorAbort(sessions: set<Id>, id: Id, sessionOk: bool): Option<set<Id>> {
    if id !in sessions then Some(sessions) else if sessionOk then Some(sessions - {id}) else None
  }

  // ----- the protocol -----

  // Where a session's calls stand; the second group is after the actor has acted but
  // before the manager has resumed.
  datatype Phase =
    | Creating | Live | Finalizing | Aborting
    | Created | CreateRaised | Finalized | FinalizeRaised | Aborted | AbortRaised

  // A routed session: the gateway index its pending call looked up, and its phase.
  datatype Session = Session(g: nat, at: Phase)

  datatype System = System(manager: Manager, actors: seq<set<Id>>, sessions: map<Id, Session>, used: set<Id>)

  datatype Step =
    | BeginCreate(id: Id)
    | RemoteCreate(id: Id, ok: bool)
    | EndCreate(id: Id)
    | BeginFinalize(id: Id)
    | RemoteFinalize(id: Id, ok: bool)
    | EndFinalize(id: Id)
    | BeginAbort(id: Id)
    | RemoteAbort(id: Id, ok: bool)
    | EndAbort(id: Id)

  function Init(gateways: nat): System {
    System(Manager(seq(gateways, _ => 0), map[]), seq(gateways, _ => {}), map[], {})
  }

  function Max(a: nat, b: nat): nat { if a < b then b else a }

  predicate At(s: System, id: Id, p: Phase) {
    id in s.sessions && s.sessions[id].at == p && s.sessions[id].g < |s.actors| == |s.manager.load|
  }

  function Move(s: System, id: Id, p: Phase): System
    requires id in s.sessions
  {
    s.(sessions := s.sessions[id := s.sessions[id].(at := p)])
  }

  // The actor acts: success replaces its table, an error leaves it alone.
  function Act(s: System, id: Id, table: Option<set<Id>>, done: Phase, raised: Phase): System
    requires id in s.sessions && s.sessions[id].g < |s.actors|
  {
    match table
    case Some(t) => Move(s, id, done).(actors := s.actors[s.sessions[id].g := t])
    case None => Move(s, id, raised)
  }

  function Forget(s: System, id: Id): System
    requires id in s.sessions && s.sessions[id].g < |s.manager.load|
  {
    s.(manager := Release(s.manager, id, s.sessions[id].g), sessions := s.sessions - {id})
  }

  // Steps that are not enabled change nothing. BeginCreate takes fresh ids, and a session has
  // one call in flight at a time.
  function Next(s: System, step: Step): System {
    match step
    case BeginCreate(id) =>
      if id in s.used || s.manager.load == [] then s
      else
        var m := Reserve(s.manager, id);
        System(m, s.actors, s.sessions[id := Session(m.routes[id], Creating)], s.used + {id})
    case RemoteCreate(id, ok) =>
      if !At(s, id, Creating) then s
      else Act(s, id, ActorCreate(s.actors[s.sessions[id].g], id, ok), Created, CreateRaised)
    case EndCreate(id) =>
      if At(s, id, Created) then Move(s, id, Live) else if At(s, id, CreateRaised) then Forget(s, id) else s
    case BeginFinalize(id) => if At(s, id, Live) then Move(s, id, Finalizing) else s
    case RemoteFinalize(id, ok) =>
      if !At(s, id, Finalizing) then s
      else Act(s, id, ActorFinalize(s.actors[s.sessions[id].g], id, ok), Finalized, FinalizeRaised)
    case EndFinalize(id) =>
      if At(s, id, Finalized) then Forget(s, id) else if At(s, id, FinalizeRaised) then Move(s, id, Live) else s
    case BeginAbort(id) => if At(s, id, Live) then Move(s, id, Aborting) else s
    case RemoteAbort(id, ok) =>
      if !At(s, id, Aborting) then s
      else Act(s, id, ActorAbort(s.actors[s.sessions[id].g], id, ok), Aborted, AbortRaised)
    case EndAbort(id) =>
      if At(s, id, Aborted) then Forget(s, id) else if At(s, id, AbortRaised) then Move(s, id, Live) else s
  }

  function Run(gateways: nat, steps: seq<Step>): System {
    if steps == [] then Init(gateways) else Next(Run(gateways, steps[..|steps| - 1]), steps[|steps| - 1])
  }

  // ----- what every reachable state keeps -----

  // The session is in its actor's table.
  predicate Holds(p: Phase) {
    p.Created? || p.Live? || p.Finalizing? || p.FinalizeRaised? || p.Aborting? || p.AbortRaised?
  }

  predicate Agrees(s: System, id: Id) {
    id in s.manager.routes && id in s.sessions && s.sessions[id].g == s.manager.routes[id]
  }

  predicate LiveAt(s: System, id: Id, g: nat) {
    id in s.sessions && s.sessions[id].g == g && Holds(s.sessions[id].at)
  }

  // peak: the most sessions reserved at once so far.
  ghost predicate Inv(s: System, gateways: nat, peak: nat) {
    && |s.manager.load| == |s.actors| == gateways
    && Counted(s.manager)
    && s.sessions.Keys == s.manager.routes.Keys
    && s.sessions.Keys <= s.used
    && (forall id | id in s.sessions :: Agrees(s, id))
    && (forall id, g | 0 <= g < gateways :: id in s.actors[g] <==> LiveAt(s, id, g))
    && |s.manager.routes| <= peak
    && (gateways > 0 ==> forall g | 0 <= g < gateways :: s.manager.load[g] <= CeilDiv(peak, gateways))
  }

  lemma InitInv(gateways: nat)
    ensures Inv(Init(gateways), gateways, 0)
  {
    var s := Init(gateways);
    assert Sum(s.manager.load) == 0 by { SumZero(gateways); }
    forall g | 0 <= g < gateways ensures RoutedTo(s.manager.routes, g) == {} {}
  }

  lemma {:induction false} SumZero(n: nat)
    ensures Sum(seq(n, _ => 0)) == 0
  {
    if n > 0 {
      assert seq(n, _ => 0)[1..] == seq(n - 1, _ => 0);
      SumZero(n - 1);
    }
  }

  // Putting a session on a least-loaded gateway cannot push it above the rounded-up average.
  lemma ReserveBound(m: Manager, id: Id, peak: nat)
    requires m.load != [] && Counted(m) && id !in m.routes
    requires |m.routes| + 1 <= peak
    ensures var g := LeastLoaded(m.load); Reserve(m, id).load[g] <= CeilDiv(peak, |m.load|)
  {
    var g := LeastLoaded(m.load);
    LeastTimesCount(m.load, m.load[g]);
    CeilDivLeast(peak, |m.load|, m.load[g] + 1);
  }

  lemma NextInv(s: System, step: Step, gateways: nat, peak: nat)
    requires Inv(s, gateways, peak)
    ensures Inv(Next(s, step), gateways, Max(peak, |Next(s, step).sessions|))
  {
    if step.BeginCreate? && step.id !in s.used && s.manager.load != [] {
      BeginCreateInv(s, step.id, gateways, peak);
    } else {
      if !step.BeginCreate? { LaterStepInv(s, step, gateways, peak); }
      SameSize(s);
    }
  }

  lemma SameSize(s: System)
    requires s.sessions.Keys == s.manager.routes.Keys
    ensures |s.sessions| == |s.manager.routes|
  {
    assert |s.sessions| == |s.sessions.Keys| == |s.manager.routes.Keys| == |s.manager.routes|;
  }

  lemma LaterStepInv(s: System, step: Step, gateways: nat, peak: nat)
    requires Inv(s, gateways, peak) && !step.BeginCreate?
    ensures Inv(Next(s, step), gateways, peak) && |Next(s, step).sessions| <= |s.sessions|
  {
    if step.RemoteCreate? || step.RemoteFinalize? || step.RemoteAbort? {
      RemoteStepInv(s, step, gateways, peak);
    } else {
      ManagerStepInv(s, step, gateways, peak);
    }
  }

  // The actor acts or raises.
  lemma RemoteStepInv(s: System, step: Step, gateways: nat, peak: nat)
    requires Inv(s, gateways, peak) && (step.RemoteCreate? || step.RemoteFinalize? || step.RemoteAbort?)
    ensures Inv(Next(s, step), gateways, peak) && |Next(s, step).sessions| <= |s.sessions|
  {
    match step
    case RemoteCreate(id, ok) =>
      if At(s, id, Creating) {
        ActInv(s, id, ActorCreate(s.actors[s.sessions[id].g], id, ok), Created, CreateRaised, gateways, peak);
      }
    case RemoteFinalize(id, ok) =>
      if At(s, id, Finalizing) {
        ActInv(s, id, ActorFinalize(s.actors[s.sessions[id].g], id, ok), Finalized, FinalizeRaised, gateways, peak);
      }
    case RemoteAbort(id, ok) =>
      if At(s, id, Aborting) {
        ActInv(s, id, ActorAbort(s.actors[s.sessions[id].g], id, ok), Aborted, AbortRaised, gateways, peak);
      }
  }

  // The manager starts a call or resumes after one.
  lemma ManagerStepInv(s: System, step: Step, gateways: nat, peak: nat)
    requires Inv(s, gateways, peak) && !step.BeginCreate? && !step.RemoteCreate? && !step.RemoteFinalize? && !step.RemoteAbort?
    ensures Inv(Next(s, step), gateways, peak) && |Next(s, step).sessions| <= |s.sessions|
  {
    match step
    case EndCreate(id) =>
      if At(s, id, Created) { MoveInv(s, id, Live, gateways, peak); }
      else if At(s, id, CreateRaised) { ForgetInv(s, id, gateways, peak); }
    case EndFinalize(id) =>
      if At(s, id, Finalized) { ForgetInv(s, id, gateways, peak); }
      else if At(s, id, FinalizeRaised) { MoveInv(s, id, Live, gateways, peak); }
    case EndAbort(id) =>
      if At(s, id, Aborted) { ForgetInv(s, id, gateways, peak); }
      else if At(s, id, AbortRaised) { MoveInv(s, id, Live, gateways, peak); }
    case BeginFinalize(id) => if At(s, id, Live) { MoveInv(s, id, Finalizing, gateways, peak); }
    case BeginAbort(id) => if At(s, id, Live) { MoveInv(s, id, Aborting, gateways, peak); }
  }

  lemma BeginCreateInv(s: System, id: Id, gateways: nat, peak: nat)
    requires Inv(s, gateways, peak) && id !in s.used && s.manager.load != []
    ensures var s' := Next(s, BeginCreate(id)); Inv(s', gateways, Max(peak, |s'.sessions|))
  {
    var s' := Next(s, BeginCreate(id));
    var peak' := Max(peak, |s'.sessions|);
    ReserveCounted(s.manager, id);
    assert s'.sessions.Keys == s'.manager.routes.Keys;
    assert |s'.sessions.Keys| == |s'.manager.routes.Keys|;
    ReserveBound(s.manager, id, peak');
    CeilDivMono(peak, peak', gateways);
    forall o, g | 0 <= g < gateways ensures o in s'.actors[g] <==> LiveAt(s', o, g) {
      assert o in s.actors[g] <==> LiveAt(s, o, g);
    }
    forall o | o in s'.sessions ensures Agrees(s', o) {
      if o != id { assert Agrees(s, o); }
    }
  }

  lemma MoveInv(s: System, id: Id, p: Phase, gateways: nat, peak: nat)
    requires Inv(s, gateways, peak) && id in s.sessions && Holds(s.sessions[id].at) && Holds(p)
    ensures Inv(Move(s, id, p), gateways, peak) && |Move(s, id, p).sessions| == |s.sessions|
  {
    var s' := Move(s, id, p);
    forall o | o in s'.sessions ensures Agrees(s', o) { assert Agrees(s, o); }
    forall o, g | 0 <= g < gateways ensures o in s'.actors[g] <==> LiveAt(s', o, g) {
      assert o in s.actors[g] <==> LiveAt(s, o, g);
    }
  }

  lemma ActInv(s: System, id: Id, table: Option<set<Id>>, done: Phase, raised: Phase, gateways: nat, peak: nat)
    requires Inv(s, gateways, peak) && id in s.sessions && s.sessions[id].g < |s.actors|
    requires Holds(raised) == Holds(s.sessions[id].at)
    requires table.Some? ==> Holds(done) == (id in table.value)
    requires table.Some? ==> forall o | o != id :: o in table.value <==> o in s.actors[s.sessions[id].g]
    ensures Inv(Act(s, id, table, done, raised), gateways, peak)
    ensures |Act(s, id, table, done, raised).sessions| == |s.sessions|
  {
    var s' := Act(s, id, table, done, raised);
    forall o | o in s'.sessions ensures Agrees(s', o) { assert Agrees(s, o); }
    forall o, g | 0 <= g < gateways ensures o in s'.actors[g] <==> LiveAt(s', o, g) {
      assert o in s.actors[g] <==> LiveAt(s, o, g);
    }
  }

  lemma ForgetInv(s: System, id: Id, gateways: nat, peak: nat)
    requires Inv(s, gateways, peak) && id in s.sessions && !Holds(s.sessions[id].at)
    ensures s.sessions[id].g < gateways && Inv(Forget(s, id), gateways, peak)
    ensures |Forget(s, id).sessions| == |s.sessions| - 1
  {
    assert Agrees(s, id);
    ReleaseCounted(s.manager, id);
    var s' := Forget(s, id);
    forall o | o in s'.sessions ensures Agrees(s', o) { assert Agrees(s, o); }
    forall o, g | 0 <= g < gateways ensures o in s'.actors[g] <==> LiveAt(s', o, g) {
      assert o in s.actors[g] <==> LiveAt(s, o, g);
    }
  }

  // The highest number of simultaneously reserved sessions over the states of a run.
  function PeakReserved(gateways: nat, steps: seq<Step>): nat {
    if steps == [] then 0
    else Max(PeakReserved(gateways, steps[..|steps| - 1]), |Run(gateways, steps).sessions|)
  }

  lemma {:induction false} RunInv(gateways: nat, steps: seq<Step>)
    ensures Inv(Run(gateways, steps), gateways, PeakReserved(gateways, steps))
  {
    if steps == [] {
      InitInv(gateways);
    } else {
      var prefix := steps[..|steps| - 1];
      RunInv(gateways, prefix);
      NextInv(Run(gateways, prefix), steps[|steps| - 1], gateways, PeakReserved(gateways, prefix));
    }
  }

  // It was reached at some point of the run.
  lemma {:induction false} PeakReached(gateways: nat, steps: seq<Step>) returns (n: nat)
    ensures n <= |steps| && |Run(gateways, steps[..n]).sessions| == PeakReserved(gateways, steps)
    decreases |steps|
  {
    n := |steps|;
    assert steps[..n] == steps;
    if steps != [] && PeakReserved(gateways, steps) != |Run(gateways, steps).sessions| {
      n := PeakReached(gateways, steps[..|steps| - 1]);
      assert steps[..|steps| - 1][..n] == steps[..n];
    }
  }

  // In every reachable state each counter is the number of sessions routed to its gateway, and
  // no gateway holds more than its rounded-up share of the sessions reserved at some point of the run.
  lemma PeakLoadBound(gateways: nat, steps: seq<Step>, g: nat)
    requires g < gateways
    ensures var s := Run(gateways, steps);
      |s.manager.load| == gateways
      && s.manager.load[g] == |RoutedTo(s.manager.routes, g)|
      && s.manager.load[g] <= CeilDiv(PeakReserved(gateways, steps), gateways)
    ensures exists n :: 0 <= n <= |steps| && gateways * (Run(gateways, steps).manager.load[g] - 1) < |Run(gateways, steps[..n]).sessions|
  {
    RunInv(gateways, steps);
    var n := PeakReached(gateways, steps);
    CeilDivShare(PeakReserved(gateways, steps), gateways, Run(gateways, steps).manager.load[g]);
  }

  // Route agreement: a session whose create returned, until its finalize or abort takes effect,
  // is in exactly the table of the actor the manager routes it to.
  lemma RouteAgreement(gateways: nat, steps: seq<Step>, id: Id, g: nat)
    requires g < gateways
    requires var s := Run(gateways, steps); id in s.sessions && Holds(s.sessions[id].at)
    ensures var s := Run(gateways, steps);
      id in s.manager.routes && s.manager.routes[id] < gateways == |s.actors|
      && (id in s.actors[g] <==> g == s.manager.routes[id])
  {
    RunInv(gateways, steps);
    var s := Run(gateways, steps);
    assert Agrees(s, id);
    assert id in s.actors[g] <==> LiveAt(s, id, g);
  }

  // And nothing else is in any table: an actor never keeps a session the manager has forgotten.
  lemma NoOrphan(gateways: nat, steps: seq<Step>, id: Id, g: nat)
    requires g < gateways && |Run(gateways, steps).actors| == gateways
    requires id in Run(gateways, steps).actors[g]
    ensures id in Run(gateways, steps).manager.routes && Run(gateways, steps).manager.routes[id] == g
  {
    RunInv(gateways, steps);
    assert LiveAt(Run(gateways, steps), id, g);
    assert Agrees(Run(gateways, steps), id);
  }

  // ----- the life of one session -----

  // A session's own course, whatever the other sessions do.
  datatype Life = Unused | Routed(at: Phase) | Gone

  // A remote call that reaches the actor raises only if ok is false: a fresh id is not in its
  // table yet, and a live one is.
  function Turn(l: Life, step: Step): Life {
    match step
    case BeginCreate(_) => if l.Unused? then Routed(Creating) else l
    case RemoteCreate(_, ok) => if l == Routed(Creating) then Routed(if ok then Created else CreateRaised) else l
    case EndCreate(_) => if l == Routed(Created) then Routed(Live) else if l == Routed(CreateRaised) then Gone else l
    case BeginFinalize(_) => if l == Routed(Live) then Routed(Finalizing) else l
    case RemoteFinalize(_, ok) => if l == Routed(Finalizing) then Routed(if ok then Finalized else FinalizeRaised) else l
    case EndFinalize(_) => if l == Routed(Finalized) then Gone else if l == Routed(FinalizeRaised) then Routed(Live) else l
    case BeginAbort(_) => if l == Routed(Live) then Routed(Aborting) else l
    case RemoteAbort(_, ok) => if l == Routed(Aborting) then Routed(if ok then Aborted else AbortRaised) else l
    case EndAbort(_) => if l == Routed(Aborted) then Gone else if l == Routed(AbortRaised) then Routed(Live) else l
  }

  // The life that the steps naming this session lead through.
  function Lifetime(l: Life, steps: seq<Step>, id: Id): Life {
    if steps == [] then l
    else
      var before, step := Lifetime(l, steps[..|steps| - 1], id), steps[|steps| - 1];
      if step.id == id then Turn(before, step) else before
  }

  function LifeOf(s: System, id: Id): Life {
    if id in s.sessions then Routed(s.sessions[id].at) else if id in s.used then Gone else Unused
  }

  lemma NextLife(s: System, step: Step, id: Id, gateways: nat, peak: nat)
    requires Inv(s, gateways, peak) && gateways > 0
    ensures LifeOf(Next(s, step), id) == if step.id == id then Turn(LifeOf(s, id), step) else LifeOf(s, id)
  {
    if step.id != id {
      OthersLife(s, step, id);
    } else {
      if id in s.sessions {
        assert Agrees(s, id);
        assert id in s.actors[s.sessions[id].g] <==> LiveAt(s, id, s.sessions[id].g);
      }
      OwnLife(s, step);
    }
  }

  lemma OthersLife(s: System, step: Step, id: Id)
    requires step.id != id
    ensures LifeOf(Next(s, step), id) == LifeOf(s, id)
  {}

  lemma OwnLife(s: System, step: Step)
    requires s.manager.load != [] && |s.actors| == |s.manager.load| && (step.id in s.sessions ==> step.id in s.used)
    requires var id := step.id; id in s.sessions ==>
      s.sessions[id].g < |s.actors| && (id in s.actors[s.sessions[id].g] <==> Holds(s.sessions[id].at))
    ensures LifeOf(Next(s, step), step.id) == Turn(LifeOf(s, step.id), step)
  {}

  // In every run, where a session stands depends on its own steps only: other sessions' calls,
  // on the same gateway or another, never disturb it.
  lemma {:induction false} SessionsIndependent(gateways: nat, steps: seq<Step>, id: Id)
    requires gateways > 0
    ensures LifeOf(Run(gateways, steps), id) == Lifetime(Unused, steps, id)
    decreases |steps|
  {
    if steps != [] {
      var init := steps[..|steps| - 1];
      SessionsIndependent(gateways, init, id);
      RunInv(gateways, init);
      NextLife(Run(gateways, init), steps[|steps| - 1], id, gateways, PeakReserved(gateways, init));
    }
  }

  // The steps that name this session.
  function Mine(steps: seq<Step>, id: Id): seq<Step> {
    if steps == [] then []
    else Mine(steps[..|steps| - 1], id) + if steps[|steps| - 1].id == id then [steps[|steps| - 1]] else []
  }

  lemma {:induction false} LifetimeAppend(l: Life, a: seq<Step>, b: seq<Step>, id: Id)
    ensures Lifetime(l, a + b, id) == Lifetime(Lifetime(l, a, id), b, id)
    decreases |b|
  {
    if b == [] { assert a + b == a; }
    else {
      assert (a + b)[..|a + b| - 1] == a + b[..|b| - 1];
      LifetimeAppend(l, a, b[..|b| - 1], id);
    }
  }

  lemma {:induction false} LifetimeMine(l: Life, steps: seq<Step>, id: Id)
    ensures Lifetime(l, steps, id) == Lifetime(l, Mine(steps, id), id)
    decreases |steps|
  {
    if steps != [] {
      var init, step := steps[..|steps| - 1], steps[|steps| - 1];
      LifetimeMine(l, init, id);
      if step.id == id { assert Mine(steps, id)[..|Mine(init, id)|] == Mine(init, id); } else { assert Mine(init, id) + [] == Mine(init, id); }
    }
  }

  // One abort: the manager looks the route up and calls the actor, which aborts or raises, and the
  // manager drops the route or propagates.
  function Abort(id: Id, ok: bool): seq<Step> { [BeginAbort(id), RemoteAbort(id, ok), EndAbort(id)] }

  function Create(id: Id, ok: bool): seq<Step> { [BeginCreate(id), RemoteCreate(id, ok), EndCreate(id)] }

  function Finalize(id: Id, ok: bool): seq<Step> { [BeginFinalize(id), RemoteFinalize(id, ok), EndFinalize(id)] }

  lemma ThreeSteps(l: Life, a: Step, b: Step, c: Step, id: Id)
    requires a.id == b.id == c.id == id
    ensures Lifetime(l, [a, b, c], id) == Turn(Turn(Turn(l, a), b), c)
  {
    assert [a, b, c][..2] == [a, b] && [a, b][..1] == [a] && [a][..0] == [];
    assert Lifetime(l, [a], id) == Turn(Lifetime(l, [], id), a);
    assert Lifetime(l, [a, b], id) == Turn(Lifetime(l, [a], id), b);
  }

  // What each call comes to: a create that raises leaves nothing behind, a finalize or an abort that
  // raises leaves the session live, and otherwise they end it.
  lemma CallsLead(id: Id, ok: bool)
    ensures Lifetime(Unused, Create(id, ok), id) == if ok then Routed(Live) else Gone
    ensures Lifetime(Routed(Live), Finalize(id, ok), id) == if ok then Gone else Routed(Live)
    ensures Lifetime(Routed(Live), Abort(id, ok), id) == if ok then Gone else Routed(Live)
  {
    ThreeSteps(Unused, BeginCreate(id), RemoteCreate(id, ok), EndCreate(id), id);
    ThreeSteps(Routed(Live), BeginFinalize(id), RemoteFinalize(id, ok), EndFinalize(id), id);
    ThreeSteps(Routed(Live), BeginAbort(id), RemoteAbort(id, ok), EndAbort(id), id);
  }

  // n aborts whose remote call raises.
  function FailedAborts(id: Id, n: nat): seq<Step> { if n == 0 then [] else FailedAborts(id, n - 1) + Abort(id, false) }

  lemma {:induction false} FailedAbortsStayLive(id: Id, n: nat)
    ensures Lifetime(Routed(Live), FailedAborts(id, n), id) == Routed(Live)
    decreases n
  {
    if n > 0 {
      FailedAbortsStayLive(id, n - 1);
      LifetimeAppend(Routed(Live), FailedAborts(id, n - 1), Abort(id, false), id);
      CallsLead(id, false);
    }
  }

  // A finalize that raises leaves the session abortable: after it any number of aborts may raise,
  // and the first one that acts removes the session from every table and from the routes, however
  // other sessions' steps fall in between.
  lemma FailedFinalizeIsAbortable(gateways: nat, steps: seq<Step>, more: seq<Step>, id: Id, n: nat, g: nat)
    requires g < gateways && LifeOf(Run(gateways, steps), id) == Routed(FinalizeRaised)
    requires Mine(more, id) == [EndFinalize(id)] + FailedAborts(id, n) + Abort(id, true)
    ensures Removed(Run(gateways, steps + more), id, g)
  {
    var from := Routed(FinalizeRaised);
    SessionsIndependent(gateways, steps, id);
    SessionsIndependent(gateways, steps + more, id);
    LifetimeAppend(Unused, steps, more, id);
    LifetimeMine(from, more, id);
    LifetimeAppend(from, [EndFinalize(id)] + FailedAborts(id, n), Abort(id, true), id);
    LifetimeAppend(from, [EndFinalize(id)], FailedAborts(id, n), id);
    assert Lifetime(from, [EndFinalize(id)][..0], id) == from;
    FailedAbortsStayLive(id, n);
    CallsLead(id, true);
    GoneIsRemoved(gateways, steps + more, id, g);
  }

  predicate Removed(s: System, id: Id, g: nat) {
    id !in s.manager.routes && id !in s.sessions && g < |s.actors| && id !in s.actors[g]
  }

  lemma GoneIsRemoved(gateways: nat, steps: seq<Step>, id: Id, g: nat)
    requires g < gateways && LifeOf(Run(gateways, steps), id) == Gone
    ensures Removed(Run(gateways, steps), id, g)
  {
    RunInv(gateways, steps);
    var s := Run(gateways, steps);
    assert id in s.actors[g] <==> LiveAt(s, id, g);
  }

  lemma {:induction false} GoneForGood(steps: seq<Step>, id: Id)
    ensures Lifetime(Gone, steps, id) == Gone
    decreases |steps|
  {
    if steps != [] { GoneForGood(steps[..|steps| - 1], id); }
  }

  lemma NextGone(s: System, step: Step)
    requires step.id !in s.sessions && step.id in s.used
    ensures Next(s, step) == s
  {}

  lemma {:induction false} CallsAfterGone(gateways: nat, steps: seq<Step>, more: seq<Step>, id: Id)
    requires LifeOf(Run(gateways, steps), id) == Gone && forall i :: 0 <= i < |more| ==> more[i].id == id
    ensures Run(gateways, steps + more) == Run(gateways, steps)
    decreases |more|
  {
    if more == [] {
      assert steps + more == steps;
    } else {
      var init := more[..|more| - 1];
      CallsAfterGone(gateways, steps, init, id);
      assert (steps + more)[..|steps + more| - 1] == steps + init;
      NextGone(Run(gateways, steps), more[|more| - 1]);
    }
  }

  // Once an abort (or a finalize) has taken effect, further calls for the session change nothing, it
  // stays removed whatever the others do, and an abort that still reaches the actor returns quietly.
  lemma AbortIdempotent(gateways: nat, steps: seq<Step>, more: seq<Step>, id: Id, g: nat, ok: bool)
    requires g < gateways && LifeOf(Run(gateways, steps), id) == Gone
    ensures Removed(Run(gateways, steps + more), id, g)
    ensures ActorAbort(Run(gateways, steps + more).actors[g], id, ok) == Some(Run(gateways, steps + more).actors[g])
    ensures (forall i :: 0 <= i < |more| ==> more[i].id == id) ==> Run(gateways, steps + more) == Run(gateways, steps)
  {
    SessionsIndependent(gateways, steps, id);
    SessionsIndependent(gateways, steps + more, id);
    LifetimeAppend(Unused, steps, more, id);
    GoneForGood(more, id);
    GoneIsRemoved(gateways, steps + more, id, g);
    if forall i :: 0 <= i < |more| ==> more[i].id == id { CallsAfterGone(gateways, steps, more, id); }
  }

  // ----- looking a session up -----

  // _get_gateway_index: None is the KeyError of an unrouted session.
  function Lookup(m: Manager, id: Id): Option<nat> { if id in m.routes then Some(m.routes[id]) else None }

  // What the lookup tells a caller, in every reachable state: it finds a gateway exactly while the
  // session is between its create and its release; it is the one the pending call will release,
  // and while the session is live it is the one gateway whose actor has it.
  lemma LookupFindsSession(gateways: nat, steps: seq<Step>, id: Id, g: nat)
    requires g < gateways
    ensures var s := Run(gateways, steps);
      && (Lookup(s.manager, id).Some? <==> Lifetime(Unused, steps, id).Routed?)
      && (Lookup(s.manager, id).Some? ==> id in s.sessions && Lookup(s.manager, id).value == s.sessions[id].g < gateways)
      && |s.actors| == gateways && (id in s.actors[g] ==> Lookup(s.manager, id) == Some(g))
      && (id in s.sessions && Holds(s.sessions[id].at) ==> (id in s.actors[g] <==> Lookup(s.manager, id) == Some(g)))
  {
    SessionsIndependent(gateways, steps, id);
    RunInv(gateways, steps);
    var s := Run(gateways, steps);
    if id in s.sessions { assert Agrees(s, id); }
    assert id in s.actors[g] <==> LiveAt(s, id, g);
  }

  // ----- the manager object -----

  datatype CreateError = NoGateways

  class GatewayManager {
    var load: seq<int>
    var routes: map<Id, nat>

    ghost function Abstract(): Manager
      reads this
    {
      Manager(load, routes)
    }

    constructor (gatewayCount: nat)
      ensures Abstract() == Init(gatewayCount).manager
    {
      load := seq(gatewayCount, _ => 0);
      routes := map[];
    }

    method SelectGatewayIndex() returns (r: Result<nat, CreateError>)
      ensures r == if load == [] then Err(NoGateways) else Ok(LeastLoaded(load))
    {
      if load == [] { return Err(NoGateways); }
      var best, i := 0, 1;
      while i < |load|
        invariant 1 <= i <= |load|
        invariant best < i
        invariant forall j | 0 <= j < i :: load[best] <= load[j]
        invariant forall j | 0 <= j < best :: load[best] < load[j]
      {
        if load[i] < load[best] { best := i; }
        i := i + 1;
      }
      assert IsLeastLoaded(load, best);
      r := Ok(best);
    }

    method BeginCreateSession(id: Id) returns (r: Result<nat, CreateError>)
      modifies this
      ensures old(load) == [] ==> r == Err(NoGateways) && Abstract() == old(Abstract())
      ensures old(load) != [] ==> Abstract() == Reserve(old(Abstract()), id) && r == Ok(LeastLoaded(old(load)))
    {
      r := SelectGatewayIndex();
      if r.Err? { return; }
      var g := r.value;
      routes := routes[id := g];
      load := load[g := load[g] + 1];
    }

    // The except branch of create_session.
    method RollBackCreate(id: Id, g: nat)
      requires g < |load|
      modifies this
      ensures Abstract() == Release(old(Abstract()), id, g)
    {
      load := load[g := load[g] - 1];
      routes := routes - {id};
    }

    method GetGatewayIndex(id: Id) returns (r: Option<nat>)
      ensures r == Lookup(Abstract(), id)
    {
      r := if id in routes then Some(routes[id]) else None;
    }

    // finalize_session and abort_session after their await.
    method EndRelease(id: Id, g: nat)
      requires g < |load|
      modifies this
      ensures Abstract() == Release(old(Abstract()), id, g)
    {
      routes := routes - {id};
      load := load[g := load[g] - 1];
    }
  }

  class GatewayActor {
    var sessions: set<Id>
    var started: bool

    constructor ()
      ensures sessions == {} && !started
    {
      sessions, started := {}, false;
    }

    method Start()
      modifies this`started
      ensures started
    {
      started := true;
    }

    method CreateSession(id: Id) returns (ok: bool)
      modifies this`sessions
      ensures ActorCreate(old(sessions), id, started) == if ok then Some(sessions) else None
      ensures ok <==> started && id !in old(sessions)
      ensures sessions == if ok then old(sessions) + {id} else old(sessions)
    {
      if !started || id in sessions { return false; }
      sessions := sessions + {id};
      ok := true;
    }

    // sessionOk: whether the session's own finalize returns.
    method FinalizeSession(id: Id, sessionOk: bool) returns (ok: bool)
      modifies this`sessions
      ensures ActorFinalize(old(sessions), id, sessionOk) == if ok then Some(sessions) else None
      ensures ok <==> id in old(sessions) && sessionOk
      ensures sessions == if ok then old(sessions) - {id} else old(sessions)
    {
      if id !in sessions || !sessionOk { return false; }
      sessions := sessions - {id};
      ok := true;
    }

    method AbortSession(id: Id, sessionOk: bool) returns (ok: bool)
      modifies this`sessions
      ensures ActorAbort(old(sessions), id, sessionOk) == if ok then Some(sessions) else None
      ensures ok <==> id !in old(sessions) || sessionOk
      ensures sessions == if sessionOk then old(sessions) - {id} else old(sessions)
    {
      if id !in sessions { return true; }
      if !sessionOk { return false; }
      sessions := sessions - {id};
      ok := true;
    }
  }
}
