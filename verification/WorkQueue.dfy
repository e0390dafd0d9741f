// A resumable evaluation run: workers share a queue closed by sentinels, append their records to
// a log and keep the latest record per sample.
module WorkQueue {
  import opened Common

  // A record as logged: the sample's key, its error if it failed, and its source index.
  datatype Record = Record(key: string, error: Option<string>, source: nat)

  // A line of the log file. NotObject is JSON that is not an object.
  datatype Line = Blank | Malformed | NotObject | Keyless | Entry(record: Record)

  // ----- reading the log back -----

  datatype LoadError = InvalidJson(line: nat) | NoGet(line: nat)

  type Latest = map<string, Record>

  function Load(lines: seq<Line>, n: nat): Result<Latest, LoadError>
    requires n <= |lines|
  {
    if n == 0 then Ok(map[])
    else
      match Load(lines, n - 1)
      case Err(e) => Err(e)
      case Ok(latest) =>
        match lines[n - 1]
        case Blank => Ok(latest)
        case Malformed => Err(InvalidJson(n))
        case NotObject => Err(NoGet(n))
        case Keyless => Ok(latest)
        case Entry(r) => Ok(latest[r.key := r])
  }

  // _load_latest_results
  method LoadLatestResults(lines: seq<Line>) returns (r: Result<Latest, LoadError>)
    ensures r == Load(lines, |lines|)
  {
    var latest: Latest := map[];
    for i := 0 to |lines|
      invariant Load(lines, i) == Ok(latest)
    {
      match lines[i]
      case Blank =>
      case Keyless =>
      case Malformed =>
        LoadStops(lines, i + 1, |lines|);
        return Err(InvalidJson(i + 1));
      case NotObject =>
        LoadStops(lines, i + 1, |lines|);
        return Err(NoGet(i + 1));
      case Entry(record) => latest := latest[record.key := record];
    }
    r := Ok(latest);
  }

  lemma {:induction false} LoadStops(lines: seq<Line>, i: nat, n: nat)
    requires i <= n <= |lines| && Load(lines, i).Err?
    ensures Load(lines, n) == Load(lines, i)
  {
    if i < n { LoadStops(lines, i, n - 1); }
  }

  predicate Bad(line: Line) { line.Malformed? || line.NotObject? }

  // Loading succeeds unless some line is not a JSON object, and fails on the first such line.
  lemma {:induction false} LoadFailsIff(lines: seq<Line>, n: nat)
    requires n <= |lines|
    ensures Load(lines, n).Ok? <==> forall i :: 0 <= i < n ==> !Bad(lines[i])
    ensures Load(lines, n).Err? ==>
      exists i :: FirstBad(lines, n, i) && Load(lines, n).error == if lines[i].Malformed? then InvalidJson(i + 1) else NoGet(i + 1)
    decreases n
  {
    if n > 0 {
      LoadFailsIff(lines, n - 1);
      if Load(lines, n - 1).Err? {
        var i :| FirstBad(lines, n - 1, i) && Load(lines, n - 1).error == if lines[i].Malformed? then InvalidJson(i + 1) else NoGet(i + 1);
        assert FirstBad(lines, n, i);
      } else if Bad(lines[n - 1]) {
        assert FirstBad(lines, n, n - 1);
      }
    }
  }

  predicate FirstBad(lines: seq<Line>, n: nat, i: int)
    requires n <= |lines|
  {
    0 <= i < n && Bad(lines[i]) && forall j :: 0 <= j < i ==> !Bad(lines[j])
  }

  predicate HasKey(line: Line, key: string) { line.Entry? && line.record.key == key }

  // A key's record is the last one logged for it; keys that were never logged have none.
  lemma {:induction false} LoadKeepsLast(lines: seq<Line>, n: nat, key: string)
    requires n <= |lines| && Load(lines, n).Ok?
    ensures var latest := Load(lines, n).value;
      if key in latest then exists i :: LastLogged(lines, n, key, i) && lines[i].record == latest[key]
      else forall i :: 0 <= i < n ==> !HasKey(lines[i], key)
  {
    if n > 0 {
      LoadKeepsLast(lines, n - 1, key);
      if HasKey(lines[n - 1], key) {
        assert LastLogged(lines, n, key, n - 1);
      } else if key in Load(lines, n - 1).value {
        var i :| LastLogged(lines, n - 1, key, i) && lines[i].record == Load(lines, n - 1).value[key];
        assert LastLogged(lines, n, key, i);
      }
    }
  }

  ghost predicate LastLogged(lines: seq<Line>, n: nat, key: string, i: int)
    requires n <= |lines|
  {
    0 <= i < n && HasKey(lines[i], key) && forall j :: i < j < n ==> !HasKey(lines[j], key)
  }

  lemma {:induction false} LoadPrefix(lines: seq<Line>, more: seq<Line>, n: nat)
    requires n <= |lines|
    ensures Load(lines + more, n) == Load(lines, n)
  {
    if n > 0 { LoadPrefix(lines, more, n - 1); }
  }

  lemma LoadAppend(lines: seq<Line>, r: Record)
    requires Load(lines, |lines|).Ok?
    ensures var more := lines + [Entry(r)]; Load(more, |more|) == Ok(Load(lines, |lines|).value[r.key := r])
  {
    LoadPrefix(lines, [Entry(r)], |lines|);
  }

  // ----- what is left to do -----

  predicate NeedsRun(latest: Latest, key: string) { key !in latest || latest[key].error.Some? }

  function PendingOf(latest: Latest, keys: seq<string>, n: nat): seq<nat>
    requires n <= |keys|
  {
    if n == 0 then [] else PendingOf(latest, keys, n - 1) + if NeedsRun(latest, keys[n - 1]) then [n - 1] else []
  }

  method Pending(latest: Latest, keys: seq<string>) returns (pending: seq<nat>)
    ensures pending == PendingOf(latest, keys, |keys|)
  {
    pending := [];
    for i := 0 to |keys|
      invariant pending == PendingOf(latest, keys, i)
    {
      var key := keys[i];
      if (key in latest && latest[key].error.Some?) || key !in latest { pending := pending + [i]; }
    }
  }

  predicate Increasing(s: seq<nat>) { forall i, j :: 0 <= i < j < |s| ==> s[i] < s[j] }

  // Pending lists, in order and once each, the samples with no record or a last record that failed.
  lemma {:induction false} PendingExactly(latest: Latest, keys: seq<string>, n: nat)
    requires n <= |keys|
    ensures Increasing(PendingOf(latest, keys, n))
    ensures forall i: nat :: i in PendingOf(latest, keys, n) <==> i < n && NeedsRun(latest, keys[i])
  {
    if n > 0 {
      PendingExactly(latest, keys, n - 1);
      var init := PendingOf(latest, keys, n - 1);
      forall i | 0 <= i < |init| ensures init[i] < n - 1 { assert init[i] in init; }
    }
  }

  // ----- the workers -----

  // Writing waits for the lock; Locked and Logged hold it, before and after the file append;
  // Counting is past the lock.
  datatype Phase = Ready | Working(item: nat) | Writing(record: Record) | Locked(record: Record) | Logged(record: Record)
                 | Counting(item: nat) | Exited

  // The queue's None entries are the sentinels. taken, finished and sentinels are history:
  // items dequeued in order, items done, sentinels consumed.
  datatype Pool = Pool(queue: seq<Option<nat>>, unfinished: int, workers: seq<Phase>, holder: Option<nat>,
                       file: seq<Line>, latest: Latest, completed: nat,
                       taken: seq<nat>, finished: seq<nat>, sentinels: nat)

  datatype Step = Get(w: nat) | RunDone(w: nat, error: Option<string>) | Acquire(w: nat) | AppendLog(w: nat) | Publish(w: nat) | Finish(w: nat)

  // min(concurrency, max(1, len(pending))), for a positive concurrency.
  function WorkerCount(concurrency: nat, pending: nat): nat {
    var most := if pending < 1 then 1 else pending;
    if concurrency < most then concurrency else most
  }

  function Items(pending: seq<nat>, workers: nat): seq<Option<nat>> {
    seq(|pending|, i requires 0 <= i < |pending| => Some(pending[i])) + seq(workers, _ => None)
  }

  function Init(pending: seq<nat>, workers: nat, file: seq<Line>, latest: Latest): Pool {
    Pool(Items(pending, workers), |pending| + workers, seq(workers, _ => Ready), None, file, latest, 0, [], [], 0)
  }

  function Move(p: Pool, w: nat, phase: Phase): Pool
    requires w < |p.workers|
  {
    p.(workers := p.workers[w := phase])
  }

  predicate At(p: Pool, w: nat, tag: Step) {
    w < |p.workers| &&
    match tag
    case Get(_) => p.workers[w].Ready? && p.queue != []
    case RunDone(_, _) => p.workers[w].Working?
    case Acquire(_) => p.workers[w].Writing? && p.holder.None?
    case AppendLog(_) => p.workers[w].Locked?
    case Publish(_) => p.workers[w].Logged?
    case Finish(_) => p.workers[w].Counting?
  }

  predicate Enabled(p: Pool, step: Step) { At(p, step.w, step) }

  // Steps that are not enabled change nothing. A sample's record carries that sample's key.
  function Next(key: nat -> string, p: Pool, step: Step): Pool {
    if !Enabled(p, step) then p
    else
      var w := step.w;
      match step
      case Get(_) =>
        if p.queue[0].None? then
          Move(p, w, Exited).(queue := p.queue[1..], unfinished := p.unfinished - 1, sentinels := p.sentinels + 1)
        else
          Move(p, w, Working(p.queue[0].value)).(queue := p.queue[1..], taken := p.taken + [p.queue[0].value])
      case RunDone(_, error) =>
        var item := p.workers[w].item;
        Move(p, w, Writing(Record(key(item), error, item)))
      case Acquire(_) => Move(p, w, Locked(p.workers[w].record)).(holder := Some(w))
      case AppendLog(_) => Move(p, w, Logged(p.workers[w].record)).(file := p.file + [Entry(p.workers[w].record)])
      case Publish(_) =>
        var r := p.workers[w].record;
        Move(p, w, Counting(r.source)).(latest := p.latest[r.key := r], holder := None)
      case Finish(_) =>
        var item := p.workers[w].item;
        Move(p, w, Ready).(completed := p.completed + 1, unfinished := p.unfinished - 1, finished := p.finished + [item])
  }

  function Run(key: nat -> string, p: Pool, steps: seq<Step>): Pool {
    if steps == [] then p else Next(key, Run(key, p, steps[..|steps| - 1]), steps[|steps| - 1])
  }

  // ----- counting workers -----

  predicate Busy(ph: Phase) { !ph.Ready? && !ph.Exited? }

  // The worker is somewhere between taking item x and reporting it done.
  predicate InHand(ph: Phase, x: nat) {
    match ph
    case Working(item) => item == x
    case Writing(r) => r.source == x
    case Locked(r) => r.source == x
    case Logged(r) => r.source == x
    case Counting(item) => item == x
    case _ => false
  }

  // How often x occurs.
  function Times(s: seq<nat>, n: nat, x: nat): nat
    requires n <= |s|
  {
    if n == 0 then 0 else Times(s, n - 1, x) + if s[n - 1] == x then 1 else 0
  }

  lemma {:induction false} TimesPrefix(s: seq<nat>, more: seq<nat>, n: nat, x: nat)
    requires n <= |s|
    ensures Times(s + more, n, x) == Times(s, n, x)
  {
    if n > 0 { TimesPrefix(s, more, n - 1, x); }
  }

  // In an increasing list everything occurs at most once.
  lemma {:induction false} TimesIncreasing(s: seq<nat>, n: nat, x: nat)
    requires n <= |s| && Increasing(s)
    ensures Times(s, n, x) == if x in s[..n] then 1 else 0
  {
    if n > 0 {
      TimesIncreasing(s, n - 1, x);
      assert s[..n] == s[..n - 1] + [s[n - 1]];
    }
  }

  // Steps left before this worker is ready again.
  function Left(ph: Phase): nat {
    match ph
    case Working(_) => 5
    case Writing(_) => 4
    case Locked(_) => 3
    case Logged(_) => 2
    case Counting(_) => 1
    case _ => 0
  }

  // The worker has taken item x and not yet appended its record to the log.
  predicate Owes(ph: Phase, x: nat) { InHand(ph, x) && !ph.Logged? && !ph.Counting? }

  // Over the workers: how many have exited, are busy, have x in hand, owe its record; and the steps left.
  datatype Census = Census(exited: nat, busy: nat, having: nat, owing: nat, left: nat)

  function One(ph: Phase, x: nat): Census {
    Census(if ph.Exited? then 1 else 0, if Busy(ph) then 1 else 0, if InHand(ph, x) then 1 else 0, if Owes(ph, x) then 1 else 0, Left(ph))
  }

  function Plus(a: Census, b: Census): Census {
    Census(a.exited + b.exited, a.busy + b.busy, a.having + b.having, a.owing + b.owing, a.left + b.left)
  }

  function Count(workers: seq<Phase>, n: nat, x: nat): Census
    requires n <= |workers|
  {
    if n == 0 then Census(0, 0, 0, 0, 0) else Plus(Count(workers, n - 1, x), One(workers[n - 1], x))
  }

  function All(p: Pool, x: nat): Census { Count(p.workers, |p.workers|, x) }

  lemma {:induction false} CountSame(workers: seq<Phase>, w: nat, ph: Phase, n: nat, x: nat)
    requires n <= w < |workers|
    ensures Count(workers[w := ph], n, x) == Count(workers, n, x)
  {
    if n > 0 { CountSame(workers, w, ph, n - 1, x); }
  }

  // Exchanging one worker's phase exchanges its contribution.
  lemma {:induction false} CountMove(workers: seq<Phase>, w: nat, ph: Phase, n: nat, x: nat)
    requires w < n <= |workers|
    ensures Plus(Count(workers[w := ph], n, x), One(workers[w], x)) == Plus(Count(workers, n, x), One(ph, x))
  {
    if w == n - 1 { CountSame(workers, w, ph, n - 1, x); } else { CountMove(workers, w, ph, n - 1, x); }
  }

  lemma {:induction false} CountReady(n: nat, m: nat, x: nat)
    requires n <= m
    ensures Count(seq(m, _ => Ready), n, x) == Census(0, 0, 0, 0, 0)
  {
    if n > 0 { CountReady(n - 1, m, x); }
  }

  lemma {:induction false} CountBounds(workers: seq<Phase>, n: nat, x: nat)
    requires n <= |workers|
    ensures Count(workers, n, x).exited + Count(workers, n, x).busy <= n
    ensures Count(workers, n, x).exited == n <==> forall i :: 0 <= i < n ==> workers[i].Exited?
    ensures Count(workers, n, x).having <= Count(workers, n, x).busy
  {
    if n > 0 { CountBounds(workers, n - 1, x); }
  }

  // The census after one worker moves from phase was to phase now.
  lemma Moved(p: Pool, p': Pool, w: nat, now: Phase, x: nat)
    requires w < |p.workers| && p'.workers == p.workers[w := now]
    ensures var was, a, a' := p.workers[w], All(p, x), All(p', x);
      && a'.exited + (if was.Exited? then 1 else 0) == a.exited + (if now.Exited? then 1 else 0)
      && a'.busy + (if Busy(was) then 1 else 0) == a.busy + (if Busy(now) then 1 else 0)
      && a'.having + (if InHand(was, x) then 1 else 0) == a.having + (if InHand(now, x) then 1 else 0)
      && a'.owing + (if Owes(was, x) then 1 else 0) == a.owing + (if Owes(now, x) then 1 else 0)
      && a'.left + Left(was) == a.left + Left(now)
  {
    CountMove(p.workers, w, now, |p.workers|, x);
  }

  // ----- what every interleaving keeps -----

  // The queue is what is left of the original one: items in order, then one sentinel per worker.
  predicate QueueKept(p: Pool, pending: seq<nat>) {
    var got := |p.taken| + p.sentinels;
    && p.taken <= pending && (p.sentinels > 0 ==> p.taken == pending)
    && got <= |pending| + |p.workers| && p.queue == Items(pending, |p.workers|)[got..]
  }

  // Sentinels and unfinished tasks match the workers; every dequeued x is finished or in hand.
  predicate Counted(p: Pool, x: nat) {
    && p.sentinels == All(p, x).exited
    && p.unfinished == |p.queue| + All(p, x).busy
    && Times(p.taken, |p.taken|, x) == Times(p.finished, |p.finished|, x) + All(p, x).having
    && |p.taken| == |p.finished| + All(p, x).busy
    && p.completed == |p.finished|
  }

  predicate Holds(ph: Phase) { ph.Locked? || ph.Logged? }

  predicate Exclusive(p: Pool) {
    forall w :: 0 <= w < |p.workers| ==> (Holds(p.workers[w]) <==> p.holder == Some(w))
  }

  // The map is the replay of the log, up to the record the lock holder has appended but not published.
  predicate Replayed(p: Pool) {
    Load(p.file, |p.file|) ==
    Ok(if p.holder.Some? && p.holder.value < |p.workers| && p.workers[p.holder.value].Logged?
       then p.latest[p.workers[p.holder.value].record.key := p.workers[p.holder.value].record] else p.latest)
  }

  ghost predicate Inv(p: Pool, pending: seq<nat>) {
    QueueKept(p, pending) && (forall x: nat :: Counted(p, x)) && Locking(p)
  }

  predicate Locking(p: Pool) { Exclusive(p) && Replayed(p) && (p.holder.Some? ==> p.holder.value < |p.workers|) }

  lemma InitInv(pending: seq<nat>, workers: nat, file: seq<Line>, latest: Latest)
    requires Load(file, |file|) == Ok(latest)
    ensures Inv(Init(pending, workers, file, latest), pending)
  {
    forall x: nat ensures Counted(Init(pending, workers, file, latest), x) { CountReady(workers, workers, x); }
  }

  lemma NextQueue(key: nat -> string, p: Pool, step: Step, pending: seq<nat>)
    requires QueueKept(p, pending)
    ensures QueueKept(Next(key, p, step), pending)
  {
    if Enabled(p, step) && step.Get? {
      var items, got := Items(pending, |p.workers|), |p.taken| + p.sentinels;
      assert p.queue[0] == items[got] && p.queue[1..] == items[got + 1..];
      if p.queue[0].Some? { assert got < |pending| && p.taken + [pending[got]] == pending[..got + 1]; }
    }
  }

  lemma NextCounted(key: nat -> string, p: Pool, step: Step, x: nat)
    requires Counted(p, x)
    ensures Counted(Next(key, p, step), x)
  {
    if Enabled(p, step) {
      if step.Get? {
        GetCounted(key, p, step.w, x);
      } else if step.Finish? {
        FinishCounted(key, p, step.w, x);
      } else {
        RunningCounted(key, p, step, x);
      }
    }
  }

  lemma GetCounted(key: nat -> string, p: Pool, w: nat, x: nat)
    requires Counted(p, x) && Enabled(p, Get(w))
    ensures Counted(Next(key, p, Get(w)), x)
  {
    var p' := Next(key, p, Get(w));
    Moved(p, p', w, p'.workers[w], x);
    if p.queue[0].Some? { TimesPrefix(p.taken, [p.queue[0].value], |p.taken|, x); }
  }

  lemma FinishCounted(key: nat -> string, p: Pool, w: nat, x: nat)
    requires Counted(p, x) && Enabled(p, Finish(w))
    ensures Counted(Next(key, p, Finish(w)), x)
  {
    Moved(p, Next(key, p, Finish(w)), w, Ready, x);
    TimesPrefix(p.finished, [p.workers[w].item], |p.finished|, x);
  }

  // The steps in between keep a worker busy with the same item.
  lemma RunningCounted(key: nat -> string, p: Pool, step: Step, x: nat)
    requires Counted(p, x) && Enabled(p, step) && !step.Get? && !step.Finish?
    ensures Counted(Next(key, p, step), x)
  {
    var p' := Next(key, p, step);
    Moved(p, p', step.w, p'.workers[step.w], x);
  }

  lemma NextLocking(key: nat -> string, p: Pool, step: Step)
    requires Locking(p)
    ensures Locking(Next(key, p, step))
  {
    if Enabled(p, step) {
      assert Holds(p.workers[step.w]) <==> p.holder == Some(step.w);
      if step.AppendLog? { LoadAppend(p.file, p.workers[step.w].record); }
    }
  }

  lemma NextInv(key: nat -> string, p: Pool, step: Step, pending: seq<nat>)
    requires Inv(p, pending)
    ensures Inv(Next(key, p, step), pending) && |Next(key, p, step).workers| == |p.workers|
  {
    NextQueue(key, p, step, pending);
    forall x: nat ensures Counted(Next(key, p, step), x) { NextCounted(key, p, step, x); }
    NextLocking(key, p, step);
  }

  lemma {:induction false} RunInv(key: nat -> string, p: Pool, steps: seq<Step>, pending: seq<nat>)
    requires Inv(p, pending)
    ensures Inv(Run(key, p, steps), pending) && |Run(key, p, steps).workers| == |p.workers|
  {
    if steps != [] {
      RunInv(key, p, steps[..|steps| - 1], pending);
      NextInv(key, Run(key, p, steps[..|steps| - 1]), steps[|steps| - 1], pending);
    }
  }

  predicate AllExited(p: Pool) { forall w :: 0 <= w < |p.workers| ==> p.workers[w].Exited? }

  // The state after some steps of a run over the pending items, whatever the interleaving.
  function Reached(key: nat -> string, pending: seq<nat>, workers: nat, file: seq<Line>, latest: Latest, steps: seq<Step>): Pool {
    Run(key, Init(pending, workers, file, latest), steps)
  }

  lemma ReachedInv(key: nat -> string, pending: seq<nat>, workers: nat, file: seq<Line>, latest: Latest, steps: seq<Step>)
    requires Load(file, |file|) == Ok(latest)
    ensures var p := Reached(key, pending, workers, file, latest, steps); Inv(p, pending) && |p.workers| == workers
  {
    InitInv(pending, workers, file, latest);
    RunInv(key, Init(pending, workers, file, latest), steps, pending);
  }

  // In every reachable state the items dequeued are the first pending ones in order, and none was
  // dequeued or finished twice.
  lemma TakenOnce(key: nat -> string, pending: seq<nat>, workers: nat, file: seq<Line>, latest: Latest, steps: seq<Step>, x: nat)
    requires Load(file, |file|) == Ok(latest) && Increasing(pending)
    ensures var p := Reached(key, pending, workers, file, latest, steps);
      p.taken <= pending && Times(p.finished, |p.finished|, x) <= Times(p.taken, |p.taken|, x) <= 1
  {
    ReachedInv(key, pending, workers, file, latest, steps);
    var p := Reached(key, pending, workers, file, latest, steps);
    assert Counted(p, x) && p.taken == pending[..|p.taken|];
    TimesIncreasing(p.taken, |p.taken|, x);
  }

  lemma AllDone(p: Pool, pending: seq<nat>, x: nat)
    requires Inv(p, pending) && |p.workers| > 0 && AllExited(p)
    ensures p.sentinels == |p.workers| && p.queue == [] && p.taken == pending && p.completed == |pending|
    ensures Times(p.finished, |p.finished|, x) == Times(pending, |pending|, x)
  {
    assert Counted(p, x);
    CountBounds(p.workers, |p.workers|, x);
  }

  // Whatever the interleaving, once all workers have exited each has consumed exactly one sentinel
  // and every pending item is done exactly as often as it was pending.
  lemma AllDoneOnce(key: nat -> string, pending: seq<nat>, workers: nat, file: seq<Line>, latest: Latest, steps: seq<Step>, x: nat)
    requires Load(file, |file|) == Ok(latest) && workers > 0
    requires AllExited(Reached(key, pending, workers, file, latest, steps))
    ensures var p := Reached(key, pending, workers, file, latest, steps);
      p.sentinels == workers && p.queue == [] && p.taken == pending && p.completed == |pending|
      && Times(p.finished, |p.finished|, x) == Times(pending, |pending|, x)
  {
    ReachedInv(key, pending, workers, file, latest, steps);
    AllDone(Reached(key, pending, workers, file, latest, steps), pending, x);
  }

  // In every reachable state queue.join() can return exactly when all workers have exited.
  lemma JoinEnabledIff(key: nat -> string, pending: seq<nat>, workers: nat, file: seq<Line>, latest: Latest, steps: seq<Step>)
    requires Load(file, |file|) == Ok(latest) && workers > 0
    ensures var p := Reached(key, pending, workers, file, latest, steps); p.unfinished == 0 <==> AllExited(p)
  {
    ReachedInv(key, pending, workers, file, latest, steps);
    var p := Reached(key, pending, workers, file, latest, steps);
    assert Counted(p, 0);
    CountBounds(p.workers, |p.workers|, 0);
  }

  // In every reachable state in which the lock is free, the map is what a restart would load.
  lemma ReplayWhenFree(key: nat -> string, pending: seq<nat>, workers: nat, file: seq<Line>, latest: Latest, steps: seq<Step>)
    requires Load(file, |file|) == Ok(latest)
    ensures var p := Reached(key, pending, workers, file, latest, steps);
      p.holder.None? ==> Load(p.file, |p.file|) == Ok(p.latest)
  {
    ReachedInv(key, pending, workers, file, latest, steps);
  }

  // In every reachable state some step is enabled, unless all workers have exited.
  lemma Progress(key: nat -> string, pending: seq<nat>, workers: nat, file: seq<Line>, latest: Latest, steps: seq<Step>)
    returns (step: Step)
    requires Load(file, |file|) == Ok(latest) && !AllExited(Reached(key, pending, workers, file, latest, steps))
    ensures Enabled(Reached(key, pending, workers, file, latest, steps), step)
  {
    ReachedInv(key, pending, workers, file, latest, steps);
    step := NextEnabled(Reached(key, pending, workers, file, latest, steps), pending);
  }

  lemma NextEnabled(p: Pool, pending: seq<nat>) returns (step: Step)
    requires Inv(p, pending) && !AllExited(p)
    ensures Enabled(p, step)
  {
    var w :| 0 <= w < |p.workers| && !p.workers[w].Exited?;
    assert Counted(p, 0);
    CountBounds(p.workers, |p.workers|, 0);
    match p.workers[w]
    case Ready => step := Get(w);
    case Working(_) => step := RunDone(w, None);
    case Writing(_) =>
      if p.holder.None? {
        step := Acquire(w);
      } else {
        var h := p.holder.value;
        assert Holds(p.workers[h]);
        step := if p.workers[h].Locked? then AppendLog(h) else Publish(h);
      }
    case Locked(_) => step := AppendLog(w);
    case Logged(_) => step := Publish(w);
    case Counting(_) => step := Finish(w);
  }

  // Every enabled step uses up some of a finite amount of work.
  function Work(p: Pool): nat { 6 * |p.queue| + All(p, 0).left }

  lemma StepDecreases(key: nat -> string, p: Pool, step: Step)
    requires Enabled(p, step)
    ensures Work(Next(key, p, step)) < Work(p)
  {
    var p' := Next(key, p, step);
    Moved(p, p', step.w, p'.workers[step.w], 0);
  }

  // Wherever a run stands, it can go on until all workers have exited.
  lemma {:induction false} CanFinish(key: nat -> string, pending: seq<nat>, workers: nat, file: seq<Line>, latest: Latest, steps: seq<Step>)
    returns (more: seq<Step>)
    requires Load(file, |file|) == Ok(latest)
    ensures AllExited(Reached(key, pending, workers, file, latest, steps + more))
    decreases Work(Reached(key, pending, workers, file, latest, steps))
  {
    more := [];
    assert steps + more == steps;
    if !AllExited(Reached(key, pending, workers, file, latest, steps)) {
      var step := Progress(key, pending, workers, file, latest, steps);
      RunMore(key, Init(pending, workers, file, latest), steps, step);
      StepDecreases(key, Reached(key, pending, workers, file, latest, steps), step);
      var rest := CanFinish(key, pending, workers, file, latest, steps + [step]);
      more := [step] + rest;
      assert steps + more == steps + [step] + rest;
    }
  }

  lemma RunMore(key: nat -> string, p: Pool, steps: seq<Step>, step: Step)
    ensures Run(key, p, steps + [step]) == Next(key, Run(key, p, steps), step)
  {
    assert (steps + [step])[..|steps|] == steps;
  }

  // ----- resuming -----

  // Every record in hand or published belongs to its sample's key.
  predicate OwnKey(key: nat -> string, ph: Phase) {
    match ph
    case Writing(r) => r.key == key(r.source)
    case Locked(r) => r.key == key(r.source)
    case Logged(r) => r.key == key(r.source)
    case _ => true
  }

  // Published items have a record, and no key ever loses its record.
  ghost predicate Recorded(key: nat -> string, p: Pool) {
    && (forall w :: 0 <= w < |p.workers| ==> OwnKey(key, p.workers[w]) && (p.workers[w].Counting? ==> key(p.workers[w].item) in p.latest))
    && (forall i | i in p.finished :: key(i) in p.latest)
  }

  lemma {:induction false} TimesIn(s: seq<nat>, n: nat, x: nat)
    requires n <= |s| && Times(s, n, x) > 0
    ensures x in s
  {
    if s[n - 1] != x { TimesIn(s, n - 1, x); }
  }

  lemma NextRecorded(key: nat -> string, p: Pool, step: Step)
    requires Recorded(key, p)
    ensures Recorded(key, Next(key, p, step)) && forall k | k in p.latest :: k in Next(key, p, step).latest
  {}

  lemma {:induction false} RunRecorded(key: nat -> string, p: Pool, steps: seq<Step>)
    requires Recorded(key, p)
    ensures Recorded(key, Run(key, p, steps)) && forall k | k in p.latest :: k in Run(key, p, steps).latest
  {
    if steps != [] {
      RunRecorded(key, p, steps[..|steps| - 1]);
      NextRecorded(key, Run(key, p, steps[..|steps| - 1]), steps[|steps| - 1]);
    }
  }

  // ----- what a run, finished or interrupted, leaves in the log -----

  // A line this run wrote: its sample's record under its own key.
  predicate OwnLine(key: nat -> string, line: Line) { line.Entry? && line.record.key == key(line.record.source) }

  // The log is the old one and this run's lines.
  ghost predicate Extends(key: nat -> string, p: Pool, file: seq<Line>) {
    && file <= p.file
    && (forall w :: 0 <= w < |p.workers| ==> OwnKey(key, p.workers[w]))
    && (forall j :: |file| <= j < |p.file| ==> OwnLine(key, p.file[j]))
  }

  lemma {:induction false} RunExtends(key: nat -> string, p: Pool, steps: seq<Step>, file: seq<Line>)
    requires Extends(key, p, file)
    ensures Extends(key, Run(key, p, steps), file)
    decreases |steps|
  {
    if steps != [] {
      RunExtends(key, p, steps[..|steps| - 1], file);
      NextExtends(key, Run(key, p, steps[..|steps| - 1]), steps[|steps| - 1], file);
    }
  }

  lemma NextExtends(key: nat -> string, p: Pool, step: Step, file: seq<Line>)
    requires Extends(key, p, file)
    ensures Extends(key, Next(key, p, step), file)
  {}

  // How many of the lines from..n are records of sample x.
  function Logs(lines: seq<Line>, from: nat, n: nat, x: nat): nat
    requires from <= n <= |lines|
  {
    if n == from then 0
    else Logs(lines, from, n - 1, x) + if lines[n - 1].Entry? && lines[n - 1].record.source == x then 1 else 0
  }

  lemma {:induction false} LogsPrefix(lines: seq<Line>, more: seq<Line>, from: nat, n: nat, x: nat)
    requires from <= n <= |lines|
    ensures Logs(lines + more, from, n, x) == Logs(lines, from, n, x)
    decreases n
  {
    if n > from { LogsPrefix(lines, more, from, n - 1, x); }
  }

  lemma {:induction false} LogsSome(lines: seq<Line>, from: nat, n: nat, x: nat, j: nat)
    requires from <= j < n <= |lines| && lines[j].Entry? && lines[j].record.source == x
    ensures Logs(lines, from, n, x) >= 1
    decreases n
  {
    if j < n - 1 { LogsSome(lines, from, n - 1, x, j); }
  }

  // Two records of one sample count twice.
  lemma {:induction false} LogsTwo(lines: seq<Line>, from: nat, n: nat, x: nat, i: nat, j: nat)
    requires from <= i < j < n <= |lines|
    requires lines[i].Entry? && lines[i].record.source == x && lines[j].Entry? && lines[j].record.source == x
    ensures Logs(lines, from, n, x) >= 2
    decreases n
  {
    if j < n - 1 { LogsTwo(lines, from, n - 1, x, i, j); } else { LogsSome(lines, from, n - 1, x, i); }
  }

  // Every dequeued x has its record in the log or owes it.
  predicate LogCounted(p: Pool, from: nat, x: nat) {
    from <= |p.file| && Times(p.taken, |p.taken|, x) == Logs(p.file, from, |p.file|, x) + All(p, x).owing
  }

  lemma NextLogCounted(key: nat -> string, p: Pool, step: Step, from: nat, x: nat)
    requires LogCounted(p, from, x)
    ensures LogCounted(Next(key, p, step), from, x)
  {
    if Enabled(p, step) {
      var p' := Next(key, p, step);
      Moved(p, p', step.w, p'.workers[step.w], x);
      if step.Get? && p.queue[0].Some? { TimesPrefix(p.taken, [p.queue[0].value], |p.taken|, x); }
      if step.AppendLog? { LogsPrefix(p.file, [Entry(p.workers[step.w].record)], from, |p.file|, x); }
    }
  }

  lemma {:induction false} RunLogCounted(key: nat -> string, p: Pool, steps: seq<Step>, from: nat, x: nat)
    requires LogCounted(p, from, x)
    ensures LogCounted(Run(key, p, steps), from, x)
    decreases |steps|
  {
    if steps != [] {
      RunLogCounted(key, p, steps[..|steps| - 1], from, x);
      NextLogCounted(key, Run(key, p, steps[..|steps| - 1]), steps[|steps| - 1], from, x);
    }
  }

  // Every line a run has written is the record of a pending sample, and no sample has two.
  lemma OneLineEach(key: nat -> string, pending: seq<nat>, workers: nat, file: seq<Line>, latest: Latest, steps: seq<Step>, i: nat)
    requires Load(file, |file|) == Ok(latest) && Increasing(pending)
    ensures var p := Reached(key, pending, workers, file, latest, steps);
      && Extends(key, p, file)
      && (|file| <= i < |p.file| ==> p.file[i].record.source in pending)
      && (|file| <= i < |p.file| ==> forall j :: |file| <= j < |p.file| && j != i ==> p.file[j].record.source != p.file[i].record.source)
  {
    var p0, p := Init(pending, workers, file, latest), Reached(key, pending, workers, file, latest, steps);
    RunExtends(key, p0, steps, file);
    if |file| <= i < |p.file| {
      var x := p.file[i].record.source;
      CountReady(workers, workers, x);
      RunLogCounted(key, p0, steps, |file|, x);
      TakenOnce(key, pending, workers, file, latest, steps, x);
      LogsSome(p.file, |file|, |p.file|, x, i);
      TimesIn(p.taken, |p.taken|, x);
      assert p.taken == pending[..|p.taken|];
      forall j | |file| <= j < |p.file| && j != i ensures p.file[j].record.source != x {
        if p.file[j].record.source == x {
          if i < j { LogsTwo(p.file, |file|, |p.file|, x, i, j); } else { LogsTwo(p.file, |file|, |p.file|, x, j, i); }
        }
      }
    }
  }

  // ----- what the log says about a sample is how its run ended -----

  // Step k reported this outcome of this sample's run.
  predicate Reports(key: nat -> string, p: Pool, steps: seq<Step>, k: nat, r: Record) {
    k < |steps| && steps[k].RunDone? && steps[k].error == r.error
    && var now := Run(key, p, steps[..k]);
       steps[k].w < |now.workers| && now.workers[steps[k].w] == Working(r.source) && r.key == key(r.source)
  }

  ghost predicate Reported(key: nat -> string, p: Pool, steps: seq<Step>, r: Record) { exists k: nat :: Reports(key, p, steps, k, r) }

  predicate Carries(ph: Phase, r: Record) { ph == Writing(r) || ph == Locked(r) || ph == Logged(r) }

  ghost predicate AllReported(key: nat -> string, p: Pool, steps: seq<Step>, from: nat) {
    var now := Run(key, p, steps);
    && (forall w, r :: 0 <= w < |now.workers| && Carries(now.workers[w], r) ==> Reported(key, p, steps, r))
    && (forall i :: from <= i < |now.file| ==> now.file[i].Entry? && Reported(key, p, steps, now.file[i].record))
  }

  lemma StillReported(key: nat -> string, p: Pool, steps: seq<Step>, r: Record)
    requires steps != [] && Reported(key, p, steps[..|steps| - 1], r)
    ensures Reported(key, p, steps, r)
  {
    var k: nat :| Reports(key, p, steps[..|steps| - 1], k, r);
    assert steps[..|steps| - 1][..k] == steps[..k];
    assert Reports(key, p, steps, k, r);
  }

  lemma {:induction false} RunReported(key: nat -> string, p: Pool, steps: seq<Step>)
    requires forall w :: 0 <= w < |p.workers| ==> p.workers[w].Ready?
    ensures AllReported(key, p, steps, |p.file|)
    decreases |steps|
  {
    if steps != [] {
      RunReported(key, p, steps[..|steps| - 1]);
      NextReported(key, p, steps, |p.file|);
    }
  }

  lemma NextReported(key: nat -> string, p: Pool, steps: seq<Step>, from: nat)
    requires steps != [] && AllReported(key, p, steps[..|steps| - 1], from)
    ensures AllReported(key, p, steps, from)
  {
    var was, now := Run(key, p, steps[..|steps| - 1]), Run(key, p, steps);
    forall w, r | 0 <= w < |now.workers| && Carries(now.workers[w], r) ensures Reported(key, p, steps, r) {
      CarriedReported(key, p, steps, from, w, r);
    }
    forall i | from <= i < |now.file| ensures now.file[i].Entry? && Reported(key, p, steps, now.file[i].record) {
      if i >= |was.file| { assert Carries(was.workers[steps[|steps| - 1].w], now.file[i].record); }
      StillReported(key, p, steps, now.file[i].record);
    }
  }

  lemma CarriedReported(key: nat -> string, p: Pool, steps: seq<Step>, from: nat, w: nat, r: Record)
    requires steps != [] && AllReported(key, p, steps[..|steps| - 1], from)
    requires w < |Run(key, p, steps).workers| && Carries(Run(key, p, steps).workers[w], r)
    ensures Reported(key, p, steps, r)
  {
    var was := Run(key, p, steps[..|steps| - 1]);
    if Carries(was.workers[w], r) {
      StillReported(key, p, steps, r);
    } else {
      assert Reports(key, p, steps, |steps| - 1, r);
    }
  }

  // Every line a run adds carries the error, or its absence, that the run of that sample ended with.
  lemma LoggedOutcome(key: nat -> string, pending: seq<nat>, workers: nat, file: seq<Line>, latest: Latest, steps: seq<Step>, i: nat)
    requires |file| <= i < |Reached(key, pending, workers, file, latest, steps).file|
    ensures var line := Reached(key, pending, workers, file, latest, steps).file[i];
      line.Entry? && exists k: nat :: Reports(key, Init(pending, workers, file, latest), steps, k, line.record)
  {
    RunReported(key, Init(pending, workers, file, latest), steps);
  }

  // ----- resuming, from any state a run was in -----

  // Not logged, or logged last with an error.
  ghost predicate Retried(lines: seq<Line>, key: string) {
    forall j :: LastLogged(lines, |lines|, key, j) ==> lines[j].record.error.Some?
  }

  lemma RetriedIff(lines: seq<Line>, key: string)
    requires Load(lines, |lines|).Ok?
    ensures Retried(lines, key) <==> NeedsRun(Load(lines, |lines|).value, key)
  {
    LoadKeepsLast(lines, |lines|, key);
    var latest := Load(lines, |lines|).value;
    if key in latest {
      var i :| LastLogged(lines, |lines|, key, i) && lines[i].record == latest[key];
      forall j | LastLogged(lines, |lines|, key, j) ensures j == i {}
    }
  }

  // Interrupted at any point, the log still loads, and what a new run takes up is exactly the
  // selected samples with no record in it or whose last record there has an error.
  lemma ResumeRetries(keys: seq<string>, workers: nat, file: seq<Line>, latest: Latest, steps: seq<Step>, key: nat -> string)
    requires Load(file, |file|) == Ok(latest)
    ensures var p := Reached(key, PendingOf(latest, keys, |keys|), workers, file, latest, steps);
      Load(p.file, |p.file|).Ok?
      && forall i: nat :: i in PendingOf(Load(p.file, |p.file|).value, keys, |keys|) <==> i < |keys| && Retried(p.file, keys[i])
  {
    var pending := PendingOf(latest, keys, |keys|);
    ReachedInv(key, pending, workers, file, latest, steps);
    var p := Reached(key, pending, workers, file, latest, steps);
    PendingExactly(Load(p.file, |p.file|).value, keys, |keys|);
    forall i: nat | i < |keys| ensures Retried(p.file, keys[i]) <==> NeedsRun(Load(p.file, |p.file|).value, keys[i]) {
      RetriedIff(p.file, keys[i]);
    }
  }

  // Lines under other keys change nothing for a key.
  lemma {:induction false} LoadOthers(lines: seq<Line>, from: nat, n: nat, key: string)
    requires from <= n <= |lines| && Load(lines, n).Ok? && forall j :: from <= j < n ==> !HasKey(lines[j], key)
    ensures Load(lines, from).Ok?
    ensures NeedsRun(Load(lines, n).value, key) <==> NeedsRun(Load(lines, from).value, key)
    decreases n
  {
    if n > from { LoadOthers(lines, from, n - 1, key); }
  }

  // At most one line from `from` on is of sample i, and its key is on no other sample's line there.
  ghost predicate AtMostOne(lines: seq<Line>, from: nat, i: nat, key: string) {
    && (forall j :: from <= j < |lines| ==> (HasKey(lines[j], key) <==> IsOf(lines[j], i)))
    && (forall j, k :: from <= j < k < |lines| ==> !(IsOf(lines[j], i) && IsOf(lines[k], i)))
  }

  lemma LastWord(lines: seq<Line>, from: nat, i: nat, key: string)
    requires from <= |lines| && Load(lines, |lines|).Ok? && AtMostOne(lines, from, i, key)
    ensures Load(lines, from).Ok?
    ensures (exists j :: from <= j < |lines| && IsOf(lines[j], i)) ==>
      (NeedsRun(Load(lines, |lines|).value, key) <==> forall j :: from <= j < |lines| && IsOf(lines[j], i) ==> lines[j].record.error.Some?)
    ensures !(exists j :: from <= j < |lines| && IsOf(lines[j], i)) ==>
      (NeedsRun(Load(lines, |lines|).value, key) <==> NeedsRun(Load(lines, from).value, key))
  {
    if j: nat :| from <= j < |lines| && IsOf(lines[j], i) {
      assert HasKey(lines[j], key);
      LoadOthers(lines, j + 1, |lines|, key);
      LoadBefore(lines, from, j);
    } else {
      LoadOthers(lines, from, |lines|, key);
    }
  }

  lemma LoadBefore(lines: seq<Line>, from: nat, n: nat)
    requires from <= n <= |lines| && Load(lines, n).Ok?
    ensures Load(lines, from).Ok?
  {
    if Load(lines, from).Err? { LoadStops(lines, from, n); }
  }

  // With distinct sample keys: a pending sample is taken up again unless this run logged it without
  // error, and a sample that was not pending stays out.
  lemma ResumeBySample(keys: seq<string>, workers: nat, file: seq<Line>, latest: Latest, steps: seq<Step>, key: nat -> string, i: nat)
    requires Load(file, |file|) == Ok(latest) && i < |keys| && SampleKeys(keys, key)
    ensures var pending := PendingOf(latest, keys, |keys|);
      var p := Reached(key, pending, workers, file, latest, steps);
      Load(p.file, |p.file|).Ok? && file <= p.file
      && (i in PendingOf(Load(p.file, |p.file|).value, keys, |keys|) <==>
            i in pending && forall j :: |file| <= j < |p.file| && IsOf(p.file[j], i) ==> p.file[j].record.error.Some?)
  {
    var pending := PendingOf(latest, keys, |keys|);
    var p := Reached(key, pending, workers, file, latest, steps);
    PendingExactly(latest, keys, |keys|);
    ReachedInv(key, pending, workers, file, latest, steps);
    PendingExactly(Load(p.file, |p.file|).value, keys, |keys|);
    RunAtMostOne(keys, workers, file, latest, steps, key, i);
    LastWord(p.file, |file|, i, keys[i]);
    LoadPrefix(file, p.file[|file|..], |file|);
    assert p.file == file + p.file[|file|..];
  }

  predicate SampleKeys(keys: seq<string>, key: nat -> string) {
    (forall a, b :: 0 <= a < b < |keys| ==> keys[a] != keys[b]) && forall a: nat :: a < |keys| ==> key(a) == keys[a]
  }

  // The lines of a run over distinct keys.
  lemma RunAtMostOne(keys: seq<string>, workers: nat, file: seq<Line>, latest: Latest, steps: seq<Step>, key: nat -> string, i: nat)
    requires Load(file, |file|) == Ok(latest) && i < |keys| && SampleKeys(keys, key)
    ensures var pending := PendingOf(latest, keys, |keys|);
      var p := Reached(key, pending, workers, file, latest, steps);
      file <= p.file && AtMostOne(p.file, |file|, i, keys[i])
      && (i !in pending ==> forall j :: |file| <= j < |p.file| ==> !IsOf(p.file[j], i))
  {
    var pending := PendingOf(latest, keys, |keys|);
    var p := Reached(key, pending, workers, file, latest, steps);
    PendingExactly(latest, keys, |keys|);
    OneLineEach(key, pending, workers, file, latest, steps, 0);
    forall j: nat | |file| <= j < |p.file|
      ensures p.file[j].Entry? && p.file[j].record.source in pending && (HasKey(p.file[j], keys[i]) <==> IsOf(p.file[j], i))
    {
      OneLineEach(key, pending, workers, file, latest, steps, j);
      assert OwnLine(key, p.file[j]);
    }
    forall j, k | |file| <= j < k < |p.file| ensures !(IsOf(p.file[j], i) && IsOf(p.file[k], i)) {
      OneLineEach(key, pending, workers, file, latest, steps, j);
    }
  }

  // A record of sample i.
  predicate IsOf(line: Line, i: nat) { line.Entry? && line.record.source == i }

  // A run that ends leaves every selected sample with a record, so a new run takes up exactly those
  // whose last record failed.
  lemma ResumeRetriesErrors(keys: seq<string>, workers: nat, file: seq<Line>, latest: Latest, steps: seq<Step>, key: nat -> string)
    requires Load(file, |file|) == Ok(latest) && workers > 0
    requires forall i: nat :: i < |keys| ==> key(i) == keys[i]
    requires AllExited(Reached(key, PendingOf(latest, keys, |keys|), workers, file, latest, steps))
    ensures var p := Reached(key, PendingOf(latest, keys, |keys|), workers, file, latest, steps);
      Load(p.file, |p.file|) == Ok(p.latest)
      && forall i: nat :: i in PendingOf(p.latest, keys, |keys|) <==>
           i < |keys| && keys[i] in p.latest && p.latest[keys[i]].error.Some?
  {
    var pending := PendingOf(latest, keys, |keys|);
    var p := Reached(key, pending, workers, file, latest, steps);
    ReachedInv(key, pending, workers, file, latest, steps);
    RunRecorded(key, Init(pending, workers, file, latest), steps);
    FreeAtEnd(p);
    AllRecorded(keys, latest, p, key);
    PendingExactly(p.latest, keys, |keys|);
  }

  // When all workers have exited every selected sample has a record: an old one or a new one.
  lemma AllRecorded(keys: seq<string>, latest: Latest, p: Pool, key: nat -> string)
    requires Inv(p, PendingOf(latest, keys, |keys|)) && |p.workers| > 0 && AllExited(p)
    requires forall i: nat :: i < |keys| ==> key(i) == keys[i]
    requires (forall i | i in p.finished :: key(i) in p.latest) && forall k | k in latest :: k in p.latest
    ensures forall i :: 0 <= i < |keys| ==> keys[i] in p.latest
  {
    PendingExactly(latest, keys, |keys|);
    forall i: nat | i < |keys| ensures keys[i] in p.latest {
      if NeedsRun(latest, keys[i]) { FinishedPending(p, PendingOf(latest, keys, |keys|), i); }
    }
  }

  // No exited worker holds the lock.
  lemma FreeAtEnd(p: Pool)
    requires Locking(p) && AllExited(p)
    ensures p.holder.None?
  {
    var h := if p.holder.Some? then p.holder.value else 0;
    if h < |p.workers| { assert p.workers[h].Exited?; }
  }

  lemma FinishedPending(p: Pool, pending: seq<nat>, i: nat)
    requires Inv(p, pending) && |p.workers| > 0 && AllExited(p) && i in pending && Increasing(pending)
    ensures i in p.finished
  {
    AllDone(p, pending, i);
    TimesIncreasing(pending, |pending|, i);
    assert pending[..|pending|] == pending;
    TimesIn(p.finished, |p.finished|, i);
  }

  // ----- the running program -----

  class Evaluation {
    const key: nat -> string
    var queue: seq<Option<nat>>
    var unfinished: int
    var workers: seq<Phase>
    var holder: Option<nat>
    var file: seq<Line>
    var latest: Latest
    var completed: nat
    ghost var taken: seq<nat>
    ghost var finished: seq<nat>
    ghost var sentinels: nat

    ghost function Contents(): Pool reads this {
      Pool(queue, unfinished, workers, holder, file, latest, completed, taken, finished, sentinels)
    }

    constructor (keyOf: nat -> string, pending: seq<nat>, concurrency: nat, log: seq<Line>, loaded: Latest)
      ensures key == keyOf && Contents() == Init(pending, WorkerCount(concurrency, |pending|), log, loaded)
      ensures |workers| <= concurrency && (pending != [] ==> |workers| <= |pending|) && (pending == [] ==> |workers| <= 1)
      ensures |workers| == concurrency || (pending != [] && |workers| == |pending|) || (pending == [] && |workers| == 1)
    {
      key := keyOf;
      var count := WorkerCount(concurrency, |pending|);
      queue := seq(|pending|, i requires 0 <= i < |pending| => Some(pending[i])) + seq(count, _ => None);
      unfinished := |pending| + count;
      workers := seq(count, _ => Ready);
      holder, file, latest, completed := None, log, loaded, 0;
      taken, finished, sentinels := [], [], 0;
    }

    // queue.get(), and the return on a sentinel.
    method GetItem(w: nat)
      requires Enabled(Contents(), Get(w))
      modifies this
      ensures Contents() == Next(key, old(Contents()), Get(w))
    {
      var item := queue[0];
      queue := queue[1..];
      if item.None? {
        workers := workers[w := Exited];
        unfinished := unfinished - 1;
        sentinels := sentinels + 1;
      } else {
        workers := workers[w := Working(item.value)];
        taken := taken + [item.value];
      }
    }

    // _run_one returned a record.
    method FinishRun(w: nat, error: Option<string>)
      requires Enabled(Contents(), RunDone(w, error))
      modifies this
      ensures Contents() == Next(key, old(Contents()), RunDone(w, error))
    {
      var item := workers[w].item;
      workers := workers[w := Writing(Record(key(item), error, item))];
    }

    method TakeLock(w: nat)
      requires Enabled(Contents(), Acquire(w))
      modifies this
      ensures Contents() == Next(key, old(Contents()), Acquire(w))
    {
      holder := Some(w);
      workers := workers[w := Locked(workers[w].record)];
    }

    method WriteLine(w: nat)
      requires Enabled(Contents(), AppendLog(w))
      modifies this
      ensures Contents() == Next(key, old(Contents()), AppendLog(w))
    {
      file := file + [Entry(workers[w].record)];
      workers := workers[w := Logged(workers[w].record)];
    }

    method PublishRecord(w: nat)
      requires Enabled(Contents(), Publish(w))
      modifies this
      ensures Contents() == Next(key, old(Contents()), Publish(w))
    {
      var r := workers[w].record;
      latest := latest[r.key := r];
      holder := None;
      workers := workers[w := Counting(r.source)];
    }

    method TaskDone(w: nat)
      requires Enabled(Contents(), Finish(w))
      modifies this
      ensures Contents() == Next(key, old(Contents()), Finish(w))
    {
      finished := finished + [workers[w].item];
      completed := completed + 1;
      unfinished := unfinished - 1;
      workers := workers[w := Ready];
    }
  }
}
