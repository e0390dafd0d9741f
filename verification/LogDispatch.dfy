// The root-logger handler that routes records to files through a bounded queue and a writer thread.
module LogDispatch {
  import opened Common

  type Id = string
  type Path = string
  type Line = string

  datatype Op = Open(id: Id, path: Path) | Write(id: Id, line: Line) | Close(id: Id)

  datatype Item = Do(op: Op) | Stop

  // An open file: lines written but not yet flushed stay in its buffer.
  datatype Handle = Handle(path: Path, buffer: seq<Line>)

  // What the writer thread owns, and the files' contents on disk.
  datatype Writer = Writer(files: map<Id, Handle>, dirty: set<Id>, disk: map<Path, seq<Line>>)

  datatype Mode = Running | Draining | Stopped

  datatype State = State(logIds: set<Id>, queue: seq<Item>, dropped: nat, writer: Writer, mode: Mode)

  const INIT := State({}, [], 0, Writer(map[], {}, map[]), Running)

  // ----- the writer's operations -----

  function Contents(disk: map<Path, seq<Line>>, p: Path): seq<Line> {
    if p in disk then disk[p] else []
  }

  // Closing or flushing a handle moves its buffer to the file.
  function Settle(disk: map<Path, seq<Line>>, h: Handle): map<Path, seq<Line>> {
    disk[h.path := Contents(disk, h.path) + h.buffer]
  }

  // Flushing the first n buffered lines of one handle: all of them on a flush, some of them
  // when the buffer spills on its own.
  function FlushOne(w: Writer, id: Id, n: nat): Writer {
    if id !in w.files || n > |w.files[id].buffer| then w
    else
      var h := w.files[id];
      w.(files := w.files[id := Handle(h.path, h.buffer[n..])], disk := Settle(w.disk, Handle(h.path, h.buffer[..n])))
  }

  // Flush, close and forget one handle.
  function CloseHandle(w: Writer, id: Id): Writer {
    if id !in w.files then w
    else
      var f := FlushOne(w, id, |w.files[id].buffer|);
      Writer(f.files - {id}, f.dirty - {id}, f.disk)
  }

  // A log id that is open again: its old handle is closed first.
  function OpenHandle(w: Writer, id: Id, path: Path): Writer {
    AddHandle(CloseHandle(w, id), id, path)
  }

  function AddHandle(c: Writer, id: Id, path: Path): Writer {
    Writer(c.files[id := Handle(path, [])], c.dirty, c.disk[path := Contents(c.disk, path)])
  }

  function WriteLine(w: Writer, id: Id, line: Line, flushEachLine: bool): Writer {
    if id !in w.files then w
    else
      var h := Handle(w.files[id].path, w.files[id].buffer + [line]);
      if flushEachLine then w.(files := w.files[id := Handle(h.path, [])], disk := Settle(w.disk, h))
      else w.(files := w.files[id := h], dirty := w.dirty + {id})
  }

  // _apply, with every file operation succeeding.
  function Apply(w: Writer, op: Op, flushEachLine: bool): Writer {
    match op
    case Write(id, line) => WriteLine(w, id, line, flushEachLine)
    case Open(id, path) => OpenHandle(w, id, path)
    case Close(id) => CloseHandle(w, id)
  }

  // _flush over the dirty handles in the order the set yields them.
  function FlushList(w: Writer, order: seq<Id>): Writer {
    if order == [] then w
    else
      var id, before := order[|order| - 1], FlushList(w, order[..|order| - 1]);
      if id in before.files then FlushOne(before, id, |before.files[id].buffer|) else before
  }

  predicate Lists(order: seq<Id>, ids: set<Id>) {
    ids == set id | id in order
  }

  // One handle per path, and only dirty handles hold unflushed lines.
  predicate WriterValid(w: Writer) {
    && (forall a, b | a in w.files && b in w.files :: SamePath(w.files, a, b) ==> a == b)
    && (forall id | id in w.files && w.files[id].buffer != [] :: id in w.dirty)
    && w.dirty <= w.files.Keys
  }

  predicate SamePath(files: map<Id, Handle>, a: Id, b: Id)
    requires a in files && b in files
  {
    files[a].path == files[b].path
  }

  // ----- the write-immediately logger -----

  datatype Sync = Sync(open: map<Id, Path>, disk: map<Path, seq<Line>>)

  function SyncApply(s: Sync, op: Op): Sync {
    match op
    case Open(id, path) => Sync(s.open[id := path], s.disk[path := Contents(s.disk, path)])
    case Write(id, line) =>
      if id !in s.open then s else s.(disk := s.disk[s.open[id] := Contents(s.disk, s.open[id]) + [line]])
    case Close(id) => s.(open := s.open - {id})
  }

  function SyncRun(ops: seq<Op>): Sync {
    if ops == [] then Sync(map[], map[]) else SyncApply(SyncRun(ops[..|ops| - 1]), ops[|ops| - 1])
  }

  predicate HasHandle(files: map<Id, Handle>, p: Path) {
    exists id :: id in files && files[id].path == p
  }

  // The same ids are open at the same paths, and each file on disk, with what its handle
  // buffers, is the file of the write-immediately logger.
  predicate Refines(w: Writer, s: Sync) {
    && w.files.Keys == s.open.Keys
    && w.disk.Keys == s.disk.Keys
    && (forall id | id in w.files :: HandleRefines(w, s, id))
    && (forall p | p in w.disk && !HasHandle(w.files, p) :: w.disk[p] == s.disk[p])
  }

  predicate HandleRefines(w: Writer, s: Sync, id: Id)
    requires id in w.files && id in s.open
  {
    var p := s.open[id];
    w.files[id].path == p && p in w.disk && p in s.disk && s.disk[p] == w.disk[p] + w.files[id].buffer
  }

  // No other open id uses the path an id is being opened at.
  predicate PathFree(open: map<Id, Path>, op: Op) {
    op.Open? ==> forall id | id in open && id != op.id :: open[id] != op.path
  }

  // One handle replaced by another at the same path, and its file with it.
  predicate Updated(w: Writer, w': Writer, id: Id, buffer: seq<Line>, stored: seq<Line>) {
    && id in w.files && w'.files == w.files[id := Handle(w.files[id].path, buffer)]
    && w'.disk == w.disk[w.files[id].path := stored]
    && w.dirty <= w'.dirty <= w.files.Keys && (buffer != [] ==> id in w'.dirty)
  }

  lemma UpdateValid(w: Writer, w': Writer, id: Id, buffer: seq<Line>, stored: seq<Line>)
    requires WriterValid(w) && Updated(w, w', id, buffer, stored)
    ensures WriterValid(w')
  {
    forall a, b | a in w'.files && b in w'.files && SamePath(w'.files, a, b) ensures a == b {
      assert SamePath(w.files, a, b);
    }
  }

  lemma UpdateRefines(w: Writer, s: Sync, w': Writer, s': Sync, id: Id, buffer: seq<Line>, stored: seq<Line>)
    requires WriterValid(w) && Refines(w, s) && Updated(w, w', id, buffer, stored)
    requires s'.open == s.open && s'.disk == s.disk[w.files[id].path := stored + buffer]
    ensures Refines(w', s')
  {
    assert HandleRefines(w, s, id);
    forall o | o in w'.files ensures HandleRefines(w', s', o) {
      assert HandleRefines(w, s, o);
      UpdateHandle(w, s, w', s', id, buffer, stored, o);
    }
    forall q | q in w'.disk && !HasHandle(w'.files, q) ensures w'.disk[q] == s'.disk[q] {
      UpdateClosed(w, s, w', s', id, buffer, stored, q);
    }
  }

  // Files without a handle stay as they are.
  lemma UpdateClosed(w: Writer, s: Sync, w': Writer, s': Sync, id: Id, buffer: seq<Line>, stored: seq<Line>, q: Path)
    requires Refines(w, s) && Updated(w, w', id, buffer, stored) && s'.disk == s.disk[w.files[id].path := stored + buffer]
    requires q in w'.disk && !HasHandle(w'.files, q)
    ensures q in s'.disk && w'.disk[q] == s'.disk[q]
  {
    SameHandles(w.files, w'.files, q);
    assert q != w.files[id].path;
  }

  lemma UpdateHandle(w: Writer, s: Sync, w': Writer, s': Sync, id: Id, buffer: seq<Line>, stored: seq<Line>, o: Id)
    requires WriterValid(w) && w.files.Keys == s.open.Keys && Updated(w, w', id, buffer, stored)
    requires s'.open == s.open && s'.disk == s.disk[w.files[id].path := stored + buffer]
    requires o in w.files && HandleRefines(w, s, o) && HandleRefines(w, s, id)
    ensures HandleRefines(w', s', o)
  {
    if o != id { assert !SamePath(w.files, o, id); }
  }

  lemma SameHandles(a: map<Id, Handle>, b: map<Id, Handle>, p: Path)
    requires a.Keys == b.Keys && forall id | id in a :: a[id].path == b[id].path
    ensures HasHandle(a, p) <==> HasHandle(b, p)
  {
    if id :| id in a && a[id].path == p { assert b[id].path == p; }
    if id :| id in b && b[id].path == p { assert a[id].path == p; }
  }

  lemma WriteRefines(w: Writer, s: Sync, id: Id, line: Line, flushEachLine: bool)
    requires WriterValid(w) && Refines(w, s)
    ensures WriterValid(WriteLine(w, id, line, flushEachLine))
    ensures Refines(WriteLine(w, id, line, flushEachLine), SyncApply(s, Write(id, line)))
  {
    if id in w.files {
      assert HandleRefines(w, s, id);
      var w', s' := WriteLine(w, id, line, flushEachLine), SyncApply(s, Write(id, line));
      WriteUpdates(w, s, id, line, flushEachLine);
      var buffer := if flushEachLine then [] else w.files[id].buffer + [line];
      var stored := Contents(w'.disk, w.files[id].path);
      UpdateValid(w, w', id, buffer, stored);
      UpdateRefines(w, s, w', s', id, buffer, stored);
    }
  }

  lemma WriteUpdates(w: Writer, s: Sync, id: Id, line: Line, flushEachLine: bool)
    requires id in w.files && id in s.open && HandleRefines(w, s, id) && w.dirty <= w.files.Keys
    ensures var w', s', p := WriteLine(w, id, line, flushEachLine), SyncApply(s, Write(id, line)), w.files[id].path;
      var buffer := if flushEachLine then [] else w.files[id].buffer + [line];
      Updated(w, w', id, buffer, Contents(w'.disk, p)) && s'.open == s.open
      && s'.disk == s.disk[p := Contents(w'.disk, p) + buffer]
  {
    var h := w.files[id];
    var stored := w.disk[h.path];
    assert (stored + h.buffer) + [line] == stored + (h.buffer + [line]) == stored + (h.buffer + [line]) + [];
    assert w.disk[h.path := stored] == w.disk;
  }

  lemma FlushOneRefines(w: Writer, s: Sync, id: Id, n: nat)
    requires WriterValid(w) && Refines(w, s)
    ensures WriterValid(FlushOne(w, id, n)) && Refines(FlushOne(w, id, n), s)
  {
    if id in w.files && n <= |w.files[id].buffer| {
      assert HandleRefines(w, s, id);
      var h := w.files[id];
      var stored := w.disk[h.path] + h.buffer[..n];
      FlushUpdates(w, s, id, n);
      UpdateValid(w, FlushOne(w, id, n), id, h.buffer[n..], stored);
      UpdateRefines(w, s, FlushOne(w, id, n), s, id, h.buffer[n..], stored);
    }
  }

  lemma FlushUpdates(w: Writer, s: Sync, id: Id, n: nat)
    requires id in w.files && id in s.open && HandleRefines(w, s, id) && n <= |w.files[id].buffer|
    requires w.dirty <= w.files.Keys && (w.files[id].buffer != [] ==> id in w.dirty)
    ensures var h := w.files[id];
      var stored := w.disk[h.path] + h.buffer[..n];
      Updated(w, FlushOne(w, id, n), id, h.buffer[n..], stored) && s.disk == s.disk[h.path := stored + h.buffer[n..]]
  {
    var h := w.files[id];
    assert h.buffer == h.buffer[..n] + h.buffer[n..];
    assert w.disk[h.path] + h.buffer == (w.disk[h.path] + h.buffer[..n]) + h.buffer[n..];
  }

  // A settled handle can be dropped.
  lemma DropRefines(w: Writer, s: Sync, id: Id)
    requires WriterValid(w) && Refines(w, s) && id in w.files && w.files[id].buffer == []
    ensures var w' := Writer(w.files - {id}, w.dirty - {id}, w.disk);
      WriterValid(w') && Refines(w', s.(open := s.open - {id}))
  {
    var w', s' := Writer(w.files - {id}, w.dirty - {id}, w.disk), s.(open := s.open - {id});
    assert forall o | o in w.files && o != id :: o in w'.files && w'.files[o] == w.files[o];
    assert HandleRefines(w, s, id);
    forall a, b | a in w'.files && b in w'.files && SamePath(w'.files, a, b) ensures a == b {
      assert SamePath(w.files, a, b);
    }
    forall o | o in w'.files ensures HandleRefines(w', s', o) {
      assert HandleRefines(w, s, o);
    }
    forall q | q in w'.disk && !HasHandle(w'.files, q) ensures w'.disk[q] == s'.disk[q] {
    }
  }

  lemma CloseRefines(w: Writer, s: Sync, id: Id)
    requires WriterValid(w) && Refines(w, s)
    ensures WriterValid(CloseHandle(w, id)) && Refines(CloseHandle(w, id), s.(open := s.open - {id}))
  {
    if id in w.files {
      FlushOneRefines(w, s, id, |w.files[id].buffer|);
      DropRefines(FlushOne(w, id, |w.files[id].buffer|), s, id);
    } else {
      assert s.open - {id} == s.open;
    }
  }

  lemma OpenValid(c: Writer, id: Id, path: Path)
    requires WriterValid(c) && id !in c.files && !HasHandle(c.files, path)
    ensures WriterValid(AddHandle(c, id, path))
  {
    var w' := AddHandle(c, id, path);
    forall a, b | a in w'.files && b in w'.files && SamePath(w'.files, a, b) ensures a == b {
      if a != id && b != id { assert SamePath(c.files, a, b); }
    }
  }

  lemma OpenRefines(c: Writer, s0: Sync, s: Sync, id: Id, path: Path)
    requires Refines(c, s0) && id !in c.files && !HasHandle(c.files, path)
    requires s0 == s.(open := s.open - {id})
    ensures Refines(AddHandle(c, id, path), SyncApply(s, Open(id, path)))
  {
    var w', s' := AddHandle(c, id, path), SyncApply(s, Open(id, path));
    assert w'.files.Keys == s'.open.Keys;
    forall o | o in w'.files ensures HandleRefines(w', s', o) {
      if o != id { assert HandleRefines(c, s0, o) && c.files[o].path != path; }
    }
    forall q | q in w'.disk && !HasHandle(w'.files, q) ensures w'.disk[q] == s'.disk[q] {
      assert w'.files[id].path == path;
      assert forall o | o in c.files :: o in w'.files && w'.files[o] == c.files[o];
    }
  }

  // One writer operation does to files and buffers what the write-immediately logger does to the files.
  lemma ApplyRefines(w: Writer, s: Sync, op: Op, flushEachLine: bool)
    requires WriterValid(w) && Refines(w, s) && PathFree(s.open, op)
    ensures WriterValid(Apply(w, op, flushEachLine))
    ensures Refines(Apply(w, op, flushEachLine), SyncApply(s, op))
  {
    match op
    case Write(id, line) => WriteRefines(w, s, id, line, flushEachLine);
    case Close(id) => CloseRefines(w, s, id);
    case Open(id, path) => ReopenRefines(w, s, id, path);
  }

  lemma ReopenRefines(w: Writer, s: Sync, id: Id, path: Path)
    requires WriterValid(w) && Refines(w, s) && PathFree(s.open, Open(id, path))
    ensures WriterValid(OpenHandle(w, id, path))
    ensures Refines(OpenHandle(w, id, path), SyncApply(s, Open(id, path)))
  {
    CloseRefines(w, s, id);
    ReopenFree(w, s, id, path);
    OpenValid(CloseHandle(w, id), id, path);
    OpenRefines(CloseHandle(w, id), s.(open := s.open - {id}), s, id, path);
  }

  lemma ReopenFree(w: Writer, s: Sync, id: Id, path: Path)
    requires WriterValid(w) && Refines(w, s) && PathFree(s.open, Open(id, path))
    ensures !HasHandle(CloseHandle(w, id).files, path)
  {
    var c := CloseHandle(w, id);
    forall o | o in c.files ensures c.files[o].path != path {
      OpenAt(w, s, o);
    }
  }

  lemma OpenAt(w: Writer, s: Sync, id: Id)
    requires Refines(w, s) && id in w.files
    ensures id in s.open && s.open[id] == w.files[id].path
  {
    assert HandleRefines(w, s, id);
  }

  // ----- flushing -----

  lemma {:induction false} FlushListRefines(w: Writer, s: Sync, order: seq<Id>)
    requires WriterValid(w) && Refines(w, s)
    ensures WriterValid(FlushList(w, order)) && Refines(FlushList(w, order), s)
  {
    if order != [] {
      var n := |order| - 1;
      FlushListRefines(w, s, order[..n]);
      var before, id := FlushList(w, order[..n]), order[n];
      if id in before.files { FlushOneRefines(before, s, id, |before.files[id].buffer|); }
    }
  }

  lemma {:induction false} FlushListBuffers(w: Writer, order: seq<Id>)
    ensures FlushList(w, order).files.Keys == w.files.Keys && FlushList(w, order).dirty == w.dirty
    ensures forall id | id in w.files ::
      FlushList(w, order).files[id].buffer == if id in order then [] else w.files[id].buffer
  {
    if order != [] {
      var n := |order| - 1;
      FlushListBuffers(w, order[..n]);
      assert order == order[..n] + [order[n]];
    }
  }

  // Once the dirty handles are flushed, in any order, the disk holds every line.
  lemma FlushIsDurable(w: Writer, s: Sync, order: seq<Id>)
    requires WriterValid(w) && Refines(w, s) && Lists(order, w.dirty)
    ensures FlushList(w, order).disk == s.disk
    ensures WriterValid(FlushList(w, order).(dirty := {})) && Refines(FlushList(w, order).(dirty := {}), s)
  {
    FlushListRefines(w, s, order);
    FlushListBuffers(w, order);
    var f := FlushList(w, order);
    assert forall id | id in w.files :: f.files[id].buffer == [];
    SettledIsDurable(f, s);
    NotDirty(f, s);
  }

  // With empty buffers the disk is the immediate logger's.
  lemma SettledIsDurable(f: Writer, s: Sync)
    requires Refines(f, s) && forall id | id in f.files :: f.files[id].buffer == []
    ensures f.disk == s.disk
  {
    forall p | p in f.disk ensures f.disk[p] == s.disk[p] {
      if id :| id in f.files && f.files[id].path == p { assert HandleRefines(f, s, id); }
    }
  }

  lemma NotDirty(f: Writer, s: Sync)
    requires WriterValid(f) && Refines(f, s) && forall id | id in f.files :: f.files[id].buffer == []
    ensures WriterValid(f.(dirty := {})) && Refines(f.(dirty := {}), s)
  {
    var f' := f.(dirty := {});
    forall id | id in f.files ensures HandleRefines(f', s, id) { assert HandleRefines(f, s, id); }
  }

  // ----- runs -----

  // What callers do, what the writer thread does, and what the file layer does on its own.
  datatype Step =
    | Register(id: Id, path: Path)
    | Unregister(id: Id)
    | Emit(to: Option<Id>, text: Option<Line>)  // None: no log id in scope, or formatting failed
    | Shutdown
    | Take                       // the writer takes the next item
    | Flush(order: seq<Id>)      // the flush interval has passed
    | CloseAll(order: seq<Id>)   // the queue is drained after the stop item
    | Spill(id: Id, n: nat)

  datatype Config = Config(queueMax: nat, flushEachLine: bool)

  function Submit(s: State, op: Op, cfg: Config): State {
    if |s.queue| < cfg.queueMax then s.(queue := s.queue + [Do(op)]) else s.(dropped := s.dropped + 1)
  }

  // The operation a call hands to _submit, if it gets that far.
  function OpOf(s: State, step: Step): Option<Op> {
    match step
    case Register(id, path) => Some(Open(id, path))
    case Unregister(id) => Some(Close(id))
    case Emit(Some(id), Some(line)) => if id in s.logIds then Some(Write(id, line)) else None
    case _ => None
  }

  function TakeItem(s: State, cfg: Config): State {
    if s.mode == Stopped || s.queue == [] then s
    else
      var t := s.(queue := s.queue[1..]);
      match s.queue[0]
      case Do(op) => t.(writer := Apply(s.writer, op, cfg.flushEachLine))
      case Stop => t.(mode := Draining)
  }

  function Next(s: State, step: Step, cfg: Config): State {
    match step
    case Register(id, path) => Submit(s.(logIds := s.logIds + {id}), Open(id, path), cfg)
    case Unregister(id) => Submit(s.(logIds := s.logIds - {id}), Close(id), cfg)
    case Emit(_, _) => if OpOf(s, step).Some? then Submit(s, OpOf(s, step).value, cfg) else s
    case Shutdown => if |s.queue| < cfg.queueMax then s.(queue := s.queue + [Stop]) else s
    case Take => TakeItem(s, cfg)
    case Flush(order) =>
      if s.mode != Running || !Lists(order, s.writer.dirty) then s
      else s.(writer := FlushList(s.writer, order).(dirty := {}))
    case CloseAll(order) =>
      if s.mode != Draining || s.queue != [] || !Lists(order, s.writer.dirty) then s
      else s.(writer := Writer(map[], {}, FlushList(s.writer, order).disk), mode := Stopped)
    case Spill(id, n) => s.(writer := FlushOne(s.writer, id, n))
  }

  function Run(steps: seq<Step>, cfg: Config): State {
    if steps == [] then INIT else Next(Run(steps[..|steps| - 1], cfg), steps[|steps| - 1], cfg)
  }

  // The operations submitted in a run, those that found room, and those the writer applied.
  function Submitted(steps: seq<Step>, cfg: Config): nat {
    if steps == [] then 0
    else
      var n := |steps| - 1;
      Submitted(steps[..n], cfg) + if OpOf(Run(steps[..n], cfg), steps[n]).Some? then 1 else 0
  }

  function Accepted(steps: seq<Step>, cfg: Config): seq<Op> {
    if steps == [] then []
    else
      var n := |steps| - 1;
      var s, before := Run(steps[..n], cfg), Accepted(steps[..n], cfg);
      var op := OpOf(s, steps[n]);
      if op.Some? && |s.queue| < cfg.queueMax then before + [op.value] else before
  }

  function Applied(steps: seq<Step>, cfg: Config): seq<Op> {
    if steps == [] then []
    else
      var n := |steps| - 1;
      var s, before := Run(steps[..n], cfg), Applied(steps[..n], cfg);
      if steps[n] == Take && s.mode != Stopped && s.queue != [] && s.queue[0].Do?
      then before + [s.queue[0].op] else before
  }

  function Pending(queue: seq<Item>): seq<Op> {
    if queue == [] then [] else (if queue[0].Do? then [queue[0].op] else []) + Pending(queue[1..])
  }

  lemma {:induction false} PendingAppend(queue: seq<Item>, item: Item)
    ensures Pending(queue + [item]) == Pending(queue) + if item.Do? then [item.op] else []
  {
    if queue == [] {
      assert [item][1..] == [] && [] + [item] == [item];
    } else {
      var all, head := queue + [item], if queue[0].Do? then [queue[0].op] else [];
      assert all[1..] == queue[1..] + [item] && all[0] == queue[0];
      PendingAppend(queue[1..], item);
      assert Pending(all) == head + Pending(all[1..]);
      assert Pending(queue) == head + Pending(queue[1..]);
    }
  }

  // What one step puts into the queue and what it takes out and applies.
  function Enters(s: State, step: Step, cfg: Config): seq<Op> {
    if OpOf(s, step).Some? && |s.queue| < cfg.queueMax then [OpOf(s, step).value] else []
  }

  function Leaves(s: State, step: Step): seq<Op> {
    if step == Take && s.mode != Stopped && s.queue != [] && s.queue[0].Do? then [s.queue[0].op] else []
  }

  // The step's share of the conservation law.
  predicate Conserves(s: State, step: Step, cfg: Config) {
    var s' := Next(s, step, cfg);
    && Pending(s.queue) + Enters(s, step, cfg) == Leaves(s, step) + Pending(s'.queue)
    && s'.dropped == s.dropped + (if OpOf(s, step).Some? && Enters(s, step, cfg) == [] then 1 else 0)
    && |s'.queue| <= cfg.queueMax
  }

  lemma NextConserves(s: State, step: Step, cfg: Config)
    requires |s.queue| <= cfg.queueMax
    ensures Conserves(s, step, cfg)
  {
    assert Pending(s.queue) + [] == Pending(s.queue) == [] + Pending(s.queue);
    if OpOf(s, step).Some? {
      SubmitConserves(s, step, cfg);
    } else if step == Take {
      TakeConserves(s, cfg);
    } else {
      PendingAppend(s.queue, Stop);
    }
  }

  lemma SubmitConserves(s: State, step: Step, cfg: Config)
    requires |s.queue| <= cfg.queueMax && OpOf(s, step).Some?
    ensures Conserves(s, step, cfg)
  {
    PendingAppend(s.queue, Do(OpOf(s, step).value));
    assert Pending(s.queue) + [] == [] + Pending(s.queue);
  }

  lemma TakeConserves(s: State, cfg: Config)
    requires |s.queue| <= cfg.queueMax
    ensures Conserves(s, Take, cfg)
  {
    assert Pending(s.queue) + [] == Pending(s.queue) == [] + Pending(s.queue);
  }

  // Everything submitted is applied, still queued in order, or counted as dropped.
  lemma {:induction false} Conservation(steps: seq<Step>, cfg: Config)
    ensures Accepted(steps, cfg) == Applied(steps, cfg) + Pending(Run(steps, cfg).queue)
    ensures Submitted(steps, cfg) == |Applied(steps, cfg)| + |Pending(Run(steps, cfg).queue)| + Run(steps, cfg).dropped
    ensures |Run(steps, cfg).queue| <= cfg.queueMax
    decreases |steps|
  {
    if steps != [] {
      Conservation(steps[..|steps| - 1], cfg);
      ConservesMore(steps, cfg);
    }
  }

  lemma ConservesMore(steps: seq<Step>, cfg: Config)
    requires steps != []
    requires var init := steps[..|steps| - 1];
      && Accepted(init, cfg) == Applied(init, cfg) + Pending(Run(init, cfg).queue)
      && Submitted(init, cfg) == |Applied(init, cfg)| + |Pending(Run(init, cfg).queue)| + Run(init, cfg).dropped
      && |Run(init, cfg).queue| <= cfg.queueMax
    ensures Accepted(steps, cfg) == Applied(steps, cfg) + Pending(Run(steps, cfg).queue)
    ensures Submitted(steps, cfg) == |Applied(steps, cfg)| + |Pending(Run(steps, cfg).queue)| + Run(steps, cfg).dropped
    ensures |Run(steps, cfg).queue| <= cfg.queueMax
  {
    var init, step := steps[..|steps| - 1], steps[|steps| - 1];
    var s := Run(init, cfg);
    NextConserves(s, step, cfg);
    assert Accepted(steps, cfg) == Accepted(init, cfg) + Enters(s, step, cfg);
    assert Applied(steps, cfg) == Applied(init, cfg) + Leaves(s, step);
    Reassociate(Applied(init, cfg), Pending(s.queue), Enters(s, step, cfg), Leaves(s, step), Pending(Run(steps, cfg).queue));
  }

  lemma Reassociate<T>(a: seq<T>, b: seq<T>, c: seq<T>, d: seq<T>, e: seq<T>)
    requires b + c == d + e
    ensures (a + b) + c == (a + d) + e && |b| + |c| == |d| + |e|
  {
    assert (a + b) + c == a + (b + c);
    assert |b + c| == |d + e|;
  }

  // No id is opened at a path that another open id uses at that point of the stream.
  ghost predicate PathsDistinct(ops: seq<Op>) {
    forall k | 0 <= k < |ops| :: PathFree(SyncRun(ops[..k]).open, ops[k])
  }

  lemma PathsDistinctPrefix(ops: seq<Op>, k: nat)
    requires PathsDistinct(ops) && k <= |ops|
    ensures PathsDistinct(ops[..k])
  {
    forall j | 0 <= j < k ensures PathFree(SyncRun(ops[..k][..j]).open, ops[..k][j]) {
      assert ops[..k][..j] == ops[..j];
    }
  }

  lemma AcceptedPrefix(steps: seq<Step>, cfg: Config)
    requires steps != []
    ensures Accepted(steps[..|steps| - 1], cfg) <= Accepted(steps, cfg)
  {}

  // The writer's files, counting buffered lines, are the immediate logger's; after the final close the disk is.
  ghost predicate Agree(s: State, sync: Sync) {
    && WriterValid(s.writer)
    && (s.mode != Stopped ==> Refines(s.writer, sync))
    && (s.mode == Stopped ==> s.writer.files == map[] && s.writer.disk == sync.disk)
  }

  // In every state of a run the writer agrees with the write-immediately logger on the applied operations.
  lemma {:induction false} WriterAgrees(steps: seq<Step>, cfg: Config)
    requires PathsDistinct(Accepted(steps, cfg))
    ensures Agree(Run(steps, cfg), SyncRun(Applied(steps, cfg)))
    decreases |steps|
  {
    if steps != [] {
      var prefix := steps[..|steps| - 1];
      AcceptedPrefix(steps, cfg);
      PathsDistinctPrefix(Accepted(steps, cfg), |Accepted(prefix, cfg)|);
      WriterAgrees(prefix, cfg);
      if steps[|steps| - 1] == Take {
        TakeAgrees(steps, cfg);
      } else {
        NextAgrees(Run(prefix, cfg), steps[|steps| - 1], SyncRun(Applied(prefix, cfg)), cfg);
      }
    }
  }

  // The steps that apply nothing.
  lemma NextAgrees(s: State, step: Step, sync: Sync, cfg: Config)
    requires Agree(s, sync) && step != Take
    ensures Agree(Next(s, step, cfg), sync)
  {
    if step.Flush? || step.CloseAll? {
      if s.mode != Stopped && Lists(step.order, s.writer.dirty) { FlushIsDurable(s.writer, sync, step.order); }
    } else if step.Spill? {
      if s.mode != Stopped { FlushOneRefines(s.writer, sync, step.id, step.n); }
    } else {
      assert Next(s, step, cfg).writer == s.writer && Next(s, step, cfg).mode == s.mode;
    }
  }

  lemma TakeAgrees(steps: seq<Step>, cfg: Config)
    requires steps != [] && steps[|steps| - 1] == Take && PathsDistinct(Accepted(steps, cfg))
    requires Agree(Run(steps[..|steps| - 1], cfg), SyncRun(Applied(steps[..|steps| - 1], cfg)))
    ensures Agree(Run(steps, cfg), SyncRun(Applied(steps, cfg)))
  {
    var prefix := steps[..|steps| - 1];
    var s, before := Run(prefix, cfg), Applied(prefix, cfg);
    if s.mode != Stopped && s.queue != [] && s.queue[0].Do? {
      var op := s.queue[0].op;
      Conservation(prefix, cfg);
      assert Accepted(steps, cfg)[..|before|] == before && Accepted(steps, cfg)[|before|] == op;
      ApplyRefines(s.writer, SyncRun(before), op, cfg.flushEachLine);
      assert (before + [op])[..|before|] == before;
    }
  }

  // ----- the calls, as a write-immediately logger sees them -----

  function SyncLog(steps: seq<Step>): Sync {
    if steps == [] then Sync(map[], map[])
    else
      var before := SyncLog(steps[..|steps| - 1]);
      match steps[|steps| - 1]
      case Register(id, path) => SyncApply(before, Open(id, path))
      case Unregister(id) => SyncApply(before, Close(id))
      case Emit(Some(id), Some(line)) => SyncApply(before, Write(id, line))
      case _ => before
  }

  lemma {:induction false} AcceptedIsSyncLog(steps: seq<Step>, cfg: Config)
    ensures Run(steps, cfg).logIds == SyncLog(steps).open.Keys
    ensures Run(steps, cfg).dropped == 0 ==> SyncRun(Accepted(steps, cfg)) == SyncLog(steps)
  {
    if steps != [] {
      var n := |steps| - 1;
      AcceptedIsSyncLog(steps[..n], cfg);
      var s, before := Run(steps[..n], cfg), Accepted(steps[..n], cfg);
      var op := OpOf(s, steps[n]);
      if op.Some? { assert (before + [op.value])[..|before|] == before; }
    }
  }

  // Nothing dropped and nothing queued: the files, counting buffered lines, are those of a
  // logger that writes immediately; after a flush or the final close, the disk is.
  lemma MatchesImmediateLogger(steps: seq<Step>, cfg: Config)
    requires PathsDistinct(Accepted(steps, cfg))
    requires Run(steps, cfg).dropped == 0 && Pending(Run(steps, cfg).queue) == []
    ensures Run(steps, cfg).mode != Stopped ==> Refines(Run(steps, cfg).writer, SyncLog(steps))
    ensures Run(steps, cfg).mode == Stopped || Run(steps, cfg).writer.dirty == {} ==>
      Run(steps, cfg).writer.disk == SyncLog(steps).disk
  {
    Conservation(steps, cfg);
    AcceptedIsSyncLog(steps, cfg);
    WriterAgrees(steps, cfg);
    assert Applied(steps, cfg) + [] == Applied(steps, cfg);
    var s := Run(steps, cfg);
    if s.mode != Stopped && s.writer.dirty == {} {
      FlushIsDurable(s.writer, SyncLog(steps), []);
    }
  }

  // ----- when lines are dropped, on disk, and all written -----

  // What a call submits: to open or close a file, or a formatted line of a registered id.
  predicate Calls(s: State, step: Step, op: Op) {
    match op
    case Open(id, path) => step == Register(id, path)
    case Close(id) => step == Unregister(id)
    case Write(id, line) => step == Emit(Some(id), Some(line)) && id in s.logIds
  }

  // In every reachable state a submitted operation is dropped exactly if the queue is full, and else goes last.
  lemma DroppedIffFull(steps: seq<Step>, step: Step, op: Op, cfg: Config)
    requires Calls(Run(steps, cfg), step, op)
    ensures var s := Run(steps, cfg); var s' := Next(s, step, cfg);
      if |s.queue| == cfg.queueMax then s'.queue == s.queue && s'.dropped == s.dropped + 1
      else s'.queue == s.queue + [Do(op)] && s'.dropped == s.dropped
  {
    Conservation(steps, cfg);
  }

  // No other step drops anything.
  lemma DropsOnlyCalls(s: State, step: Step, cfg: Config) returns (op: Op)
    requires Next(s, step, cfg).dropped != s.dropped
    ensures Calls(s, step, op) && |s.queue| >= cfg.queueMax
  {
    op := OpOf(s, step).value;
  }

  predicate Unbuffered(w: Writer) { forall id | id in w.files :: w.files[id].buffer == [] }

  lemma {:induction false} FlushListUnbuffered(w: Writer, order: seq<Id>)
    requires Unbuffered(w)
    ensures Unbuffered(FlushList(w, order))
  {
    FlushListBuffers(w, order);
  }

  lemma NextUnbuffered(s: State, step: Step, cfg: Config)
    requires Unbuffered(s.writer) && cfg.flushEachLine
    ensures Unbuffered(Next(s, step, cfg).writer)
  {
    match step
    case Flush(order) => FlushListUnbuffered(s.writer, order);
    case Spill(id, n) =>
    case _ =>
  }

  lemma {:induction false} RunUnbuffered(steps: seq<Step>, cfg: Config)
    requires cfg.flushEachLine
    ensures Unbuffered(Run(steps, cfg).writer)
    decreases |steps|
  {
    if steps != [] {
      RunUnbuffered(steps[..|steps| - 1], cfg);
      NextUnbuffered(Run(steps[..|steps| - 1], cfg), steps[|steps| - 1], cfg);
    }
  }

  // With a flush after each line the disk holds every applied line in every state.
  lemma FlushedEachLine(steps: seq<Step>, cfg: Config)
    requires PathsDistinct(Accepted(steps, cfg)) && cfg.flushEachLine
    ensures Run(steps, cfg).writer.disk == SyncRun(Applied(steps, cfg)).disk
  {
    WriterAgrees(steps, cfg);
    RunUnbuffered(steps, cfg);
    if Run(steps, cfg).mode != Stopped { SettledIsDurable(Run(steps, cfg).writer, SyncRun(Applied(steps, cfg))); }
  }

  // When the flush interval has passed the disk holds every line applied so far.
  lemma FlushedByTimer(steps: seq<Step>, order: seq<Id>, cfg: Config)
    requires PathsDistinct(Accepted(steps, cfg)) && Run(steps, cfg).mode == Running && Lists(order, Run(steps, cfg).writer.dirty)
    ensures var s := Next(Run(steps, cfg), Flush(order), cfg);
      s.writer.disk == SyncRun(Applied(steps, cfg)).disk && s.writer.dirty == {} && Unbuffered(s.writer)
  {
    WriterAgrees(steps, cfg);
    FlushStep(Run(steps, cfg), SyncRun(Applied(steps, cfg)), order, cfg);
  }

  lemma FlushStep(s: State, sync: Sync, order: seq<Id>, cfg: Config)
    requires Agree(s, sync) && s.mode == Running && Lists(order, s.writer.dirty)
    ensures var s' := Next(s, Flush(order), cfg);
      s'.writer.disk == sync.disk && s'.writer.dirty == {} && Unbuffered(s'.writer)
  {
    FlushIsDurable(s.writer, sync, order);
    FlushEmpties(s.writer, order);
  }

  lemma FlushEmpties(w: Writer, order: seq<Id>)
    requires WriterValid(w) && Lists(order, w.dirty)
    ensures Unbuffered(FlushList(w, order))
  {
    FlushListBuffers(w, order);
  }

  // The stop item is in the queue, or was taken.
  predicate Stopping(s: State) { s.mode == Draining || (s.mode == Running && Stop in s.queue) }

  lemma RunMore(steps: seq<Step>, step: Step, cfg: Config)
    ensures Run(steps + [step], cfg) == Next(Run(steps, cfg), step, cfg)
  {
    assert (steps + [step])[..|steps|] == steps;
  }

  lemma CloseStops(s: State, order: seq<Id>, cfg: Config)
    requires Stopping(s) && s.queue == [] && Lists(order, s.writer.dirty)
    ensures var s' := Next(s, CloseAll(order), cfg); s'.mode == Stopped && s'.queue == [] && s'.dropped == s.dropped
  {}

  predicate WritersOwn(step: Step) { step.Take? || step.CloseAll? }

  lemma TakeStopping(s: State, cfg: Config)
    requires Stopping(s) && s.queue != []
    ensures Stopping(TakeItem(s, cfg)) && |TakeItem(s, cfg).queue| < |s.queue| && TakeItem(s, cfg).dropped == s.dropped
  {
    assert s.queue == [s.queue[0]] + s.queue[1..];
  }

  lemma {:induction false} OrderOf(ids: set<Id>) returns (order: seq<Id>)
    ensures Lists(order, ids)
    decreases |ids|
  {
    order := [];
    if ids != {} {
      var id :| id in ids;
      var rest := OrderOf(ids - {id});
      order := [id] + rest;
      assert forall x :: x in rest <==> x in ids - {id};
      assert forall x :: x in order <==> x in ids;
    }
  }

  // After a stop item was queued, the writer's own steps end it: the queue is drained, the files closed.
  lemma {:induction false} WriterStops(steps: seq<Step>, cfg: Config) returns (more: seq<Step>)
    requires Stopping(Run(steps, cfg))
    ensures forall i :: 0 <= i < |more| ==> WritersOwn(more[i])
    ensures var s := Run(steps + more, cfg); s.mode == Stopped && s.queue == [] && s.dropped == Run(steps, cfg).dropped
    decreases |Run(steps, cfg).queue|
  {
    if Run(steps, cfg).queue == [] {
      var order := OrderOf(Run(steps, cfg).writer.dirty);
      more := [CloseAll(order)];
      RunMore(steps, CloseAll(order), cfg);
      CloseStops(Run(steps, cfg), order, cfg);
    } else {
      RunMore(steps, Take, cfg);
      TakeStopping(Run(steps, cfg), cfg);
      var rest := WriterStops(steps + [Take], cfg);
      more := [Take] + rest;
      assert steps + more == steps + [Take] + rest;
    }
  }

  // The writer's own steps hand nothing to the logger.
  lemma {:induction false} SameLog(steps: seq<Step>, more: seq<Step>, cfg: Config)
    requires forall i :: 0 <= i < |more| ==> WritersOwn(more[i])
    ensures SyncLog(steps + more) == SyncLog(steps) && Accepted(steps + more, cfg) == Accepted(steps, cfg)
    decreases |more|
  {
    if more == [] {
      assert steps + more == steps;
    } else {
      assert (steps + more)[..|steps + more| - 1] == steps + more[..|more| - 1];
      SameLog(steps, more[..|more| - 1], cfg);
    }
  }

  // A shutdown that finds room in the queue gets everything on disk: the writer drains what was queued
  // and closes the files, and if nothing was dropped they are the immediate logger's.
  lemma ShutdownWritesAll(steps: seq<Step>, cfg: Config) returns (more: seq<Step>)
    requires PathsDistinct(Accepted(steps, cfg)) && Run(steps, cfg).dropped == 0
    requires Run(steps, cfg).mode == Running && |Run(steps, cfg).queue| < cfg.queueMax
    ensures forall i :: 0 <= i < |more| ==> WritersOwn(more[i])
    ensures var s := Run(steps + [Shutdown] + more, cfg); s.mode == Stopped && s.writer.disk == SyncLog(steps).disk
  {
    var asked := steps + [Shutdown];
    RunMore(steps, Shutdown, cfg);
    assert Run(asked, cfg).queue[|Run(steps, cfg).queue|] == Stop;
    more := WriterStops(asked, cfg);
    assert asked[..|steps|] == steps;
    assert SyncLog(asked) == SyncLog(steps) && Accepted(asked, cfg) == Accepted(steps, cfg);
    SameLog(asked, more, cfg);
    MatchesImmediateLogger(asked + more, cfg);
  }

  // ----- with drops -----

  predicate Subsequence<T(==)>(a: seq<T>, b: seq<T>) {
    a == [] || (b != [] && (Subsequence(a, b[..|b| - 1])
      || (a[|a| - 1] == b[|b| - 1] && Subsequence(a[..|a| - 1], b[..|b| - 1]))))
  }

  lemma SubsequenceGrow<T>(a: seq<T>, b: seq<T>, x: T)
    requires Subsequence(a, b)
    ensures Subsequence(a, b + [x]) && Subsequence(a + [x], b + [x])
  {
    assert (b + [x])[..|b|] == b && (a + [x])[..|a|] == a;
  }

  lemma {:induction false} SubsequencePrefix<T>(a: seq<T>, n: nat, b: seq<T>)
    requires Subsequence(a, b) && n <= |a|
    ensures Subsequence(a[..n], b)
  {
    if n < |a| {
      if Subsequence(a, b[..|b| - 1]) {
        SubsequencePrefix(a, n, b[..|b| - 1]);
      } else {
        SubsequencePrefix(a[..|a| - 1], n, b[..|b| - 1]);
        assert a[..|a| - 1][..n] == a[..n];
      }
    } else {
      assert a[..n] == a;
    }
  }

  ghost predicate EverRegistered(steps: seq<Step>, id: Id, p: Path) {
    exists i :: 0 <= i < |steps| && steps[i] == Register(id, p)
  }

  // The lines emitted, in order, under an id that is registered and was registered for p.
  ghost function EmittedFor(steps: seq<Step>, p: Path): seq<Line> {
    if steps == [] then []
    else
      var n := |steps| - 1;
      var before := EmittedFor(steps[..n], p);
      match steps[n]
      case Emit(Some(id), Some(line)) =>
        if EverRegistered(steps[..n], id, p) && id in SyncLog(steps[..n]).open then before + [line] else before
      case _ => before
  }

  ghost predicate AcceptedExplained(steps: seq<Step>, sync: Sync) {
    && (forall id | id in sync.open :: EverRegistered(steps, id, sync.open[id]))
    && (forall p | p in sync.disk :: Subsequence(sync.disk[p], EmittedFor(steps, p)))
  }

  lemma EverRegisteredGrow(steps: seq<Step>, id: Id, p: Path)
    requires steps != []
    requires EverRegistered(steps[..|steps| - 1], id, p) || steps[|steps| - 1] == Register(id, p)
    ensures EverRegistered(steps, id, p)
  {
    if EverRegistered(steps[..|steps| - 1], id, p) {
      var i :| 0 <= i < |steps| - 1 && steps[..|steps| - 1][i] == Register(id, p);
      assert steps[i] == Register(id, p);
    }
  }

  // Whatever was dropped, no file mixes in or reorders lines.
  lemma {:induction false} AcceptedLines(steps: seq<Step>, cfg: Config)
    ensures AcceptedExplained(steps, SyncRun(Accepted(steps, cfg)))
    decreases |steps|
  {
    if steps != [] {
      AcceptedLines(steps[..|steps| - 1], cfg);
      AcceptedMore(steps, cfg);
    }
  }

  lemma AcceptedMore(steps: seq<Step>, cfg: Config)
    requires steps != [] && AcceptedExplained(steps[..|steps| - 1], SyncRun(Accepted(steps[..|steps| - 1], cfg)))
    ensures AcceptedExplained(steps, SyncRun(Accepted(steps, cfg)))
  {
    var prefix, step := steps[..|steps| - 1], steps[|steps| - 1];
    var s, accepted := Run(prefix, cfg), Accepted(prefix, cfg);
    var op := OpOf(s, step);
    ExplainSkipped(steps, SyncRun(accepted));
    if op.Some? && |s.queue| < cfg.queueMax {
      SyncMore(accepted, op.value);
      SubmitsIs(steps, cfg, op.value);
      ExplainStep(steps, op.value, SyncRun(accepted));
    }
  }

  lemma SyncMore(ops: seq<Op>, op: Op)
    ensures SyncRun(ops + [op]) == SyncApply(SyncRun(ops), op)
  {
    assert (ops + [op])[..|ops|] == ops;
  }

  // The last step calls for this operation, a write only under an id that is open.
  predicate Submits(steps: seq<Step>, op: Op)
    requires steps != []
  {
    var step := steps[|steps| - 1];
    match op
    case Open(id, p) => step == Register(id, p)
    case Close(id) => step == Unregister(id)
    case Write(id, line) => step == Emit(Some(id), Some(line)) && id in SyncLog(steps[..|steps| - 1]).open
  }

  lemma SubmitsIs(steps: seq<Step>, cfg: Config, op: Op)
    requires steps != [] && OpOf(Run(steps[..|steps| - 1], cfg), steps[|steps| - 1]) == Some(op)
    ensures Submits(steps, op)
  {
    AcceptedIsSyncLog(steps[..|steps| - 1], cfg);
  }

  lemma ExplainSkipped(steps: seq<Step>, sync: Sync)
    requires steps != [] && AcceptedExplained(steps[..|steps| - 1], sync)
    ensures AcceptedExplained(steps, sync)
  {
    var prefix, step := steps[..|steps| - 1], steps[|steps| - 1];
    forall id | id in sync.open ensures EverRegistered(steps, id, sync.open[id]) {
      EverRegisteredGrow(steps, id, sync.open[id]);
    }
    forall p | p in sync.disk ensures Subsequence(sync.disk[p], EmittedFor(steps, p)) {
      if step.Emit? && step.text.Some? { SubsequenceGrow(sync.disk[p], EmittedFor(prefix, p), step.text.value); }
    }
  }

  // The operation the last step submits keeps the explanation.
  lemma ExplainStep(steps: seq<Step>, op: Op, before: Sync)
    requires steps != [] && AcceptedExplained(steps[..|steps| - 1], before) && Submits(steps, op)
    ensures AcceptedExplained(steps, SyncApply(before, op))
  {
    var after := SyncApply(before, op);
    forall id | id in after.open ensures EverRegistered(steps, id, after.open[id]) { EverRegisteredGrow(steps, id, after.open[id]); }
    forall p | p in after.disk ensures Subsequence(after.disk[p], EmittedFor(steps, p)) { ExplainFile(steps, op, before, p); }
  }

  lemma ExplainFile(steps: seq<Step>, op: Op, before: Sync, p: Path)
    requires steps != [] && AcceptedExplained(steps[..|steps| - 1], before) && Submits(steps, op)
    requires p in SyncApply(before, op).disk
    ensures Subsequence(SyncApply(before, op).disk[p], EmittedFor(steps, p))
  {
    var prefix := steps[..|steps| - 1];
    assert Subsequence(Contents(before.disk, p), EmittedFor(prefix, p));
    if op.Write? { SubsequenceGrow(Contents(before.disk, p), EmittedFor(prefix, p), op.line); }
  }

  lemma {:induction false} SyncOnlyAppends(ops: seq<Op>, k: nat, p: Path)
    requires k <= |ops| && p in SyncRun(ops[..k]).disk
    ensures p in SyncRun(ops).disk && SyncRun(ops[..k]).disk[p] <= SyncRun(ops).disk[p]
  {
    if k < |ops| {
      var n := |ops| - 1;
      assert ops[..n][..k] == ops[..k];
      SyncOnlyAppends(ops[..n], k, p);
    } else {
      assert ops[..k] == ops;
    }
  }

  // In every state of every run, dropping or not, what has reached a file is an in-order
  // subsequence of the lines emitted under ids registered for it.
  lemma FilesAreSubsequences(steps: seq<Step>, cfg: Config, p: Path)
    requires PathsDistinct(Accepted(steps, cfg)) && p in Run(steps, cfg).writer.disk
    ensures Subsequence(Run(steps, cfg).writer.disk[p], EmittedFor(steps, p))
  {
    var s, ops, applied := Run(steps, cfg), Accepted(steps, cfg), Applied(steps, cfg);
    WriterAgrees(steps, cfg);
    Conservation(steps, cfg);
    AcceptedLines(steps, cfg);
    assert ops[..|applied|] == applied;
    SyncOnlyAppends(ops, |applied|, p);
    var full, now := SyncRun(ops).disk[p], s.writer.disk[p];
    assert now <= SyncRun(applied).disk[p] by {
      if s.mode != Stopped && HasHandle(s.writer.files, p) {
        var id :| id in s.writer.files && s.writer.files[id].path == p;
        assert HandleRefines(s.writer, SyncRun(applied), id);
      }
    }
    SubsequencePrefix(full, |now|, EmittedFor(steps, p));
    assert full[..|now|] == now;
  }

  // ----- the handler object -----

  class LogFileDispatch {
    const cfg: Config
    var logIds: set<Id>
    var queue: seq<Item>
    var dropped: nat
    var writer: Writer
    var mode: Mode

    ghost function Abstract(): State
      reads this
    {
      State(logIds, queue, dropped, writer, mode)
    }

    constructor (cfg: Config)
      ensures this.cfg == cfg && Abstract() == INIT
    {
      this.cfg := cfg;
      logIds, queue, dropped, writer, mode := {}, [], 0, Writer(map[], {}, map[]), Running;
    }

    method Register(id: Id, path: Path)
      modifies this
      ensures Abstract() == Next(old(Abstract()), Step.Register(id, path), cfg)
    {
      logIds := logIds + {id};
      SubmitOp(Open(id, path));
    }

    method Unregister(id: Id)
      modifies this
      ensures Abstract() == Next(old(Abstract()), Step.Unregister(id), cfg)
    {
      logIds := logIds - {id};
      SubmitOp(Close(id));
    }

    method Emit(to: Option<Id>, text: Option<Line>)
      modifies this
      ensures Abstract() == Next(old(Abstract()), Step.Emit(to, text), cfg)
    {
      if to.None? || to.value !in logIds || text.None? { return; }
      SubmitOp(Write(to.value, text.value));
    }

    method SubmitOp(op: Op)
      modifies this`queue, this`dropped
      ensures Abstract() == Submit(old(Abstract()), op, cfg)
    {
      if |queue| < cfg.queueMax {
        queue := queue + [Do(op)];
      } else {
        dropped := dropped + 1;
      }
    }

    method Shutdown()
      modifies this`queue
      ensures Abstract() == Next(old(Abstract()), Step.Shutdown, cfg)
    {
      if |queue| < cfg.queueMax { queue := queue + [Stop]; }
    }

    // One item in _run, or in _drain once the stop item was seen.
    method TakeNext()
      modifies this
      ensures Abstract() == Next(old(Abstract()), Take, cfg)
    {
      if mode == Stopped || queue == [] { return; }
      var item := queue[0];
      queue := queue[1..];
      match item {
        case Do(op) => writer := Apply(writer, op, cfg.flushEachLine);
        case Stop => mode := Draining;
      }
    }

    // The dirty handles are flushed in whatever order the set yields them.
    method FlushDirty() returns (ghost order: seq<Id>)
      modifies this`writer
      ensures Lists(order, old(writer.dirty))
      ensures writer == FlushList(old(writer), order).(dirty := {})
    {
      var todo := writer.dirty;
      order := [];
      while todo != {}
        invariant todo <= old(writer.dirty)
        invariant Lists(order, old(writer.dirty) - todo)
        invariant writer == FlushList(old(writer), order)
        decreases todo
      {
        var id :| id in todo;
        ghost var before := order;
        order := order + [id];
        assert order[..|before|] == before;
        assert forall x :: x in order <==> x in before || x == id;
        assert old(writer.dirty) - (todo - {id}) == (old(writer.dirty) - todo) + {id};
        todo := todo - {id};
        if id in writer.files { writer := FlushOne(writer, id, |writer.files[id].buffer|); }
      }
      writer := writer.(dirty := {});
    }

    method FlushTimer() returns (ghost order: seq<Id>)
      requires mode == Running
      modifies this`writer
      ensures Lists(order, old(writer.dirty))
      ensures Abstract() == Next(old(Abstract()), Step.Flush(order), cfg)
    {
      order := FlushDirty();
    }

    method Finish() returns (ghost order: seq<Id>)
      requires mode == Draining && queue == []
      modifies this`writer, this`mode
      ensures Lists(order, old(writer.dirty))
      ensures Abstract() == Next(old(Abstract()), Step.CloseAll(order), cfg)
    {
      order := FlushDirty();
      writer := Writer(map[], {}, writer.disk);
      mode := Stopped;
    }
  }
}
