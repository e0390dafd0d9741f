// Spreading a batch over workers: pad, chunk, compute, concatenate, unpad.
module Dispatch {
  import opened Common

  // A batch of rows held column by column. rows is what len() returns: the tensors' batch size,
  // or the length of the object columns when there are no tensors.
  datatype Data<T, O> = Data(rows: nat, tensors: Option<map<string, seq<T>>>, objects: map<string, seq<O>>)

  datatype DispatchError = ZeroDivision | NotDivisible | TooFewChunks | NoParts | TensorsDiffer | NewObjectKey | LengthsDiffer

  predicate Aligned<V>(columns: map<string, seq<V>>, rows: nat) { forall k | k in columns :: |columns[k]| == rows }

  // A consistent batch: every column has one entry per row, and without columns there are no rows.
  predicate Valid<T, O>(d: Data<T, O>) {
    && Aligned(d.objects, d.rows)
    && (d.tensors.Some? ==> Aligned(d.tensors.value, d.rows))
    && (d.tensors.None? && d.objects == map[] ==> d.rows == 0)
  }

  predicate SameSchema<T, O>(a: Data<T, O>, b: Data<T, O>) {
    a.tensors.Some? == b.tensors.Some? && a.objects.Keys == b.objects.Keys
    && (a.tensors.Some? ==> a.tensors.value.Keys == b.tensors.value.Keys)
  }

  // ----- one row -----

  datatype Row<T, O> = Row(tensors: Option<map<string, T>>, objects: map<string, O>)

  function CellsAt<V>(columns: map<string, seq<V>>, rows: nat, i: nat): map<string, V>
    requires Aligned(columns, rows) && i < rows
  {
    map k | k in columns :: columns[k][i]
  }

  function RowAt<T, O>(d: Data<T, O>, i: nat): Row<T, O>
    requires Valid(d) && i < d.rows
  {
    Row(if d.tensors.Some? then Some(CellsAt(d.tensors.value, d.rows, i)) else None, CellsAt(d.objects, d.rows, i))
  }

  // ----- slicing and joining -----

  function CutColumns<V>(columns: map<string, seq<V>>, rows: nat, lo: nat, hi: nat): (cut: map<string, seq<V>>)
    requires Aligned(columns, rows) && lo <= hi <= rows
    ensures Aligned(cut, hi - lo) && cut.Keys == columns.Keys
  {
    map k | k in columns :: columns[k][lo..hi]
  }

  // Rows lo to hi of every column. A batch without columns has no rows to cut.
  function Slice<T, O>(d: Data<T, O>, lo: nat, hi: nat): (s: Data<T, O>)
    requires Valid(d) && lo <= hi <= d.rows
    ensures Valid(s) && SameSchema(s, d) && s.rows == hi - lo
  {
    Data(hi - lo, if d.tensors.Some? then Some(CutColumns(d.tensors.value, d.rows, lo, hi)) else None,
         CutColumns(d.objects, d.rows, lo, hi))
  }

  function JoinColumns<V>(a: map<string, seq<V>>, b: map<string, seq<V>>, rows: nat, more: nat): (j: map<string, seq<V>>)
    requires Aligned(a, rows) && Aligned(b, more) && a.Keys == b.Keys
    ensures Aligned(j, rows + more) && j.Keys == a.Keys
  {
    map k | k in a :: a[k] + b[k]
  }

  function Append<T, O>(a: Data<T, O>, b: Data<T, O>): (c: Data<T, O>)
    requires Valid(a) && Valid(b) && SameSchema(a, b)
    ensures Valid(c) && SameSchema(a, c) && c.rows == a.rows + b.rows
  {
    Data(a.rows + b.rows,
         if a.tensors.Some? then Some(JoinColumns(a.tensors.value, b.tensors.value, a.rows, b.rows)) else None,
         JoinColumns(a.objects, b.objects, a.rows, b.rows))
  }

  predicate Uniform<T, O>(data: seq<Data<T, O>>) {
    forall i :: 0 <= i < |data| ==> Valid(data[i]) && SameSchema(data[0], data[i])
  }

  // The first n parts, joined.
  function Joined<T, O>(data: seq<Data<T, O>>, n: nat): (d: Data<T, O>)
    requires Uniform(data) && 1 <= n <= |data|
    ensures Valid(d) && SameSchema(data[0], d)
  {
    if n == 1 then data[0] else Append(Joined(data, n - 1), data[n - 1])
  }

  lemma CutJoin<V>(columns: map<string, seq<V>>, rows: nat, a: nat, b: nat, c: nat)
    requires Aligned(columns, rows) && a <= b <= c <= rows
    ensures JoinColumns(CutColumns(columns, rows, a, b), CutColumns(columns, rows, b, c), b - a, c - b) == CutColumns(columns, rows, a, c)
  {
    forall k | k in columns ensures columns[k][a..b] + columns[k][b..c] == columns[k][a..c] { CutsMeet(columns[k], a, b, c); }
  }

  lemma CutsMeet<V>(s: seq<V>, a: nat, b: nat, c: nat)
    requires a <= b <= c <= |s|
    ensures s[a..b] + s[b..c] == s[a..c]
  {}

  lemma SliceJoin<T, O>(d: Data<T, O>, a: nat, b: nat, c: nat)
    requires Valid(d) && a <= b <= c <= d.rows
    ensures Append(Slice(d, a, b), Slice(d, b, c)) == Slice(d, a, c)
  {
    CutJoin(d.objects, d.rows, a, b, c);
    if d.tensors.Some? { CutJoin(d.tensors.value, d.rows, a, b, c); }
  }

  lemma CutAll<V>(columns: map<string, seq<V>>, rows: nat)
    requires Aligned(columns, rows)
    ensures CutColumns(columns, rows, 0, rows) == columns
  {
    forall k | k in columns ensures columns[k][0..rows] == columns[k] {}
  }

  lemma SliceAll<T, O>(d: Data<T, O>)
    requires Valid(d)
    ensures Slice(d, 0, d.rows) == d
  {
    CutAll(d.objects, d.rows);
    if d.tensors.Some? { CutAll(d.tensors.value, d.rows); }
  }

  // Every column with the entries of the matching column of the next part after it, if there is one.
  function Extend<V>(columns: map<string, seq<V>>, part: map<string, seq<V>>): map<string, seq<V>> {
    map k | k in columns :: if k in part then columns[k] + part[k] else columns[k]
  }

  function Empty<V>(columns: map<string, seq<V>>): map<string, seq<V>> { map k | k in columns :: [] }

  // The first part's object columns, each joined over the first n parts.
  function Columns<T, O>(data: seq<Data<T, O>>, n: nat): map<string, seq<O>>
    requires data != [] && n <= |data|
  {
    if n == 0 then Empty(data[0].objects) else Extend(Columns(data, n - 1), data[n - 1].objects)
  }

  function TensorColumns<T, O>(data: seq<Data<T, O>>, n: nat): map<string, seq<T>>
    requires data != [] && n <= |data| && TensorsAlike(data) && data[0].tensors.Some?
  {
    if n == 0 then Empty(data[0].tensors.value)
    else assert TensorsAs(data[0], data[n - 1]); Extend(TensorColumns(data, n - 1), data[n - 1].tensors.value)
  }

  function Rows<T, O>(data: seq<Data<T, O>>, n: nat): nat
    requires n <= |data|
  {
    if n == 0 then 0 else Rows(data, n - 1) + data[n - 1].rows
  }

  // torch.cat needs the first part's tensor columns in every part; without tensors in the first
  // part it is not called, whatever the others have.
  predicate TensorsAlike<T, O>(data: seq<Data<T, O>>) {
    forall i :: 0 <= i < |data| ==> TensorsAs(data[0], data[i])
  }

  predicate TensorsAs<T, O>(first: Data<T, O>, part: Data<T, O>) {
    first.tensors.Some? ==> part.tensors.Some? && part.tensors.value.Keys == first.tensors.value.Keys
  }

  predicate NoNewKeys<T, O>(data: seq<Data<T, O>>) {
    forall i :: 0 <= i < |data| ==> data[i].objects.Keys <= data[0].objects.Keys
  }

  // A part without one of the first part's object columns makes that column short, which only a
  // result with tensors notices.
  predicate SomeShort<T, O>(data: seq<Data<T, O>>)
    requires data != []
  {
    exists k | k in Columns(data, |data|) :: |Columns(data, |data|)[k]| != Rows(data, |data|)
  }

  // The columns of the first part, each joined over all parts; len() reads the tensors' batch
  // size, else the length of some object column.
  ghost predicate ConcatOf<T, O>(data: seq<Data<T, O>>, d: Data<T, O>)
    requires data != [] && TensorsAlike(data)
  {
    && d.tensors == (if data[0].tensors.Some? then Some(TensorColumns(data, |data|)) else None)
    && d.objects == Columns(data, |data|)
    && (d.tensors.Some? ==> d.rows == Rows(data, |data|))
    && (d.tensors.None? ==> if d.objects == map[] then d.rows == 0 else exists k :: k in d.objects && d.rows == |d.objects[k]|)
  }

  // DataProto.concat, part by part, for parts with any columns.
  method Concat<T, O>(data: seq<Data<T, O>>) returns (r: Result<Data<T, O>, DispatchError>)
    requires forall i :: 0 <= i < |data| ==> Valid(data[i])
    ensures r == Err(NoParts) <==> data == []
    ensures r == Err(TensorsDiffer) <==> data != [] && !TensorsAlike(data)
    ensures r == Err(NewObjectKey) <==> data != [] && TensorsAlike(data) && !NoNewKeys(data)
    ensures r == Err(LengthsDiffer) <==> data != [] && TensorsAlike(data) && NoNewKeys(data) && data[0].tensors.Some? && SomeShort(data)
    ensures r.Err? ==> r.error in {NoParts, TensorsDiffer, NewObjectKey, LengthsDiffer}
    ensures r.Ok? ==> data != [] && TensorsAlike(data) && ConcatOf(data, r.value)
    ensures data != [] && Uniform(data) ==> r == Ok(Joined(data, |data|))
  {
    if data == [] { return Err(NoParts); }
    if Uniform(data) { UniformAccepted(data); }
    var tensors := CatTensors(data);
    if tensors.Err? { return Err(tensors.error); }
    var objects := CatObjects(data);
    if objects.Err? { return Err(objects.error); }
    var rows := Rows(data, |data|);
    if tensors.value.Some? {
      if k :| k in objects.value && |objects.value[k]| != rows {
        return Err(LengthsDiffer);
      }
    } else if k :| k in objects.value {
      rows := |objects.value[k]|;
    } else {
      rows := 0;
    }
    r := Ok(Data(rows, tensors.value, objects.value));
    if Uniform(data) { UniformConcat(data, r.value); }
  }

  // torch.cat over the parts' tensor dictionaries.
  method CatTensors<T, O>(data: seq<Data<T, O>>) returns (r: Result<Option<map<string, seq<T>>>, DispatchError>)
    requires data != []
    ensures r.Ok? <==> TensorsAlike(data)
    ensures r.Err? ==> r.error == TensorsDiffer
    ensures r.Ok? ==> if data[0].tensors.None? then r.value == None else r.value == Some(TensorColumns(data, |data|))
  {
    if data[0].tensors.None? { return Ok(None); }
    if i :| 0 <= i < |data| && !TensorsAs(data[0], data[i]) { return Err(TensorsDiffer); }
    var columns := Empty(data[0].tensors.value);
    for i := 0 to |data|
      invariant columns == TensorColumns(data, i)
    {
      assert TensorsAs(data[0], data[i]);
      columns := Extend(columns, data[i].tensors.value);
    }
    r := Ok(Some(columns));
  }

  // list_of_dict_to_dict_of_list and np.concatenate over the parts' object columns.
  method CatObjects<T, O>(data: seq<Data<T, O>>) returns (r: Result<map<string, seq<O>>, DispatchError>)
    requires data != []
    ensures r.Ok? <==> NoNewKeys(data)
    ensures r.Err? ==> r.error == NewObjectKey
    ensures r.Ok? ==> r.value == Columns(data, |data|)
  {
    var columns := Empty(data[0].objects);
    for i := 0 to |data|
      invariant columns == Columns(data, i)
      invariant forall j :: 0 <= j < i ==> data[j].objects.Keys <= data[0].objects.Keys
    {
      if !(data[i].objects.Keys <= data[0].objects.Keys) { return Err(NewObjectKey); }
      columns := Extend(columns, data[i].objects);
    }
    r := Ok(columns);
  }

  // Parts with the same columns are accepted and simply joined.
  lemma UniformAccepted<T, O>(data: seq<Data<T, O>>)
    requires data != [] && Uniform(data)
    ensures TensorsAlike(data) && NoNewKeys(data) && !SomeShort(data)
  {
    forall i | 0 <= i < |data| ensures TensorsAs(data[0], data[i]) && data[i].objects.Keys <= data[0].objects.Keys {
      assert SameSchema(data[0], data[i]);
    }
    JoinedRows(data, |data|);
    JoinedObjects(data, |data|);
    assert Aligned(Joined(data, |data|).objects, Rows(data, |data|));
  }

  lemma UniformConcat<T, O>(data: seq<Data<T, O>>, d: Data<T, O>)
    requires data != [] && Uniform(data) && TensorsAlike(data) && ConcatOf(data, d)
    ensures d == Joined(data, |data|)
  {
    var j := Joined(data, |data|);
    JoinedRows(data, |data|);
    JoinedObjects(data, |data|);
    if d.tensors.Some? { JoinedTensors(data, |data|); }
    if d.tensors.None? && d.objects != map[] { assert Aligned(j.objects, j.rows); }
  }

  lemma JoinIsExtend<V>(a: map<string, seq<V>>, b: map<string, seq<V>>, rows: nat, more: nat)
    requires Aligned(a, rows) && Aligned(b, more) && a.Keys == b.Keys
    ensures JoinColumns(a, b, rows, more) == Extend(a, b)
  {}

  lemma ExtendEmpty<V>(a: map<string, seq<V>>)
    ensures Extend(Empty(a), a) == a
  {
    forall k | k in a ensures Empty(a)[k] + a[k] == a[k] {}
  }

  lemma {:induction false} JoinedObjects<T, O>(data: seq<Data<T, O>>, n: nat)
    requires Uniform(data) && 1 <= n <= |data|
    ensures Joined(data, n).objects == Columns(data, n)
  {
    if n > 1 { JoinedObjects(data, n - 1); }
    ObjectsMore(data, n);
  }

  lemma ObjectsMore<T, O>(data: seq<Data<T, O>>, n: nat)
    requires Uniform(data) && 1 <= n <= |data| && (n > 1 ==> Joined(data, n - 1).objects == Columns(data, n - 1))
    ensures Joined(data, n).objects == Columns(data, n)
  {
    if n == 1 {
      ExtendEmpty(data[0].objects);
      assert Columns(data, 0) == Empty(data[0].objects);
    } else {
      var init, part := Joined(data, n - 1), data[n - 1];
      JoinIsExtend(init.objects, part.objects, init.rows, part.rows);
    }
  }

  lemma {:induction false} JoinedTensors<T, O>(data: seq<Data<T, O>>, n: nat)
    requires Uniform(data) && TensorsAlike(data) && 1 <= n <= |data| && data[0].tensors.Some?
    ensures Joined(data, n).tensors.Some? && Joined(data, n).tensors.value == TensorColumns(data, n)
  {
    if n > 1 { JoinedTensors(data, n - 1); }
    TensorsMore(data, n);
  }

  lemma TensorsMore<T, O>(data: seq<Data<T, O>>, n: nat)
    requires Uniform(data) && TensorsAlike(data) && 1 <= n <= |data| && data[0].tensors.Some?
    requires n > 1 ==> Joined(data, n - 1).tensors.Some? && Joined(data, n - 1).tensors.value == TensorColumns(data, n - 1)
    ensures Joined(data, n).tensors.Some? && Joined(data, n).tensors.value == TensorColumns(data, n)
  {
    if n == 1 {
      ExtendEmpty(data[0].tensors.value);
      assert TensorColumns(data, 0) == Empty(data[0].tensors.value);
    } else {
      var init, part := Joined(data, n - 1), data[n - 1];
      JoinIsExtend(init.tensors.value, part.tensors.value, init.rows, part.rows);
    }
  }

  lemma {:induction false} JoinedRows<T, O>(data: seq<Data<T, O>>, n: nat)
    requires Uniform(data) && 1 <= n <= |data|
    ensures Joined(data, n).rows == Rows(data, n)
  {
    if n > 1 { JoinedRows(data, n - 1); }
    RowsMore(data, n);
  }

  lemma RowsMore<T, O>(data: seq<Data<T, O>>, n: nat)
    requires Uniform(data) && 1 <= n <= |data| && (n > 1 ==> Joined(data, n - 1).rows == Rows(data, n - 1))
    ensures Joined(data, n).rows == Rows(data, n)
  {
    if n == 1 { assert Rows(data, 0) == 0; }
  }

  // ----- padding -----

  function Cycle<V>(s: seq<V>, total: nat): seq<V>
    requires s != []
  {
    seq(total, i requires 0 <= i => s[i % |s|])
  }

  function CycleColumns<V>(columns: map<string, seq<V>>, rows: nat, total: nat): (c: map<string, seq<V>>)
    requires Aligned(columns, rows) && rows > 0
    ensures Aligned(c, total) && c.Keys == columns.Keys
  {
    map k | k in columns :: Cycle(columns[k], total)
  }

  // The batch read cyclically: row i is row i mod n.
  function Cyclic<T, O>(d: Data<T, O>, total: nat): (c: Data<T, O>)
    requires Valid(d) && d.rows > 0
    ensures Valid(c) && SameSchema(c, d) && c.rows == total
  {
    Data(total, if d.tensors.Some? then Some(CycleColumns(d.tensors.value, d.rows, total)) else None,
         CycleColumns(d.objects, d.rows, total))
  }

  lemma CyclicRow<T, O>(d: Data<T, O>, total: nat, i: nat)
    requires Valid(d) && d.rows > 0 && i < total
    ensures RowAt(Cyclic(d, total), i) == RowAt(d, i % d.rows)
  {
    CycleCells(d.objects, d.rows, total, i);
    if d.tensors.Some? { CycleCells(d.tensors.value, d.rows, total, i); }
  }

  lemma CycleCells<V>(columns: map<string, seq<V>>, rows: nat, total: nat, i: nat)
    requires Aligned(columns, rows) && rows > 0 && i < total
    ensures CellsAt(CycleColumns(columns, rows, total), total, i) == CellsAt(columns, rows, i % rows)
  {
    forall k | k in columns ensures Cycle(columns[k], total)[i] == columns[k][i % rows] {}
  }

  lemma Remainder(total: nat, n: nat, j: nat)
    requires n > 0 && total % n == 0 && j < n
    ensures (total + j) % n == j
  {
    Exact(total, n);
    DivUnique(total + j, n, total / n, j);
  }

  lemma CycleExtend<V>(s: seq<V>, total: nat, take: nat)
    requires s != [] && total % |s| == 0 && take <= |s|
    ensures Cycle(s, total) + s[..take] == Cycle(s, total + take)
  {
    var a, b := Cycle(s, total) + s[..take], Cycle(s, total + take);
    forall i | 0 <= i < total + take ensures a[i] == b[i] {
      if i >= total { Remainder(total, |s|, i - total); }
    }
  }

  lemma CyclicExtend<T, O>(d: Data<T, O>, total: nat, take: nat)
    requires Valid(d) && d.rows > 0 && total % d.rows == 0 && take <= d.rows
    ensures Append(Cyclic(d, total), Slice(d, 0, take)) == Cyclic(d, total + take)
  {
    ExtendColumns(d.objects, d.rows, total, take);
    if d.tensors.Some? { ExtendColumns(d.tensors.value, d.rows, total, take); }
  }

  lemma ExtendColumns<V>(columns: map<string, seq<V>>, rows: nat, total: nat, take: nat)
    requires Aligned(columns, rows) && rows > 0 && total % rows == 0 && take <= rows
    ensures JoinColumns(CycleColumns(columns, rows, total), CutColumns(columns, rows, 0, take), total, take)
      == CycleColumns(columns, rows, total + take)
  {
    forall k | k in columns ensures Cycle(columns[k], total) + columns[k][0..take] == Cycle(columns[k], total + take) {
      CycleExtend(columns[k], total, take);
    }
  }

  lemma CyclicSelf<T, O>(d: Data<T, O>)
    requires Valid(d) && d.rows > 0
    ensures Cyclic(d, d.rows) == d
  {
    SelfColumns(d.objects, d.rows);
    if d.tensors.Some? { SelfColumns(d.tensors.value, d.rows); }
  }

  lemma SelfColumns<V>(columns: map<string, seq<V>>, rows: nat)
    requires Aligned(columns, rows) && rows > 0
    ensures CycleColumns(columns, rows, rows) == columns
  {
    forall k | k in columns ensures Cycle(columns[k], rows) == columns[k] {
      forall i: nat | i < rows ensures i % rows == i { DivUnique(i, rows, 0, i); }
    }
  }

  // The original rows are a prefix of the padded ones.
  lemma CyclicPrefix<T, O>(d: Data<T, O>, total: nat)
    requires Valid(d) && 0 < d.rows <= total
    ensures Slice(Cyclic(d, total), 0, d.rows) == d
  {
    CyclicSelf(d);
    PrefixColumns(d.objects, d.rows, total);
    if d.tensors.Some? { PrefixColumns(d.tensors.value, d.rows, total); }
  }

  lemma PrefixColumns<V>(columns: map<string, seq<V>>, rows: nat, total: nat)
    requires Aligned(columns, rows) && 0 < rows <= total
    ensures CutColumns(CycleColumns(columns, rows, total), total, 0, rows) == CycleColumns(columns, rows, rows)
  {
    forall k | k in columns ensures Cycle(columns[k], total)[0..rows] == Cycle(columns[k], rows) {}
  }

  // The least padding that makes the length divisible, filled with the rows read cyclically.
  ghost predicate PaddedTo<T, O>(data: Data<T, O>, divisor: nat, padded: Data<T, O>, padSize: nat)
    requires Valid(data) && divisor > 0
  {
    && padSize < divisor && (data.rows + padSize) % divisor == 0
    && padded == if data.rows == 0 then data else Cyclic(data, data.rows + padSize)
  }

  // The parts so far, joined, are the batch read cyclically up to total rows.
  ghost predicate Filled<T, O>(data: Data<T, O>, parts: seq<Data<T, O>>, total: nat)
    requires Valid(data) && data.rows > 0
  {
    parts != [] && parts[0] == data && Uniform(parts) && Joined(parts, |parts|) == Cyclic(data, total)
  }

  lemma FillMore<T, O>(data: Data<T, O>, parts: seq<Data<T, O>>, total: nat, take: nat)
    requires Valid(data) && data.rows > 0 && Filled(data, parts, total) && total % data.rows == 0 && take <= data.rows
    ensures Filled(data, parts + [Slice(data, 0, take)], total + take)
    ensures take == data.rows ==> (total + take) % data.rows == 0
  {
    CyclicExtend(data, total, take);
    JoinedSnoc(parts, Slice(data, 0, take));
    NextMultiple(total, data.rows);
  }

  lemma NoPadding<T, O>(data: Data<T, O>, divisor: nat)
    requires Valid(data) && divisor > 0 && data.rows % divisor == 0
    ensures PaddedTo(data, divisor, data, 0)
  {
    if data.rows > 0 { CyclicSelf(data); }
  }

  lemma PaddedByLeast<T, O>(data: Data<T, O>, divisor: nat, padded: Data<T, O>)
    requires Valid(data) && divisor > 0 && data.rows % divisor != 0
    requires data.rows > 0 && padded == Cyclic(data, data.rows + (divisor - data.rows % divisor))
    ensures PaddedTo(data, divisor, padded, divisor - data.rows % divisor)
  {
    PadDivides(data.rows, divisor);
  }

  // pad_dataproto_to_divisor. The loop appends whole copies and then a prefix of the batch.
  method PadToDivisor<T, O>(data: Data<T, O>, divisor: nat) returns (r: Result<(Data<T, O>, nat), DispatchError>)
    requires Valid(data)
    ensures r == Err(ZeroDivision) <==> divisor == 0
    ensures divisor > 0 ==> r.Ok? && PaddedTo(data, divisor, r.value.0, r.value.1)
  {
    if divisor == 0 { return Err(ZeroDivision); }
    if data.rows % divisor == 0 {
      NoPadding(data, divisor);
      return Ok((data, 0));
    }
    var padSize := divisor - data.rows % divisor;
    var padded := PadBy(data, padSize);
    PaddedByLeast(data, divisor, padded);
    r := Ok((padded, padSize));
  }

  method PadBy<T, O>(data: Data<T, O>, padSize: nat) returns (padded: Data<T, O>)
    requires Valid(data) && data.rows > 0
    ensures padded == Cyclic(data, data.rows + padSize)
  {
    var parts := PaddingParts(data, padSize);
    FilledJoins(data, parts, data.rows + padSize);
    var joined := Concat(parts);
    padded := joined.value;
  }

  // The data followed by its padding parts: whole copies, then one prefix.
  method PaddingParts<T, O>(data: Data<T, O>, padSize: nat) returns (parts: seq<Data<T, O>>)
    requires Valid(data) && data.rows > 0
    ensures Filled(data, parts, data.rows + padSize)
  {
    var n, remaining := data.rows, padSize;
    parts := [data];
    ghost var filled := n;
    CyclicSelf(data);
    DivUnique(n, n, 1, 0);
    while remaining > 0
      invariant 0 <= remaining && filled + remaining == n + padSize
      invariant Filled(data, parts, filled)
      invariant remaining > 0 ==> filled % n == 0
    {
      var take := if remaining < n then remaining else n;
      FillMore(data, parts, filled, take);
      parts := parts + [Slice(data, 0, take)];
      remaining := remaining - take;
      filled := filled + take;
    }
    assert filled == n + padSize;
  }

  lemma FilledJoins<T, O>(data: Data<T, O>, parts: seq<Data<T, O>>, total: nat)
    requires Valid(data) && data.rows > 0 && Filled(data, parts, total)
    ensures parts != [] && Uniform(parts) && Joined(parts, |parts|) == Cyclic(data, total)
  {}

  lemma NextMultiple(x: nat, n: nat)
    requires n > 0 && x % n == 0
    ensures (x + n) % n == 0
  {
    Exact(x, n);
    DivUnique(x + n, n, x / n + 1, 0);
  }

  lemma PadDivides(n: nat, k: nat)
    requires k > 0 && n % k != 0
    ensures (n + (k - n % k)) % k == 0
  {
    DivUnique(n + (k - n % k), k, n / k + 1, 0);
  }

  lemma JoinedSnoc<T, O>(parts: seq<Data<T, O>>, part: Data<T, O>)
    requires parts != [] && Uniform(parts) && Valid(part) && SameSchema(parts[0], part)
    ensures Uniform(parts + [part]) && Joined(parts + [part], |parts| + 1) == Append(Joined(parts, |parts|), part)
  {
    JoinedPrefix(parts, part, |parts|);
  }

  lemma {:induction false} JoinedPrefix<T, O>(parts: seq<Data<T, O>>, part: Data<T, O>, n: nat)
    requires Uniform(parts) && Valid(part) && 1 <= n <= |parts| && SameSchema(parts[0], part)
    ensures Uniform(parts + [part]) && Joined(parts + [part], n) == Joined(parts, n)
  {
    if n > 1 { JoinedPrefix(parts, part, n - 1); }
  }

  // data[:-pad_size], for a pad size that came from padding.
  function Unpad<T, O>(d: Data<T, O>, padSize: nat): Data<T, O>
    requires Valid(d)
  {
    if padSize == 0 then d else if padSize <= d.rows then Slice(d, 0, d.rows - padSize) else Slice(d, 0, 0)
  }

  // ----- chunking -----

  function Min(a: nat, b: nat): nat { if a < b then a else b }

  // torch.chunk's chunk length.
  function ChunkSize(rows: nat, k: nat): nat
    requires k > 0
  {
    (rows + k - 1) / k
  }

  // Where chunk i starts: by the tensors if there are any, else as np.array_split cuts.
  function Start(rows: nat, k: nat, byTensor: bool, i: nat): nat
    requires k > 0
  {
    if byTensor then Min(i * ChunkSize(rows, k), rows) else i * (rows / k) + Min(i, rows % k)
  }

  // The tensors yield k chunks.
  predicate FullCount(rows: nat, k: nat)
    requires k > 0
  {
    rows == 0 || (k - 1) * ChunkSize(rows, k) < rows
  }

  lemma ChunkSizeBounds(rows: nat, k: nat)
    requires k > 0
    ensures rows <= k * ChunkSize(rows, k) < rows + k
    ensures rows % k == 0 ==> k * ChunkSize(rows, k) == rows
  {
    var c := ChunkSize(rows, k);
    assert rows + k - 1 == k * c + (rows + k - 1) % k;
    if rows % k == 0 {
      Exact(rows, k);
      DivUnique(rows + k - 1, k, rows / k, k - 1);
    }
  }

  lemma StartMono(rows: nat, k: nat, byTensor: bool, i: nat)
    requires k > 0 && i < k
    ensures Start(rows, k, byTensor, i) <= Start(rows, k, byTensor, i + 1) <= rows
    ensures Start(rows, k, byTensor, 0) == 0 && Start(rows, k, byTensor, k) == rows
  {
    if byTensor { TensorStart(rows, k, i); } else { ArrayStart(rows, k, i); }
  }

  lemma TensorStart(rows: nat, k: nat, i: nat)
    requires k > 0
    ensures Start(rows, k, true, i) <= Start(rows, k, true, i + 1) <= rows
    ensures Start(rows, k, true, 0) == 0 && Start(rows, k, true, k) == rows
  {
    ChunkSizeBounds(rows, k);
    MulStep(i + 1, ChunkSize(rows, k));
    MulZero(ChunkSize(rows, k));
  }

  lemma ArrayStart(rows: nat, k: nat, i: nat)
    requires k > 0 && i < k
    ensures Start(rows, k, false, i) <= Start(rows, k, false, i + 1) <= rows
    ensures Start(rows, k, false, 0) == 0 && Start(rows, k, false, k) == rows
  {
    DivSplit(rows, k);
    MulStep(i + 1, rows / k);
    MulMono(i + 1, k, rows / k);
    MulZero(rows / k);
  }

  // A divisible batch always yields k chunks, of equal length.
  lemma DivisibleChunks(rows: nat, k: nat)
    requires k > 0 && rows % k == 0
    ensures FullCount(rows, k)
  {
    ChunkSizeBounds(rows, k);
    if rows > 0 { MulStep(k, ChunkSize(rows, k)); }
  }

  function Piece<T, O>(d: Data<T, O>, k: nat, i: nat): Data<T, O>
    requires Valid(d) && i < k
  {
    StartMono(d.rows, k, d.tensors.Some?, i);
    Slice(d, Start(d.rows, k, d.tensors.Some?, i), Start(d.rows, k, d.tensors.Some?, i + 1))
  }

  ghost predicate Pieces<T, O>(d: Data<T, O>, k: nat, out: seq<Data<T, O>>)
    requires Valid(d)
  {
    |out| == k && forall i :: 0 <= i < k ==> out[i] == Piece(d, k, i)
  }

  // torch.chunk: cut points every ChunkSize rows until the rows run out.
  method TorchChunk(rows: nat, k: nat) returns (cuts: seq<nat>)
    requires k > 0
    ensures |cuts| == k + 1 <==> FullCount(rows, k)
    ensures FullCount(rows, k) ==> CutAt(cuts, rows, k, true)
  {
    var size := ChunkSize(rows, k);
    ChunkSizeBounds(rows, k);
    if rows == 0 {
      DivUnique(k - 1, k, 0, k - 1);
      return seq(k + 1, _ => 0);
    }
    cuts := [0];
    while cuts[|cuts| - 1] < rows
      invariant |cuts| > 0 && forall i :: 0 <= i < |cuts| ==> cuts[i] == Min(i * size, rows)
      invariant |cuts| > 1 ==> (|cuts| - 2) * size < rows
      decreases rows - cuts[|cuts| - 1]
    {
      MulStep(|cuts|, size);
      cuts := cuts + [Min(cuts[|cuts| - 1] + size, rows)];
    }
    CutCount(rows, k, size, |cuts| - 1);
  }

  // The number of chunks is the least count whose chunks cover the rows.
  lemma CutCount(rows: nat, k: nat, size: nat, count: nat)
    requires k > 0 && rows > 0 && size == ChunkSize(rows, k) && count > 0
    requires (count - 1) * size < rows <= count * size
    ensures count <= k && (count == k <==> (k - 1) * size < rows)
  {
    ChunkSizeBounds(rows, k);
    if count - 1 >= k { MulMono(k, count - 1, size); }
    if count <= k - 1 { MulMono(count, k - 1, size); }
  }

  predicate CutAt(cuts: seq<nat>, rows: nat, k: nat, byTensor: bool) {
    k > 0 && |cuts| == k + 1 && forall i :: 0 <= i <= k ==> cuts[i] == Start(rows, k, byTensor, i)
  }

  // np.array_split's cut points.
  method ArraySplit(rows: nat, k: nat) returns (cuts: seq<nat>)
    requires k > 0
    ensures CutAt(cuts, rows, k, false)
  {
    cuts := [0];
    MulStep(1, rows / k);
    for i := 0 to k
      invariant |cuts| == i + 1 && forall j :: 0 <= j <= i ==> cuts[j] == Start(rows, k, false, j)
    {
      MulStep(i + 1, rows / k);
      cuts := cuts + [cuts[i] + rows / k + if i < rows % k then 1 else 0];
    }
  }

  lemma PieceCut<T, O>(d: Data<T, O>, k: nat, cuts: seq<nat>, i: nat)
    requires Valid(d) && CutAt(cuts, d.rows, k, d.tensors.Some?) && i < k
    ensures cuts[i] <= cuts[i + 1] <= d.rows && Slice(d, cuts[i], cuts[i + 1]) == Piece(d, k, i)
  {
    StartMono(d.rows, k, d.tensors.Some?, i);
  }

  method CutOut<T, O>(d: Data<T, O>, k: nat, cuts: seq<nat>) returns (out: seq<Data<T, O>>)
    requires Valid(d) && CutAt(cuts, d.rows, k, d.tensors.Some?)
    ensures Pieces(d, k, out)
  {
    out := [];
    for i := 0 to k
      invariant |out| == i && forall j :: 0 <= j < i ==> out[j] == Piece(d, k, j)
    {
      PieceCut(d, k, cuts, i);
      out := out + [Slice(d, cuts[i], cuts[i + 1])];
    }
  }

  // DataProto.chunk: chunking a batch into k > 0 succeeds exactly when the rows divide evenly, or, with
  // padding enabled, when ceil(n / k) rows a chunk leave some rows for the last one.
  method Chunk<T, O>(d: Data<T, O>, k: nat, padding: bool) returns (r: Result<seq<Data<T, O>>, DispatchError>)
    requires Valid(d)
    ensures k == 0 ==> r == if padding && d.tensors.None? && d.objects == map[] then Ok([]) else Err(ZeroDivision)
    ensures k > 0 && d.rows % k != 0 && !padding ==> r == Err(NotDivisible)
    ensures k > 0 && d.rows % k != 0 && padding && d.tensors.Some? && (k - 1) * ((d.rows + k - 1) / k) >= d.rows ==> r == Err(TooFewChunks)
    ensures k > 0 && (d.rows % k == 0 || (padding && (d.tensors.Some? ==> (k - 1) * ((d.rows + k - 1) / k) < d.rows))) ==> r.Ok?
    ensures r.Ok? ==> Pieces(d, k, r.value)
  {
    if k == 0 {
      return if !padding || d.tensors.Some? || d.objects != map[] then Err(ZeroDivision) else Ok([]);
    }
    if !padding && d.rows % k != 0 { return Err(NotDivisible); }
    if d.rows % k == 0 { DivisibleChunks(d.rows, k); } else { NonzeroRemainder(d.rows, k); }
    var cuts: seq<nat>;
    if d.tensors.Some? {
      cuts := TorchChunk(d.rows, k);
      if |cuts| != k + 1 { return Err(TooFewChunks); }
    } else {
      cuts := ArraySplit(d.rows, k);
    }
    var out := CutOut(d, k, cuts);
    r := Ok(out);
  }

  lemma NonzeroRemainder(rows: nat, k: nat)
    requires k > 0 && rows % k != 0
    ensures rows > 0
  {
    if rows == 0 { DivUnique(0, k, 0, 0); }
  }

  // The sizes of the pieces. With tensors every piece has ceil(rows / k) rows as long as they last.
  // Without, the first rows % k pieces have one row more than the others.
  lemma PieceSizes<T, O>(d: Data<T, O>, k: nat, i: nat)
    requires Valid(d) && i < k
    ensures var size := (d.rows + k - 1) / k;
      Piece(d, k, i).rows ==
      if d.tensors.None? then d.rows / k + if i < d.rows % k then 1 else 0
      else if (i + 1) * size <= d.rows then size else if i * size <= d.rows then d.rows - i * size else 0
  {
    StartMono(d.rows, k, d.tensors.Some?, i);
    if d.tensors.Some? { TensorSize(d.rows, k, i, ChunkSize(d.rows, k)); } else { ArraySize(d.rows, k, i); }
  }

  lemma TensorSize(rows: nat, k: nat, i: nat, size: nat)
    requires k > 0 && size == ChunkSize(rows, k)
    ensures Start(rows, k, true, i + 1) - Start(rows, k, true, i) ==
      if (i + 1) * size <= rows then size else if i * size <= rows then rows - i * size else 0
  {
    MulStep(i + 1, size);
  }

  lemma ArraySize(rows: nat, k: nat, i: nat)
    requires k > 0
    ensures Start(rows, k, false, i + 1) - Start(rows, k, false, i) == rows / k + if i < rows % k then 1 else 0
  {
    MulStep(i + 1, rows / k);
  }

  // Chunking keeps the order of the rows: those of a piece come after those of the pieces before it.
  lemma PieceRows<T, O>(d: Data<T, O>, k: nat, i: nat, r: nat)
    requires Valid(d) && i < k && r < Piece(d, k, i).rows
    ensures RowsBefore(d, k, i) + r < d.rows
    ensures RowAt(Piece(d, k, i), r) == RowAt(d, RowsBefore(d, k, i) + r)
  {
    var lo, hi := PieceIsSlice(d, k, i);
    SliceRow(d, lo, hi, r);
  }

  lemma PieceIsSlice<T, O>(d: Data<T, O>, k: nat, i: nat) returns (lo: nat, hi: nat)
    requires Valid(d) && i < k
    ensures lo <= hi <= d.rows && Piece(d, k, i) == Slice(d, lo, hi) && lo == RowsBefore(d, k, i)
  {
    StartMono(d.rows, k, d.tensors.Some?, i);
    RowsBeforeStart(d, k, i);
    lo, hi := Start(d.rows, k, d.tensors.Some?, i), Start(d.rows, k, d.tensors.Some?, i + 1);
  }

  function RowsBefore<T, O>(d: Data<T, O>, k: nat, i: nat): nat
    requires Valid(d) && i <= k
  {
    if i == 0 then 0 else RowsBefore(d, k, i - 1) + Piece(d, k, i - 1).rows
  }

  lemma {:induction false} RowsBeforeStart<T, O>(d: Data<T, O>, k: nat, i: nat)
    requires Valid(d) && i <= k && k > 0
    ensures RowsBefore(d, k, i) == Start(d.rows, k, d.tensors.Some?, i)
  {
    if i == 0 {
      StartMono(d.rows, k, d.tensors.Some?, 0);
    } else {
      RowsBeforeStart(d, k, i - 1);
      StartMono(d.rows, k, d.tensors.Some?, i - 1);
    }
  }

  // ----- the pipeline -----

  // Concatenating the chunks gives the batch back.
  lemma ChunksJoin<T, O>(d: Data<T, O>, k: nat, out: seq<Data<T, O>>)
    requires Valid(d) && k > 0 && Pieces(d, k, out)
    ensures Uniform(out) && Joined(out, k) == d
  {
    PieceSlices(d, k, out);
    var cuts := Starts(d.rows, k, d.tensors.Some?);
    forall i | 0 <= i < k ensures CutOutAt(d, cuts, out, i) {
      PieceCut(d, k, cuts, i);
    }
    StartMono(d.rows, k, d.tensors.Some?, 0);
    CutsJoin(d, cuts, out, k);
    SliceAll(d);
  }

  function Starts(rows: nat, k: nat, byTensor: bool): (cuts: seq<nat>)
    requires k > 0
    ensures CutAt(cuts, rows, k, byTensor)
  {
    seq(k + 1, i requires 0 <= i <= k => Start(rows, k, byTensor, i))
  }

  ghost predicate CutOutAt<T, O>(d: Data<T, O>, cuts: seq<nat>, out: seq<Data<T, O>>, i: int)
    requires Valid(d) && |cuts| == |out| + 1
  {
    0 <= i < |out| && cuts[i] <= cuts[i + 1] <= d.rows && out[i] == Slice(d, cuts[i], cuts[i + 1])
  }

  // The pieces between rising cut points join to what lies between the first and the last.
  lemma {:induction false} CutsJoin<T, O>(d: Data<T, O>, cuts: seq<nat>, out: seq<Data<T, O>>, n: nat)
    requires Valid(d) && Uniform(out) && 1 <= n <= |out| && |cuts| == |out| + 1
    requires forall i :: 0 <= i < |out| ==> CutOutAt(d, cuts, out, i)
    ensures cuts[0] <= cuts[n] <= d.rows && Joined(out, n) == Slice(d, cuts[0], cuts[n])
  {
    assert CutOutAt(d, cuts, out, n - 1);
    if n > 1 {
      CutsJoin(d, cuts, out, n - 1);
      SliceJoin(d, cuts[0], cuts[n - 1], cuts[n]);
    }
  }

  lemma PieceSlices<T, O>(d: Data<T, O>, k: nat, out: seq<Data<T, O>>)
    requires Valid(d) && Pieces(d, k, out)
    ensures Uniform(out)
  {
    forall i | 0 <= i < k ensures Valid(out[i]) && SameSchema(out[0], out[i]) {
      StartMono(d.rows, k, d.tensors.Some?, i);
      StartMono(d.rows, k, d.tensors.Some?, 0);
    }
  }

  // ----- row-wise computations -----

  // A computation that gives each row of a nonempty batch its own output row, g of the input row.
  // The output may have any columns: g can add or drop tensors.
  ghost predicate RowWise<T(!new), O(!new), U, P>(f: Data<T, O> -> Data<U, P>, g: Row<T, O> -> Row<U, P>) {
    forall d: Data<T, O> | Valid(d) && d.rows > 0 :: MapsRows(f, g, d)
  }

  ghost predicate MapsRows<T, O, U, P>(f: Data<T, O> -> Data<U, P>, g: Row<T, O> -> Row<U, P>, d: Data<T, O>)
    requires Valid(d)
  {
    && Valid(f(d)) && f(d).rows == d.rows
    && forall i :: 0 <= i < d.rows ==> RowAt(f(d), i) == g(RowAt(d, i))
  }

  lemma SameCells<V>(a: map<string, seq<V>>, b: map<string, seq<V>>, rows: nat)
    requires rows > 0 && Aligned(a, rows) && Aligned(b, rows)
    requires forall i: nat | i < rows :: CellsAt(a, rows, i) == CellsAt(b, rows, i)
    ensures a == b
  {
    assert CellsAt(a, rows, 0).Keys == a.Keys && CellsAt(b, rows, 0).Keys == b.Keys;
    forall k | k in a ensures a[k] == b[k] {
      forall i: nat | i < rows ensures a[k][i] == b[k][i] {
        assert CellsAt(a, rows, i)[k] == a[k][i] && CellsAt(b, rows, i)[k] == b[k][i];
      }
    }
  }

  // A nonempty batch is determined by its rows.
  lemma SameRows<T, O>(a: Data<T, O>, b: Data<T, O>)
    requires Valid(a) && Valid(b) && a.rows == b.rows > 0
    requires forall i: nat | i < a.rows :: RowAt(a, i) == RowAt(b, i)
    ensures a == b
  {
    assert RowAt(a, 0) == RowAt(b, 0);
    forall i: nat | i < a.rows ensures CellsAt(a.objects, a.rows, i) == CellsAt(b.objects, a.rows, i) { assert RowAt(a, i) == RowAt(b, i); }
    SameCells(a.objects, b.objects, a.rows);
    if a.tensors.Some? {
      forall i: nat | i < a.rows ensures CellsAt(a.tensors.value, a.rows, i) == CellsAt(b.tensors.value, a.rows, i) {
        assert RowAt(a, i) == RowAt(b, i);
      }
      SameCells(a.tensors.value, b.tensors.value, a.rows);
    }
  }

  lemma SliceRow<T, O>(d: Data<T, O>, lo: nat, hi: nat, i: nat)
    requires Valid(d) && lo <= hi <= d.rows && i < hi - lo
    ensures RowAt(Slice(d, lo, hi), i) == RowAt(d, lo + i)
  {
    CutCells(d.objects, d.rows, lo, hi, i);
    if d.tensors.Some? { CutCells(d.tensors.value, d.rows, lo, hi, i); }
  }

  lemma CutCells<V>(columns: map<string, seq<V>>, rows: nat, lo: nat, hi: nat, i: nat)
    requires Aligned(columns, rows) && lo <= hi <= rows && i < hi - lo
    ensures CellsAt(CutColumns(columns, rows, lo, hi), hi - lo, i) == CellsAt(columns, rows, lo + i)
  {}

  // Computing some of the rows gives those rows of the whole computation.
  lemma SliceLaw<T(!new), O(!new), U, P>(f: Data<T, O> -> Data<U, P>, g: Row<T, O> -> Row<U, P>, d: Data<T, O>, lo: nat, hi: nat)
    requires RowWise(f, g) && Valid(d) && lo < hi <= d.rows
    ensures Valid(f(d)) && f(d).rows == d.rows && f(Slice(d, lo, hi)) == Slice(f(d), lo, hi)
  {
    var part := Slice(d, lo, hi);
    assert MapsRows(f, g, d) && MapsRows(f, g, part);
    forall i: nat | i < hi - lo ensures RowAt(f(part), i) == RowAt(Slice(f(d), lo, hi), i) {
      SliceRow(d, lo, hi, i);
      SliceRow(f(d), lo, hi, i);
    }
    SameRows(f(part), Slice(f(d), lo, hi));
  }

  // A divisible batch is cut at the same places by torch.chunk and by np.array_split, and no piece is empty.
  lemma EvenStart(rows: nat, k: nat, byTensor: bool, i: nat)
    requires k > 0 && rows % k == 0 && i <= k
    ensures Start(rows, k, byTensor, i) == i * (rows / k)
  {
    Exact(rows, k);
    ChunkSizeExact(rows, k);
    MulMono(i, k, rows / k);
  }

  lemma ChunkSizeExact(rows: nat, k: nat)
    requires k > 0 && rows % k == 0
    ensures ChunkSize(rows, k) == rows / k
  {
    Exact(rows, k);
    DivUnique(rows + k - 1, k, rows / k, k - 1);
  }

  lemma EvenPiece(rows: nat, k: nat, byTensor: bool, i: nat)
    requires k > 0 && rows > 0 && rows % k == 0 && i < k
    ensures Start(rows, k, byTensor, i) < Start(rows, k, byTensor, i + 1) <= rows
  {
    EvenStart(rows, k, byTensor, i);
    EvenStart(rows, k, byTensor, i + 1);
    StartMono(rows, k, byTensor, i);
    MulStep(i + 1, rows / k);
    QuotientPositive(rows, k);
  }

  lemma QuotientPositive(rows: nat, k: nat)
    requires k > 0 && rows > 0 && rows % k == 0
    ensures rows / k > 0
  {
    Exact(rows, k);
    if rows / k == 0 { MulZero(k); }
  }

  // The workers' outputs are the pieces of the whole output.
  lemma WorkedPieces<T(!new), O(!new), U, P>(f: Data<T, O> -> Data<U, P>, g: Row<T, O> -> Row<U, P>, d: Data<T, O>, k: nat,
                                             out: seq<Data<T, O>>, worked: seq<Data<U, P>>)
    requires RowWise(f, g) && Valid(d) && d.rows > 0 && k > 0 && d.rows % k == 0 && Pieces(d, k, out)
    requires |worked| == k && forall i :: 0 <= i < k ==> worked[i] == f(out[i])
    ensures Valid(f(d)) && Pieces(f(d), k, worked)
  {
    SliceLaw(f, g, d, 0, d.rows);
    forall i | 0 <= i < k ensures worked[i] == Piece(f(d), k, i) { WorkedPiece(f, g, d, k, i); }
  }

  lemma WorkedPiece<T(!new), O(!new), U, P>(f: Data<T, O> -> Data<U, P>, g: Row<T, O> -> Row<U, P>, d: Data<T, O>, k: nat, i: nat)
    requires RowWise(f, g) && Valid(d) && d.rows > 0 && i < k && d.rows % k == 0
    ensures Valid(f(d)) && f(Piece(d, k, i)) == Piece(f(d), k, i)
  {
    var byTensor := d.tensors.Some?;
    EvenPiece(d.rows, k, byTensor, i);
    SamePlaces(d.rows, k, i);
    SliceLaw(f, g, d, Start(d.rows, k, byTensor, i), Start(d.rows, k, byTensor, i + 1));
  }

  lemma SamePlaces(rows: nat, k: nat, i: nat)
    requires i < k && rows % k == 0
    ensures Start(rows, k, true, i) == Start(rows, k, false, i) && Start(rows, k, true, i + 1) == Start(rows, k, false, i + 1)
  {
    EvenStart(rows, k, true, i);
    EvenStart(rows, k, false, i);
    EvenStart(rows, k, true, i + 1);
    EvenStart(rows, k, false, i + 1);
  }

  // Each worker computes its chunk.
  method Work<T, O, U, P>(f: Data<T, O> -> Data<U, P>, chunks: seq<Data<T, O>>) returns (worked: seq<Data<U, P>>)
    ensures |worked| == |chunks| && forall i :: 0 <= i < |chunks| ==> worked[i] == f(chunks[i])
  {
    worked := [];
    for i := 0 to |chunks|
      invariant |worked| == i && forall j :: 0 <= j < i ==> worked[j] == f(chunks[j])
    {
      worked := worked + [f(chunks[i])];
    }
  }

  // Chunking a batch that divides evenly, computing each chunk on its worker and concatenating
  // gives what computing the batch in one place gives.
  method SpreadCompute<T(!new), O(!new), U, P>(p: Data<T, O>, workers: nat, padding: bool, f: Data<T, O> -> Data<U, P>,
                                               ghost g: Row<T, O> -> Row<U, P>)
    returns (joined: Data<U, P>)
    requires Valid(p) && workers > 0 && p.rows > 0 && p.rows % workers == 0 && RowWise(f, g)
    ensures joined == f(p)
  {
    var chunks := Chunk(p, workers, padding);
    var worked := Work(f, chunks.value);
    WorkedPieces(f, g, p, workers, chunks.value, worked);
    ChunksJoin(f(p), workers, worked);
    var all := Concat(worked);
    joined := all.value;
  }

  // Padding a nonempty batch first makes that work for every batch size and worker count.
  method DispatchCompute<T(!new), O(!new), U, P>(data: Data<T, O>, workers: nat, padding: bool, f: Data<T, O> -> Data<U, P>,
                                                 ghost g: Row<T, O> -> Row<U, P>)
    returns (r: Result<Data<U, P>, DispatchError>)
    requires Valid(data) && data.rows > 0 && RowWise(f, g)
    ensures workers == 0 ==> r == Err(ZeroDivision)
    ensures workers > 0 ==> r == Ok(f(data)) && MapsRows(f, g, data)
  {
    var padded := PadToDivisor(data, workers);
    if padded.Err? { return Err(padded.error); }
    var p, padSize := padded.value.0, padded.value.1;
    var joined := SpreadCompute(p, workers, padding, f, g);
    UnpadComputed(f, g, data, p, padSize);
    r := Ok(Unpad(joined, padSize));
  }

  lemma UnpadComputed<T(!new), O(!new), U, P>(f: Data<T, O> -> Data<U, P>, g: Row<T, O> -> Row<U, P>, data: Data<T, O>,
                                              p: Data<T, O>, padSize: nat)
    requires RowWise(f, g) && Valid(data) && data.rows > 0 && p == Cyclic(data, data.rows + padSize)
    ensures Valid(f(p)) && Unpad(f(p), padSize) == f(data)
  {
    CyclicPrefix(data, p.rows);
    UnpadSlice(f, g, data, p, padSize);
  }

  // The padded batch enters only through its prefix.
  lemma UnpadSlice<T(!new), O(!new), U, P>(f: Data<T, O> -> Data<U, P>, g: Row<T, O> -> Row<U, P>, data: Data<T, O>,
                                           p: Data<T, O>, padSize: nat)
    requires RowWise(f, g) && Valid(data) && data.rows > 0 && Valid(p) && p.rows == data.rows + padSize && Slice(p, 0, data.rows) == data
    ensures Valid(f(p)) && Unpad(f(p), padSize) == f(data)
  {
    SliceLaw(f, g, p, 0, data.rows);
    SliceAll(f(p));
  }

  // DataProtoFuture: the workers' outputs are fetched and concatenated, and the future made for
  // chunk i selects piece i of that.
  method FutureGet<T, O>(outputs: seq<Data<T, O>>, select: Option<(nat, nat)>, padding: bool) returns (r: Result<Data<T, O>, DispatchError>)
    requires outputs != [] && Uniform(outputs)
    requires select.Some? ==> select.value.0 < select.value.1
    ensures select.None? ==> r == Ok(Joined(outputs, |outputs|))
    ensures select.Some? && r.Ok? ==> r.value == Piece(Joined(outputs, |outputs|), select.value.1, select.value.0)
    ensures select.Some? && Joined(outputs, |outputs|).rows % select.value.1 == 0 ==> r.Ok?
  {
    var joined := Concat(outputs);
    var all := joined.value;
    if select.None? { return Ok(all); }
    var chunks := Chunk(all, select.value.1, padding);
    if chunks.Err? { return Err(chunks.error); }
    r := Ok(chunks.value[select.value.0]);
  }

  // With auto padding on, chunking five rows of tensors for four workers raises, for torch.chunk cuts
  // three pieces; five rows of objects are chunked.
  method FiveRowsFourWorkers<T, O>(d: Data<T, O>) returns (r: Result<seq<Data<T, O>>, DispatchError>)
    requires Valid(d) && d.rows == 5
    ensures if d.tensors.Some? then r == Err(TooFewChunks) else r.Ok? && |r.value| == 4
  {
    r := Chunk(d, 4, true);
  }
}
