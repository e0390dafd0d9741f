// Composing task configs: the recursive merge of nested mappings, and the layers it resolves.
module DeepMerge {
  import opened Common

  // Other stands for numbers, booleans and lists, which merging never looks into.
  datatype Value = Null | Text(s: string) | Other(repr: string, truthy: bool) | Dict(m: map<string, Value>)

  function Merge(base: Value, over: Value): Value
    decreases over
  {
    if !base.Dict? || !over.Dict? then over
    else
      Dict(map k | k in base.m.Keys + over.m.Keys ::
             if k !in over.m then base.m[k] else if k in base.m then Merge(base.m[k], over.m[k]) else over.m[k])
  }

  // The overrides taken so far, put over the base.
  function MergeOn(base: Value, over: Value, taken: set<string>): map<string, Value>
    requires base.Dict? && over.Dict? && taken <= over.m.Keys
  {
    map k | k in base.m.Keys + taken ::
      if k !in taken then base.m[k] else if k in base.m then Merge(base.m[k], over.m[k]) else over.m[k]
  }

  // _deep_merge: a copy of the base, then one override at a time, in any order.
  method DeepMergeValues(base: Value, over: Value) returns (r: Value)
    ensures r == Merge(base, over)
    decreases over
  {
    if !base.Dict? || !over.Dict? { return over; }
    var result, rest := base.m, over.m.Keys;
    TakeNone(base, over);
    while rest != {}
      invariant rest <= over.m.Keys && result == MergeOn(base, over, over.m.Keys - rest)
      decreases |rest|
    {
      var key :| key in rest;
      var value := over.m[key];
      ghost var taken := over.m.Keys - rest;
      if value.Dict? && key in result && result[key].Dict? {
        var merged := DeepMergeValues(result[key], value);
        result := result[key := merged];
      } else {
        result := result[key := value];
      }
      TakeOne(base, over, taken, key);
      rest := rest - {key};
      assert over.m.Keys - rest == taken + {key};
    }
    TakeAll(base, over);
    assert over.m.Keys - {} == over.m.Keys;
    r := Dict(result);
  }

  lemma TakeNone(base: Value, over: Value)
    requires base.Dict? && over.Dict?
    ensures MergeOn(base, over, over.m.Keys - over.m.Keys) == base.m
  {}

  lemma TakeAll(base: Value, over: Value)
    requires base.Dict? && over.Dict?
    ensures Dict(MergeOn(base, over, over.m.Keys)) == Merge(base, over)
  {}

  lemma TakeOne(base: Value, over: Value, taken: set<string>, key: string)
    requires base.Dict? && over.Dict? && taken <= over.m.Keys && key in over.m && key !in taken
    ensures MergeOn(base, over, taken + {key}) ==
      MergeOn(base, over, taken)[key := if key in base.m then Merge(base.m[key], over.m[key]) else over.m[key]]
    ensures key in MergeOn(base, over, taken) <==> key in base.m
    ensures key in base.m ==> MergeOn(base, over, taken)[key] == base.m[key]
  {}

  // ----- what is at a path -----

  function At(v: Value, path: seq<string>): Option<Value> {
    if path == [] then Some(v)
    else if v.Dict? && path[0] in v.m then At(v.m[path[0]], path[1..])
    else None
  }

  // A non-mapping sits strictly above the path.
  predicate Blocked(v: Value, path: seq<string>) {
    path != [] && (!v.Dict? || (path[0] in v.m && Blocked(v.m[path[0]], path[1..])))
  }

  // At every path: the override where it is defined (merged if both are mappings), the base
  // elsewhere, and nothing below a non-mapping override.
  lemma {:induction false} MergeAt(a: Value, b: Value, path: seq<string>)
    ensures At(Merge(a, b), path) ==
      match At(b, path)
      case Some(y) => Some(if At(a, path).Some? then Merge(At(a, path).value, y) else y)
      case None => if Blocked(b, path) then None else At(a, path)
    decreases path
  {
    if path != [] && a.Dict? && b.Dict? {
      var k := path[0];
      if k in a.m && k in b.m { MergeAt(a.m[k], b.m[k], path[1..]); }
      if k in b.m { BlockedNone(b.m[k], path[1..]); }
    } else if path != [] {
      BlockedNone(b, path);
      NotBlocked(b, path);
    }
  }

  lemma {:induction false} BlockedNone(v: Value, path: seq<string>)
    ensures Blocked(v, path) ==> At(v, path).None?
    decreases path
  {
    if path != [] && v.Dict? && path[0] in v.m { BlockedNone(v.m[path[0]], path[1..]); }
  }

  lemma NotBlocked(v: Value, path: seq<string>)
    requires path != []
    ensures !v.Dict? ==> Blocked(v, path) && At(v, path).None?
  {}

  // The override decides the path: it has something there, or a non-mapping above it.
  predicate Decides(v: Value, path: seq<string>) { At(v, path).Some? || Blocked(v, path) }

  // A leaf, that is a scalar or a list, comes from the override where it decides, else from the base.
  lemma LeafOfMerge(a: Value, b: Value, path: seq<string>, leaf: Value)
    requires !leaf.Dict?
    ensures At(Merge(a, b), path) == Some(leaf) <==> At(if Decides(b, path) then b else a, path) == Some(leaf)
  {
    MergeAt(a, b, path);
    BlockedNone(b, path);
  }

  // ----- the algebra -----

  const EMPTY := Dict(map[])

  lemma EmptyIsIdentity(v: Value)
    ensures Merge(EMPTY, v) == v
    ensures v.Dict? ==> Merge(v, EMPTY) == v
  {
    if v.Dict? {
      assert Merge(EMPTY, v).m == v.m;
      assert Merge(v, EMPTY).m == v.m;
    }
  }

  // c says something at every path where a does.
  ghost predicate Covers(c: Value, a: Value)
    decreases a
  {
    a.Dict? && c.Dict? ==> forall k | k in a.m :: k in c.m && Covers(c.m[k], a.m[k])
  }

  // Merging a in below c changes nothing exactly when c covers a.
  lemma {:induction false} CoveredIff(a: Value, c: Value)
    ensures Merge(a, c) == c <==> Covers(c, a)
    decreases c
  {
    if a.Dict? && c.Dict? {
      forall k | k in a.m && k in c.m ensures Merge(a.m[k], c.m[k]) == c.m[k] <==> Covers(c.m[k], a.m[k]) {
        CoveredIff(a.m[k], c.m[k]);
      }
      if Merge(a, c) == c {
        forall k | k in a.m ensures k in c.m && Covers(c.m[k], a.m[k]) { assert k in Merge(a, c).m; }
      }
      if Covers(c, a) { assert Merge(a, c).m == c.m; }
    }
  }

  lemma {:induction false} CoversSelf(v: Value)
    ensures Covers(v, v)
    decreases v
  {
    if v.Dict? {
      forall k | k in v.m ensures Covers(v.m[k], v.m[k]) { CoversSelf(v.m[k]); }
    }
  }

  lemma {:induction false} MergeCovers(a: Value, b: Value)
    ensures Covers(Merge(a, b), b)
    decreases b
  {
    if a.Dict? && b.Dict? {
      forall k | k in b.m ensures k in Merge(a, b).m && Covers(Merge(a, b).m[k], b.m[k]) {
        if k in a.m { MergeCovers(a.m[k], b.m[k]); } else { CoversSelf(b.m[k]); }
      }
    } else {
      CoversSelf(b);
    }
  }

  lemma Idempotent(v: Value)
    ensures Merge(v, v) == v
  {
    CoversSelf(v);
    CoveredIff(v, v);
  }

  // Merging the same overrides again changes nothing.
  lemma {:induction false} Absorbing(a: Value, b: Value)
    ensures Merge(Merge(a, b), b) == Merge(a, b)
    decreases b
  {
    if a.Dict? && b.Dict? {
      var ab := Merge(a, b);
      forall k | k in ab.m ensures Merge(ab, b).m[k] == ab.m[k] {
        if k in b.m { if k in a.m { Absorbing(a.m[k], b.m[k]); } else { Idempotent(b.m[k]); } }
      }
      assert Merge(ab, b).m == ab.m;
    } else {
      Idempotent(b);
    }
  }

  // Where b cuts off a mapping of a that c then opens again, c must cover that mapping.
  ghost predicate Associates(a: Value, b: Value, c: Value)
    decreases c
  {
    a.Dict? && c.Dict? ==>
      if !b.Dict? then Covers(c, a)
      else forall k | k in a.m && k in b.m && k in c.m :: Associates(a.m[k], b.m[k], c.m[k])
  }

  // The two groupings of three layers agree.
  predicate GroupsAlike(a: Value, b: Value, c: Value) { Merge(Merge(a, b), c) == Merge(a, Merge(b, c)) }

  // The merge is associative exactly there.
  lemma {:induction false} AssociativeIff(a: Value, b: Value, c: Value)
    ensures GroupsAlike(a, b, c) <==> Associates(a, b, c)
    decreases c
  {
    if c.Dict? && a.Dict? {
      if !b.Dict? {
        CoveredIff(a, c);
      } else {
        forall k | k in a.m && k in b.m && k in c.m
          ensures GroupsAlike(a.m[k], b.m[k], c.m[k]) <==> Associates(a.m[k], b.m[k], c.m[k])
        {
          AssociativeIff(a.m[k], b.m[k], c.m[k]);
        }
        KeywiseAssociative(a, b, c);
      }
    }
  }

  // What both groupings hold at a key.
  lemma GroupedAt(a: Value, b: Value, c: Value, k: string)
    requires a.Dict? && b.Dict? && c.Dict?
    ensures var l, r := Merge(Merge(a, b), c), Merge(a, Merge(b, c));
      (k in l.m <==> k in a.m || k in b.m || k in c.m) && (k in r.m <==> k in a.m || k in b.m || k in c.m)
      && (k in a.m && k in b.m && k in c.m ==>
            l.m[k] == Merge(Merge(a.m[k], b.m[k]), c.m[k]) && r.m[k] == Merge(a.m[k], Merge(b.m[k], c.m[k])))
      && (k in l.m && !(k in a.m && k in b.m && k in c.m) ==> l.m[k] == r.m[k])
  {
    var ab, bc := Merge(a, b), Merge(b, c);
    assert k in ab.m <==> k in a.m || k in b.m;
    assert k in bc.m <==> k in b.m || k in c.m;
  }

  lemma KeywiseAssociative(a: Value, b: Value, c: Value)
    requires a.Dict? && b.Dict? && c.Dict?
    ensures GroupsAlike(a, b, c) <==>
      forall k | k in a.m && k in b.m && k in c.m :: GroupsAlike(a.m[k], b.m[k], c.m[k])
  {
    var l, r := Merge(Merge(a, b), c), Merge(a, Merge(b, c));
    if l == r {
      forall k | k in a.m && k in b.m && k in c.m ensures GroupsAlike(a.m[k], b.m[k], c.m[k]) { GroupedAt(a, b, c, k); }
    }
    if forall k | k in a.m && k in b.m && k in c.m :: GroupsAlike(a.m[k], b.m[k], c.m[k]) {
      forall k ensures (k in l.m <==> k in r.m) && (k in l.m ==> l.m[k] == r.m[k]) { GroupedAt(a, b, c, k); }
      assert l.m == r.m;
    }
  }

  // Path by path: a mapping of a, cut off by b and opened again by c.
  predicate Reopens(a: Value, b: Value, c: Value, path: seq<string>) {
    var x, y, z := At(a, path), At(b, path), At(c, path);
    x.Some? && y.Some? && z.Some? && x.value.Dict? && !y.value.Dict? && z.value.Dict?
  }

  lemma {:induction false} AssociatesAt(a: Value, b: Value, c: Value, path: seq<string>)
    requires Associates(a, b, c) && Reopens(a, b, c, path)
    ensures Covers(At(c, path).value, At(a, path).value)
    decreases path
  {
    if path != [] { AssociatesAt(a.m[path[0]], b.m[path[0]], c.m[path[0]], path[1..]); }
  }

  lemma {:induction false} AssociatesEverywhere(a: Value, b: Value, c: Value)
    requires forall path | Reopens(a, b, c, path) :: Covers(At(c, path).value, At(a, path).value)
    ensures Associates(a, b, c)
    decreases c
  {
    if a.Dict? && c.Dict? {
      if !b.Dict? {
        assert Reopens(a, b, c, []);
      } else {
        forall k | k in a.m && k in b.m && k in c.m ensures Associates(a.m[k], b.m[k], c.m[k]) {
          forall path | Reopens(a.m[k], b.m[k], c.m[k], path) ensures Covers(At(c.m[k], path).value, At(a.m[k], path).value) {
            assert ([k] + path)[1..] == path;
            assert Reopens(a, b, c, [k] + path);
          }
          AssociatesEverywhere(a.m[k], b.m[k], c.m[k]);
        }
      }
    }
  }

  // The merge is associative if and only if, at every path where b cuts off a mapping of a that c
  // opens again, c covers what a had there.
  lemma AssociativeByPathsIff(a: Value, b: Value, c: Value)
    ensures GroupsAlike(a, b, c) <==>
      forall path | Reopens(a, b, c, path) :: Covers(At(c, path).value, At(a, path).value)
  {
    AssociativeIff(a, b, c);
    if Associates(a, b, c) {
      forall path | Reopens(a, b, c, path) ensures Covers(At(c, path).value, At(a, path).value) { AssociatesAt(a, b, c, path); }
    } else {
      if forall path | Reopens(a, b, c, path) :: Covers(At(c, path).value, At(a, path).value) { AssociatesEverywhere(a, b, c); }
    }
  }

  lemma NotAssociative()
    ensures var a, b, c := Dict(map["x" := Dict(map["p" := Null])]), Dict(map["x" := Null]), Dict(map["x" := EMPTY]);
      !GroupsAlike(a, b, c)
  {
    var a, b, c := Dict(map["x" := Dict(map["p" := Null])]), Dict(map["x" := Null]), Dict(map["x" := EMPTY]);
    assert "p" in a.m["x"].m && "p" !in c.m["x"].m;
    assert !Covers(c.m["x"], a.m["x"]);
    assert !Associates(a.m["x"], b.m["x"], c.m["x"]);
    AssociativeIff(a, b, c);
  }

  // ----- resolving a task config -----

  datatype ConfigError = NoName | NoTaskConfig | BadEntry | DuplicateName

  // str(entry["name"]) for a truthy name. Mappings as names are not modelled.
  function NameOf(v: Value): Option<string> {
    match v
    case Text(s) => if s != "" then Some(s) else None
    case Other(repr, truthy) => if truthy then Some(repr) else None
    case _ => None
  }

  function EntryName(entry: Value): Option<string> {
    if entry.Dict? && "name" in entry.m then NameOf(entry.m["name"]) else None
  }

  function IndexTo(entries: seq<Value>, n: nat): Result<map<string, Value>, ConfigError>
    requires n <= |entries|
  {
    if n == 0 then Ok(map[])
    else
      match IndexTo(entries, n - 1)
      case Err(e) => Err(e)
      case Ok(index) =>
        var name := EntryName(entries[n - 1]);
        if name.None? then Err(BadEntry) else if name.value in index then Err(DuplicateName)
        else Ok(index[name.value := entries[n - 1]])
  }

  // _load_task_config_file, once the YAML is parsed.
  method LoadTaskConfigs(entries: seq<Value>) returns (r: Result<map<string, Value>, ConfigError>)
    ensures r == IndexTo(entries, |entries|)
  {
    var index: map<string, Value> := map[];
    for i := 0 to |entries|
      invariant IndexTo(entries, i) == Ok(index)
    {
      var name := EntryName(entries[i]);
      if name.None? {
        IndexStops(entries, i + 1, |entries|);
        return Err(BadEntry);
      }
      if name.value in index {
        IndexStops(entries, i + 1, |entries|);
        return Err(DuplicateName);
      }
      index := index[name.value := entries[i]];
    }
    r := Ok(index);
  }

  lemma {:induction false} IndexStops(entries: seq<Value>, i: nat, n: nat)
    requires i <= n <= |entries| && IndexTo(entries, i).Err?
    ensures IndexTo(entries, n) == IndexTo(entries, i)
  {
    if i < n { IndexStops(entries, i, n - 1); }
  }

  // The file loads exactly when every entry has a name and no two share one.
  lemma {:induction false} IndexIff(entries: seq<Value>, n: nat)
    requires n <= |entries|
    ensures IndexTo(entries, n).Ok? <==> NamesDiffer(entries, n)
  {
    if n > 0 {
      IndexIff(entries, n - 1);
      IndexFinds(entries, n - 1);
      var last := EntryName(entries[n - 1]);
      if IndexTo(entries, n - 1).Ok? && last.Some? {
        if last.value in IndexTo(entries, n - 1).value {
          assert NamedAmong(entries, n - 1, last.value);
        } else {
          forall i | 0 <= i < n - 1 ensures EntryName(entries[i]) != last {
            assert Indexed(IndexTo(entries, n - 1).value, entries[i]);
          }
        }
      }
    }
  }

  predicate NamesDiffer(entries: seq<Value>, n: nat)
    requires n <= |entries|
  {
    && (forall i :: 0 <= i < n ==> EntryName(entries[i]).Some?)
    && (forall i, j :: 0 <= i < j < n ==> EntryName(entries[i]) != EntryName(entries[j]))
  }

  // Once loaded, each entry is found by its name, and nothing else is.
  lemma {:induction false} IndexFinds(entries: seq<Value>, n: nat)
    requires n <= |entries|
    ensures IndexTo(entries, n).Ok? ==> forall i :: 0 <= i < n ==> Indexed(IndexTo(entries, n).value, entries[i])
    ensures IndexTo(entries, n).Ok? ==> forall k | k in IndexTo(entries, n).value :: NamedAmong(entries, n, k)
  {
    if n > 0 {
      IndexFinds(entries, n - 1);
      if IndexTo(entries, n).Ok? {
        var index, index' := IndexTo(entries, n - 1).value, IndexTo(entries, n).value;
        forall i | 0 <= i < n ensures Indexed(index', entries[i]) {
          if i < n - 1 { assert Indexed(index, entries[i]); }
        }
        forall k | k in index' ensures NamedAmong(entries, n, k) {
          if k in index {
            assert NamedAmong(entries, n - 1, k);
            var i :| 0 <= i < n - 1 && EntryName(entries[i]) == Some(k);
          } else {
            assert EntryName(entries[n - 1]) == Some(k);
          }
        }
      }
    }
  }

  predicate Indexed(index: map<string, Value>, entry: Value) {
    EntryName(entry).Some? && EntryName(entry).value in index && index[EntryName(entry).value] == entry
  }

  ghost predicate NamedAmong(entries: seq<Value>, n: nat, k: string)
    requires n <= |entries|
  {
    exists i :: 0 <= i < n && EntryName(entries[i]) == Some(k)
  }

  // An entry that names itself: with a nonempty text, or the printed form of another truthy value.
  predicate Named(entry: Value, name: string) {
    entry.Dict? && "name" in entry.m &&
    match entry.m["name"]
    case Text(s) => name == s != ""
    case Other(repr, truthy) => truthy && name == repr
    case _ => false
  }

  ghost predicate HasSomeName(entry: Value) { exists name :: Named(entry, name) }

  // The first n entries have names, and no two share one.
  ghost predicate AllNamed(entries: seq<Value>, n: nat)
    requires n <= |entries|
  {
    && (forall i :: 0 <= i < n ==> HasSomeName(entries[i]))
    && (forall i, j, name :: 0 <= i < j < n ==> !(Named(entries[i], name) && Named(entries[j], name)))
  }

  lemma NameIs(entry: Value, name: string)
    ensures EntryName(entry) == Some(name) <==> Named(entry, name)
  {}

  lemma AllNamedIff(entries: seq<Value>, n: nat)
    requires n <= |entries|
    ensures NamesDiffer(entries, n) <==> AllNamed(entries, n)
  {
    if NamesDiffer(entries, n) { DifferNamed(entries, n); }
    if AllNamed(entries, n) { NamedDiffer(entries, n); }
  }

  lemma DifferNamed(entries: seq<Value>, n: nat)
    requires n <= |entries| && NamesDiffer(entries, n)
    ensures AllNamed(entries, n)
  {
    forall i | 0 <= i < n ensures HasSomeName(entries[i]) {
      NameIs(entries[i], EntryName(entries[i]).value);
    }
    forall i, j, name | 0 <= i < j < n ensures !(Named(entries[i], name) && Named(entries[j], name)) {
      NameIs(entries[i], name);
      NameIs(entries[j], name);
      assert EntryName(entries[i]) != EntryName(entries[j]);
    }
  }

  lemma NamedDiffer(entries: seq<Value>, n: nat)
    requires n <= |entries| && AllNamed(entries, n)
    ensures NamesDiffer(entries, n)
  {
    forall i | 0 <= i < n ensures EntryName(entries[i]).Some? {
      var name :| Named(entries[i], name);
      NameIs(entries[i], name);
    }
    forall i, j | 0 <= i < j < n ensures EntryName(entries[i]) != EntryName(entries[j]) {
      var name :| Named(entries[i], name);
      NameIs(entries[i], name);
      NameIs(entries[j], name);
      assert !(Named(entries[i], name) && Named(entries[j], name));
    }
  }

  // A file loads exactly when every entry has a name and no two share one; then each entry is found
  // by its name, and nothing else is.
  lemma LoadIs(entries: seq<Value>)
    ensures IndexTo(entries, |entries|).Ok? <==> AllNamed(entries, |entries|)
    ensures IndexTo(entries, |entries|).Ok? ==>
      var index := IndexTo(entries, |entries|).value;
      && (forall i, name | 0 <= i < |entries| && Named(entries[i], name) :: name in index && index[name] == entries[i])
      && (forall name | name in index :: exists i :: 0 <= i < |entries| && Named(entries[i], name))
  {
    IndexIff(entries, |entries|);
    AllNamedIff(entries, |entries|);
    IndexFinds(entries, |entries|);
    if IndexTo(entries, |entries|).Ok? {
      var index := IndexTo(entries, |entries|).value;
      forall i, name | 0 <= i < |entries| && Named(entries[i], name) ensures name in index && index[name] == entries[i] {
        NameIs(entries[i], name);
        assert Indexed(index, entries[i]);
      }
      forall name | name in index ensures exists i :: 0 <= i < |entries| && Named(entries[i], name) {
        assert NamedAmong(entries, |entries|, name);
        var i :| 0 <= i < |entries| && EntryName(entries[i]) == Some(name);
        NameIs(entries[i], name);
      }
    }
  }

  // The error is that of the first entry that has no name, or the name of an earlier one.
  lemma {:induction false} LoadError(entries: seq<Value>, n: nat) returns (i: nat)
    requires n <= |entries| && IndexTo(entries, n).Err?
    ensures i < n && AllNamed(entries, i)
    ensures IndexTo(entries, n) == Err(if HasSomeName(entries[i]) then DuplicateName else BadEntry)
    ensures HasSomeName(entries[i]) ==> exists j, name :: 0 <= j < i && Named(entries[i], name) && Named(entries[j], name)
    decreases n
  {
    if IndexTo(entries, n - 1).Err? {
      i := LoadError(entries, n - 1);
    } else {
      i := n - 1;
      IndexIff(entries, i);
      AllNamedIff(entries, i);
      IndexFinds(entries, i);
      var name := EntryName(entries[i]);
      if name.Some? {
        NameIs(entries[i], name.value);
        assert NamedAmong(entries, i, name.value);
        var j :| 0 <= j < i && EntryName(entries[j]) == name;
        NameIs(entries[j], name.value);
      } else {
        forall name ensures !Named(entries[i], name) { NameIs(entries[i], name); }
      }
    }
  }

  // The runtime model's settings that are not None, as a config tree.
  function Binding(runtime: map<string, Value>): map<string, Value> {
    map k | k in runtime && runtime[k] != Null :: runtime[k]
  }

  function RuntimeTree(runtime: map<string, Value>): Value {
    if Binding(runtime) == map[] then EMPTY
    else Dict(map["agent" := Dict(map["model" := Dict(Binding(runtime))])])
  }

  // TaskConfigResolver.resolve, where the defaults are the mappings of a loaded file.
  method Resolve(defaults: map<string, Value>, sample: map<string, Value>, runtime: Option<map<string, Value>>)
    returns (r: Result<Value, ConfigError>)
    requires forall k | k in defaults :: defaults[k].Dict?
    ensures r == Err(NoName) <==>
      || "name" !in sample || sample["name"] == Null || sample["name"] == Text("") || sample["name"].Dict?
      || (sample["name"].Other? && !sample["name"].truthy)
    ensures r == Err(NoTaskConfig) <==>
      r != Err(NoName) && defaults != map[] && !(sample["name"].Text? && sample["name"].s in defaults)
    ensures r.Err? ==> r.error == NoName || r.error == NoTaskConfig
    ensures r.Ok? ==>
      var bound := RuntimeTree(if runtime.Some? then runtime.value else map[]);
      var file := if defaults == map[] then Dict(map[]) else defaults[sample["name"].s];
      forall path, leaf: Value | !leaf.Dict? ::
        At(r.value, path) == Some(leaf) <==>
        At(if Decides(bound, path) then bound else if Decides(Dict(sample), path) then Dict(sample) else file, path) == Some(leaf)
  {
    if "name" !in sample || NameOf(sample["name"]).None? { return Err(NoName); }
    var name := sample["name"];
    if defaults != map[] && !(name.Text? && name.s in defaults) { return Err(NoTaskConfig); }
    var file := if defaults == map[] then Dict(map[]) else defaults[name.s];
    var resolved := DeepMergeValues(file, Dict(sample));
    var given := if runtime.Some? then runtime.value else map[];
    var binding := Binding(given);
    ghost var before := resolved;
    if binding != map[] {
      resolved := DeepMergeValues(resolved, Dict(map["agent" := Dict(map["model" := Dict(binding)])]));
    } else {
      EmptyIsIdentity(resolved);
    }
    forall path, leaf: Value | !leaf.Dict?
      ensures At(resolved, path) == Some(leaf) <==>
        At(if Decides(RuntimeTree(given), path) then RuntimeTree(given) else if Decides(Dict(sample), path) then Dict(sample) else file, path)
        == Some(leaf)
    {
      LeafOfMerge(file, Dict(sample), path, leaf);
      LeafOfMerge(before, RuntimeTree(given), path, leaf);
    }
    r := Ok(resolved);
  }

  lemma AtStep(m: map<string, Value>, k: string, rest: seq<string>)
    ensures At(Dict(m), [k] + rest) == if k in m then At(m[k], rest) else None
    ensures Blocked(Dict(m), [k] + rest) == (k in m && Blocked(m[k], rest))
  {
    assert ([k] + rest)[1..] == rest;
  }

  lemma RuntimeNotShort(runtime: map<string, Value>, path: seq<string>)
    requires |path| < 3 && At(RuntimeTree(runtime), path).Some?
    ensures At(RuntimeTree(runtime), path).value.Dict?
  {
    var model := map["model" := Dict(Binding(runtime))];
    if path != [] && Binding(runtime) != map[] {
      assert path == [path[0]] + path[1..];
      AtStep(map["agent" := Dict(model)], path[0], path[1..]);
      if |path| == 2 {
        assert path[1..] == [path[1]] + [];
        AtStep(model, path[1], []);
      }
    }
  }

  // The runtime tree has leaves only below agent and model, and there it has and decides exactly what
  // the settings that are not None say.
  lemma {:induction false} RuntimeDecides(runtime: map<string, Value>, a: string, b: string, k: string, rest: seq<string>)
    ensures var tree, path := RuntimeTree(runtime), [a] + ([b] + ([k] + rest));
      var bound := a == "agent" && b == "model" && k in runtime && runtime[k] != Null;
      && At(tree, path) == (if bound then At(runtime[k], rest) else None)
      && (Decides(tree, path) <==> bound && Decides(runtime[k], rest))
  {
    var tree := RuntimeTree(runtime);
    if Binding(runtime) == map[] {
      assert k !in Binding(runtime);
      AtStep(map[], a, [b] + ([k] + rest));
    } else {
      var model := map["model" := Dict(Binding(runtime))];
      AtStep(map["agent" := Dict(model)], a, [b] + ([k] + rest));
      AtStep(model, b, [k] + rest);
      AtStep(Binding(runtime), k, rest);
    }
  }
}
