// Normalizing a JSON schema for tool runtimes. Objects are insertion-ordered dictionaries.
module Schema {
  import opened Common

  datatype Json = Null | Bool(b: bool) | Num(n: int) | Str(s: string) | List(items: seq<Json>) | Obj(fields: seq<Field>)

  datatype Field = Field(key: string, value: Json)

  // ----- dictionaries -----

  predicate Distinct(fs: seq<Field>) { forall i, j :: 0 <= i < j < |fs| ==> fs[i].key != fs[j].key }

  predicate Has(fs: seq<Field>, key: string) { exists i :: 0 <= i < |fs| && fs[i].key == key }

  function Lookup(fs: seq<Field>, key: string): Option<Json> {
    if fs == [] then None else if fs[0].key == key then Some(fs[0].value) else Lookup(fs[1..], key)
  }

  // d[key] = value: in place for a present key, at the end for a new one.
  function Put(fs: seq<Field>, key: string, value: Json): seq<Field> {
    if fs == [] then [Field(key, value)]
    else if fs[0].key == key then [Field(key, value)] + fs[1..]
    else [fs[0]] + Put(fs[1..], key, value)
  }

  lemma {:induction false} LookupIs(fs: seq<Field>, i: nat)
    requires Distinct(fs) && i < |fs|
    ensures Lookup(fs, fs[i].key) == Some(fs[i].value)
  {
    if i > 0 { LookupIs(fs[1..], i - 1); }
  }

  lemma {:induction false} LookupFinds(fs: seq<Field>, key: string)
    ensures Lookup(fs, key).Some? <==> Has(fs, key)
    ensures Lookup(fs, key).Some? ==> exists i :: 0 <= i < |fs| && fs[i] == Field(key, Lookup(fs, key).value)
  {
    if fs != [] {
      assert fs == [fs[0]] + fs[1..];
      HasCons(fs[0], fs[1..], key);
      if fs[0].key == key {
        assert fs[0] == Field(key, fs[0].value);
      } else {
        LookupFinds(fs[1..], key);
        if Lookup(fs[1..], key).Some? {
          var i :| 0 <= i < |fs[1..]| && fs[1..][i] == Field(key, Lookup(fs, key).value);
          assert fs[i + 1] == Field(key, Lookup(fs, key).value);
        }
      }
    }
  }

  lemma HasCons(f: Field, fs: seq<Field>, k: string)
    ensures Has([f] + fs, k) <==> f.key == k || Has(fs, k)
  {
    if i :| 0 <= i < |fs| && fs[i].key == k { assert ([f] + fs)[i + 1].key == k; }
    if f.key == k { assert ([f] + fs)[0].key == k; }
  }

  // Two dictionaries with the same fields, in whatever order, look the same.
  lemma SameLookup(fs: seq<Field>, gs: seq<Field>, key: string)
    requires Distinct(fs) && Distinct(gs)
    requires forall i :: 0 <= i < |fs| ==> fs[i] in gs
    requires forall i :: 0 <= i < |gs| ==> gs[i] in fs
    ensures Lookup(fs, key) == Lookup(gs, key)
  {
    LookupFinds(fs, key);
    LookupFinds(gs, key);
    if Lookup(fs, key).Some? {
      var i :| 0 <= i < |fs| && fs[i] == Field(key, Lookup(fs, key).value);
      var j :| 0 <= j < |gs| && gs[j] == fs[i];
      LookupIs(gs, j);
    }
  }

  lemma {:induction false} LookupPut(fs: seq<Field>, key: string, value: Json, k: string)
    ensures Lookup(Put(fs, key, value), k) == if k == key then Some(value) else Lookup(fs, k)
  {
    if fs != [] && fs[0].key != key {
      LookupPut(fs[1..], key, value, k);
      assert ([fs[0]] + Put(fs[1..], key, value))[1..] == Put(fs[1..], key, value);
    } else if fs != [] {
      assert ([Field(key, value)] + fs[1..])[1..] == fs[1..];
    }
  }

  // ----- normalization -----

  const PREFERRED: seq<string> := ["type", "description", "enum", "default", "items", "properties", "required"]

  function Rank(key: string): nat {
    if key == "type" then 0 else if key == "description" then 1 else if key == "enum" then 2
    else if key == "default" then 3 else if key == "items" then 4 else if key == "properties" then 5
    else if key == "required" then 6 else 7
  }

  // {"type": "null"} and nothing else
  predicate IsNullType(v: Json) { v == Obj([Field("type", Str("null"))]) }

  function NonNull(items: seq<Json>, n: nat): seq<Json>
    requires n <= |items|
  {
    if n == 0 then [] else NonNull(items, n - 1) + if IsNullType(items[n - 1]) then [] else [items[n - 1]]
  }

  // The one object variant an anyOf collapses to.
  function Variant(fs: seq<Field>): Option<seq<Field>> {
    match Lookup(fs, "anyOf")
    case Some(List(items)) =>
      var variants := NonNull(items, |items|);
      if |variants| == 1 && variants[0].Obj? then Some(variants[0].fields) else None
    case _ => None
  }

  // The siblings of anyOf are put over the variant's fields.
  function Overlay(merged: seq<Field>, fs: seq<Field>, n: nat): seq<Field>
    requires n <= |fs|
  {
    if n == 0 then merged
    else
      var m := Overlay(merged, fs, n - 1);
      if fs[n - 1].key == "anyOf" then m else Put(m, fs[n - 1].key, fs[n - 1].value)
  }

  function Collapse(fs: seq<Field>): seq<Field> {
    match Variant(fs)
    case None => fs
    case Some(variant) => Overlay(variant, fs, |fs|)
  }

  function Pick(fs: seq<Field>, n: nat): seq<Field>
    requires n <= |PREFERRED|
  {
    if n == 0 then []
    else
      var found := Lookup(fs, PREFERRED[n - 1]);
      Pick(fs, n - 1) + if found.Some? then [Field(PREFERRED[n - 1], found.value)] else []
  }

  function Rest(fs: seq<Field>, n: nat): seq<Field>
    requires n <= |fs|
  {
    if n == 0 then [] else Rest(fs, n - 1) + if Rank(fs[n - 1].key) == 7 then [fs[n - 1]] else []
  }

  function Order(fs: seq<Field>): seq<Field> { Pick(fs, |PREFERRED|) + Rest(fs, |fs|) }

  function NormItems(v: Json, n: nat): seq<Json>
    requires v.List? && n <= |v.items|
    decreases v, 0, n
  {
    if n == 0 then [] else NormItems(v, n - 1) + [Normalize(v.items[n - 1])]
  }

  predicate Dropped(key: string, value: Json) { key == "title" || (key == "default" && value == Null) }

  function NormFields(v: Json, n: nat): seq<Field>
    requires v.Obj? && n <= |v.fields|
    decreases v, 0, n
  {
    if n == 0 then []
    else
      var f := v.fields[n - 1];
      NormFields(v, n - 1) + if Dropped(f.key, Normalize(f.value)) then [] else [Field(f.key, Normalize(f.value))]
  }

  // _normalize_json_schema
  function Normalize(v: Json): Json
    decreases v, 1, 0
  {
    match v
    case List(items) => List(NormItems(v, |items|))
    case Obj(fields) => Obj(Order(Collapse(NormFields(v, |fields|))))
    case _ => v
  }

  // ----- the loops -----

  method Collapsed(fs: seq<Field>) returns (r: seq<Field>)
    ensures r == Collapse(fs)
  {
    var anyOf := Lookup(fs, "anyOf");
    if anyOf.None? || !anyOf.value.List? { return fs; }
    var items := anyOf.value.items;
    var variants: seq<Json> := [];
    for i := 0 to |items|
      invariant variants == NonNull(items, i)
    {
      if !IsNullType(items[i]) { variants := variants + [items[i]]; }
    }
    if |variants| != 1 || !variants[0].Obj? { return fs; }
    r := variants[0].fields;
    for i := 0 to |fs|
      invariant r == Overlay(variants[0].fields, fs, i)
    {
      if fs[i].key != "anyOf" { r := Put(r, fs[i].key, fs[i].value); }
    }
  }

  method Ordered(fs: seq<Field>) returns (r: seq<Field>)
    ensures r == Order(fs)
  {
    r := [];
    for i := 0 to |PREFERRED|
      invariant r == Pick(fs, i)
    {
      var found := Lookup(fs, PREFERRED[i]);
      if found.Some? { r := r + [Field(PREFERRED[i], found.value)]; }
    }
    var rest: seq<Field> := [];
    for i := 0 to |fs|
      invariant rest == Rest(fs, i)
    {
      if Rank(fs[i].key) == 7 { rest := rest + [fs[i]]; }
    }
    r := r + rest;
  }

  method NormalizeJsonSchema(v: Json) returns (r: Json)
    ensures r == Normalize(v)
    decreases v
  {
    match v
    case Null => r := v;
    case Bool(_) => r := v;
    case Num(_) => r := v;
    case Str(_) => r := v;
    case List(items) =>
      var out: seq<Json> := [];
      for i := 0 to |items|
        invariant out == NormItems(v, i)
      {
        var item := NormalizeJsonSchema(items[i]);
        out := out + [item];
      }
      r := List(out);
    case Obj(fields) =>
      var normalized: seq<Field> := [];
      for i := 0 to |fields|
        invariant normalized == NormFields(v, i)
      {
        var f := fields[i];
        var item := NormalizeJsonSchema(f.value);
        if f.key != "title" && !(f.key == "default" && item == Null) { normalized := normalized + [Field(f.key, item)]; }
      }
      var collapsed := Collapsed(normalized);
      var ordered := Ordered(collapsed);
      r := Obj(ordered);
  }

  // ----- the canonical form -----

  // Preferred keys in their order, then the others.
  predicate Ranked(fs: seq<Field>) { forall i, j :: 0 <= i < j < |fs| ==> Rank(fs[i].key) <= Rank(fs[j].key) }

  predicate Tidy(fs: seq<Field>) {
    Distinct(fs) && Variant(fs).None? && forall i :: 0 <= i < |fs| ==> !Dropped(fs[i].key, fs[i].value)
  }

  // At every depth: no title, no null default, no anyOf that collapses, preferred keys first.
  ghost predicate Canonical(v: Json) {
    match v
    case List(items) => forall i :: 0 <= i < |items| ==> Canonical(items[i])
    case Obj(fields) => Tidy(fields) && Ranked(fields) && forall i :: 0 <= i < |fields| ==> Canonical(fields[i].value)
    case _ => true
  }

  // A Python value: no dictionary has the same key twice.
  ghost predicate Proper(v: Json) {
    match v
    case List(items) => forall i :: 0 <= i < |items| ==> Proper(items[i])
    case Obj(fields) => Distinct(fields) && forall i :: 0 <= i < |fields| ==> Proper(fields[i].value)
    case _ => true
  }

  // Fields as they are before ordering: each is kept, canonical and named once.
  ghost predicate Kept(fs: seq<Field>) { Distinct(fs) && forall i :: 0 <= i < |fs| ==> KeptField(fs[i]) }

  ghost predicate KeptField(f: Field) { Canonical(f.value) && !Dropped(f.key, f.value) }

  lemma HasPut(fs: seq<Field>, key: string, value: Json, k: string)
    ensures Has(Put(fs, key, value), k) <==> k == key || Has(fs, k)
  {
    LookupPut(fs, key, value, k);
    LookupFinds(Put(fs, key, value), k);
    LookupFinds(fs, k);
  }

  lemma {:induction false} PutKept(fs: seq<Field>, key: string, value: Json)
    requires Kept(fs) && KeptField(Field(key, value))
    ensures Kept(Put(fs, key, value))
  {
    if fs != [] {
      var rest := fs[1..];
      assert forall i :: 0 <= i < |rest| ==> rest[i] == fs[i + 1];
      if fs[0].key != key {
        PutKept(rest, key, value);
        var put := Put(rest, key, value);
        HasPut(rest, key, value, fs[0].key);
        forall j | 0 <= j < |put| ensures put[j].key != fs[0].key {
          if put[j].key == fs[0].key { assert Has(put, fs[0].key); }
        }
      }
    }
  }

  // ----- collapsing -----

  lemma {:induction false} OverlayKept(merged: seq<Field>, fs: seq<Field>, n: nat)
    requires Kept(merged) && Kept(fs) && n <= |fs|
    ensures Kept(Overlay(merged, fs, n))
  {
    if n > 0 {
      OverlayKept(merged, fs, n - 1);
      if fs[n - 1].key != "anyOf" { PutKept(Overlay(merged, fs, n - 1), fs[n - 1].key, fs[n - 1].value); }
    }
  }

  predicate HasUpTo(fs: seq<Field>, n: nat, k: string)
    requires n <= |fs|
  {
    n > 0 && (fs[n - 1].key == k || HasUpTo(fs, n - 1, k))
  }

  // A sibling of anyOf wins over the variant's field of the same name.
  lemma {:induction false} OverlayLookup(merged: seq<Field>, fs: seq<Field>, n: nat, k: string)
    requires Distinct(fs) && n <= |fs|
    ensures Lookup(Overlay(merged, fs, n), k) ==
      if k != "anyOf" && HasUpTo(fs, n, k) then Lookup(fs, k) else Lookup(merged, k)
  {
    if n > 0 {
      OverlayLookup(merged, fs, n - 1, k);
      LookupPut(Overlay(merged, fs, n - 1), fs[n - 1].key, fs[n - 1].value, k);
      LookupIs(fs, n - 1);
    }
  }

  lemma {:induction false} HasAll(fs: seq<Field>, n: nat, k: string)
    requires n <= |fs|
    ensures HasUpTo(fs, n, k) <==> exists i :: 0 <= i < n && fs[i].key == k
  {
    if n > 0 { HasAll(fs, n - 1, k); }
  }

  lemma {:induction false} NonNullIn(items: seq<Json>, n: nat, i: nat) returns (j: nat)
    requires n <= |items| && i < |NonNull(items, n)|
    ensures j < n && NonNull(items, n)[i] == items[j]
  {
    if i < |NonNull(items, n - 1)| { j := NonNullIn(items, n - 1, i); } else { j := n - 1; }
  }

  // The variant of a kept object is itself canonical.
  lemma VariantCanonical(fs: seq<Field>)
    requires Kept(fs) && Variant(fs).Some?
    ensures Canonical(Obj(Variant(fs).value))
  {
    LookupFinds(fs, "anyOf");
    var anyOf := Lookup(fs, "anyOf").value;
    var i :| 0 <= i < |fs| && fs[i] == Field("anyOf", anyOf);
    assert KeptField(fs[i]);
    var j := NonNullIn(anyOf.items, |anyOf.items|, 0);
  }

  lemma CollapseTidy(fs: seq<Field>)
    requires Kept(fs)
    ensures Kept(Collapse(fs)) && Variant(Collapse(fs)).None?
  {
    if Variant(fs).Some? {
      var variant := Variant(fs).value;
      VariantCanonical(fs);
      assert Kept(variant) by {
        forall i | 0 <= i < |variant| ensures KeptField(variant[i]) {}
      }
      OverlayKept(variant, fs, |fs|);
      OverlayLookup(variant, fs, |fs|, "anyOf");
    }
  }

  // ----- ordering -----

  lemma RankPreferred(key: string)
    ensures Rank(key) <= 7 && (Rank(key) < 7 ==> PREFERRED[Rank(key)] == key)
    ensures forall i :: 0 <= i < 7 ==> Rank(PREFERRED[i]) == i
  {
    forall i | 0 <= i < 7 ensures Rank(PREFERRED[i]) == i {
      if i == 0 {} else if i == 1 {} else if i == 2 {} else if i == 3 {} else if i == 4 {} else if i == 5 {} else {}
    }
  }

  // What Pick collects: fields of fs with preferred keys below n, in order.
  lemma {:induction false} PickIs(fs: seq<Field>, n: nat)
    requires n <= |PREFERRED| && Distinct(fs)
    ensures forall i :: 0 <= i < |Pick(fs, n)| ==> Pick(fs, n)[i] in fs && Rank(Pick(fs, n)[i].key) < n
    ensures forall i, j :: 0 <= i < j < |Pick(fs, n)| ==> Rank(Pick(fs, n)[i].key) < Rank(Pick(fs, n)[j].key)
    ensures forall i :: 0 <= i < |fs| && Rank(fs[i].key) < n ==> fs[i] in Pick(fs, n)
    decreases n
  {
    forall i | 0 <= i < |fs| && Rank(fs[i].key) < n ensures fs[i] in Pick(fs, n) { PickHas(fs, n, i); }
    if n > 0 {
      PickIs(fs, n - 1);
      RankPreferred(PREFERRED[n - 1]);
      LookupFinds(fs, PREFERRED[n - 1]);
    }
  }

  lemma {:induction false} PickHas(fs: seq<Field>, n: nat, i: nat)
    requires n <= |PREFERRED| && Distinct(fs) && i < |fs| && Rank(fs[i].key) < n
    ensures fs[i] in Pick(fs, n)
    decreases n
  {
    if Rank(fs[i].key) == n - 1 {
      RankPreferred(fs[i].key);
      LookupIs(fs, i);
      assert fs[i] == Field(PREFERRED[n - 1], fs[i].value);
    } else {
      PickHas(fs, n - 1, i);
    }
  }

  lemma {:induction false} RestIs(fs: seq<Field>, n: nat)
    requires n <= |fs| && Distinct(fs)
    ensures forall i :: 0 <= i < |Rest(fs, n)| ==> Rest(fs, n)[i] in fs[..n] && Rank(Rest(fs, n)[i].key) == 7
    ensures Distinct(Rest(fs, n))
    ensures forall i :: 0 <= i < n && Rank(fs[i].key) == 7 ==> fs[i] in Rest(fs, n)
  {
    if n > 0 {
      RestIs(fs, n - 1);
      assert fs[..n] == fs[..n - 1] + [fs[n - 1]];
      var init := Rest(fs, n - 1);
      forall i | 0 <= i < |init| ensures init[i].key != fs[n - 1].key {
        var j :| 0 <= j < n - 1 && fs[j] == init[i];
      }
    }
  }

  // Ordering keeps exactly the same fields and puts the preferred keys first.
  lemma OrderIs(fs: seq<Field>)
    requires Distinct(fs)
    ensures Distinct(Order(fs)) && Ranked(Order(fs))
    ensures forall i :: 0 <= i < |Order(fs)| ==> Order(fs)[i] in fs
    ensures forall i :: 0 <= i < |fs| ==> fs[i] in Order(fs)
  {
    var picked, rest, order := Pick(fs, |PREFERRED|), Rest(fs, |fs|), Order(fs);
    PickIs(fs, |PREFERRED|);
    RestIs(fs, |fs|);
    assert fs[..|fs|] == fs;
    forall i | 0 <= i < |fs| ensures fs[i] in order {
      RankPreferred(fs[i].key);
      assert if Rank(fs[i].key) < 7 then fs[i] in picked else fs[i] in rest;
    }
    forall i, j | 0 <= i < j < |order| ensures order[i].key != order[j].key && Rank(order[i].key) <= Rank(order[j].key) {
      if j < |picked| {
        assert Rank(picked[i].key) < Rank(picked[j].key);
      } else if i < |picked| {
        assert Rank(rest[j - |picked|].key) == 7 && Rank(picked[i].key) < 7;
      } else {
        assert rest[i - |picked|].key != rest[j - |picked|].key;
      }
    }
  }

  // No listed key comes before one listed earlier, and no other key before a listed one.
  lemma OrderedByName(fs: seq<Field>, i: nat, j: nat)
    requires Distinct(fs) && i < j < |Order(fs)|
    ensures var listed: seq<string> := ["type", "description", "enum", "default", "items", "properties", "required"];
      && (forall a, b :: 0 <= b < a < 7 ==> !(Order(fs)[i].key == listed[a] && Order(fs)[j].key == listed[b]))
      && (Order(fs)[j].key in listed ==> Order(fs)[i].key in listed)
  {
    OrderIs(fs);
    var x, y := Order(fs)[i].key, Order(fs)[j].key;
    RankPreferred(x);
    RankPreferred(y);
    assert Rank(x) <= Rank(y);
    if Rank(x) < 7 { assert PREFERRED[Rank(x)] == x; }
  }

  // Fields with other keys come in the order they had.
  lemma {:induction false} RestInOrder(fs: seq<Field>, n: nat, p: nat, q: nat) returns (i: nat, j: nat)
    requires p < q < n <= |fs| && Rank(fs[p].key) == 7 && Rank(fs[q].key) == 7
    ensures i < j < |Rest(fs, n)| && Rest(fs, n)[i] == fs[p] && Rest(fs, n)[j] == fs[q]
    decreases n
  {
    if q < n - 1 {
      i, j := RestInOrder(fs, n - 1, p, q);
    } else {
      i := RestAt(fs, n - 1, p);
      j := |Rest(fs, n - 1)|;
    }
  }

  lemma {:induction false} RestAt(fs: seq<Field>, n: nat, p: nat) returns (i: nat)
    requires p < n <= |fs| && Rank(fs[p].key) == 7
    ensures i < |Rest(fs, n)| && Rest(fs, n)[i] == fs[p]
    decreases n
  {
    if p < n - 1 { i := RestAt(fs, n - 1, p); } else { i := |Rest(fs, n - 1)|; }
  }

  lemma OthersInOrder(fs: seq<Field>, p: nat, q: nat) returns (i: nat, j: nat)
    requires p < q < |fs| && fs[p].key !in PREFERRED && fs[q].key !in PREFERRED
    ensures i < j < |Order(fs)| && Order(fs)[i] == fs[p] && Order(fs)[j] == fs[q]
  {
    RankPreferred(fs[p].key);
    RankPreferred(fs[q].key);
    var a, b := RestInOrder(fs, |fs|, p, q);
    i, j := |Pick(fs, |PREFERRED|)| + a, |Pick(fs, |PREFERRED|)| + b;
  }

  lemma OrderLookup(fs: seq<Field>, key: string)
    requires Distinct(fs)
    ensures Lookup(Order(fs), key) == Lookup(fs, key)
  {
    OrderIs(fs);
    SameLookup(Order(fs), fs, key);
  }

  lemma OrderCanonical(fs: seq<Field>)
    requires Kept(fs) && Variant(fs).None?
    ensures Canonical(Obj(Order(fs)))
  {
    var order := Order(fs);
    OrderIs(fs);
    OrderLookup(fs, "anyOf");
    forall i | 0 <= i < |order| ensures KeptField(order[i]) {
      var j :| 0 <= j < |fs| && fs[j] == order[i];
    }
    forall i | 0 <= i < |order| ensures !Dropped(order[i].key, order[i].value) && Canonical(order[i].value) { assert KeptField(order[i]); }
  }

  // ----- normal forms -----

  // Fields are named after fields of the object.
  predicate NamedBefore(fs: seq<Field>, v: Json, n: nat)
    requires v.Obj? && n <= |v.fields|
  {
    forall i :: 0 <= i < |fs| ==> Has(v.fields[..n], fs[i].key)
  }

  lemma {:induction false} NormFieldsNames(v: Json, n: nat)
    requires v.Obj? && n <= |v.fields|
    ensures NamedBefore(NormFields(v, n), v, n)
  {
    if n > 0 {
      NormFieldsNames(v, n - 1);
      var init := NormFields(v, n - 1);
      forall i | 0 <= i < |NormFields(v, n)| ensures Has(v.fields[..n], NormFields(v, n)[i].key) {
        if i < |init| {
          var j :| 0 <= j < n - 1 && v.fields[..n - 1][j].key == init[i].key;
          assert v.fields[..n][j].key == init[i].key;
        } else {
          assert v.fields[..n][n - 1].key == v.fields[n - 1].key;
        }
      }
    }
  }

  // Normalizing reaches the canonical form.
  lemma {:induction false} NormalizeCanonical(v: Json)
    requires Proper(v)
    ensures Canonical(Normalize(v))
    decreases v, 1, 0
  {
    match v
    case List(items) => NormItemsCanonical(v, |items|);
    case Obj(fields) =>
      NormFieldsKept(v, |fields|);
      var kept := NormFields(v, |fields|);
      CollapseTidy(kept);
      OrderCanonical(Collapse(kept));
    case _ =>
  }

  lemma {:induction false} NormItemsCanonical(v: Json, n: nat)
    requires v.List? && n <= |v.items| && Proper(v)
    ensures |NormItems(v, n)| == n && forall i :: 0 <= i < n ==> Canonical(NormItems(v, n)[i])
    decreases v, 0, n
  {
    if n > 0 {
      NormItemsCanonical(v, n - 1);
      NormalizeCanonical(v.items[n - 1]);
    }
  }

  lemma {:induction false} NormFieldsKept(v: Json, n: nat)
    requires v.Obj? && n <= |v.fields| && Proper(v)
    ensures Kept(NormFields(v, n))
    decreases v, 0, n
  {
    if n > 0 {
      NormFieldsKept(v, n - 1);
      NormalizeCanonical(v.fields[n - 1].value);
      NewName(v, n - 1);
      KeptSnoc(NormFields(v, n - 1), Field(v.fields[n - 1].key, Normalize(v.fields[n - 1].value)));
    }
  }

  lemma KeptSnoc(init: seq<Field>, f: Field)
    requires Kept(init) && Canonical(f.value) && forall i :: 0 <= i < |init| ==> init[i].key != f.key
    ensures !Dropped(f.key, f.value) ==> Kept(init + [f])
  {}

  lemma NewName(v: Json, n: nat)
    requires v.Obj? && n < |v.fields| && Distinct(v.fields)
    ensures forall i :: 0 <= i < |NormFields(v, n)| ==> NormFields(v, n)[i].key != v.fields[n].key
  {
    var init := NormFields(v, n);
    NormFieldsNames(v, n);
    forall i | 0 <= i < |init| ensures init[i].key != v.fields[n].key {
      var j :| 0 <= j < n && v.fields[..n][j].key == init[i].key;
      assert v.fields[..n][j] == v.fields[j];
    }
  }

  // A canonical value is already normal, key order included.
  lemma {:induction false} CanonicalFixed(v: Json)
    requires Canonical(v)
    ensures Normalize(v) == v
    decreases v, 1, 0
  {
    match v
    case List(items) =>
      ItemsFixed(v, |items|);
      assert items[..|items|] == items;
    case Obj(fields) =>
      FieldsFixed(v, |fields|);
      assert fields[..|fields|] == fields;
      RankedOrdered(fields);
    case _ =>
  }

  lemma {:induction false} ItemsFixed(v: Json, n: nat)
    requires v.List? && n <= |v.items| && Canonical(v)
    ensures NormItems(v, n) == v.items[..n]
    decreases v, 0, n
  {
    if n > 0 {
      ItemsFixed(v, n - 1);
      CanonicalFixed(v.items[n - 1]);
    }
  }

  lemma {:induction false} FieldsFixed(v: Json, n: nat)
    requires v.Obj? && n <= |v.fields| && Canonical(v)
    ensures NormFields(v, n) == v.fields[..n]
    decreases v, 0, n
  {
    if n > 0 {
      FieldsFixed(v, n - 1);
      CanonicalFixed(v.fields[n - 1].value);
      assert !Dropped(v.fields[n - 1].key, v.fields[n - 1].value);
    }
  }

  // Two arrangements of the same fields by rank, where equal ranks keep their order, agree.
  lemma {:induction false} RankedOrdered(fs: seq<Field>)
    requires Distinct(fs) && Ranked(fs)
    ensures Order(fs) == fs
    decreases |fs|
  {
    if fs == [] {
      PickNone(7);
    } else {
      RankedOrdered(fs[..|fs| - 1]);
      assert fs == fs[..|fs| - 1] + [fs[|fs| - 1]];
      RankedMore(fs[..|fs| - 1], fs[|fs| - 1]);
    }
  }

  // A last field of the highest rank stays last.
  lemma RankedMore(init: seq<Field>, f: Field)
    requires Distinct(init + [f]) && Ranked(init + [f]) && Order(init) == init
    ensures Order(init + [f]) == init + [f]
  {
    RankedLast(init, f);
    PickSnoc(init, f, 7);
    RestSnoc(init, f);
    RankPreferred(f.key);
    if Rank(f.key) < 7 { RestNone(init, |init|); }
    OrderSnoc(init, f, Pick(init, 7), Rest(init, |init|));
  }

  lemma RankedLast(init: seq<Field>, f: Field)
    requires Ranked(init + [f])
    ensures forall i :: 0 <= i < |init| ==> Rank(init[i].key) <= Rank(f.key)
  {
    var fs := init + [f];
    forall i | 0 <= i < |init| ensures Rank(init[i].key) <= Rank(f.key) { assert fs[i] == init[i] && fs[|init|] == f; }
  }

  lemma RestSnoc(init: seq<Field>, f: Field)
    ensures Rest(init + [f], |init| + 1) == Rest(init, |init|) + if Rank(f.key) == 7 then [f] else []
  {
    var fs := init + [f];
    assert fs[..|fs| - 1] == init;
    RestPrefix(fs, |fs| - 1);
  }

  lemma OrderSnoc(init: seq<Field>, f: Field, picked: seq<Field>, rest: seq<Field>)
    requires picked + rest == init && Rank(f.key) <= 7 && (Rank(f.key) < 7 ==> rest == [])
    ensures (picked + if Rank(f.key) < 7 then [f] else []) + (rest + if Rank(f.key) == 7 then [f] else []) == init + [f]
  {
    if Rank(f.key) < 7 {
      assert picked + [] == picked;
      assert [] + [] == rest + [];
    } else {
      assert picked + (rest + [f]) == (picked + rest) + [f];
    }
  }

  lemma {:induction false} PickNone(n: nat)
    requires n <= |PREFERRED|
    ensures Pick([], n) == []
  {
    if n > 0 { PickNone(n - 1); }
  }

  lemma {:induction false} RestPrefix(fs: seq<Field>, n: nat)
    requires n < |fs|
    ensures Rest(fs, n) == Rest(fs[..|fs| - 1], n)
  {
    if n > 0 { RestPrefix(fs, n - 1); }
  }

  lemma {:induction false} RestNone(fs: seq<Field>, n: nat)
    requires n <= |fs| && forall i :: 0 <= i < n ==> Rank(fs[i].key) < 7
    ensures Rest(fs, n) == []
  {
    if n > 0 { RestNone(fs, n - 1); }
  }

  lemma {:induction false} LookupSnoc(fs: seq<Field>, f: Field, key: string)
    ensures Lookup(fs + [f], key) == if Lookup(fs, key).Some? then Lookup(fs, key) else if f.key == key then Some(f.value) else None
  {
    if fs == [] {
      assert [] + [f] == [f] && [f][1..] == [];
    } else {
      assert (fs + [f])[1..] == fs[1..] + [f];
      LookupSnoc(fs[1..], f, key);
    }
  }

  // Adding a field ranked after all others adds it at the end of what is picked, if it is preferred.
  lemma {:induction false} PickSnoc(fs: seq<Field>, f: Field, n: nat)
    requires n <= |PREFERRED| && Distinct(fs + [f]) && forall i :: 0 <= i < |fs| ==> Rank(fs[i].key) <= Rank(f.key)
    ensures Pick(fs + [f], n) == Pick(fs, n) + if Rank(f.key) < n then [f] else []
  {
    if n > 0 {
      PickSnoc(fs, f, n - 1);
      LookupSnoc(fs, f, PREFERRED[n - 1]);
      LookupFinds(fs, PREFERRED[n - 1]);
      RankPreferred(PREFERRED[n - 1]);
      RankPreferred(f.key);
      if i :| 0 <= i < |fs| && fs[i].key == PREFERRED[n - 1] {
        assert (fs + [f])[i].key != (fs + [f])[|fs|].key;
      }
    }
  }

  // Normalizing changes a value exactly when it is not canonical; so normalizing twice is
  // normalizing once.
  lemma NormalizeFixedIff(v: Json)
    requires Proper(v)
    ensures Normalize(v) == v <==> Canonical(v)
    ensures Normalize(Normalize(v)) == Normalize(v)
  {
    NormalizeCanonical(v);
    CanonicalFixed(Normalize(v));
    if Canonical(v) { CanonicalFixed(v); }
  }

  // ----- which variant an anyOf collapses to -----

  // The anyOf list has one entry besides {"type": "null"}, at i, and that is an object.
  predicate Sole(fs: seq<Field>, i: nat) {
    match Lookup(fs, "anyOf")
    case Some(List(items)) =>
      && i < |items| && items[i].Obj? && items[i] != Obj([Field("type", Str("null"))])
      && forall j :: 0 <= j < |items| && j != i ==> items[j] == Obj([Field("type", Str("null"))])
    case _ => false
  }

  lemma {:induction false} NonNullNone(items: seq<Json>, n: nat, j: nat)
    requires j < n <= |items| && NonNull(items, n) == []
    ensures items[j] == Obj([Field("type", Str("null"))])
    decreases n
  {
    if j < n - 1 { NonNullNone(items, n - 1, j); }
  }

  lemma {:induction false} NonNullOne(items: seq<Json>, n: nat) returns (i: nat)
    requires n <= |items| && |NonNull(items, n)| == 1
    ensures i < n && NonNull(items, n) == [items[i]] && items[i] != Obj([Field("type", Str("null"))])
    ensures forall j :: 0 <= j < n && j != i ==> items[j] == Obj([Field("type", Str("null"))])
    decreases n
  {
    if IsNullType(items[n - 1]) {
      i := NonNullOne(items, n - 1);
    } else {
      i := n - 1;
      forall j | 0 <= j < n - 1 ensures items[j] == Obj([Field("type", Str("null"))]) { NonNullNone(items, n - 1, j); }
    }
  }

  lemma {:induction false} NonNullSole(items: seq<Json>, n: nat, i: nat)
    requires i < |items| && n <= |items| && items[i] != Obj([Field("type", Str("null"))])
    requires forall j :: 0 <= j < |items| && j != i ==> items[j] == Obj([Field("type", Str("null"))])
    ensures NonNull(items, n) == if i < n then [items[i]] else []
    decreases n
  {
    if n > 0 { NonNullSole(items, n - 1, i); }
  }

  lemma VariantIs(fs: seq<Field>, i: nat)
    requires Sole(fs, i)
    ensures Variant(fs) == Some(Lookup(fs, "anyOf").value.items[i].fields)
  {
    var items := Lookup(fs, "anyOf").value.items;
    NonNullSole(items, |items|, i);
  }

  lemma SoleOf(fs: seq<Field>) returns (i: nat)
    requires Variant(fs).Some?
    ensures Sole(fs, i)
  {
    var items := Lookup(fs, "anyOf").value.items;
    i := NonNullOne(items, |items|);
  }

  // With one such entry each key is looked up beside anyOf first and in the entry then, and anyOf itself
  // in the entry only. Without, nothing changes.
  lemma CollapseIs(fs: seq<Field>, i: nat, key: string)
    requires Distinct(fs)
    ensures Sole(fs, i) ==>
      (Lookup(Collapse(fs), key) ==
       if key != "anyOf" && Lookup(fs, key).Some? then Lookup(fs, key) else Lookup(Lookup(fs, "anyOf").value.items[i].fields, key))
    ensures (forall j: nat :: !Sole(fs, j)) ==> Collapse(fs) == fs
  {
    if Sole(fs, i) {
      VariantIs(fs, i);
      OverlayLookup(Variant(fs).value, fs, |fs|, key);
      LookupFinds(fs, key);
      HasAll(fs, |fs|, key);
    }
    if Variant(fs).Some? { var j := SoleOf(fs); }
  }

  function Keys(fs: seq<Field>): seq<string> { seq(|fs|, i requires 0 <= i < |fs| => fs[i].key) }

  lemma {:induction false} PutKeys(fs: seq<Field>, key: string, value: Json)
    ensures Keys(Put(fs, key, value)) == Keys(fs) + if key in Keys(fs) then [] else [key]
    decreases |fs|
  {
    if fs != [] {
      KeysCons(fs[0], fs[1..]);
      assert fs == [fs[0]] + fs[1..];
      if fs[0].key == key {
        KeysCons(Field(key, value), fs[1..]);
      } else {
        PutKeys(fs[1..], key, value);
        KeysCons(fs[0], Put(fs[1..], key, value));
      }
    }
  }

  lemma KeysCons(f: Field, fs: seq<Field>)
    ensures Keys([f] + fs) == [f.key] + Keys(fs)
  {}

  // The keys beside anyOf that the entry does not have.
  function Added(keys: seq<string>, fs: seq<Field>, n: nat): seq<string>
    requires n <= |fs|
  {
    if n == 0 then []
    else Added(keys, fs, n - 1) + if fs[n - 1].key == "anyOf" || fs[n - 1].key in keys then [] else [fs[n - 1].key]
  }

  lemma {:induction false} AddedBefore(keys: seq<string>, fs: seq<Field>, n: nat, key: string)
    requires n <= |fs| && key in Added(keys, fs, n)
    ensures exists i :: 0 <= i < n && fs[i].key == key
    decreases n
  {
    if key in Added(keys, fs, n - 1) { AddedBefore(keys, fs, n - 1, key); }
  }

  // The entry's keys keep their places, and the new ones come after them in their own order.
  lemma {:induction false} OverlayKeys(merged: seq<Field>, fs: seq<Field>, n: nat)
    requires Distinct(fs) && n <= |fs|
    ensures Keys(Overlay(merged, fs, n)) == Keys(merged) + Added(Keys(merged), fs, n)
    decreases n
  {
    if n > 0 {
      OverlayKeys(merged, fs, n - 1);
      PutKeys(Overlay(merged, fs, n - 1), fs[n - 1].key, fs[n - 1].value);
      if fs[n - 1].key in Added(Keys(merged), fs, n - 1) { AddedBefore(Keys(merged), fs, n - 1, fs[n - 1].key); }
    }
  }

  lemma CollapseKeys(fs: seq<Field>, i: nat)
    requires Distinct(fs) && Sole(fs, i)
    ensures var keys := Keys(Lookup(fs, "anyOf").value.items[i].fields); Keys(Collapse(fs)) == keys + Added(keys, fs, |fs|)
  {
    VariantIs(fs, i);
    OverlayKeys(Variant(fs).value, fs, |fs|);
  }

  // ----- what is kept -----

  // The normalized field of this name: titles and null defaults are dropped.
  function Surviving(fs: seq<Field>, key: string): Option<Json> {
    match Lookup(fs, key)
    case None => None
    case Some(value) => if key == "title" || (key == "default" && value == Null) then None else Some(Normalize(value))
  }

  lemma NullStays(v: Json)
    ensures Normalize(v) == Null <==> v == Null
  {}

  lemma NewKey(fs: seq<Field>, n: nat)
    requires Distinct(fs) && n < |fs|
    ensures !Has(fs[..n], fs[n].key)
  {
    var init := fs[..n];
    forall i | 0 <= i < |init| ensures init[i].key != fs[n].key { assert init[i] == fs[i]; }
  }

  lemma {:induction false} NormFieldsLookup(v: Json, n: nat, key: string)
    requires v.Obj? && n <= |v.fields| && Distinct(v.fields)
    ensures Lookup(NormFields(v, n), key) == Surviving(v.fields[..n], key)
  {
    if n > 0 {
      NormFieldsLookup(v, n - 1, key);
      var f := v.fields[n - 1];
      assert v.fields[..n] == v.fields[..n - 1] + [f];
      LookupSnoc(v.fields[..n - 1], f, key);
      LookupSnoc(NormFields(v, n - 1), Field(f.key, Normalize(f.value)), key);
      LookupFinds(v.fields[..n - 1], key);
      NewKey(v.fields, n - 1);
      NullStays(f.value);
      if Dropped(f.key, Normalize(f.value)) { assert NormFields(v, n) == NormFields(v, n - 1); }
    }
  }

  // After normalizing, the anyOf list of v has one entry besides {"type": "null"}, and that is an object.
  predicate SoleVariant(v: Json, i: nat)
    requires v.Obj?
  {
    match Lookup(v.fields, "anyOf")
    case Some(List(items)) =>
      && i < |items| && Normalize(items[i]).Obj? && Normalize(items[i]) != Obj([Field("type", Str("null"))])
      && forall j :: 0 <= j < |items| && j != i ==> Normalize(items[j]) == Obj([Field("type", Str("null"))])
    case _ => false
  }

  ghost predicate NoVariant(v: Json)
    requires v.Obj?
  {
    forall i: nat :: !SoleVariant(v, i)
  }

  lemma {:induction false} NormItemsAt(v: Json, n: nat, i: nat)
    requires v.List? && n <= |v.items|
    ensures |NormItems(v, n)| == n && (i < n ==> NormItems(v, n)[i] == Normalize(v.items[i]))
    decreases n
  {
    if n > 0 { NormItemsAt(v, n - 1, i); }
  }

  lemma SoleNormalized(v: Json, i: nat)
    requires v.Obj? && Distinct(v.fields)
    ensures Sole(NormFields(v, |v.fields|), i) <==> SoleVariant(v, i)
    ensures Sole(NormFields(v, |v.fields|), i) ==>
      Lookup(NormFields(v, |v.fields|), "anyOf").value.items[i] == Normalize(Lookup(v.fields, "anyOf").value.items[i])
  {
    NormFieldsLookup(v, |v.fields|, "anyOf");
    assert v.fields[..|v.fields|] == v.fields;
    var anyOf := Lookup(v.fields, "anyOf");
    if anyOf.Some? && anyOf.value.List? {
      forall j: nat ensures |NormItems(anyOf.value, |anyOf.value.items|)| == |anyOf.value.items|
        && (j < |anyOf.value.items| ==> NormItems(anyOf.value, |anyOf.value.items|)[j] == Normalize(anyOf.value.items[j]))
      {
        NormItemsAt(anyOf.value, |anyOf.value.items|, j);
      }
    }
  }

  lemma KeptLookup(v: Json, key: string)
    requires v.Obj? && Proper(v)
    ensures var kept := NormFields(v, |v.fields|);
      Distinct(kept) && Lookup(kept, key) == Surviving(v.fields, key) && Lookup(Normalize(v).fields, key) == Lookup(Collapse(kept), key)
  {
    var kept := NormFields(v, |v.fields|);
    assert v.fields[..|v.fields|] == v.fields;
    NormFieldsLookup(v, |v.fields|, key);
    NormFieldsKept(v, |v.fields|);
    CollapseTidy(kept);
    OrderLookup(Collapse(kept), key);
  }

  // Field by field: titles and null defaults go. If anyOf has one variant besides null, it goes too,
  // that variant's fields come in, and fields beside anyOf win over them; else everything is kept, normalized.
  lemma NormalizeLookup(v: Json, i: nat, key: string)
    requires v.Obj? && Proper(v)
    ensures SoleVariant(v, i) ==>
      (Lookup(Normalize(v).fields, key) ==
       if key != "anyOf" && Surviving(v.fields, key).Some? then Surviving(v.fields, key)
       else Lookup(Normalize(Lookup(v.fields, "anyOf").value.items[i]).fields, key))
    ensures NoVariant(v) ==> Lookup(Normalize(v).fields, key) == Surviving(v.fields, key)
  {
    if SoleVariant(v, i) {
      KeptLookup(v, key);
      SoleNormalized(v, i);
      CollapseIs(NormFields(v, |v.fields|), i, key);
    }
    if NoVariant(v) { PlainLookup(v, key); }
  }

  lemma PlainLookup(v: Json, key: string)
    requires v.Obj? && Proper(v) && NoVariant(v)
    ensures Lookup(Normalize(v).fields, key) == Surviving(v.fields, key)
  {
    KeptLookup(v, key);
    forall j: nat ensures !Sole(NormFields(v, |v.fields|), j) { SoleNormalized(v, j); }
    CollapseIs(NormFields(v, |v.fields|), 0, key);
  }

  // A tool parameter that happens to be called title is dropped with the titles.
  lemma TitleParameterDropped(schema: Json)
    ensures Normalize(Obj([Field("properties", Obj([Field("title", schema)]))])) == Obj([Field("properties", Obj([]))])
  {
    var inner := Obj([Field("title", schema)]);
    var outer := Obj([Field("properties", inner)]);
    assert NormFields(inner, 1) == NormFields(inner, 0) == [];
    PickNone(7);
    assert Normalize(inner) == Obj([]);
    assert NormFields(outer, 0) == [];
    var fs := [Field("properties", Obj([]))];
    assert NormFields(outer, 1) == fs;
    assert fs[1..] == [];
    assert Variant(fs).None?;
    RankedOrdered(fs);
  }
}
