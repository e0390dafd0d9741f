// Concurrent writers whose events reach one log in any order that keeps each writer's own.
module Interleaving {

  // Of the first n events, those written by p.
  function PartOf<E>(log: seq<E>, writers: seq<nat>, p: nat, n: nat): seq<E>
    requires n <= |log| == |writers|
  {
    if n == 0 then [] else PartOf(log, writers, p, n - 1) + if writers[n - 1] == p then [log[n - 1]] else []
  }

  // The log is an interleaving of the given logs: each writer's events are its own log, in order.
  ghost predicate Interleaves<E>(log: seq<E>, writers: seq<nat>, logs: seq<seq<E>>) {
    && |writers| == |log|
    && (forall i :: 0 <= i < |log| ==> writers[i] < |logs|)
    && forall p :: 0 <= p < |logs| ==> PartOf(log, writers, p, |log|) == logs[p]
  }

  lemma {:induction false} PartPrefix<E>(log: seq<E>, writers: seq<nat>, e: E, w: nat, p: nat, n: nat)
    requires n <= |log| == |writers|
    ensures PartOf(log + [e], writers + [w], p, n) == PartOf(log, writers, p, n)
    decreases n
  {
    if n > 0 { PartPrefix(log, writers, e, w, p, n - 1); }
  }

  // ----- every interleaving can come about -----

  // The events so far and those still to come make up every writer's log.
  ghost predicate Merging<E>(log: seq<E>, writers: seq<nat>, left: seq<seq<E>>, logs: seq<seq<E>>) {
    && |left| == |logs| && |writers| == |log|
    && (forall i :: 0 <= i < |log| ==> writers[i] < |logs|)
    && forall p :: 0 <= p < |logs| ==> PartOf(log, writers, p, |log|) + left[p] == logs[p]
  }

  lemma MergeOne<E>(log: seq<E>, writers: seq<nat>, left: seq<seq<E>>, logs: seq<seq<E>>, w: nat)
    requires Merging(log, writers, left, logs) && w < |logs| && left[w] != []
    ensures Merging(log + [left[w][0]], writers + [w], left[w := left[w][1..]], logs)
  {
    var e, left' := left[w][0], left[w := left[w][1..]];
    forall p | 0 <= p < |logs| ensures PartOf(log + [e], writers + [w], p, |log| + 1) + left'[p] == logs[p] {
      PartPrefix(log, writers, e, w, p, |log|);
      assert PartOf(log, writers, p, |log|) + left[p] == logs[p];
    }
  }

  function EventsLeft<E>(left: seq<seq<E>>): nat {
    if left == [] then 0 else |left[0]| + EventsLeft(left[1..])
  }

  lemma {:induction false} OneLess<E>(left: seq<seq<E>>, w: nat)
    requires w < |left| && left[w] != []
    ensures EventsLeft(left[w := left[w][1..]]) == EventsLeft(left) - 1
    decreases w
  {
    if w > 0 {
      OneLess(left[1..], w - 1);
      assert left[w := left[w][1..]][1..] == left[1..][w - 1 := left[w][1..]];
    }
  }

  // The event loop: any writer that still has an event goes next.
  method Interleave<E>(logs: seq<seq<E>>) returns (log: seq<E>, writers: seq<nat>)
    ensures Interleaves(log, writers, logs)
  {
    var left := logs;
    log, writers := [], [];
    while exists p :: 0 <= p < |left| && |left[p]| > 0
      invariant Merging(log, writers, left, logs)
      decreases EventsLeft(left)
    {
      var p: nat :| p < |left| && |left[p]| > 0;
      MergeOne(log, writers, left, logs, p);
      OneLess(left, p);
      log, writers, left := log + [left[p][0]], writers + [p], left[p := left[p][1..]];
    }
    forall p | 0 <= p < |logs| ensures PartOf(log, writers, p, |log|) == logs[p] { assert |left[p]| == 0; }
  }

  // ----- sums over a log do not depend on the order -----

  // The total weight of the first n events.
  function Weigh<E>(w: E -> nat, log: seq<E>, n: nat): nat
    requires n <= |log|
  {
    if n == 0 then 0 else Weigh(w, log, n - 1) + w(log[n - 1])
  }

  lemma {:induction false} WeighPrefix<E>(w: E -> nat, a: seq<E>, b: seq<E>, n: nat)
    requires n <= |a|
    ensures Weigh(w, a + b, n) == Weigh(w, a, n)
    decreases n
  {
    if n > 0 { WeighPrefix(w, a, b, n - 1); }
  }

  lemma {:induction false} WeighRest<E>(w: E -> nat, a: seq<E>, b: seq<E>, n: nat)
    requires n <= |b|
    ensures Weigh(w, a + b, |a| + n) == Weigh(w, a, |a|) + Weigh(w, b, n)
    decreases n
  {
    if n == 0 { WeighPrefix(w, a, b, |a|); } else { WeighRest(w, a, b, n - 1); }
  }

  function WeighAll<E>(w: E -> nat, logs: seq<seq<E>>, m: nat): nat
    requires m <= |logs|
  {
    if m == 0 then 0 else WeighAll(w, logs, m - 1) + Weigh(w, logs[m - 1], |logs[m - 1]|)
  }

  // The first m logs, one after the other.
  function Flat<E>(logs: seq<seq<E>>, m: nat): seq<E>
    requires m <= |logs|
  {
    if m == 0 then [] else Flat(logs, m - 1) + logs[m - 1]
  }

  lemma {:induction false} WeighFlat<E>(w: E -> nat, logs: seq<seq<E>>, m: nat)
    requires m <= |logs|
    ensures Weigh(w, Flat(logs, m), |Flat(logs, m)|) == WeighAll(w, logs, m)
    decreases m
  {
    if m > 0 {
      WeighFlat(w, logs, m - 1);
      WeighRest(w, Flat(logs, m - 1), logs[m - 1], |logs[m - 1]|);
    }
  }

  // The weight of what writer p has written in the first n events.
  function WeighPart<E>(w: E -> nat, log: seq<E>, writers: seq<nat>, n: nat, p: nat): nat
    requires n <= |log| == |writers|
  {
    if n == 0 then 0 else WeighPart(w, log, writers, n - 1, p) + if writers[n - 1] == p then w(log[n - 1]) else 0
  }

  // The same for the first m writers together.
  function WeighParts<E>(w: E -> nat, log: seq<E>, writers: seq<nat>, n: nat, m: nat): nat
    requires n <= |log| == |writers|
  {
    if m == 0 then 0 else WeighParts(w, log, writers, n, m - 1) + WeighPart(w, log, writers, n, m - 1)
  }

  lemma WeighSnoc<E>(w: E -> nat, part: seq<E>, e: E)
    ensures Weigh(w, part + [e], |part| + 1) == Weigh(w, part, |part|) + w(e)
  {
    WeighPrefix(w, part, [e], |part|);
  }

  lemma {:induction false} PartWeight<E>(w: E -> nat, log: seq<E>, writers: seq<nat>, n: nat, p: nat)
    requires n <= |log| == |writers|
    ensures WeighPart(w, log, writers, n, p) == Weigh(w, PartOf(log, writers, p, n), |PartOf(log, writers, p, n)|)
    decreases n
  {
    if n > 0 {
      PartWeight(w, log, writers, n - 1, p);
      var part := PartOf(log, writers, p, n - 1);
      if writers[n - 1] == p { WeighSnoc(w, part, log[n - 1]); } else { assert part + [] == part; }
    }
  }

  lemma {:induction false} PartsStep<E>(w: E -> nat, log: seq<E>, writers: seq<nat>, n: nat, m: nat)
    requires n < |log| == |writers|
    ensures WeighParts(w, log, writers, n + 1, m) == WeighParts(w, log, writers, n, m) + if writers[n] < m then w(log[n]) else 0
    decreases m
  {
    if m > 0 { PartsStep(w, log, writers, n, m - 1); }
  }

  lemma {:induction false} PartsNone<E>(w: E -> nat, log: seq<E>, writers: seq<nat>, m: nat)
    requires |log| == |writers|
    ensures WeighParts(w, log, writers, 0, m) == 0
    decreases m
  {
    if m > 0 { PartsNone(w, log, writers, m - 1); }
  }

  lemma {:induction false} WeighByWriter<E>(w: E -> nat, log: seq<E>, writers: seq<nat>, n: nat, m: nat)
    requires n <= |log| == |writers| && forall i :: 0 <= i < n ==> writers[i] < m
    ensures Weigh(w, log, n) == WeighParts(w, log, writers, n, m)
    decreases n
  {
    if n == 0 {
      PartsNone(w, log, writers, m);
    } else {
      WeighByWriter(w, log, writers, n - 1, m);
      PartsStep(w, log, writers, n - 1, m);
    }
  }

  lemma {:induction false} PartsAreLogs<E>(w: E -> nat, log: seq<E>, writers: seq<nat>, logs: seq<seq<E>>, m: nat)
    requires Interleaves(log, writers, logs) && m <= |logs|
    ensures WeighParts(w, log, writers, |log|, m) == WeighAll(w, logs, m)
    decreases m
  {
    if m > 0 {
      PartsAreLogs(w, log, writers, logs, m - 1);
      PartIsLog(w, log, writers, logs, m - 1);
    }
  }

  lemma PartIsLog<E>(w: E -> nat, log: seq<E>, writers: seq<nat>, logs: seq<seq<E>>, p: nat)
    requires Interleaves(log, writers, logs) && p < |logs|
    ensures WeighPart(w, log, writers, |log|, p) == Weigh(w, logs[p], |logs[p]|)
  {
    PartWeight(w, log, writers, |log|, p);
  }

  // An interleaving weighs what the logs weigh one after the other.
  lemma SameWeight<E>(w: E -> nat, log: seq<E>, writers: seq<nat>, logs: seq<seq<E>>)
    requires Interleaves(log, writers, logs)
    ensures Weigh(w, log, |log|) == Weigh(w, Flat(logs, |logs|), |Flat(logs, |logs|)|)
  {
    WeighByWriter(w, log, writers, |log|, |logs|);
    PartsAreLogs(w, log, writers, logs, |logs|);
    WeighFlat(w, logs, |logs|);
  }

  // ----- leaving some of the logs out -----

  // The logs at the kept places, one after the other.
  function FlatKept<E>(logs: seq<seq<E>>, kept: seq<bool>, m: nat): seq<E>
    requires m <= |logs| == |kept|
  {
    if m == 0 then [] else FlatKept(logs, kept, m - 1) + if kept[m - 1] then logs[m - 1] else []
  }

  function WeighDropped<E>(w: E -> nat, logs: seq<seq<E>>, kept: seq<bool>, m: nat): nat
    requires m <= |logs| == |kept|
  {
    if m == 0 then 0 else WeighDropped(w, logs, kept, m - 1) + if kept[m - 1] then 0 else Weigh(w, logs[m - 1], |logs[m - 1]|)
  }

  // Log i is kept or weighs nothing.
  predicate Light<E>(w: E -> nat, logs: seq<seq<E>>, kept: seq<bool>, i: nat)
    requires i < |logs| == |kept|
  {
    kept[i] || Weigh(w, logs[i], |logs[i]|) == 0
  }

  lemma {:induction false} KeptAndDropped<E>(w: E -> nat, logs: seq<seq<E>>, kept: seq<bool>, m: nat)
    requires m <= |logs| == |kept|
    ensures WeighAll(w, logs, m) ==
      Weigh(w, FlatKept(logs, kept, m), |FlatKept(logs, kept, m)|) + WeighDropped(w, logs, kept, m)
    decreases m
  {
    if m > 0 {
      KeptAndDropped(w, logs, kept, m - 1);
      var some, more := FlatKept(logs, kept, m - 1), logs[m - 1];
      if kept[m - 1] { WeighRest(w, some, more, |more|); } else { assert some + [] == some; }
    }
  }

  lemma {:induction false} DroppedNothingIff<E>(w: E -> nat, logs: seq<seq<E>>, kept: seq<bool>, m: nat)
    requires m <= |logs| == |kept|
    ensures WeighDropped(w, logs, kept, m) == 0 <==> forall i :: 0 <= i < m ==> Light(w, logs, kept, i)
    decreases m
  {
    if m > 0 {
      DroppedNothingIff(w, logs, kept, m - 1);
      assert Light(w, logs, kept, m - 1) <==> kept[m - 1] || Weigh(w, logs[m - 1], |logs[m - 1]|) == 0;
    }
  }

  // Leaving logs out changes no weight exactly when none of them weighs anything.
  lemma NothingDroppedIff<E>(w: E -> nat, logs: seq<seq<E>>, kept: seq<bool>)
    requires |logs| == |kept|
    ensures var all, some := Flat(logs, |logs|), FlatKept(logs, kept, |logs|);
      && Weigh(w, some, |some|) <= Weigh(w, all, |all|)
      && (Weigh(w, some, |some|) == Weigh(w, all, |all|) <==>
            forall i :: 0 <= i < |logs| ==> Light(w, logs, kept, i))
  {
    WeighFlat(w, logs, |logs|);
    KeptAndDropped(w, logs, kept, |logs|);
    DroppedNothingIff(w, logs, kept, |logs|);
  }

  // ----- where an event comes from -----

  // The events of writer p before event i: the place of event i in its writer's log.
  lemma {:induction false} PlaceOf<E>(log: seq<E>, writers: seq<nat>, i: nat, n: nat) returns (k: nat)
    requires i < n <= |log| == |writers|
    ensures k == |PartOf(log, writers, writers[i], i)| < |PartOf(log, writers, writers[i], n)|
    ensures PartOf(log, writers, writers[i], n)[k] == log[i]
    decreases n
  {
    if i == n - 1 { k := |PartOf(log, writers, writers[i], i)|; } else { k := PlaceOf(log, writers, i, n - 1); }
  }

  lemma {:induction false} PartGrows<E>(log: seq<E>, writers: seq<nat>, p: nat, i: nat, j: nat)
    requires i <= j <= |log| == |writers|
    ensures |PartOf(log, writers, p, i)| <= |PartOf(log, writers, p, j)|
    decreases j
  {
    if i < j { PartGrows(log, writers, p, i, j - 1); }
  }

  // Each event is in its writer's log.
  lemma EventPlace<E>(log: seq<E>, writers: seq<nat>, logs: seq<seq<E>>, i: nat) returns (k: nat)
    requires Interleaves(log, writers, logs) && i < |log|
    ensures writers[i] < |logs| && k < |logs[writers[i]]| && logs[writers[i]][k] == log[i]
    ensures k == |PartOf(log, writers, writers[i], i)|
  {
    assert PartOf(log, writers, writers[i], |log|) == logs[writers[i]];
    k := PlaceOf(log, writers, i, |log|);
  }

  // Two events of one writer keep that writer's order.
  lemma SameWriterOrder<E>(log: seq<E>, writers: seq<nat>, logs: seq<seq<E>>, i: nat, j: nat) returns (a: nat, b: nat)
    requires Interleaves(log, writers, logs) && i < j < |log| && writers[i] == writers[j]
    ensures writers[i] < |logs| && a < b < |logs[writers[i]]|
    ensures logs[writers[i]][a] == log[i] && logs[writers[i]][b] == log[j]
  {
    a := EventPlace(log, writers, logs, i);
    b := EventPlace(log, writers, logs, j);
    PartGrows(log, writers, writers[i], i + 1, j);
  }

  // Every event of every writer is in the log.
  lemma {:induction false} EventAppears<E>(log: seq<E>, writers: seq<nat>, p: nat, n: nat, k: nat) returns (i: nat)
    requires n <= |log| == |writers| && k < |PartOf(log, writers, p, n)|
    ensures i < n && writers[i] == p && log[i] == PartOf(log, writers, p, n)[k]
    decreases n
  {
    if k < |PartOf(log, writers, p, n - 1)| { i := EventAppears(log, writers, p, n - 1, k); } else { i := n - 1; }
  }
}
