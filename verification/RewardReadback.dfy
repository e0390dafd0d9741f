// Reading a batch's scores back from the transfer queue: the key parser undoes the writer's key
// printing, and the reader finds exactly one score per written session.
module RewardReadback {
  import opened Common
  import B = Batch
  import I = Interleaving

  // ----- decimal numbers -----

  function Digit(d: nat): char
    requires d < 10
  {
    ('0' as int + d) as char
  }

  // Printing an index.
  function Digits(n: nat): string {
    if n < 10 then [Digit(n)] else Digits(n / 10) + [Digit(n % 10)]
  }

  predicate IsDigit(c: char) { '0' <= c <= '9' }

  predicate AllDigits(s: string) { forall i :: 0 <= i < |s| ==> IsDigit(s[i]) }

  function Value(s: string): nat
    requires AllDigits(s)
  {
    if s == "" then 0 else Value(s[..|s| - 1]) * 10 + (s[|s| - 1] as int - '0' as int)
  }

  predicate IsSpace(c: char) { c == ' ' || '\t' <= c <= '\r' }

  function Strip(s: string): string {
    if s == "" then s
    else if IsSpace(s[0]) then Strip(s[1..])
    else if IsSpace(s[|s| - 1]) then Strip(s[..|s| - 1])
    else s
  }

  // int(s) on ASCII text without underscores; None is ValueError.
  function ParseInt(s: string): Option<int> { ParseSigned(Strip(s)) }

  function ParseSigned(t: string): Option<int> {
    var signed := t != "" && (t[0] == '-' || t[0] == '+');
    var digits := if signed then t[1..] else t;
    if digits == "" || !AllDigits(digits) then None
    else
      var magnitude: int := Value(digits);
      Some(if signed && t[0] == '-' then -magnitude else magnitude)
  }

  lemma {:induction false} DigitsValue(n: nat)
    ensures Digits(n) != "" && AllDigits(Digits(n)) && Value(Digits(n)) == n
  {
    if n < 10 {
      assert Digits(n)[..0] == "";
    } else {
      DigitsValue(n / 10);
      assert Digits(n)[..|Digits(n)| - 1] == Digits(n / 10);
    }
  }

  function TenTo(n: nat): nat { if n == 0 then 1 else 10 * TenTo(n - 1) }

  lemma ValueSnoc(s: string, d: char)
    requires AllDigits(s) && IsDigit(d)
    ensures AllDigits(s + [d]) && Value(s + [d]) == 10 * Value(s) + (d as int - '0' as int)
  {
    assert (s + [d])[..|s|] == s;
  }

  // Digits count by powers of ten.
  lemma {:induction false} ValueFirst(c: char, s: string)
    requires IsDigit(c) && AllDigits(s)
    ensures AllDigits([c] + s) && Value([c] + s) == (c as int - '0' as int) * TenTo(|s|) + Value(s)
    decreases |s|
  {
    if s == "" {
      ValueSnoc("", c);
      assert "" + [c] == [c] + s;
    } else {
      var init, d := s[..|s| - 1], s[|s| - 1];
      ValueFirst(c, init);
      ValueSnoc([c] + init, d);
      ValueSnoc(init, d);
      assert [c] + init + [d] == [c] + s && init + [d] == s;
      MulTen(c as int - '0' as int, TenTo(|init|), Value(init));
    }
  }

  lemma MulTen(c: int, p: int, v: int)
    ensures 10 * (c * p + v) == c * (10 * p) + 10 * v
  {}

  predicate AllSpace(s: string) { forall i :: 0 <= i < |s| ==> s[i] in " \t\n\r" || s[i] as int == 11 || s[i] as int == 12 }

  lemma ParseCore(sign: string, digits: string)
    requires sign in {"", "+", "-"} && digits != "" && AllDigits(digits)
    ensures ParseSigned(sign + digits) == Some(if sign == "-" then -(Value(digits) as int) else Value(digits))
  {
    var t := sign + digits;
    assert IsDigit(digits[0]);
    if sign == "" { assert t == digits; } else { assert t[0] == sign[0] && t[1..] == digits; }
  }

  // A number may be signed and padded.
  lemma {:induction false} ParsePadded(before: string, sign: string, digits: string, after: string)
    requires AllSpace(before) && AllSpace(after) && sign in {"", "+", "-"} && digits != "" && AllDigits(digits)
    ensures ParseInt(before + (sign + digits + after)) == Some(if sign == "-" then -(Value(digits) as int) else Value(digits))
  {
    assert IsDigit(digits[|digits| - 1]) && IsDigit(digits[0]);
    StripFront(before, sign + digits + after);
    StripBack(sign + digits, after);
    ParseCore(sign, digits);
  }

  lemma {:induction false} StripFront(before: string, s: string)
    requires AllSpace(before)
    ensures Strip(before + s) == Strip(s)
    decreases |before|
  {
    if before == "" {
      assert before + s == s;
    } else {
      StripFront(before[1..], s);
      StripFirst(before[0], before[1..] + s);
      assert before + s == [before[0]] + (before[1..] + s);
    }
  }

  lemma {:induction false} StripBack(core: string, after: string)
    requires AllSpace(after) && core != "" && !IsSpace(core[0]) && !IsSpace(core[|core| - 1])
    ensures Strip(core + after) == core
    decreases |after|
  {
    if after == "" {
      assert core + after == core;
    } else {
      var init, c := after[..|after| - 1], after[|after| - 1];
      StripBack(core, init);
      StripLast(core + init, c);
      assert core + after == (core + init) + [c];
    }
  }

  lemma StripFirst(c: char, s: string)
    requires IsSpace(c)
    ensures Strip([c] + s) == Strip(s)
  {
    assert ([c] + s)[1..] == s;
  }

  lemma StripLast(s: string, c: char)
    requires s != "" && !IsSpace(s[0]) && IsSpace(c)
    ensures Strip(s + [c]) == Strip(s)
  {
    assert (s + [c])[..|s|] == s;
  }

  lemma ParseDigits(n: nat)
    ensures ParseInt(Digits(n)) == Some(n)
  {
    DigitsValue(n);
    assert IsDigit(Digits(n)[0]) && IsDigit(Digits(n)[|Digits(n)| - 1]);
  }

  // ----- keys -----

  // The writer's f"{uid}_{session_index}_{index}".
  function Key(uid: string, session: nat, index: nat): string {
    uid + "_" + Digits(session) + "_" + Digits(index)
  }

  function LastUnderscore(s: string): (r: Option<nat>)
    ensures r.Some? ==> r.value < |s| && s[r.value] == '_'
  {
    if s == "" then None
    else if s[|s| - 1] == '_' then Some(|s| - 1)
    else LastUnderscore(s[..|s| - 1])
  }

  datatype Parts = Parts(uid: string, session: string, index: string)

  // key.rsplit("_", 2) when it yields three parts.
  function RSplit(key: string): Option<Parts> {
    match LastUnderscore(key)
    case None => None
    case Some(j) =>
      match LastUnderscore(key[..j])
      case None => None
      case Some(i) => Some(Parts(key[..i], key[i + 1..j], key[j + 1..]))
  }

  function Underscores(s: string): nat {
    if s == "" then 0 else Underscores(s[..|s| - 1]) + if s[|s| - 1] == '_' then 1 else 0
  }

  lemma {:induction false} LastUnderscoreAt(a: string, b: string)
    requires AllDigits(b)
    ensures LastUnderscore(a + "_" + b) == Some(|a|)
  {
    var s := a + "_" + b;
    if b != "" {
      assert IsDigit(b[|b| - 1]);
      assert s[..|s| - 1] == a + "_" + b[..|b| - 1];
      LastUnderscoreAt(a, b[..|b| - 1]);
    }
  }

  // For any uid, however many underscores it has, parsing gives back what was printed.
  lemma KeyRoundTrip(uid: string, session: nat, index: nat)
    ensures RSplit(Key(uid, session, index)) == Some(Parts(uid, Digits(session), Digits(index)))
    ensures ParseInt(Digits(index)) == Some(index)
  {
    DigitsValue(session);
    DigitsValue(index);
    ParseDigits(index);
    SplitOfJoined(uid, Digits(session), Digits(index));
  }

  lemma SplitOfJoined(uid: string, session: string, index: string)
    requires AllDigits(session) && AllDigits(index)
    ensures RSplit(uid + "_" + session + "_" + index) == Some(Parts(uid, session, index))
  {
    var head := uid + "_" + session;
    var key := head + "_" + index;
    LastUnderscoreAt(head, index);
    LastUnderscoreAt(uid, session);
    assert key[..|head|] == head && key[|head| + 1..] == index;
    assert key[..|uid|] == uid && key[|uid| + 1..|head|] == session;
  }

  // A key that parses is what its parts print.
  lemma SplitJoins(key: string)
    requires RSplit(key).Some?
    ensures var p := RSplit(key).value; key == p.uid + "_" + p.session + "_" + p.index
  {
    var j := LastUnderscore(key).value;
    var i := LastUnderscore(key[..j]).value;
    assert key == key[..j] + "_" + key[j + 1..];
    assert key[..j] == key[..i] + "_" + key[i + 1..j];
  }

  lemma DigitsInjective(a: nat, b: nat)
    requires Digits(a) == Digits(b)
    ensures a == b
  {
    DigitsValue(a);
    DigitsValue(b);
  }

  lemma KeyInjective(uid: string, session: nat, index: nat, uid': string, session': nat, index': nat)
    requires Key(uid, session, index) == Key(uid', session', index')
    ensures uid == uid' && session == session' && index == index'
  {
    KeyRoundTrip(uid, session, index);
    KeyRoundTrip(uid', session', index');
    DigitsInjective(session, session');
    DigitsInjective(index, index');
  }

  lemma {:induction false} NoUnderscore(s: string)
    ensures LastUnderscore(s) == None <==> Underscores(s) == 0
    ensures LastUnderscore(s).Some? ==> Underscores(s[..LastUnderscore(s).value]) == Underscores(s) - 1
  {
    if s != "" && s[|s| - 1] != '_' {
      NoUnderscore(s[..|s| - 1]);
      var r := LastUnderscore(s);
      if r.Some? { assert s[..|s| - 1][..r.value] == s[..r.value]; }
    }
  }

  // A uid's status marker is told from a record exactly when the uid has at most one underscore.
  lemma MarkerRecognizedIff(uid: string)
    ensures RSplit(uid) == None <==> Underscores(uid) < 2
  {
    NoUnderscore(uid);
    if LastUnderscore(uid).Some? { NoUnderscore(uid[..LastUnderscore(uid).value]); }
  }

  // ----- the partition -----

  // A stored key's status tag and, for a record, its rm_scores.
  datatype Entry = Entry(status: string, rmScores: seq<real>)

  type Partition = map<string, Entry>

  function PutRecords(store: Partition, uid: string, session: nat, trajs: seq<B.Traj>, n: nat): Partition
    requires n <= |trajs|
  {
    if n == 0 then store
    else PutRecords(store, uid, session, trajs, n - 1)[Key(uid, session, n - 1) := Entry("success", B.RmScores(trajs[n - 1]))]
  }

  function Apply(store: Partition, e: B.Event): Partition {
    match e
    case Put(uid, session, trajs) => PutRecords(store, uid, session, trajs, |trajs|)
    case Mark(uid, finished) => store[uid := Entry(if finished then "finished" else "failure", [])]
  }

  // The partition after the first n events of a log.
  function Store(log: seq<B.Event>, n: nat): Partition
    requires n <= |log|
  {
    if n == 0 then map[] else Apply(Store(log, n - 1), log[n - 1])
  }

  // ----- the reader -----

  datatype Session = Session(uid: string, session: string)

  function SumReals(xs: seq<real>): real {
    if xs == [] then 0.0 else SumReals(xs[..|xs| - 1]) + xs[|xs| - 1]
  }

  lemma {:induction false} SumRealsAdds(a: seq<real>, b: seq<real>, x: real)
    ensures SumReals(a + b) == SumReals(a) + SumReals(b) && SumReals([x]) == x && SumReals([]) == 0.0
    decreases |b|
  {
    assert [x][..0] == [];
    if b == [] {
      assert a + b == a;
    } else {
      assert (a + b)[..|a + b| - 1] == a + b[..|b| - 1];
      SumRealsAdds(a, b[..|b| - 1], x);
    }
  }

  // What a listed key contributes: a record's session, index and summed scores.
  datatype Reading = Reading(session: Session, index: int, score: real)

  // A key counts if it is a successful record of a wanted uid.
  function Read(uids: set<string>, store: Partition, key: string): Option<Reading>
    requires key in store
  {
    match RSplit(key)
    case None => None
    case Some(p) =>
      if p.uid !in uids || store[key].status != "success" then None
      else
        match ParseInt(p.index)
        case None => None
        case Some(i) => Some(Reading(Session(p.uid, p.session), i, SumReals(store[key].rmScores)))
  }

  type View = map<string, Reading>

  // The keys that count, read.
  function ViewOf(uids: set<string>, store: Partition): View {
    map key | key in store && Read(uids, store, key).Some? :: Read(uids, store, key).value
  }

  predicate Entered(view: View, key: string, final: map<Session, (int, string)>) {
    key in view ==> view[key].session in final && view[key].index <= final[view[key].session].0
  }

  predicate Chosen(view: View, seen: seq<string>, s: Session, choice: (int, string)) {
    choice.1 in seen && choice.1 in view && view[choice.1].session == s && view[choice.1].index == choice.0
  }

  // final maps each session to its last record among the keys seen so far.
  ghost predicate LastRecords(view: View, seen: seq<string>, final: map<Session, (int, string)>) {
    && (forall s | s in final :: Chosen(view, seen, s, final[s]))
    && (forall key | key in seen :: Entered(view, key, final))
  }

  predicate Less(a: string, b: string) {
    b != "" && (a == "" || a[0] < b[0] || (a[0] == b[0] && Less(a[1..], b[1..])))
  }

  predicate Before(a: Session, b: Session) {
    Less(a.uid, b.uid) || (a.uid == b.uid && Less(a.session, b.session))
  }

  lemma {:induction false} LessTotal(a: string, b: string)
    ensures Less(a, b) || a == b || Less(b, a)
  {
    if a != "" && b != "" && a[0] == b[0] {
      LessTotal(a[1..], b[1..]);
      assert a == [a[0]] + a[1..] && b == [b[0]] + b[1..];
    }
  }

  lemma {:induction false} LessTransitive(a: string, b: string, c: string)
    requires Less(a, b) && Less(b, c)
    ensures Less(a, c)
  {
    if a != "" && a[0] == b[0] == c[0] { LessTransitive(a[1..], b[1..], c[1..]); }
  }

  lemma {:induction false} LessIrreflexive(a: string)
    ensures !Less(a, a)
  {
    if a != "" { LessIrreflexive(a[1..]); }
  }

  lemma BeforeOrder(a: Session, b: Session, c: Session)
    ensures Before(a, b) || a == b || Before(b, a)
    ensures Before(a, b) && Before(b, c) ==> Before(a, c)
    ensures !Before(a, a)
  {
    LessTotal(a.uid, b.uid);
    LessTotal(a.session, b.session);
    LessIrreflexive(a.uid);
    LessIrreflexive(a.session);
    if Less(a.uid, b.uid) && Less(b.uid, c.uid) { LessTransitive(a.uid, b.uid, c.uid); }
    if Less(a.session, b.session) && Less(b.session, c.session) { LessTransitive(a.session, b.session, c.session); }
  }

  predicate Sorted(s: seq<Session>) { forall i, j :: 0 <= i < j < |s| ==> Before(s[i], s[j]) }

  method Least(sessions: set<Session>) returns (m: Session)
    requires sessions != {}
    ensures m in sessions && forall s | s in sessions && s != m :: Before(m, s)
  {
    m :| m in sessions;
    var rest := sessions - {m};
    while rest != {}
      invariant rest <= sessions && m in sessions && m !in rest
      invariant forall s | s in sessions && s !in rest && s != m :: Before(m, s)
      decreases |rest|
    {
      var s :| s in rest;
      BeforeOrder(m, s, m);
      if Before(s, m) {
        forall t | t in sessions && t !in rest && t != m ensures Before(s, t) { BeforeOrder(s, m, t); }
        rest := rest - {s};
        m := s;
      } else {
        rest := rest - {s};
      }
    }
  }

  // sorted(final.items()), by session: the sessions of a dict are distinct.
  method SortSessions(sessions: set<Session>) returns (r: seq<Session>)
    ensures Sorted(r) && |r| == |sessions|
    ensures forall s :: s in r <==> s in sessions
  {
    r := [];
    var rest := sessions;
    while rest != {}
      invariant rest <= sessions && Sorted(r) && |r| + |rest| == |sessions|
      invariant forall s :: s in r <==> s in sessions && s !in rest
      invariant forall i, s :: 0 <= i < |r| && s in rest ==> Before(r[i], s)
      decreases |rest|
    {
      var m := Least(rest);
      rest := rest - {m};
      r := r + [m];
    }
  }

  lemma HasMember(b: seq<Session>)
    requires b != []
    ensures exists s :: s in b
  {
    assert b[0] in b;
  }

  // Two sorted lists of the same sessions are the same list, so the result does not depend on
  // the order in which the store lists its keys.
  lemma {:induction false} SortedUnique(a: seq<Session>, b: seq<Session>)
    requires Sorted(a) && Sorted(b) && forall s :: s in a <==> s in b
    ensures a == b
  {
    if a == [] {
      if b != [] { HasMember(b); }
    } else {
      assert a[0] in b && b[0] in a;
      var i :| 0 <= i < |b| && b[i] == a[0];
      var j :| 0 <= j < |a| && a[j] == b[0];
      if i > 0 && j > 0 { BeforeOrder(a[0], b[0], a[0]); }
      forall s ensures s in a[1..] <==> s in b[1..] {
        BeforeOrder(a[0], a[0], a[0]);
        assert s in a <==> s == a[0] || s in a[1..];
        assert s in b <==> s == b[0] || s in b[1..];
      }
      SortedUnique(a[1..], b[1..]);
      assert a == [a[0]] + a[1..] && b == [b[0]] + b[1..];
    }
  }

  // a comes before b in the dictionary: it is a proper prefix, or smaller at the first difference.
  predicate Precedes(a: string, b: string) {
    a < b || exists k :: 0 <= k < |a| && k < |b| && a[..k] == b[..k] && a[k] < b[k]
  }

  lemma {:induction false} LessIs(a: string, b: string)
    ensures Less(a, b) <==> Precedes(a, b)
    decreases |a|
  {
    if a != "" && b != "" && a[0] == b[0] {
      LessIs(a[1..], b[1..]);
      PrecedesCons(a, b);
    } else if a != "" && b != "" && a[0] < b[0] {
      assert a[..0] == b[..0];
    }
  }

  lemma PrecedesCons(a: string, b: string)
    requires a != "" && b != "" && a[0] == b[0]
    ensures Precedes(a[1..], b[1..]) <==> Precedes(a, b)
  {
    if k :| 0 <= k < |a[1..]| && k < |b[1..]| && a[1..][..k] == b[1..][..k] && a[1..][k] < b[1..][k] {
      assert a[..k + 1] == [a[0]] + a[1..][..k] && b[..k + 1] == [b[0]] + b[1..][..k];
      assert a[k + 1] < b[k + 1];
    }
    if k :| 0 <= k < |a| && k < |b| && a[..k] == b[..k] && a[k] < b[k] {
      assert a[1..][..k - 1] == a[..k][1..] && b[1..][..k - 1] == b[..k][1..];
      assert a[1..][k - 1] < b[1..][k - 1];
    }
    assert a == [a[0]] + a[1..] && b == [b[0]] + b[1..];
  }

  // Sessions are listed by uid, and within a uid by the text of their session index.
  lemma SortedBy(s: seq<Session>, i: nat, j: nat)
    requires Sorted(s) && i < j < |s|
    ensures Precedes(s[i].uid, s[j].uid) || (s[i].uid == s[j].uid && Precedes(s[i].session, s[j].session))
  {
    LessIs(s[i].uid, s[j].uid);
    LessIs(s[i].session, s[j].session);
  }

  predicate HasUid(uid: string, sessions: seq<Session>, n: nat)
    requires n <= |sessions|
  {
    n > 0 && (sessions[n - 1].uid == uid || HasUid(uid, sessions, n - 1))
  }

  // The scores of one uid's sessions among the first n, in order.
  function ScoresOf(uid: string, sessions: seq<Session>, scores: seq<real>, n: nat): seq<real>
    requires n <= |sessions| == |scores|
  {
    if n == 0 then []
    else ScoresOf(uid, sessions, scores, n - 1) + if sessions[n - 1].uid == uid then [scores[n - 1]] else []
  }

  function CountUid(uid: string, sessions: seq<Session>, n: nat): nat
    requires n <= |sessions|
  {
    if n == 0 then 0 else CountUid(uid, sessions, n - 1) + if sessions[n - 1].uid == uid then 1 else 0
  }

  lemma {:induction false} ScoresOfCount(uid: string, sessions: seq<Session>, scores: seq<real>, n: nat)
    requires n <= |sessions| == |scores|
    ensures |ScoresOf(uid, sessions, scores, n)| == CountUid(uid, sessions, n)
    ensures HasUid(uid, sessions, n) <==> exists i :: 0 <= i < n && sessions[i].uid == uid
    decreases n
  {
    if n > 0 { ScoresOfCount(uid, sessions, scores, n - 1); }
  }

  lemma {:induction false} ScoresOfAt(uid: string, sessions: seq<Session>, scores: seq<real>, n: nat, i: nat)
    requires i < n <= |sessions| == |scores| && sessions[i].uid == uid
    ensures CountUid(uid, sessions, i) < |ScoresOf(uid, sessions, scores, n)|
    ensures ScoresOf(uid, sessions, scores, n)[CountUid(uid, sessions, i)] == scores[i]
    decreases n
  {
    ScoresOfCount(uid, sessions, scores, n - 1);
    if i < n - 1 { ScoresOfAt(uid, sessions, scores, n - 1, i); }
  }

  // Each uid with a session gets its sessions' scores, one each and in their order.
  lemma PerUidScores(r: ReadBack, uids: set<string>, store: Partition, uid: string)
    requires ReadFrom(r, uids, store)
    ensures uid in r.perUid <==> exists i :: 0 <= i < |r.sessions| && r.sessions[i].uid == uid
    ensures uid in r.perUid ==> |r.perUid[uid]| == CountUid(uid, r.sessions, |r.sessions|)
    ensures forall i | 0 <= i < |r.sessions| && r.sessions[i].uid == uid ::
      uid in r.perUid && EntryIs(r.perUid[uid], CountUid(uid, r.sessions, i), r.scores[i])
  {
    ScoresOfCount(uid, r.sessions, r.scores, |r.sessions|);
    forall i | 0 <= i < |r.sessions| && r.sessions[i].uid == uid
      ensures uid in r.perUid && EntryIs(r.perUid[uid], CountUid(uid, r.sessions, i), r.scores[i])
    {
      ScoresOfAt(uid, r.sessions, r.scores, |r.sessions|, i);
    }
  }

  predicate EntryIs(scores: seq<real>, i: nat, score: real) { i < |scores| && scores[i] == score }

  datatype ReadBack = ReadBack(sessions: seq<Session>, scores: seq<real>, perUid: map<string, seq<real>>, status: map<string, string>)

  // Sessions in order, each with the summed scores of its last record; statuses from the markers.
  ghost predicate ReadFrom(r: ReadBack, uids: set<string>, store: Partition) {
    && Picked(r.sessions, r.scores, ViewOf(uids, store))
    && (forall key :: key in r.status <==> key in store && key in uids && RSplit(key) == None)
    && (forall key | key in r.status :: key in store && r.status[key] == store[key].status)
    && (forall uid :: uid in r.perUid <==> HasUid(uid, r.sessions, |r.sessions|))
    && (|r.scores| == |r.sessions|)
    && (forall uid | uid in r.perUid :: r.perUid[uid] == ScoresOf(uid, r.sessions, r.scores, |r.sessions|))
  }

  // Every session that has a record is listed once, in order, with the score of its last record.
  ghost predicate Picked(sessions: seq<Session>, scores: seq<real>, view: View) {
    && Sorted(sessions) && |scores| == |sessions|
    && (forall i :: 0 <= i < |sessions| ==> ScoredByLast(sessions[i], scores[i], view))
    && (forall key | key in view :: view[key].session in sessions)
  }

  ghost predicate ScoredByLast(s: Session, score: real, view: View) {
    exists key | key in view :: view[key].session == s && score == view[key].score && Latest(view, s, view[key].index)
  }

  // No record of the session has a larger index.
  ghost predicate Latest(view: View, s: Session, index: int) {
    forall other | other in view && view[other].session == s :: view[other].index <= index
  }

  // A session's entry moves to a later record.
  function Keep(final: map<Session, (int, string)>, view: View, key: string): map<Session, (int, string)> {
    if key in view && (view[key].session !in final || final[view[key].session].0 < view[key].index)
    then final[view[key].session := (view[key].index, key)] else final
  }

  lemma KeepsLast(view: View, seen: seq<string>, key: string, final: map<Session, (int, string)>)
    requires LastRecords(view, seen, final)
    ensures LastRecords(view, seen + [key], Keep(final, view, key))
  {
    var final' := Keep(final, view, key);
    forall s | s in final' ensures Chosen(view, seen + [key], s, final'[s]) {
      if s in final { assert Chosen(view, seen, s, final[s]); }
    }
    forall k | k in seen + [key] ensures Entered(view, k, final') {
      if k in seen { assert Entered(view, k, final); }
    }
  }

  // The loop over the listing.
  method Collect(uids: set<string>, listing: seq<string>, store: Partition)
    returns (final: map<Session, (int, string)>, status: map<string, string>)
    requires forall key | key in listing :: key in store
    ensures LastRecords(ViewOf(uids, store), listing, final)
    ensures forall key :: key in status <==> key in listing && key in uids && RSplit(key) == None
    ensures forall key | key in status :: key in store && status[key] == store[key].status
  {
    final, status := map[], map[];
    for i := 0 to |listing|
      invariant LastRecords(ViewOf(uids, store), listing[..i], final)
      invariant forall key :: key in status <==> key in listing[..i] && key in uids && RSplit(key) == None
      invariant forall key | key in status :: key in store && status[key] == store[key].status
    {
      var key := listing[i];
      assert listing[..i + 1] == listing[..i] + [key];
      KeepsLast(ViewOf(uids, store), listing[..i], key, final);
      match RSplit(key)
      case None =>
        if key in uids { status := status[key := store[key].status]; }
      case Some(p) =>
        if p.uid in uids && store[key].status == "success" {
          var index := ParseInt(p.index);
          if index.Some? {
            var s := Session(p.uid, p.session);
            if s !in final || final[s].0 < index.value { final := final[s := (index.value, key)]; }
          }
        }
    }
    assert listing[..|listing|] == listing;
  }

  // One batched read of the chosen records, summed over the tokens.
  method Fetch(store: Partition, final: map<Session, (int, string)>, sessions: seq<Session>) returns (scores: seq<real>)
    requires forall s | s in sessions :: s in final && final[s].1 in store
    ensures |scores| == |sessions|
    ensures forall i :: 0 <= i < |sessions| ==> scores[i] == SumReals(store[final[sessions[i]].1].rmScores)
  {
    scores := [];
    for i := 0 to |sessions|
      invariant |scores| == i
      invariant forall j :: 0 <= j < i ==> scores[j] == SumReals(store[final[sessions[j]].1].rmScores)
    {
      scores := scores + [SumReals(store[final[sessions[i]].1].rmScores)];
    }
  }

  method GroupByUid(sessions: seq<Session>, scores: seq<real>) returns (perUid: map<string, seq<real>>)
    requires |sessions| == |scores|
    ensures forall uid :: uid in perUid <==> HasUid(uid, sessions, |sessions|)
    ensures forall uid | uid in perUid :: perUid[uid] == ScoresOf(uid, sessions, scores, |sessions|)
  {
    perUid := map[];
    for i := 0 to |sessions|
      invariant forall uid :: uid in perUid <==> HasUid(uid, sessions, i)
      invariant forall uid | uid in perUid :: perUid[uid] == ScoresOf(uid, sessions, scores, i)
    {
      var uid := sessions[i].uid;
      if uid !in perUid { NoScoresYet(uid, sessions, scores, i); }
      perUid := perUid[uid := (if uid in perUid then perUid[uid] else []) + [scores[i]]];
    }
  }

  // sorted(final.items()) and the batched read of the chosen records.
  method Score(uids: set<string>, listing: seq<string>, store: Partition, final: map<Session, (int, string)>)
    returns (sessions: seq<Session>, scores: seq<real>)
    requires LastRecords(ViewOf(uids, store), listing, final) && forall key :: key in listing <==> key in store
    ensures Picked(sessions, scores, ViewOf(uids, store))
  {
    sessions := SortSessions(final.Keys);
    FinalKeys(uids, store, listing, final);
    scores := Fetch(store, final, sessions);
    LastRecordsPicked(ViewOf(uids, store), listing, final, sessions, scores);
  }

  // _read_rm_scores, for any listing order of the partition.
  method ReadScores(uids: set<string>, listing: seq<string>, store: Partition) returns (r: ReadBack)
    requires forall key :: key in listing <==> key in store
    ensures ReadFrom(r, uids, store)
  {
    var final, status := Collect(uids, listing, store);
    var sessions, scores := Score(uids, listing, store, final);
    var perUid := GroupByUid(sessions, scores);
    r := ReadBack(sessions, scores, perUid, status);
  }

  lemma FinalKeys(uids: set<string>, store: Partition, listing: seq<string>, final: map<Session, (int, string)>)
    requires LastRecords(ViewOf(uids, store), listing, final)
    ensures forall s | s in final :: final[s].1 in store && final[s].1 in ViewOf(uids, store)
    ensures forall s | s in final :: ViewOf(uids, store)[final[s].1].score == SumReals(store[final[s].1].rmScores)
  {
    forall s | s in final ensures final[s].1 in ViewOf(uids, store) { assert Chosen(ViewOf(uids, store), listing, s, final[s]); }
  }

  lemma LastRecordsPicked(view: View, listing: seq<string>, final: map<Session, (int, string)>, sessions: seq<Session>, scores: seq<real>)
    requires LastRecords(view, listing, final) && (forall key | key in view :: key in listing)
    requires Sorted(sessions) && (forall s :: s in sessions <==> s in final) && |scores| == |sessions|
    requires forall i :: 0 <= i < |sessions| ==> final[sessions[i]].1 in view && scores[i] == view[final[sessions[i]].1].score
    ensures Picked(sessions, scores, view)
  {
    forall i | 0 <= i < |sessions| ensures ScoredByLast(sessions[i], scores[i], view) {
      var s := sessions[i];
      assert Chosen(view, listing, s, final[s]);
      forall other | other in view && view[other].session == s ensures view[other].index <= final[s].0 {
        assert Entered(view, other, final);
      }
      assert Latest(view, s, view[final[s].1].index);
    }
    forall key | key in view ensures view[key].session in sessions { assert Entered(view, key, final); }
  }

  lemma {:induction false} NoScoresYet(uid: string, sessions: seq<Session>, scores: seq<real>, n: nat)
    requires n <= |sessions| == |scores| && !HasUid(uid, sessions, n)
    ensures ScoresOf(uid, sessions, scores, n) == []
  {
    if n > 0 {
      NoScoresYet(uid, sessions, scores, n - 1);
    }
  }

  // ----- writing and reading back -----

  function SessionOf(e: B.Event): Session
    requires e.Put?
  {
    Session(e.uid, Digits(e.session))
  }

  predicate SameSession(a: B.Event, b: B.Event) {
    a.Put? && b.Put? && a.uid == b.uid && a.session == b.session
  }

  predicate DistinctSessions(log: seq<B.Event>) { forall i, j :: 0 <= i < j < |log| ==> !SameSession(log[i], log[j]) }

  // A status marker with the key of one of a session's records.
  predicate Collides(mark: B.Event, put: B.Event) {
    mark.Mark? && put.Put? && exists k: nat :: k < |put.trajectories| && mark.uid == Key(put.uid, put.session, k)
  }

  // Each session is written once, with records, and no status marker has the key of a record.
  ghost predicate WellKeyed(log: seq<B.Event>) {
    && DistinctSessions(log) && (forall i :: 0 <= i < |log| ==> Proper(log[i]))
    && forall i, j :: 0 <= i < |log| && 0 <= j < |log| ==> !Collides(log[i], log[j])
  }

  predicate Proper(e: B.Event) { e.Put? ==> e.trajectories != [] }

  lemma {:induction false} PutHas(store: Partition, uid: string, session: nat, trajs: seq<B.Traj>, n: nat, i: nat)
    requires i < n <= |trajs|
    ensures var s := PutRecords(store, uid, session, trajs, n); var key := Key(uid, session, i);
      key in s && s[key] == Entry("success", B.RmScores(trajs[i]))
  {
    if i < n - 1 {
      PutHas(store, uid, session, trajs, n - 1, i);
      if Key(uid, session, i) == Key(uid, session, n - 1) { KeyInjective(uid, session, i, uid, session, n - 1); }
    }
  }

  // A key that is none of the printed ones keeps its entry.
  lemma {:induction false} PutKeeps(store: Partition, uid: string, session: nat, trajs: seq<B.Traj>, n: nat, key: string)
    requires n <= |trajs| && forall i: nat :: i < n ==> key != Key(uid, session, i)
    ensures var s := PutRecords(store, uid, session, trajs, n);
      (key in s <==> key in store) && (key in s ==> s[key] == store[key])
  {
    if n > 0 {
      PutKeeps(store, uid, session, trajs, n - 1, key);
      assert key != Key(uid, session, n - 1);
    }
  }

  // Record i of event j.
  predicate IsRecord(log: seq<B.Event>, j: nat, i: nat, key: string) {
    j < |log| && log[j].Put? && i < |log[j].trajectories| && key == Key(log[j].uid, log[j].session, i)
  }

  // A later event of a well-keyed log leaves a record alone.
  lemma RecordSurvives(log: seq<B.Event>, store: Partition, n: nat, j: nat, i: nat, key: string)
    requires WellKeyed(log) && j < n < |log| && IsRecord(log, j, i, key)
    ensures (key in Apply(store, log[n]) <==> key in store) && (key in store ==> Apply(store, log[n])[key] == store[key])
  {
    var e := log[n];
    assert !Collides(e, log[j]) && !SameSession(log[j], e);
    if e.Put? {
      forall k: nat | k < |e.trajectories| ensures key != Key(e.uid, e.session, k) {
        if key == Key(e.uid, e.session, k) { KeyInjective(log[j].uid, log[j].session, i, e.uid, e.session, k); }
      }
      PutKeeps(store, e.uid, e.session, e.trajectories, |e.trajectories|, key);
    }
  }

  // What was written stays until the batch is read.
  lemma {:induction false} StoreHas(log: seq<B.Event>, n: nat, j: nat, i: nat, key: string)
    requires WellKeyed(log) && j < n <= |log| && IsRecord(log, j, i, key)
    ensures key in Store(log, n) && Store(log, n)[key] == Entry("success", B.RmScores(log[j].trajectories[i]))
  {
    if j == n - 1 {
      var e := log[n - 1];
      PutHas(Store(log, n - 1), e.uid, e.session, e.trajectories, |e.trajectories|, i);
    } else {
      StoreHas(log, n - 1, j, i, key);
      RecordSurvives(log, Store(log, n - 1), n - 1, j, i, key);
    }
  }

  // Under uid_session_index the partition holds one score per response token of that trajectory: its
  // reward on the last token and zero on every other.
  lemma StoredScores(log: seq<B.Event>, j: nat, i: nat)
    requires WellKeyed(log) && j < |log| && log[j].Put? && i < |log[j].trajectories|
    ensures var key, t, store := log[j].uid + "_" + Digits(log[j].session) + "_" + Digits(i), log[j].trajectories[i], Store(log, |log|);
      && key in store && store[key].status == "success" && |store[key].rmScores| == t.responseLen
      && forall k :: 0 <= k < t.responseLen ==>
           store[key].rmScores[k] == if k == t.responseLen - 1 && t.score.Some? then t.score.value else 0.0
  {
    StoreHas(log, |log|, j, i, Key(log[j].uid, log[j].session, i));
    B.RmScoresAre(log[j].trajectories[i]);
  }

  // Every successful entry was written as a record.
  lemma {:induction false} StoreFrom(log: seq<B.Event>, n: nat, key: string) returns (j: nat, i: nat)
    requires n <= |log| && key in Store(log, n) && Store(log, n)[key].status == "success"
    ensures j < n && IsRecord(log, j, i, key)
  {
    var e := log[n - 1];
    if e.Mark? {
      j, i := StoreFrom(log, n - 1, key);
    } else if k: nat :| k < |e.trajectories| && key == Key(e.uid, e.session, k) {
      j, i := n - 1, k;
    } else {
      PutKeeps(Store(log, n - 1), e.uid, e.session, e.trajectories, |e.trajectories|, key);
      j, i := StoreFrom(log, n - 1, key);
    }
  }

  lemma {:induction false} SumZeros(n: nat)
    ensures SumReals(seq(n, _ => 0.0)) == 0.0
  {
    if n > 0 {
      assert seq(n, _ => 0.0)[..n - 1] == seq(n - 1, _ => 0.0);
      SumZeros(n - 1);
    }
  }

  lemma RmScoresSum(t: B.Traj)
    ensures SumReals(B.RmScores(t)) == RewardOf(t)
  {
    SumZeros(t.responseLen);
    if t.score.Some? && t.responseLen > 0 {
      SumZeros(t.responseLen - 1);
      assert B.RmScores(t)[..t.responseLen - 1] == seq(t.responseLen - 1, _ => 0.0);
    }
  }

  // The reward on a trajectory, or zero when it has none or the response is empty.
  function RewardOf(t: B.Traj): real {
    if t.score.Some? && t.responseLen > 0 then t.score.value else 0.0
  }

  // The view holds exactly the log's records of the wanted uids, each under its own session and index.
  ghost predicate Mirrors(view: View, log: seq<B.Event>, uids: set<string>) {
    && (forall j: nat, i: nat, key | IsRecord(log, j, i, key) && log[j].uid in uids :: Mirrored(view, log, j, i, key))
    && (forall key | key in view :: exists j: nat, i: nat :: IsRecord(log, j, i, key) && log[j].uid in uids && Mirrored(view, log, j, i, key))
  }

  predicate Mirrored(view: View, log: seq<B.Event>, j: nat, i: nat, key: string)
    requires IsRecord(log, j, i, key)
  {
    key in view && view[key] == Reading(SessionOf(log[j]), i, RewardOf(log[j].trajectories[i]))
  }

  lemma ReadsRecord(log: seq<B.Event>, store: Partition, uids: set<string>, j: nat, i: nat, key: string)
    requires IsRecord(log, j, i, key) && key in store && store[key] == Entry("success", B.RmScores(log[j].trajectories[i]))
    ensures log[j].uid in uids ==> Mirrored(ViewOf(uids, store), log, j, i, key)
    ensures key in ViewOf(uids, store) ==> log[j].uid in uids
  {
    KeyRoundTrip(log[j].uid, log[j].session, i);
    RmScoresSum(log[j].trajectories[i]);
  }

  // Reading the store back gives the log's records.
  lemma StoreMirrors(log: seq<B.Event>, uids: set<string>)
    requires WellKeyed(log)
    ensures Mirrors(ViewOf(uids, Store(log, |log|)), log, uids)
  {
    var store := Store(log, |log|);
    var view := ViewOf(uids, store);
    forall j: nat, i: nat, key | IsRecord(log, j, i, key) && log[j].uid in uids ensures Mirrored(view, log, j, i, key) {
      StoreHas(log, |log|, j, i, key);
      ReadsRecord(log, store, uids, j, i, key);
    }
    forall key | key in view
      ensures exists j: nat, i: nat :: IsRecord(log, j, i, key) && log[j].uid in uids && Mirrored(view, log, j, i, key)
    {
      var j, i := StoreFrom(log, |log|, key);
      StoreHas(log, |log|, j, i, key);
      ReadsRecord(log, store, uids, j, i, key);
    }
  }

  lemma SameSessionEvent(log: seq<B.Event>, j: nat, k: nat)
    requires WellKeyed(log) && j < |log| && k < |log| && log[j].Put? && log[k].Put? && SessionOf(log[j]) == SessionOf(log[k])
    ensures j == k
  {
    DigitsInjective(log[j].session, log[k].session);
    assert SameSession(log[j], log[k]) && SameSession(log[k], log[j]);
  }

  // The latest record of a session is that of its last trajectory.
  lemma LatestIsLast(log: seq<B.Event>, view: View, uids: set<string>, j: nat, i: nat, key: string)
    requires WellKeyed(log) && Mirrors(view, log, uids) && IsRecord(log, j, i, key) && log[j].uid in uids
    requires Latest(view, SessionOf(log[j]), i)
    ensures i == |log[j].trajectories| - 1
  {
    var last := |log[j].trajectories| - 1;
    var lastKey := Key(log[j].uid, log[j].session, last);
    assert IsRecord(log, j, last, lastKey);
    assert Mirrored(view, log, j, last, lastKey);
  }

  // A session's score is the reward on its last trajectory.
  lemma ScoreOfSession(log: seq<B.Event>, view: View, uids: set<string>, s: Session, score: real, j: nat)
    requires WellKeyed(log) && Mirrors(view, log, uids) && j < |log| && WroteSession(log[j], uids, s)
    requires ScoredByLast(s, score, view)
    ensures log[j].trajectories != [] && score == RewardOf(log[j].trajectories[|log[j].trajectories| - 1])
  {
    var key :| key in view && view[key].session == s && score == view[key].score && Latest(view, s, view[key].index);
    var k, i := RecordOf(log, view, uids, key);
    SameSessionEvent(log, j, k);
    LatestIsLast(log, view, uids, j, i, key);
  }

  lemma RecordOf(log: seq<B.Event>, view: View, uids: set<string>, key: string) returns (j: nat, i: nat)
    requires Mirrors(view, log, uids) && key in view
    ensures IsRecord(log, j, i, key) && log[j].uid in uids
    ensures view[key] == Reading(SessionOf(log[j]), i, RewardOf(log[j].trajectories[i]))
  {
    j, i :| IsRecord(log, j, i, key) && log[j].uid in uids && Mirrored(view, log, j, i, key);
  }

  // The sessions written for the wanted uids by the first n events.
  function WrittenSessions(log: seq<B.Event>, uids: set<string>, n: nat): set<Session>
    requires n <= |log|
  {
    if n == 0 then {}
    else WrittenSessions(log, uids, n - 1) + if log[n - 1].Put? && log[n - 1].uid in uids then {SessionOf(log[n - 1])} else {}
  }

  lemma {:induction false} InWrittenSessions(log: seq<B.Event>, uids: set<string>, n: nat, s: Session)
    requires n <= |log|
    ensures s in WrittenSessions(log, uids, n) <==> exists j :: 0 <= j < n && WroteSession(log[j], uids, s)
  {
    if n > 0 { InWrittenSessions(log, uids, n - 1, s); }
  }

  predicate WroteSession(e: B.Event, uids: set<string>, s: Session) {
    e.Put? && e.uid in uids && SessionOf(e) == s
  }

  // Exactly one score per written session, and it is the reward on that session's last trajectory.
  lemma {:induction false} ScorePerSession(log: seq<B.Event>, uids: set<string>, r: ReadBack)
    requires WellKeyed(log) && ReadFrom(r, uids, Store(log, |log|))
    ensures forall s :: s in r.sessions <==> s in WrittenSessions(log, uids, |log|)
    ensures |r.scores| == |r.sessions| == |WrittenSessions(log, uids, |log|)|
    ensures forall k, j :: 0 <= k < |r.sessions| && 0 <= j < |log| && WroteSession(log[j], uids, r.sessions[k]) ==>
      log[j].trajectories != [] && r.scores[k] == RewardOf(log[j].trajectories[|log[j].trajectories| - 1])
  {
    StoreMirrors(log, uids);
    SessionsRead(log, ViewOf(uids, Store(log, |log|)), uids, r.sessions, r.scores);
  }

  lemma SessionsRead(log: seq<B.Event>, view: View, uids: set<string>, sessions: seq<Session>, scores: seq<real>)
    requires WellKeyed(log) && Mirrors(view, log, uids) && Picked(sessions, scores, view)
    ensures forall s :: s in sessions <==> s in WrittenSessions(log, uids, |log|)
    ensures |sessions| == |WrittenSessions(log, uids, |log|)|
    ensures forall k, j :: 0 <= k < |sessions| && 0 <= j < |log| && WroteSession(log[j], uids, sessions[k]) ==>
      log[j].trajectories != [] && scores[k] == RewardOf(log[j].trajectories[|log[j].trajectories| - 1])
  {
    forall s ensures s in sessions <==> s in WrittenSessions(log, uids, |log|) {
      InWrittenSessions(log, uids, |log|, s);
      if s in sessions { ListedIsWritten(log, view, uids, sessions, scores, s); }
      if j :| 0 <= j < |log| && WroteSession(log[j], uids, s) { WrittenIsListed(log, view, uids, sessions, scores, j); }
    }
    SortedSize(sessions, WrittenSessions(log, uids, |log|));
    forall k, j | 0 <= k < |sessions| && 0 <= j < |log| && WroteSession(log[j], uids, sessions[k])
      ensures log[j].trajectories != [] && scores[k] == RewardOf(log[j].trajectories[|log[j].trajectories| - 1])
    {
      ScoreOfSession(log, view, uids, sessions[k], scores[k], j);
    }
  }

  lemma ListedIsWritten(log: seq<B.Event>, view: View, uids: set<string>, sessions: seq<Session>, scores: seq<real>, s: Session)
    requires Mirrors(view, log, uids) && Picked(sessions, scores, view) && s in sessions
    ensures exists j :: 0 <= j < |log| && WroteSession(log[j], uids, s)
  {
    var k :| 0 <= k < |sessions| && sessions[k] == s;
    assert ScoredByLast(s, scores[k], view);
    var key :| key in view && view[key].session == s;
    var j, i := RecordOf(log, view, uids, key);
    assert WroteSession(log[j], uids, s);
  }

  lemma WrittenIsListed(log: seq<B.Event>, view: View, uids: set<string>, sessions: seq<Session>, scores: seq<real>, j: nat)
    requires WellKeyed(log) && Mirrors(view, log, uids) && Picked(sessions, scores, view)
    requires j < |log| && log[j].Put? && log[j].uid in uids
    ensures SessionOf(log[j]) in sessions
  {
    assert Proper(log[j]);
    var key := Key(log[j].uid, log[j].session, 0);
    assert IsRecord(log, j, 0, key) && Mirrored(view, log, j, 0, key);
  }

  lemma {:induction false} SortedSize(a: seq<Session>, sessions: set<Session>)
    requires Sorted(a) && forall s :: s in a <==> s in sessions
    ensures |a| == |sessions|
  {
    if a == [] {
      assert sessions == {};
    } else {
      var last, init := a[|a| - 1], a[..|a| - 1];
      assert a == init + [last];
      BeforeOrder(last, last, last);
      SortedSize(init, sessions - {last});
    }
  }

  // ----- a whole batch -----

  function Uids(prompts: seq<B.Prompt>): seq<string> {
    seq(|prompts|, i requires 0 <= i < |prompts| => prompts[i].uid)
  }

  predicate DistinctUids(uids: seq<string>) { forall i, j :: 0 <= i < j < |uids| ==> uids[i] != uids[j] }

  // A number as Digits prints it.
  predicate Printed(s: string) { s != "" && AllDigits(s) && Digits(Value(s)) == s }

  // u reads like a record key of one of v's sessions.
  predicate Shadows(u: string, v: string, sessions: nat) {
    match RSplit(u)
    case None => false
    case Some(p) => p.uid == v && Printed(p.session) && Printed(p.index) && Value(p.session) < sessions
  }

  lemma ShadowIsKey(u: string, v: string, sessions: nat) returns (s: nat, k: nat)
    requires Shadows(u, v, sessions)
    ensures s < sessions && u == Key(v, s, k)
  {
    SplitJoins(u);
    s, k := Value(RSplit(u).value.session), Value(RSplit(u).value.index);
  }

  lemma KeyShadows(v: string, s: nat, k: nat, sessions: nat)
    requires s < sessions
    ensures Shadows(Key(v, s, k), v, sessions)
  {
    KeyRoundTrip(v, s, k);
    DigitsValue(s);
    DigitsValue(k);
  }

  // What a caller can check before a batch: the uids differ, and none reads like a record of another.
  predicate KeysApart(uids: seq<string>, sessions: nat) {
    DistinctUids(uids) && forall i, j :: 0 <= i < |uids| && 0 <= j < |uids| ==> !Shadows(uids[i], uids[j], sessions)
  }

  // Uids with at most one underscore read like no record.
  lemma PlainUidsApart(uids: seq<string>, sessions: nat)
    requires DistinctUids(uids) && forall i :: 0 <= i < |uids| ==> Underscores(uids[i]) < 2
    ensures KeysApart(uids, sessions)
  {
    forall i | 0 <= i < |uids| ensures RSplit(uids[i]) == None { MarkerRecognizedIff(uids[i]); }
  }

  lemma {:induction false} PutsInOrder(uid: string, runs: seq<B.SessionRun>, n: nat)
    requires n <= |runs|
    ensures DistinctSessions(B.Puts(uid, runs, n))
    decreases n
  {
    if n > 0 {
      PutsInOrder(uid, runs, n - 1);
      B.OnlyPuts(uid, runs, n - 1);
      var init, puts := B.Puts(uid, runs, n - 1), B.Puts(uid, runs, n);
      forall i, j | 0 <= i < j < |puts| ensures !SameSession(puts[i], puts[j]) {
        assert puts[i] == init[i] && B.SessionRecord(init[i], uid, n - 1);
        if j < |init| { assert puts[j] == init[j]; }
      }
    }
  }

  // What a prompt writes: records of its own sessions, and a marker of its own uid.
  predicate Writes(p: B.Prompt, e: B.Event) {
    e.uid == p.uid && (e.Put? ==> e.session < |p.runs| && e.trajectories != [])
  }

  lemma PromptWrites(p: B.Prompt)
    ensures DistinctSessions(B.PromptLog(p)) && forall i :: 0 <= i < |B.PromptLog(p)| ==> Writes(p, B.PromptLog(p)[i])
  {
    var k, log := B.Interrupt(p.runs, |p.runs|), B.PromptLog(p);
    var puts := B.Puts(p.uid, p.runs, k);
    PutsInOrder(p.uid, p.runs, k);
    B.OnlyPuts(p.uid, p.runs, k);
    forall i | 0 <= i < |log| ensures Writes(p, log[i]) {
      if i < |puts| { assert log[i] == puts[i] && B.SessionRecord(puts[i], p.uid, k); }
    }
    forall i, j | 0 <= i < j < |log| ensures !SameSession(log[i], log[j]) {
      if j < |puts| { assert log[i] == puts[i] && log[j] == puts[j]; }
    }
  }

  // Each event of a batch's log was written by the prompt it names.
  lemma WrittenBy(log: seq<B.Event>, writers: seq<nat>, prompts: seq<B.Prompt>, i: nat)
    requires B.Concurrent(log, writers, prompts) && i < |log|
    ensures writers[i] < |prompts| && Writes(prompts[writers[i]], log[i]) && log[i] in B.PromptLog(prompts[writers[i]])
  {
    var k := I.EventPlace(log, writers, B.PromptLogs(prompts), i);
    PromptWrites(prompts[writers[i]]);
  }

  // Two writes of one session cannot both be in the log.
  lemma SessionsDiffer(log: seq<B.Event>, writers: seq<nat>, prompts: seq<B.Prompt>, i: nat, j: nat)
    requires B.Concurrent(log, writers, prompts) && DistinctUids(Uids(prompts)) && i < j < |log|
    ensures !SameSession(log[i], log[j])
  {
    WrittenBy(log, writers, prompts, i);
    WrittenBy(log, writers, prompts, j);
    if writers[i] == writers[j] {
      var a, b := I.SameWriterOrder(log, writers, B.PromptLogs(prompts), i, j);
      PromptWrites(prompts[writers[i]]);
    } else {
      assert Uids(prompts)[writers[i]] != Uids(prompts)[writers[j]];
    }
  }

  lemma NoCollision(log: seq<B.Event>, writers: seq<nat>, prompts: seq<B.Prompt>, sessions: nat, i: nat, j: nat)
    requires B.Concurrent(log, writers, prompts) && KeysApart(Uids(prompts), sessions) && i < |log| && j < |log|
    requires forall p :: 0 <= p < |prompts| ==> |prompts[p].runs| <= sessions
    ensures !Collides(log[i], log[j])
  {
    WrittenBy(log, writers, prompts, i);
    WrittenBy(log, writers, prompts, j);
    var u, v := Uids(prompts)[writers[i]], Uids(prompts)[writers[j]];
    if Collides(log[i], log[j]) {
      var k: nat :| k < |log[j].trajectories| && log[i].uid == Key(log[j].uid, log[j].session, k);
      KeyShadows(v, log[j].session, k, sessions);
    }
  }

  // Uids kept apart keep all keys of a batch apart, however its writes interleave.
  lemma BatchWellKeyed(log: seq<B.Event>, writers: seq<nat>, prompts: seq<B.Prompt>, sessions: nat)
    requires B.Concurrent(log, writers, prompts) && KeysApart(Uids(prompts), sessions)
    requires forall p :: 0 <= p < |prompts| ==> |prompts[p].runs| <= sessions
    ensures WellKeyed(log)
  {
    forall i | 0 <= i < |log| ensures Proper(log[i]) { WrittenBy(log, writers, prompts, i); }
    forall i, j | 0 <= i < j < |log| ensures !SameSession(log[i], log[j]) { SessionsDiffer(log, writers, prompts, i, j); }
    forall i, j | 0 <= i < |log| && 0 <= j < |log| ensures !Collides(log[i], log[j]) { NoCollision(log, writers, prompts, sessions, i, j); }
  }

  // ----- exactly which uids keep every record -----

  // Every record that was written is in the partition as it was written.
  ghost predicate RecordsKept(log: seq<B.Event>) {
    forall j: nat, i: nat, key | IsRecord(log, j, i, key) :: RecordKept(log, j, i, key)
  }

  predicate RecordKept(log: seq<B.Event>, j: nat, i: nat, key: string)
    requires IsRecord(log, j, i, key)
  {
    var store := Store(log, |log|);
    key in store && store[key] == Entry("success", B.RmScores(log[j].trajectories[i]))
  }

  // A run of a batch over these uids, with its writes in some order.
  ghost predicate RunOf(uids: seq<string>, sessions: nat, prompts: seq<B.Prompt>, log: seq<B.Event>, writers: seq<nat>) {
    && Uids(prompts) == uids && (forall p :: 0 <= p < |prompts| ==> |prompts[p].runs| == sessions)
    && B.Concurrent(log, writers, prompts)
  }

  // In every run of a batch every record is kept, exactly when the uids keep the keys apart.
  lemma KeysApartIff(uids: seq<string>, sessions: nat)
    requires sessions > 0
    ensures KeysApart(uids, sessions) <==>
      forall prompts, log, writers | RunOf(uids, sessions, prompts, log, writers) :: RecordsKept(log)
  {
    if KeysApart(uids, sessions) {
      forall prompts, log, writers | RunOf(uids, sessions, prompts, log, writers) ensures RecordsKept(log) {
        BatchWellKeyed(log, writers, prompts, sessions);
        forall j: nat, i: nat, key | IsRecord(log, j, i, key) ensures RecordKept(log, j, i, key) { StoreHas(log, |log|, j, i, key); }
      }
    } else {
      var prompts, log, writers := LosingRun(uids, sessions);
    }
  }

  lemma LosingRun(uids: seq<string>, sessions: nat) returns (prompts: seq<B.Prompt>, log: seq<B.Event>, writers: seq<nat>)
    requires sessions > 0 && !KeysApart(uids, sessions)
    ensures RunOf(uids, sessions, prompts, log, writers) && !RecordsKept(log)
  {
    if !DistinctUids(uids) {
      var i, j :| 0 <= i < j < |uids| && uids[i] == uids[j];
      prompts, log, writers := TwinRun(uids, sessions, i, j);
    } else {
      var i, j :| 0 <= i < |uids| && 0 <= j < |uids| && Shadows(uids[i], uids[j], sessions);
      var s, k := ShadowIsKey(uids[i], uids[j], sessions);
      assert |uids[i]| > |uids[j]|;
      prompts, log, writers := ShadowRun(uids, sessions, i, j, s, k);
    }
  }

  // A prompt that fails before it starts a session, one that only marks its uid, and one that only
  // writes one session.
  function Quiet(uid: string, sessions: nat): B.Prompt {
    B.Prompt(uid, Some(""), seq(sessions, _ => B.SessionRun(B.Raised(""), None)), None)
  }

  function Marker(uid: string, sessions: nat): B.Prompt { Quiet(uid, sessions).(setupError := None) }

  function Writer(uid: string, sessions: nat, s: nat, trajs: seq<B.Traj>): B.Prompt {
    B.Prompt(uid, None, seq(sessions, i => if i == s then B.SessionRun(B.Done(trajs), None) else B.SessionRun(B.Raised(""), None)), Some(""))
  }

  lemma {:induction false} NoInterrupt(runs: seq<B.SessionRun>, n: nat)
    requires n <= |runs| && B.Uninterrupted(runs, n)
    ensures B.Interrupt(runs, n) == n
    decreases n
  {
    if n > 0 { NoInterrupt(runs, n - 1); }
  }

  lemma {:induction false} OnePut(uid: string, runs: seq<B.SessionRun>, n: nat, s: nat)
    requires n <= |runs| && forall i :: 0 <= i < |runs| && i != s ==> !B.Written(runs[i])
    ensures B.Puts(uid, runs, n) == if s < n then B.SessionPut(uid, s, runs[s]) else []
    decreases n
  {
    if n > 0 {
      OnePut(uid, runs, n - 1, s);
      PutMore(uid, runs, n - 1, s);
    }
  }

  lemma PutMore(uid: string, runs: seq<B.SessionRun>, n: nat, s: nat)
    requires n < |runs| && (n != s ==> !B.Written(runs[n]))
    ensures B.Puts(uid, runs, n + 1) == if n == s then B.Puts(uid, runs, n) + B.SessionPut(uid, s, runs[s]) else B.Puts(uid, runs, n)
  {
    if n != s { assert B.Puts(uid, runs, n) + [] == B.Puts(uid, runs, n); }
  }

  lemma MarkerLog(uid: string, sessions: nat)
    ensures B.PromptLog(Marker(uid, sessions)) == [B.Mark(uid, false)]
  {
    var runs := Marker(uid, sessions).runs;
    NoInterrupt(runs, sessions);
    OnePut(uid, runs, sessions, sessions);
  }

  lemma WriterLog(uid: string, sessions: nat, s: nat, trajs: seq<B.Traj>)
    requires s < sessions && trajs != []
    ensures B.PromptLog(Writer(uid, sessions, s, trajs)) == [B.Put(uid, s, trajs)]
  {
    var runs := Writer(uid, sessions, s, trajs).runs;
    NoInterrupt(runs, sessions);
    OnePut(uid, runs, sessions, s);
  }

  // Two prompts with one write each, in either order, while the others write nothing.
  lemma TwoWrites(prompts: seq<B.Prompt>, a: nat, b: nat, e: B.Event, f: B.Event)
    requires a < |prompts| && b < |prompts| && a != b
    requires B.PromptLog(prompts[a]) == [e] && B.PromptLog(prompts[b]) == [f]
    requires forall p :: 0 <= p < |prompts| && p != a && p != b ==> B.PromptLog(prompts[p]) == []
    ensures B.Concurrent([e, f], [a, b], prompts)
  {
    var log, writers: seq<nat> := [e, f], [a, b];
    forall p: nat | p < |prompts| ensures I.PartOf(log, writers, p, 2) == B.PromptLogs(prompts)[p] {
      assert I.PartOf(log, writers, p, 0) == [];
      assert I.PartOf(log, writers, p, 1) == if p == a then [e] else [];
    }
  }

  function OneToken(score: real): B.Traj { B.Traj(None, None, Some(score), 1, 1, 1) }

  // Two prompts with one uid overwrite each other's records.
  lemma TwinRun(uids: seq<string>, sessions: nat, i: nat, j: nat)
    returns (prompts: seq<B.Prompt>, log: seq<B.Event>, writers: seq<nat>)
    requires sessions > 0 && i < j < |uids| && uids[i] == uids[j]
    ensures RunOf(uids, sessions, prompts, log, writers) && !RecordsKept(log)
  {
    var t, t' := OneToken(0.0), OneToken(1.0);
    prompts := seq(|uids|, m requires 0 <= m < |uids| =>
      if m == i then Writer(uids[i], sessions, 0, [t]) else if m == j then Writer(uids[j], sessions, 0, [t']) else Quiet(uids[m], sessions));
    WriterLog(uids[i], sessions, 0, [t]);
    WriterLog(uids[j], sessions, 0, [t']);
    log, writers := [B.Put(uids[i], 0, [t]), B.Put(uids[j], 0, [t'])], [i, j];
    TwoWrites(prompts, i, j, log[0], log[1]);
    var key := Key(uids[i], 0, 0);
    PutHas(Store(log, 1), uids[j], 0, [t'], 1, 0);
    assert B.RmScores(t) == [0.0] && B.RmScores(t') == [1.0];
    assert IsRecord(log, 0, 0, key) && !RecordKept(log, 0, 0, key);
  }

  lemma MarkAfterPut(uids: seq<string>, sessions: nat, i: nat, j: nat, s: nat, trajs: seq<B.Traj>) returns (prompts: seq<B.Prompt>)
    requires i < |uids| && j < |uids| && i != j && s < sessions && trajs != []
    ensures RunOf(uids, sessions, prompts, [B.Put(uids[j], s, trajs), B.Mark(uids[i], false)], [j, i])
  {
    prompts := seq(|uids|, m requires 0 <= m < |uids| =>
      if m == i then Marker(uids[i], sessions) else if m == j then Writer(uids[j], sessions, s, trajs) else Quiet(uids[m], sessions));
    MarkerLog(uids[i], sessions);
    WriterLog(uids[j], sessions, s, trajs);
    TwoWrites(prompts, j, i, B.Put(uids[j], s, trajs), B.Mark(uids[i], false));
  }

  // A marker that reads like a record overwrites it when it comes later.
  lemma ShadowRun(uids: seq<string>, sessions: nat, i: nat, j: nat, s: nat, k: nat)
    returns (prompts: seq<B.Prompt>, log: seq<B.Event>, writers: seq<nat>)
    requires i < |uids| && j < |uids| && i != j && s < sessions && uids[i] == Key(uids[j], s, k)
    ensures RunOf(uids, sessions, prompts, log, writers) && !RecordsKept(log)
  {
    var trajs := seq(k + 1, _ => OneToken(0.0));
    prompts := MarkAfterPut(uids, sessions, i, j, s, trajs);
    log, writers := [B.Put(uids[j], s, trajs), B.Mark(uids[i], false)], [j, i];
    MarkedOver(log, k, uids[i]);
  }

  lemma MarkedOver(log: seq<B.Event>, k: nat, key: string)
    requires |log| == 2 && IsRecord(log, 0, k, key) && log[1] == B.Mark(key, false)
    ensures !RecordsKept(log)
  {
    assert Store(log, 2) == Store(log, 1)[key := Entry("failure", [])];
    assert !RecordKept(log, 0, k, key);
  }

  // ----- the scores against the batch's counters -----

  predicate AllWanted(log: seq<B.Event>, uids: set<string>) { forall i :: 0 <= i < |log| && log[i].Put? ==> log[i].uid in uids }

  lemma {:induction false} SessionsCounted(log: seq<B.Event>, uids: set<string>, n: nat)
    requires WellKeyed(log) && n <= |log| && AllWanted(log, uids)
    ensures |WrittenSessions(log, uids, n)| == B.TallyTo(log, n).puts
    decreases n
  {
    if n > 0 {
      SessionsCounted(log, uids, n - 1);
      OneMoreCounted(log, uids, n - 1);
    }
  }

  lemma OneMoreCounted(log: seq<B.Event>, uids: set<string>, n: nat)
    requires WellKeyed(log) && n < |log| && AllWanted(log, uids)
    requires |WrittenSessions(log, uids, n)| == B.TallyTo(log, n).puts
    ensures |WrittenSessions(log, uids, n + 1)| == B.TallyTo(log, n + 1).puts
  {
    if log[n].Put? {
      NewSession(log, uids, n);
      assert WrittenSessions(log, uids, n + 1) == WrittenSessions(log, uids, n) + {SessionOf(log[n])};
    } else {
      assert WrittenSessions(log, uids, n + 1) == WrittenSessions(log, uids, n) + {};
    }
  }

  lemma NewSession(log: seq<B.Event>, uids: set<string>, n: nat)
    requires WellKeyed(log) && n < |log| && log[n].Put?
    ensures SessionOf(log[n]) !in WrittenSessions(log, uids, n)
  {
    InWrittenSessions(log, uids, n, SessionOf(log[n]));
    if j :| 0 <= j < n && WroteSession(log[j], uids, SessionOf(log[n])) { SameSessionEvent(log, j, n); }
  }

  // The reader finds at least as many scores as the batch counted successful sessions, whatever
  // the order of the writes, and exactly as many if and only if no prompt raised after one of its
  // sessions was written.
  lemma ScoresMatchStats(log: seq<B.Event>, writers: seq<nat>, prompts: seq<B.Prompt>, sessions: nat, s: B.Stats, uids: set<string>, r: ReadBack)
    requires B.Concurrent(log, writers, prompts) && KeysApart(Uids(prompts), sessions) && B.Accounts(s, prompts, |prompts|)
    requires forall i :: 0 <= i < |prompts| ==> prompts[i].uid in uids && |prompts[i].runs| <= sessions
    requires ReadFrom(r, uids, Store(log, |log|))
    ensures |r.scores| >= s.success
    ensures |r.scores| == s.success <==> B.NoneRaisedLate(prompts)
  {
    BatchWellKeyed(log, writers, prompts, sessions);
    ScorePerSession(log, uids, r);
    forall i | 0 <= i < |log| && log[i].Put? ensures log[i].uid in uids { WrittenBy(log, writers, prompts, i); }
    SessionsCounted(log, uids, |log|);
    B.InterleavedTally(log, writers, prompts);
    B.NothingLost(prompts);
  }

  // The reward a session's last kept trajectory ends with.
  lemma RewardAtEnd(trajs: seq<B.Traj>, longest: bool, worker: Result<Option<real>, string>, done: seq<B.Traj>)
    requires B.SessionEnd(trajs, longest, worker) == B.Done(done) && done != []
    ensures trajs != [] && B.Kept(trajs, longest) != []
    ensures var last := B.Kept(trajs, longest)[|B.Kept(trajs, longest)| - 1];
      RewardOf(done[|done| - 1]) ==
      if last.responseLen == 0 then 0.0
      else if last.posted.Some? then last.posted.value
      else if worker.Ok? && worker.value.Some? then worker.value.value
      else if last.score.Some? then last.score.value else 0.0
  {
    B.EndScores(trajs, longest, worker);
  }

  lemma {:induction false} ScoreOf(log: seq<B.Event>, uids: set<string>, r: ReadBack, k: nat, j: nat)
    requires WellKeyed(log) && ReadFrom(r, uids, Store(log, |log|))
    requires k < |r.sessions| && j < |log| && WroteSession(log[j], uids, r.sessions[k])
    ensures k < |r.scores| && log[j].trajectories != []
    ensures r.scores[k] == RewardOf(log[j].trajectories[|log[j].trajectories| - 1])
  {
    ScorePerSession(log, uids, r);
  }

  // The score read back for a session that finalized these trajectories: the reward posted on the
  // last kept one, else the reward worker's score, else the score it came with, else zero; and
  // zero if its response is empty.
  lemma {:induction false} PostedRewardRead(log: seq<B.Event>, uids: set<string>, r: ReadBack, k: nat, j: nat,
                                            trajs: seq<B.Traj>, longest: bool, worker: Result<Option<real>, string>)
    requires WellKeyed(log) && ReadFrom(r, uids, Store(log, |log|))
    requires k < |r.sessions| && j < |log| && WroteSession(log[j], uids, r.sessions[k])
    requires B.SessionEnd(trajs, longest, worker) == B.Done(log[j].trajectories)
    ensures k < |r.scores| && trajs != [] && B.Kept(trajs, longest) != []
    ensures var last := B.Kept(trajs, longest)[|B.Kept(trajs, longest)| - 1];
      r.scores[k] ==
      if last.responseLen == 0 then 0.0
      else if last.posted.Some? then last.posted.value
      else if worker.Ok? && worker.value.Some? then worker.value.value
      else if last.score.Some? then last.score.value else 0.0
  {
    ScoreOf(log, uids, r, k, j);
    RewardAtEnd(trajs, longest, worker, log[j].trajectories);
  }

  // ----- status markers -----

  // The last marker written for a uid by the first n events.
  function LastMark(log: seq<B.Event>, n: nat, uid: string): Option<bool>
    requires n <= |log|
  {
    if n == 0 then None
    else if log[n - 1].Mark? && log[n - 1].uid == uid then Some(log[n - 1].finished)
    else LastMark(log, n - 1, uid)
  }

  // A uid with at most one underscore is stored under its own name exactly when it was marked.
  lemma {:induction false} MarkStored(log: seq<B.Event>, n: nat, uid: string)
    requires n <= |log| && RSplit(uid) == None
    ensures uid in Store(log, n) <==> LastMark(log, n, uid).Some?
    ensures uid in Store(log, n) ==>
      Store(log, n)[uid].status == if LastMark(log, n, uid) == Some(true) then "finished" else "failure"
  {
    if n > 0 {
      MarkStored(log, n - 1, uid);
      var e := log[n - 1];
      if e.Put? {
        forall k: nat | k < |e.trajectories| ensures uid != Key(e.uid, e.session, k) { KeyRoundTrip(e.uid, e.session, k); }
        PutKeeps(Store(log, n - 1), e.uid, e.session, e.trajectories, |e.trajectories|, uid);
      }
    }
  }

  lemma {:induction false} LastMarkNone(log: seq<B.Event>, n: nat, uid: string)
    requires n <= |log| && forall i :: 0 <= i < n && log[i].Mark? ==> log[i].uid != uid
    ensures LastMark(log, n, uid) == None
  {
    if n > 0 { LastMarkNone(log, n - 1, uid); }
  }

  // When every marker of a uid says the same, so does the last.
  lemma {:induction false} LastMarkSays(log: seq<B.Event>, n: nat, uid: string, i: nat, finished: bool)
    requires i < n <= |log| && log[i] == B.Mark(uid, finished)
    requires forall j :: 0 <= j < n && log[j].Mark? && log[j].uid == uid ==> log[j].finished == finished
    ensures LastMark(log, n, uid) == Some(finished)
    decreases n
  {
    if i < n - 1 { LastMarkSays(log, n - 1, uid, i, finished); }
  }

  // Only a prompt that returned marks its uid, with whether anything was written.
  lemma MarkersOf(log: seq<B.Event>, writers: seq<nat>, prompts: seq<B.Prompt>, i: nat, j: nat)
    requires B.Concurrent(log, writers, prompts) && DistinctUids(Uids(prompts))
    requires i < |prompts| && j < |log| && log[j].Mark? && log[j].uid == prompts[i].uid
    ensures B.Returns(prompts[i]) && log[j].finished == B.AnyWritten(prompts[i].runs, |prompts[i].runs|)
  {
    WrittenBy(log, writers, prompts, j);
    assert Uids(prompts)[writers[j]] == Uids(prompts)[i];
    var k := I.EventPlace(log, writers, B.PromptLogs(prompts), j);
    B.MarkerIsLast(prompts[i], k);
  }

  // The last marker of a prompt's uid, however the writes interleave.
  lemma BatchMark(log: seq<B.Event>, writers: seq<nat>, prompts: seq<B.Prompt>, i: nat)
    requires B.Concurrent(log, writers, prompts) && DistinctUids(Uids(prompts)) && i < |prompts|
    ensures LastMark(log, |log|, prompts[i].uid) ==
      if B.Returns(prompts[i]) then Some(B.AnyWritten(prompts[i].runs, |prompts[i].runs|)) else None
  {
    var p := prompts[i];
    forall j | 0 <= j < |log| && log[j].Mark? && log[j].uid == p.uid
      ensures B.Returns(p) && log[j].finished == B.AnyWritten(p.runs, |p.runs|)
    {
      MarkersOf(log, writers, prompts, i, j);
    }
    if B.Returns(p) {
      B.ReturnedPromptLog(p);
      assert I.PartOf(log, writers, i, |log|) == B.PromptLogs(prompts)[i] == B.PromptLog(p);
      var j := I.EventAppears(log, writers, i, |log|, |B.PromptLog(p)| - 1);
      LastMarkSays(log, |log|, p.uid, j, B.AnyWritten(p.runs, |p.runs|));
    } else {
      LastMarkNone(log, |log|, p.uid);
    }
  }

  // The status read back for a prompt, whatever the order of the writes: there is one exactly if the
  // prompt returned and its uid has at most one underscore, and it says whether a record was written.
  lemma StatusMatchesBatch(log: seq<B.Event>, writers: seq<nat>, prompts: seq<B.Prompt>, uids: set<string>, r: ReadBack, i: nat)
    requires B.Concurrent(log, writers, prompts) && DistinctUids(Uids(prompts)) && ReadFrom(r, uids, Store(log, |log|))
    requires i < |prompts| && prompts[i].uid in uids
    ensures var p := prompts[i];
      && (p.uid in r.status <==> B.Returns(p) && Underscores(p.uid) < 2)
      && (p.uid in r.status ==> r.status[p.uid] == if B.AnyWritten(p.runs, |p.runs|) then "finished" else "failure")
  {
    MarkerRecognizedIff(prompts[i].uid);
    if RSplit(prompts[i].uid) == None { MarkStored(log, |log|, prompts[i].uid); }
    BatchMark(log, writers, prompts, i);
  }

  // With two or more underscores a marker can land on another uid's record and hide its score.
  lemma MarkerCanHideRecord(t: B.Traj)
    ensures var log := [B.Put("a", 0, [t]), B.Mark("a", true), B.Mark("a_0_0", false)];
      "a_0_0" in Store(log, 2) && Store(log, 2)["a_0_0"].status == "success"
      && "a_0_0" in Store(log, 3) && Store(log, 3)["a_0_0"].status == "failure"
  {
    var log := [B.Put("a", 0, [t]), B.Mark("a", true), B.Mark("a_0_0", false)];
    assert Key("a", 0, 0) == "a_0_0";
    assert Store(log, 0) == map[];
    PutHas(map[], "a", 0, [t], 1, 0);
    assert Store(log, 2) == Store(log, 1)["a" := Entry("finished", [])];
  }
}
