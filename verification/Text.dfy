// The string operations the editor uses, with their library meaning.
module Text {
  import opened Common

  // ----- searching -----

  predicate Occurs(s: string, sub: string, i: int) {
    0 <= i <= |s| - |sub| && s[i..i + |sub|] == sub
  }

  // The leftmost occurrence at or after i.
  function Find(s: string, sub: string, i: nat): Option<nat>
    requires i <= |s|
    decreases |s| - i
  {
    if Occurs(s, sub, i) then Some(i) else if i == |s| then None else Find(s, sub, i + 1)
  }

  lemma {:induction false} FindLeftmost(s: string, sub: string, i: nat)
    requires i <= |s|
    ensures match Find(s, sub, i)
            case None => forall j :: i <= j ==> !Occurs(s, sub, j)
            case Some(k) => i <= k && Occurs(s, sub, k) && forall j :: i <= j < k ==> !Occurs(s, sub, j)
    decreases |s| - i
  {
    if !Occurs(s, sub, i) && i < |s| { FindLeftmost(s, sub, i + 1); }
  }

  // s[i..].count(sub): occurrences that do not overlap, from the left.
  function Count(s: string, sub: string, i: nat): nat
    requires i <= |s| && sub != ""
    decreases |s| - i
  {
    FindLeftmost(s, sub, i);
    match Find(s, sub, i)
    case None => 0
    case Some(k) => 1 + Count(s, sub, k + |sub|)
  }

  // s[i..].replace(sub, by)
  function Replace(s: string, sub: string, with: string, i: nat): string
    requires i <= |s| && sub != ""
    decreases |s| - i
  {
    FindLeftmost(s, sub, i);
    match Find(s, sub, i)
    case None => s[i..]
    case Some(k) => s[i..k] + with + Replace(s, sub, with, k + |sub|)
  }

  // Not found means not there at all.
  lemma CountZeroIff(s: string, sub: string, i: nat)
    requires i <= |s| && sub != ""
    ensures Count(s, sub, i) == 0 <==> forall j :: i <= j ==> !Occurs(s, sub, j)
  {
    FindLeftmost(s, sub, i);
  }

  // A count of one only says that no second occurrence starts after the end of the leftmost one.
  lemma CountOneIff(s: string, sub: string)
    requires sub != ""
    ensures Count(s, sub, 0) == 1 <==> exists k: nat :: UniqueAt(s, sub, k)
  {
    if Count(s, sub, 0) == 1 { CountOneUnique(s, sub); }
    if k: nat :| UniqueAt(s, sub, k) { UniqueCountOne(s, sub, k); }
  }

  lemma CountOneUnique(s: string, sub: string)
    requires sub != "" && Count(s, sub, 0) == 1
    ensures Find(s, sub, 0).Some? && UniqueAt(s, sub, Find(s, sub, 0).value)
  {
    FindLeftmost(s, sub, 0);
    CountZeroIff(s, sub, Find(s, sub, 0).value + |sub|);
  }

  lemma UniqueCountOne(s: string, sub: string, k: nat)
    requires sub != "" && UniqueAt(s, sub, k)
    ensures Count(s, sub, 0) == 1
  {
    FindLeftmost(s, sub, 0);
    assert Find(s, sub, 0) == Some(k);
    CountZeroIff(s, sub, k + |sub|);
  }

  // sub is at k, nowhere before, and nowhere from the end of that occurrence on.
  ghost predicate UniqueAt(s: string, sub: string, k: nat) {
    && Occurs(s, sub, k)
    && (forall j :: 0 <= j < k ==> !Occurs(s, sub, j))
    && (forall j :: k + |sub| <= j ==> !Occurs(s, sub, j))
  }

  // Replacing a string that counts once splices at its leftmost occurrence.
  lemma ReplaceIsSplice(s: string, sub: string, with: string)
    requires sub != "" && Count(s, sub, 0) == 1
    ensures var k := Find(s, sub, 0).value;
      UniqueAt(s, sub, k) && Replace(s, sub, with, 0) == s[..k] + with + s[k + |sub|..]
  {
    CountOneUnique(s, sub);
    var k := Find(s, sub, 0).value;
    CountZeroIff(s, sub, k + |sub|);
    ReplaceNone(s, sub, with, k + |sub|);
    assert s[0..k] == s[..k];
  }

  lemma ReplaceNone(s: string, sub: string, with: string, i: nat)
    requires i <= |s| && sub != "" && Count(s, sub, i) == 0
    ensures Replace(s, sub, with, i) == s[i..]
  {}

  // Overlapping occurrences count once, although the string is there twice.
  lemma OverlapCountsOnce()
    ensures Occurs("aaa", "aa", 0) && Occurs("aaa", "aa", 1) && Count("aaa", "aa", 0) == 1
  {
    assert Occurs("aaa", "aa", 0) && Occurs("aaa", "aa", 1);
    forall j | 2 <= j ensures !Occurs("aaa", "aa", j) {}
    CountZeroIff("aaa", "aa", 2);
  }

  // ----- normalization -----

  // text.replace("\r\n", "\n").replace("\r", "\n")
  function Newlines(s: string): string { Replace(Replace(s, "\r\n", "\n", 0), "\r", "\n", 0) }

  // A character at column col as s.expandtabs() shows it, and the column after it.
  function Shown(c: char, col: nat): string { if c == '\t' then seq(8 - col % 8, _ => ' ') else [c] }

  function NextCol(c: char, col: nat): nat {
    if c == '\t' then col + (8 - col % 8) else if c == '\n' || c == '\r' then 0 else col + 1
  }

  // s.expandtabs() continued at column col; the column restarts after \n and \r.
  function ExpandFrom(s: string, col: nat): string {
    if s == "" then "" else Shown(s[0], col) + ExpandFrom(s[1..], NextCol(s[0], col))
  }

  function ColAfter(s: string, col: nat): nat {
    if s == "" then col else ColAfter(s[1..], NextCol(s[0], col))
  }

  function Expand(s: string): string { ExpandFrom(s, 0) }

  // How the editor reads a file it is about to edit.
  function Normal(s: string): string { Expand(Newlines(s)) }

  predicate Without(s: string, c: char) { forall i :: 0 <= i < |s| ==> s[i] != c }

  predicate Clean(s: string) { Without(s, '\t') && Without(s, '\r') }

  lemma OccursChar(s: string, c: char, i: nat)
    requires i < |s|
    ensures Occurs(s, [c], i) <==> s[i] == c
  {}

  lemma {:induction false} ReplacedWithout(s: string, c: char, with: char, i: nat)
    requires i <= |s| && with != c
    ensures Without(Replace(s, [c], [with], i), c)
    decreases |s| - i
  {
    FindLeftmost(s, [c], i);
    match Find(s, [c], i)
    case None =>
      forall j | i <= j < |s| ensures s[j] != c { OccursChar(s, c, j); }
    case Some(k) =>
      forall j | i <= j < k ensures s[j] != c { OccursChar(s, c, j); }
      ReplacedWithout(s, c, with, k + 1);
  }

  lemma {:induction false} ExpandedClean(s: string, col: nat)
    ensures Without(ExpandFrom(s, col), '\t')
    ensures Without(s, '\r') ==> Without(ExpandFrom(s, col), '\r')
  {
    if s != "" {
      ExpandedClean(s[1..], NextCol(s[0], col));
    }
  }

  lemma NormalClean(s: string)
    ensures Clean(Normal(s))
  {
    ReplacedWithout(Replace(s, "\r\n", "\n", 0), '\r', '\n', 0);
    ExpandedClean(Newlines(s), 0);
  }

  lemma {:induction false} ExpandFixed(s: string, col: nat)
    requires Without(s, '\t')
    ensures ExpandFrom(s, col) == s
  {
    if s != "" {
      ExpandFixed(s[1..], NextCol(s[0], col));
      assert s == [s[0]] + s[1..];
    }
  }

  lemma ReplaceNothing(s: string, sub: string, with: string)
    requires sub != "" && sub[0] == '\r' && Without(s, '\r')
    ensures Replace(s, sub, with, 0) == s
  {
    FindLeftmost(s, sub, 0);
    forall j | 0 <= j < |s| ensures !Occurs(s, sub, j) { OccursFirst(s, sub, j); }
    assert s[0..] == s;
  }

  lemma OccursFirst(s: string, sub: string, i: nat)
    requires i < |s| && sub != ""
    ensures Occurs(s, sub, i) ==> s[i] == sub[0]
  {
    if Occurs(s, sub, i) { assert s[i..i + |sub|][0] == s[i]; }
  }

  // Text without tabs and carriage returns is read as it is; in particular reading twice changes nothing.
  lemma NormalFixed(s: string)
    requires Clean(s)
    ensures Normal(s) == s
  {
    ReplaceNothing(s, "\r\n", "\n");
    ReplaceNothing(s, "\r", "\n");
    ExpandFixed(s, 0);
  }

  // ----- what reading does to newlines -----

  // Each carriage return becomes a newline, together with a newline right after it.
  function Unix(s: string): string {
    if s == "" then ""
    else if s[0] != '\r' then [s[0]] + Unix(s[1..])
    else "\n" + Unix(if |s| > 1 && s[1] == '\n' then s[2..] else s[1..])
  }

  // Only carriage returns before a newline are dropped.
  function Paired(s: string): string {
    if s == "" then ""
    else if |s| > 1 && s[0] == '\r' && s[1] == '\n' then "\n" + Paired(s[2..])
    else [s[0]] + Paired(s[1..])
  }

  // Replacing walks over the text.
  lemma ReplaceStep(s: string, sub: string, with: string, i: nat)
    requires i < |s| && sub != ""
    ensures Replace(s, sub, with, i) ==
      if Occurs(s, sub, i) then with + Replace(s, sub, with, i + |sub|) else [s[i]] + Replace(s, sub, with, i + 1)
  {
    if Occurs(s, sub, i) {
      ReplaceFrom(s, sub, with, i);
      assert s[i..i] == "";
    } else {
      ReplaceSkip(s, sub, with, i);
    }
  }

  lemma ReplaceFrom(s: string, sub: string, with: string, i: nat)
    requires i <= |s| && sub != ""
    ensures match Find(s, sub, i)
            case None => Replace(s, sub, with, i) == s[i..]
            case Some(k) => i <= k && k + |sub| <= |s| && Replace(s, sub, with, i) == s[i..k] + with + Replace(s, sub, with, k + |sub|)
  {
    FindLeftmost(s, sub, i);
  }

  lemma ReplaceSkip(s: string, sub: string, with: string, i: nat)
    requires i < |s| && sub != "" && !Occurs(s, sub, i)
    ensures Replace(s, sub, with, i) == [s[i]] + Replace(s, sub, with, i + 1)
  {
    ReplaceFrom(s, sub, with, i);
    ReplaceFrom(s, sub, with, i + 1);
    var found := Find(s, sub, i + 1);
    assert Find(s, sub, i) == found;
    if found.None? { assert s[i..] == [s[i]] + s[i + 1..]; } else { FirstOff(s, i, found.value, with, Replace(s, sub, with, found.value + |sub|)); }
  }

  lemma FirstOff(s: string, i: nat, k: nat, with: string, rest: string)
    requires i < k <= |s|
    ensures s[i..k] + with + rest == [s[i]] + (s[i + 1..k] + with + rest)
  {}

  lemma ReplaceEnd(s: string, sub: string, with: string)
    requires sub != ""
    ensures Replace(s, sub, with, |s|) == ""
  {}

  lemma {:induction false} PairedIs(s: string, i: nat)
    requires i <= |s|
    ensures Replace(s, "\r\n", "\n", i) == Paired(s[i..])
    decreases |s| - i
  {
    if i == |s| {
      ReplaceEnd(s, "\r\n", "\n");
    } else {
      ReplaceStep(s, "\r\n", "\n", i);
      var rest := s[i..];
      assert rest[1..] == s[i + 1..] && (Occurs(s, "\r\n", i) <==> |rest| > 1 && rest[..2] == "\r\n");
      if Occurs(s, "\r\n", i) {
        assert rest[2..] == s[i + 2..] && rest[0] == rest[..2][0] && rest[1] == rest[..2][1];
        PairedIs(s, i + 2);
      } else {
        if |rest| > 1 { assert rest[..2] == [rest[0], rest[1]]; }
        PairedIs(s, i + 1);
      }
    }
  }

  lemma {:induction false} UnixOfPaired(t: string, i: nat)
    requires i <= |t|
    ensures Replace(t, "\r", "\n", i) == Mapped(t[i..])
    decreases |t| - i
  {
    if i == |t| {
      ReplaceEnd(t, "\r", "\n");
    } else {
      ReplaceStep(t, "\r", "\n", i);
      OccursChar(t, '\r', i);
      assert t[i..][1..] == t[i + 1..];
      UnixOfPaired(t, i + 1);
    }
  }

  // Every carriage return becomes a newline of its own.
  function Mapped(s: string): string {
    if s == "" then "" else [if s[0] == '\r' then '\n' else s[0]] + Mapped(s[1..])
  }

  lemma {:induction false} MappedPaired(s: string)
    ensures Mapped(Paired(s)) == Unix(s)
    decreases |s|
  {
    if s != "" {
      if |s| > 1 && s[0] == '\r' && s[1] == '\n' {
        MappedPaired(s[2..]);
        assert Paired(s)[1..] == Paired(s[2..]);
      } else {
        MappedPaired(s[1..]);
        assert Paired(s)[1..] == Paired(s[1..]);
      }
    }
  }

  // Reading normalizes the newlines of every platform.
  lemma NewlinesAre(s: string)
    ensures Newlines(s) == Unix(s)
  {
    PairedIs(s, 0);
    UnixOfPaired(Paired(s), 0);
    MappedPaired(s);
    assert s[0..] == s && Paired(s)[0..] == Paired(s);
  }

  // ----- fragments of a text -----

  // Text after a prefix is expanded from the column the prefix ends at.
  lemma {:induction false} ExpandAppend(a: string, b: string, col: nat)
    ensures ExpandFrom(a + b, col) == ExpandFrom(a, col) + ExpandFrom(b, ColAfter(a, col))
    decreases |a|
  {
    if a == "" {
      assert a + b == b;
    } else {
      assert (a + b)[1..] == a[1..] + b;
      ExpandAppend(a[1..], b, NextCol(a[0], col));
    }
  }

  // A line starts at column zero.
  lemma {:induction false} LineStart(s: string, col: nat)
    requires s != "" && s[|s| - 1] == '\n'
    ensures ColAfter(s, col) == 0
    decreases |s|
  {
    if |s| > 1 { LineStart(s[1..], NextCol(s[0], col)); } else { assert s[1..] == ""; }
  }

  predicate TabInFirstLine(s: string) {
    s != "" && (s[0] == '\t' || (s[0] != '\n' && s[0] != '\r' && TabInFirstLine(s[1..])))
  }

  // Columns that differ by a multiple of eight, and lines without tabs, expand alike.
  lemma {:induction false} ExpandsAlike(s: string, c: nat, d: nat)
    requires c % 8 == d % 8 || !TabInFirstLine(s)
    ensures ExpandFrom(s, c) == ExpandFrom(s, d)
    decreases |s|
  {
    if s != "" {
      NextAlike(s[0], c, d);
      ExpandsAlike(s[1..], NextCol(s[0], c), NextCol(s[0], d));
    }
  }

  lemma NextAlike(ch: char, c: nat, d: nat)
    ensures c % 8 == d % 8 || ch == '\n' || ch == '\r' ==> NextCol(ch, c) % 8 == NextCol(ch, d) % 8
    ensures c % 8 == d % 8 || ch != '\t' ==> Shown(ch, c) == Shown(ch, d)
  {
    TabStop(c);
    TabStop(d);
    NextMod(c);
    NextMod(d);
  }

  // A tab ends at a tab stop.
  lemma TabStop(col: nat)
    ensures NextCol('\t', col) % 8 == 0
  {
    DivUnique(col + (8 - col % 8), 8, col / 8 + 1, 0);
  }

  lemma NextMod(col: nat)
    ensures (col + 1) % 8 == if col % 8 == 7 then 0 else col % 8 + 1
  {
    if col % 8 == 7 { DivUnique(col + 1, 8, col / 8 + 1, 0); } else { DivUnique(col + 1, 8, col / 8, col % 8 + 1); }
  }

  // Otherwise the first tab takes a different number of spaces.
  lemma {:induction false} ExpandsApart(s: string, c: nat, d: nat)
    requires c % 8 != d % 8 && TabInFirstLine(s)
    ensures |ExpandFrom(s, c)| != |ExpandFrom(s, d)|
    decreases |s|
  {
    if s[0] == '\t' {
      TabStop(c);
      TabStop(d);
      ExpandsAlike(s[1..], NextCol('\t', c), NextCol('\t', d));
      assert |Shown('\t', c)| == 8 - c % 8 && |Shown('\t', d)| == 8 - d % 8;
    } else {
      NextMod(c);
      NextMod(d);
      ExpandsApart(s[1..], c + 1, d + 1);
    }
  }

  // A fragment that starts at column col of a text reads there as it reads on its own, exactly if
  // the column is a multiple of eight or its first line has no tab.
  lemma FragmentReadsAloneIff(fragment: string, col: nat)
    ensures ExpandFrom(fragment, col) == Expand(fragment) <==> col % 8 == 0 || !TabInFirstLine(fragment)
  {
    if col % 8 == 0 || !TabInFirstLine(fragment) { ExpandsAlike(fragment, col, 0); } else { ExpandsApart(fragment, col, 0); }
  }

  // Where such a fragment is in the expanded text.
  lemma FragmentOccurs(before: string, fragment: string, after: string)
    requires ColAfter(before, 0) % 8 == 0 || !TabInFirstLine(fragment)
    ensures Occurs(Expand(before + fragment + after), Expand(fragment), |Expand(before)|)
  {
    ExpandAppend(before + fragment, after, 0);
    ExpandAppend(before, fragment, 0);
    FragmentReadsAloneIff(fragment, ColAfter(before, 0));
  }

  lemma {:induction false} ExpandKeeps(s: string, c: char, col: nat)
    requires c != '\t' && !Without(s, c)
    ensures !Without(ExpandFrom(s, col), c)
    decreases |s|
  {
    var rest := ExpandFrom(s[1..], NextCol(s[0], col));
    if s[0] == c {
      assert ExpandFrom(s, col)[0] == c;
    } else {
      ExpandKeeps(s[1..], c, NextCol(s[0], col));
      var i :| 0 <= i < |rest| && rest[i] == c;
      assert ExpandFrom(s, col)[|Shown(s[0], col)| + i] == c;
    }
  }

  // What occurs in a text has only the text's characters.
  lemma OccursWithout(s: string, sub: string, i: int, c: char)
    requires Occurs(s, sub, i) && Without(s, c)
    ensures Without(sub, c)
  {
    forall j | 0 <= j < |sub| ensures sub[j] != c { assert s[i..i + |sub|][j] == s[i + j]; }
  }

  // ----- lines -----

  // s[from..].split("\n"), with s[from..i] already scanned.
  function Lines(s: string, from: nat, i: nat): seq<string>
    requires from <= i <= |s|
    decreases |s| - i
  {
    if i == |s| then [s[from..]]
    else if s[i] == '\n' then [s[from..i]] + Lines(s, i + 1, i + 1)
    else Lines(s, from, i + 1)
  }

  function Split(s: string): seq<string> { Lines(s, 0, 0) }

  // "\n".join(lines)
  function Join(lines: seq<string>): string
    requires lines != []
  {
    if |lines| == 1 then lines[0] else lines[0] + "\n" + Join(lines[1..])
  }

  lemma {:induction false} LinesJoin(s: string, from: nat, i: nat)
    requires from <= i <= |s|
    ensures Lines(s, from, i) != [] && Join(Lines(s, from, i)) == s[from..]
    decreases |s| - i
  {
    if i < |s| {
      if s[i] == '\n' {
        LinesJoin(s, i + 1, i + 1);
        assert Lines(s, from, i)[1..] == Lines(s, i + 1, i + 1);
        assert s[from..] == s[from..i] + "\n" + s[i + 1..];
      } else {
        LinesJoin(s, from, i + 1);
      }
    }
  }

  // Joining the lines of a text gives the text back.
  lemma JoinSplit(s: string)
    ensures Split(s) != [] && Join(Split(s)) == s
  {
    LinesJoin(s, 0, 0);
    assert s[0..] == s;
  }

  predicate OneLine(s: string) { Without(s, '\n') }

  lemma {:induction false} LinesSingle(s: string, from: nat, i: nat)
    requires from <= i <= |s| && forall j :: i <= j < |s| ==> s[j] != '\n'
    ensures Lines(s, from, i) == [s[from..]]
    decreases |s| - i
  {
    if i < |s| { LinesSingle(s, from, i + 1); }
  }

  // Scanning up to the first newline finds the first line.
  lemma {:induction false} LinesFirst(s: string, from: nat, i: nat, k: nat)
    requires from <= i <= k < |s| && s[k] == '\n' && forall j :: i <= j < k ==> s[j] != '\n'
    ensures Lines(s, from, i) == [s[from..k]] + Lines(s, k + 1, k + 1)
    decreases k - i
  {
    if i < k { LinesFirst(s, from, i + 1, k); }
  }

  // Where the scan starts does not matter beyond what lies after it.
  lemma {:induction false} LinesShift(pre: string, s: string, from: nat, i: nat)
    requires from <= i <= |s|
    ensures Lines(pre + s, |pre| + from, |pre| + i) == Lines(s, from, i)
    decreases |s| - i
  {
    if i == |s| {
      assert (pre + s)[|pre| + from..] == s[from..];
    } else if s[i] == '\n' {
      LinesShift(pre, s, i + 1, i + 1);
      assert (pre + s)[|pre| + from..|pre| + i] == s[from..i];
    } else {
      LinesShift(pre, s, from, i + 1);
    }
  }

  // Splitting joined lines gives the lines back.
  lemma {:induction false} SplitJoin(lines: seq<string>)
    requires lines != [] && forall i :: 0 <= i < |lines| ==> OneLine(lines[i])
    ensures Split(Join(lines)) == lines
  {
    var first := lines[0];
    if |lines| == 1 {
      LinesSingle(first, 0, 0);
      assert first[0..] == first;
    } else {
      var rest := Join(lines[1..]);
      var pre := first + "\n";
      var s := pre + rest;
      SplitJoin(lines[1..]);
      LinesFirst(s, 0, 0, |first|);
      LinesShift(pre, rest, 0, 0);
      assert Join(lines) == s && s[0..|first|] == first;
    }
  }

  lemma {:induction false} LinesAreLines(s: string, from: nat, i: nat)
    requires from <= i <= |s| && forall j :: from <= j < i ==> s[j] != '\n'
    ensures forall k :: 0 <= k < |Lines(s, from, i)| ==> OneLine(Lines(s, from, i)[k])
    decreases |s| - i
  {
    if i < |s| {
      if s[i] == '\n' { LinesAreLines(s, i + 1, i + 1); } else { LinesAreLines(s, from, i + 1); }
    }
  }

  // Inserting lines into a text's lines is inserting them into the text.
  lemma InsertIsLineSplice(s: string, k: nat, added: string)
    requires k <= |Split(s)|
    ensures var lines := Split(s)[..k] + Split(added) + Split(s)[k..];
      lines != [] && Split(Join(lines)) == lines
  {
    JoinSplit(added);
    LinesAreLines(s, 0, 0);
    LinesAreLines(added, 0, 0);
    var lines := Split(s)[..k] + Split(added) + Split(s)[k..];
    forall i | 0 <= i < |lines| ensures OneLine(lines[i]) {
      if i >= k + |Split(added)| { assert lines[i] == Split(s)[i - |Split(added)|]; }
    }
    SplitJoin(lines);
  }
}
