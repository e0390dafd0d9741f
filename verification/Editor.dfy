// The string-replacement editor: create, replace, insert and undo over a sandbox's files.
module Editor {
  import opened Common
  import opened Text

  // A file's content, or a file that is not UTF-8 text.
  datatype File = Text(content: string) | Binary

  // The sandbox's files and directories, and the tool's undo stacks (newest last).
  datatype State = State(files: map<string, File>, dirs: set<string>, history: map<string, seq<string>>)

  datatype Command =
    | View(path: string)
    | Create(path: string, fileText: Option<string>)
    | StrReplace(path: string, oldStr: Option<string>, newStr: Option<string>)
    | Insert(path: string, line: Option<int>, newStr: Option<string>)
    | Undo(path: string)
    | Unknown(path: string)

  datatype Refusal =
    | EndsWithSlash | Missing | Exists | Directory | NoFileText | NoParent | NoOldStr | NoMatch | NotUnique
    | SameText | NoLine | NoNewStr | BadLine | NoHistory | Unrecognized

  // ToolError covers an empty path, text that is not UTF-8, and a write that raises.
  datatype Outcome = Done | Viewed | Refused(why: Refusal) | ToolError

  function History(s: State, path: string): seq<string> { if path in s.history then s.history[path] else [] }

  predicate Present(s: State, path: string) { path in s.files || path in s.dirs }

  // _validate_path
  function Invalid(s: State, c: Command): Option<Refusal> {
    if c.Create? && c.path != "" && c.path[|c.path| - 1] == '/' then Some(EndsWithSlash)
    else if !Present(s, c.path) && !c.Create? then Some(Missing)
    else if Present(s, c.path) && c.Create? then Some(Exists)
    else if c.path in s.dirs && !c.View? then Some(Directory)
    else None
  }

  // os.path.dirname(path) or "/", for a path that does not end in a slash.
  function Parent(path: string): string {
    var head := Head(path);
    var trimmed := Trim(head);
    if head == "" then "/" else if trimmed == "" then head else trimmed
  }

  // Everything up to and including the last slash.
  function Head(path: string): string {
    if path == "" || path[|path| - 1] == '/' then path else Head(path[..|path| - 1])
  }

  function Trim(path: string): string {
    if path == "" || path[|path| - 1] != '/' then path else Trim(path[..|path| - 1])
  }

  // A successful edit: the file is written, then the text it had is pushed.
  function Edited(s: State, path: string, content: string, saved: string): State {
    State(s.files[path := File.Text(content)], s.dirs, s.history[path := History(s, path) + [saved]])
  }

  function OrEmpty(text: Option<string>): string { if text.Some? then text.value else "" }

  function DoCreate(s: State, path: string, fileText: Option<string>, writeOk: bool): (State, Outcome) {
    if fileText.None? then (s, Refused(NoFileText))
    else if Parent(path) !in s.dirs then (s, Refused(NoParent))
    else if !writeOk then (s, ToolError)
    else (Edited(s, path, fileText.value, ""), Done)
  }

  function DoReplace(s: State, path: string, oldStr: Option<string>, newStr: Option<string>, writeOk: bool): (State, Outcome)
    requires path in s.files
  {
    if OrEmpty(oldStr) == "" then (s, Refused(NoOldStr))
    else if s.files[path].Binary? then (s, ToolError)
    else
      var content, sub, with := Normal(s.files[path].content), Expand(oldStr.value), Expand(OrEmpty(newStr));
      ExpandNonempty(oldStr.value, 0);
      if Count(content, sub, 0) == 0 then (s, Refused(NoMatch))
      else if Count(content, sub, 0) > 1 then (s, Refused(NotUnique))
      else if with == sub then (s, Refused(SameText))
      else if !writeOk then (s, ToolError)
      else (Edited(s, path, Replace(content, sub, with, 0), content), Done)
  }

  lemma ExpandNonempty(s: string, col: nat)
    requires s != ""
    ensures ExpandFrom(s, col) != ""
  {}

  function DoInsert(s: State, path: string, line: Option<int>, newStr: Option<string>, writeOk: bool): (State, Outcome)
    requires path in s.files
  {
    if line.None? then (s, Refused(NoLine))
    else if newStr.None? then (s, Refused(NoNewStr))
    else if s.files[path].Binary? then (s, ToolError)
    else
      var content := Normal(s.files[path].content);
      var lines, added := Split(content), Split(Expand(newStr.value));
      if line.value < 0 || line.value > |lines| then (s, Refused(BadLine))
      else if !writeOk then (s, ToolError)
      else
        JoinSplit(Expand(newStr.value));
        (Edited(s, path, Join(lines[..line.value] + added + lines[line.value..]), content), Done)
  }

  function DoUndo(s: State, path: string, writeOk: bool): (State, Outcome) {
    var stack := History(s, path);
    if stack == [] then (s, Refused(NoHistory))
    else if !writeOk then (s, ToolError)
    else (State(s.files[path := File.Text(stack[|stack| - 1])], s.dirs, s.history[path := stack[..|stack| - 1]]), Done)
  }

  // One command. writeOk: the sandbox's write succeeds if it is reached.
  function Apply(s: State, c: Command, writeOk: bool): (State, Outcome) {
    if c.path == "" then (s, ToolError)
    else if Invalid(s, c).Some? then (s, Refused(Invalid(s, c).value))
    else
      match c
      case View(path) => (s, if path in s.files && s.files[path].Binary? then ToolError else Viewed)
      case Create(path, fileText) => DoCreate(s, path, fileText, writeOk)
      case StrReplace(path, oldStr, newStr) => DoReplace(s, path, oldStr, newStr, writeOk)
      case Insert(path, line, newStr) => DoInsert(s, path, line, newStr, writeOk)
      case Undo(path) => DoUndo(s, path, writeOk)
      case Unknown(_) => (s, Refused(Unrecognized))
  }

  // ----- the tool -----

  class EditFileTool {
    var files: map<string, File>
    var history: map<string, seq<string>>
    const dirs: set<string>

    ghost function Contents(): State reads this { State(files, dirs, history) }

    constructor (sandboxFiles: map<string, File>, sandboxDirs: set<string>)
      ensures Contents() == State(sandboxFiles, sandboxDirs, map[])
    {
      files, dirs, history := sandboxFiles, sandboxDirs, map[];
    }

    method Push(path: string, saved: string)
      modifies this`history
      ensures history == old(history)[path := History(old(Contents()), path) + [saved]]
    {
      history := history[path := (if path in history then history[path] else []) + [saved]];
    }

    method CreateFile(path: string, fileText: Option<string>, writeOk: bool) returns (o: Outcome)
      modifies this
      ensures (Contents(), o) == DoCreate(old(Contents()), path, fileText, writeOk)
    {
      if fileText.None? { return Refused(NoFileText); }
      if Parent(path) !in dirs { return Refused(NoParent); }
      if !writeOk { return ToolError; }
      files := files[path := File.Text(fileText.value)];
      Push(path, "");
      o := Done;
    }

    method ReplaceString(path: string, oldStr: Option<string>, newStr: Option<string>, writeOk: bool) returns (o: Outcome)
      requires path in files
      modifies this
      ensures (Contents(), o) == DoReplace(old(Contents()), path, oldStr, newStr, writeOk)
    {
      if OrEmpty(oldStr) == "" { return Refused(NoOldStr); }
      if files[path].Binary? { return ToolError; }
      var content := Normal(files[path].content);
      var sub, with := Expand(oldStr.value), Expand(OrEmpty(newStr));
      ExpandNonempty(oldStr.value, 0);
      var occurrences := Count(content, sub, 0);
      if occurrences == 0 { return Refused(NoMatch); }
      if occurrences > 1 { return Refused(NotUnique); }
      if with == sub { return Refused(SameText); }
      if !writeOk { return ToolError; }
      files := files[path := File.Text(Replace(content, sub, with, 0))];
      Push(path, content);
      o := Done;
    }

    method InsertLines(path: string, line: Option<int>, newStr: Option<string>, writeOk: bool) returns (o: Outcome)
      requires path in files
      modifies this
      ensures (Contents(), o) == DoInsert(old(Contents()), path, line, newStr, writeOk)
    {
      if line.None? { return Refused(NoLine); }
      if newStr.None? { return Refused(NoNewStr); }
      if files[path].Binary? { return ToolError; }
      var content := Normal(files[path].content);
      var lines, added := Split(content), Split(Expand(newStr.value));
      if line.value < 0 || line.value > |lines| { return Refused(BadLine); }
      if !writeOk { return ToolError; }
      JoinSplit(Expand(newStr.value));
      files := files[path := File.Text(Join(lines[..line.value] + added + lines[line.value..]))];
      Push(path, content);
      o := Done;
    }

    method UndoEdit(path: string, writeOk: bool) returns (o: Outcome)
      modifies this
      ensures (Contents(), o) == DoUndo(old(Contents()), path, writeOk)
    {
      if path !in history || history[path] == [] { return Refused(NoHistory); }
      var stack := history[path];
      if !writeOk { return ToolError; }
      files := files[path := File.Text(stack[|stack| - 1])];
      history := history[path := stack[..|stack| - 1]];
      o := Done;
    }

    // _apply
    method Run(c: Command, writeOk: bool) returns (o: Outcome)
      modifies this
      ensures (Contents(), o) == Apply(old(Contents()), c, writeOk)
    {
      if c.path == "" { return ToolError; }
      var invalid := Invalid(State(files, dirs, history), c);
      if invalid.Some? { return Refused(invalid.value); }
      match c
      case View(path) => o := if path in files && files[path].Binary? then ToolError else Viewed;
      case Create(path, fileText) => o := CreateFile(path, fileText, writeOk);
      case StrReplace(path, oldStr, newStr) => o := ReplaceString(path, oldStr, newStr, writeOk);
      case Insert(path, line, newStr) => o := InsertLines(path, line, newStr, writeOk);
      case Undo(path) => o := UndoEdit(path, writeOk);
      case Unknown(_) => o := Refused(Unrecognized);
    }
  }

  // ----- what one command does -----

  // A command that does not report success changes neither files nor history.
  lemma FailureChangesNothing(s: State, c: Command, writeOk: bool)
    ensures Apply(s, c, writeOk).1 != Done ==> Apply(s, c, writeOk).0 == s
  {}

  // A command leaves every other path alone.
  lemma OtherPathsUntouched(s: State, c: Command, writeOk: bool, path: string)
    requires path != c.path
    ensures var s' := Apply(s, c, writeOk).0; SameAt(s, s', path) && s'.dirs == s.dirs
  {}

  predicate SameAt(s: State, s': State, path: string) {
    && (path in s.files <==> path in s'.files) && (path in s.files ==> s.files[path] == s'.files[path])
    && History(s, path) == History(s', path)
  }

  predicate Editable(s: State, path: string) { path in s.files && path !in s.dirs && path != "" && s.files[path].Text? }

  // The file holds the new text, and the text saved for an undo is on top of its stack.
  predicate Wrote(s: State, s': State, path: string, content: string, saved: string) {
    path in s'.files && s'.files[path] == File.Text(content) && History(s', path) == History(s, path) + [saved]
  }

  // A create goes through exactly for a new path in an existing directory; it writes the text as given.
  lemma CreateDoes(s: State, path: string, fileText: Option<string>, writeOk: bool)
    ensures var (s', o) := Apply(s, Create(path, fileText), writeOk);
      (o == Done <==> fileText.Some? && path != "" && path[|path| - 1] != '/' && path !in s.files && path !in s.dirs
                      && Parent(path) in s.dirs && writeOk)
      && (o == Done ==> Wrote(s, s', path, fileText.value, ""))
  {}

  predicate AllSlashes(s: string) { forall i :: 0 <= i < |s| ==> s[i] == '/' }

  // The parent is what comes before the slashes in front of the last name, or those slashes, or the root.
  lemma ParentOf(dir: string, slashes: string, name: string)
    requires name != "" && '/' !in name && AllSlashes(slashes)
    requires dir != "" ==> dir[|dir| - 1] != '/' && slashes != ""
    ensures Parent(dir + slashes + name) == if dir != "" then dir else if slashes != "" then slashes else "/"
  {
    HeadOf(dir + slashes, name);
    TrimOf(dir, slashes);
  }

  lemma {:induction false} HeadOf(head: string, name: string)
    requires '/' !in name && (head == "" || head[|head| - 1] == '/')
    ensures Head(head + name) == head
    decreases |name|
  {
    if name == "" {
      assert head + name == head;
    } else {
      var init, last := name[..|name| - 1], name[|name| - 1];
      assert last in name && (head + name)[..|head + name| - 1] == head + init;
      HeadOf(head, init);
    }
  }

  lemma {:induction false} TrimOf(dir: string, slashes: string)
    requires AllSlashes(slashes) && (dir != "" ==> dir[|dir| - 1] != '/')
    ensures Trim(dir + slashes) == dir
    decreases |slashes|
  {
    if slashes == "" {
      assert dir + slashes == dir;
    } else {
      assert (dir + slashes)[..|dir + slashes| - 1] == dir + slashes[..|slashes| - 1];
      TrimOf(dir, slashes[..|slashes| - 1]);
    }
  }

  // When a replacement goes through, exactly.
  lemma ReplacementSucceedsIff(s: State, path: string, oldStr: Option<string>, newStr: Option<string>, writeOk: bool)
    ensures Apply(s, StrReplace(path, oldStr, newStr), writeOk).1 == Done <==>
      Editable(s, path) && writeOk && oldStr.Some? && oldStr.value != ""
      && Expand(if newStr.Some? then newStr.value else "") != Expand(oldStr.value)
      && exists k: nat :: UniqueAt(Normal(s.files[path].content), Expand(oldStr.value), k)
  {
    if Editable(s, path) && oldStr.Some? && oldStr.value != "" {
      ExpandNonempty(oldStr.value, 0);
      CountOneIff(Normal(s.files[path].content), Expand(oldStr.value));
    }
  }

  // A successful replacement splices at the leftmost occurrence, and it succeeds only if no
  // further occurrence starts after that one ends.
  lemma ReplacementSplices(s: State, path: string, oldStr: string, newStr: Option<string>, writeOk: bool)
    requires Apply(s, StrReplace(path, Some(oldStr), newStr), writeOk).1 == Done
    ensures Editable(s, path) && oldStr != ""
    ensures var content, sub := Normal(s.files[path].content), Expand(oldStr);
      exists k: nat :: UniqueAt(content, sub, k)
        && Wrote(s, Apply(s, StrReplace(path, Some(oldStr), newStr), writeOk).0, path,
                 content[..k] + Expand(if newStr.Some? then newStr.value else "") + content[k + |sub|..], content)
  {
    ReplacementWrites(s, path, oldStr, newStr, writeOk);
    var k := SpliceAt(Normal(s.files[path].content), Expand(oldStr), Expand(if newStr.Some? then newStr.value else ""));
  }

  lemma ReplacementWrites(s: State, path: string, oldStr: string, newStr: Option<string>, writeOk: bool)
    requires Apply(s, StrReplace(path, Some(oldStr), newStr), writeOk).1 == Done
    ensures Editable(s, path) && oldStr != "" && Expand(oldStr) != ""
    ensures var content, sub := Normal(s.files[path].content), Expand(oldStr);
      Count(content, sub, 0) == 1
      && Wrote(s, Apply(s, StrReplace(path, Some(oldStr), newStr), writeOk).0, path,
               Replace(content, sub, Expand(if newStr.Some? then newStr.value else ""), 0), content)
  {
    ExpandNonempty(oldStr, 0);
  }

  lemma SpliceAt(content: string, sub: string, with: string) returns (k: nat)
    requires sub != "" && Count(content, sub, 0) == 1
    ensures UniqueAt(content, sub, k) && Replace(content, sub, with, 0) == content[..k] + with + content[k + |sub|..]
  {
    ReplaceIsSplice(content, sub, with);
    k := Find(content, sub, 0).value;
  }

  // When an insert goes through, exactly.
  lemma InsertSucceedsIff(s: State, path: string, line: Option<int>, newStr: Option<string>, writeOk: bool)
    ensures Apply(s, Insert(path, line, newStr), writeOk).1 == Done <==>
      Editable(s, path) && writeOk && newStr.Some? && line.Some? && 0 <= line.value <= |Split(Normal(s.files[path].content))|
  {}

  // A successful insert puts the new lines after line k, changes no other line and saves the text.
  lemma InsertionSplicesLines(s: State, path: string, k: int, newStr: string, writeOk: bool)
    requires Apply(s, Insert(path, Some(k), Some(newStr)), writeOk).1 == Done
    ensures Editable(s, path) && 0 <= k <= |Split(Normal(s.files[path].content))|
    ensures var before, s' := Normal(s.files[path].content), Apply(s, Insert(path, Some(k), Some(newStr)), writeOk).0;
      path in s'.files && s'.files[path].Text? && Wrote(s, s', path, s'.files[path].content, before)
      && Split(s'.files[path].content) == Split(before)[..k] + Split(Expand(newStr)) + Split(before)[k..]
  {
    InsertIsLineSplice(Normal(s.files[path].content), k, Expand(newStr));
  }

  // An undo goes through exactly if the file is there and has saved text, whatever it holds now; it
  // writes the text saved last and forgets it.
  lemma UndoDoes(s: State, path: string, writeOk: bool)
    ensures var (s', o) := Apply(s, Undo(path), writeOk);
      (o == Done <==> path != "" && path in s.files && path !in s.dirs && History(s, path) != [] && writeOk)
      && (o == Done ==> path in s'.files && s'.files[path].Text? && History(s, path) == History(s', path) + [s'.files[path].content])
  {}

  // A verbatim fragment of a file's text (as read, with its newlines normalized) is found if it
  // starts at a column divisible by eight, as every line does, or its first line has no tab.
  lemma VerbatimFound(s: State, path: string, before: string, fragment: string, after: string, newStr: Option<string>, writeOk: bool)
    requires Editable(s, path) && Newlines(s.files[path].content) == before + fragment + after
    requires ColAfter(before, 0) % 8 == 0 || !TabInFirstLine(fragment)
    ensures Apply(s, StrReplace(path, Some(fragment), newStr), writeOk).1 != Refused(NoMatch)
  {
    if fragment != "" {
      ExpandNonempty(fragment, 0);
      FragmentOccurs(before, fragment, after);
      CountZeroIff(Normal(s.files[path].content), Expand(fragment), 0);
    }
  }

  // In particular a fragment that starts a line.
  lemma LinesFound(s: State, path: string, before: string, fragment: string, after: string, newStr: Option<string>, writeOk: bool)
    requires Editable(s, path) && Newlines(s.files[path].content) == before + fragment + after
    requires before == "" || before[|before| - 1] == '\n'
    ensures Apply(s, StrReplace(path, Some(fragment), newStr), writeOk).1 != Refused(NoMatch)
  {
    if before != "" { LineStart(before, 0); }
    VerbatimFound(s, path, before, fragment, after, newStr, writeOk);
  }

  // Elsewhere tabs can get in the way: with "a", a tab and "b" in the file, the tab and "b" are refused.
  lemma TabFragmentNotFound(s: State, path: string, newStr: Option<string>, writeOk: bool)
    requires Editable(s, path) && s.files[path].content == "a\tb"
    ensures Newlines(s.files[path].content) == "a" + "\tb"
    ensures Apply(s, StrReplace(path, Some("\tb"), newStr), writeOk) == (s, Refused(NoMatch))
  {
    var content, sub := Expand("a\tb"), Expand("\tb");
    ReplaceNothing("a\tb", "\r\n", "\n");
    ReplaceNothing("a\tb", "\r", "\n");
    ExpandTab();
    CountZeroIff(content, sub, 0);
  }

  lemma ExpandTab()
    ensures |Expand("a\tb")| == 9 && |Expand("\tb")| == 9 && Expand("a\tb")[0] == 'a' && Expand("\tb")[0] == ' '
  {
    assert "a\tb"[1..] == "\tb" && "\tb"[1..] == "b" && "b"[1..] == "";
    assert ExpandFrom("", 9) == "";
    assert ExpandFrom("b", 8) == "b";
    assert ExpandFrom("\tb", 0) == seq(8, _ => ' ') + "b";
    assert ExpandFrom("\tb", 1) == seq(7, _ => ' ') + "b";
  }

  // The file's carriage returns are normalized away and those of old_str are not, so an old_str
  // with one is never found, even when it is the file's own text.
  lemma CarriageReturnNotFound(s: State, path: string, oldStr: string, newStr: Option<string>, writeOk: bool)
    requires Editable(s, path) && !Without(oldStr, '\r')
    ensures Apply(s, StrReplace(path, Some(oldStr), newStr), writeOk) == (s, Refused(NoMatch))
  {
    var content, sub := Normal(s.files[path].content), Expand(oldStr);
    ExpandNonempty(oldStr, 0);
    NormalClean(s.files[path].content);
    ExpandKeeps(oldStr, '\r', 0);
    forall j | 0 <= j ensures !Occurs(content, sub, j) {
      if Occurs(content, sub, j) { OccursWithout(content, sub, j, '\r'); }
    }
    CountZeroIff(content, sub, 0);
  }

  // ----- undo over runs -----

  function Run(s: State, cs: seq<(Command, bool)>): State {
    if cs == [] then s else Apply(Run(s, cs[..|cs| - 1]), cs[|cs| - 1].0, cs[|cs| - 1].1).0
  }

  // Saved texts have no tabs or carriage returns; true of a new tool.
  predicate CleanHistory(s: State, path: string) { forall i :: 0 <= i < |History(s, path)| ==> Clean(History(s, path)[i]) }

  // What undoing down to depth d would leave: the text saved at that depth, or the text as an edit
  // would save it; a missing file counts as empty.
  function Under(s: State, path: string, d: nat): Option<string> {
    if |History(s, path)| > d then Some(History(s, path)[d])
    else if path !in s.files then Some("")
    else if s.files[path].Binary? then None
    else Some(Normal(s.files[path].content))
  }

  // The stack keeps its first d entries, and at depth d the file is either untouched since then
  // or holds the saved text.
  ghost predicate Undoable(s0: State, s: State, path: string, d: nat) {
    && CleanHistory(s, path) && |History(s, path)| >= d && d <= |History(s0, path)|
    && History(s, path)[..d] == History(s0, path)[..d]
    && Under(s, path, d) == Under(s0, path, d)
    && (|History(s, path)| == d ==> FileKept(s0, s, path, d))
  }

  predicate FileKept(s0: State, s: State, path: string, d: nat) {
    || ((path in s.files <==> path in s0.files) && (path in s.files ==> s.files[path] == s0.files[path]))
    || (path in s.files && Under(s0, path, d).Some? && s.files[path] == File.Text(Under(s0, path, d).value))
  }

  // Every success is an edit that saves the file's text, or an undo.
  lemma DoneIsEditOrUndo(s: State, c: Command, writeOk: bool)
    requires Apply(s, c, writeOk).1 == Done
    ensures var s', path, stack := Apply(s, c, writeOk).0, c.path, History(s, c.path);
      if c.Undo? then
        stack != [] && path in s'.files && s'.files[path] == File.Text(stack[|stack| - 1])
        && History(s', path) == stack[..|stack| - 1]
      else
        path in s'.files && s'.files[path].Text? && Under(s, path, |stack|).Some?
        && History(s', path) == stack + [Under(s, path, |stack|).value]
  {}

  lemma UnderClean(s: State, path: string, d: nat)
    requires CleanHistory(s, path)
    ensures Under(s, path, d).Some? ==> Clean(Under(s, path, d).value)
  {
    if path in s.files && s.files[path].Text? { NormalClean(s.files[path].content); }
  }

  // No command that stays at or above depth d changes what undoing down to d would leave.
  lemma ApplyUndoable(s0: State, s: State, c: Command, writeOk: bool, path: string, d: nat)
    requires Undoable(s0, s, path, d) && |History(Apply(s, c, writeOk).0, path)| >= d
    ensures Undoable(s0, Apply(s, c, writeOk).0, path, d)
  {
    var s', o := Apply(s, c, writeOk).0, Apply(s, c, writeOk).1;
    if o != Done {
      FailureChangesNothing(s, c, writeOk);
    } else if c.path != path {
      OtherPathsUntouched(s, c, writeOk, path);
    } else {
      DoneIsEditOrUndo(s, c, writeOk);
      if c.Undo? { UndoUndoable(s0, s, s', path, d); } else { EditUndoable(s0, s, s', path, d); }
    }
  }

  lemma EditUndoable(s0: State, s: State, s': State, path: string, d: nat)
    requires Undoable(s0, s, path, d)
    requires var stack := History(s, path);
      Under(s, path, |stack|).Some? && History(s', path) == stack + [Under(s, path, |stack|).value]
    ensures Undoable(s0, s', path, d)
  {
    UnderClean(s, path, |History(s, path)|);
  }

  lemma UndoUndoable(s0: State, s: State, s': State, path: string, d: nat)
    requires Undoable(s0, s, path, d) && |History(s, path)| > d
    requires var stack := History(s, path);
      path in s'.files && s'.files[path] == File.Text(stack[|stack| - 1]) && History(s', path) == stack[..|stack| - 1]
    ensures Undoable(s0, s', path, d)
  {
    var stack := History(s, path);
    assert Clean(stack[|stack| - 1]);
    NormalFixed(stack[|stack| - 1]);
  }

  // The run never goes below depth d for this path.
  ghost predicate StaysAbove(s: State, cs: seq<(Command, bool)>, path: string, d: nat) {
    forall n :: 0 <= n <= |cs| ==> |History(Run(s, cs[..n]), path)| >= d
  }

  lemma {:induction false} RunUndoable(s: State, cs: seq<(Command, bool)>, path: string, d: nat)
    requires CleanHistory(s, path) && d == |History(s, path)| && StaysAbove(s, cs, path, d)
    ensures Undoable(s, Run(s, cs), path, d)
  {
    assert cs[..|cs|] == cs;
    if cs != [] {
      var init := cs[..|cs| - 1];
      forall n | 0 <= n <= |init| ensures |History(Run(s, init[..n]), path)| >= d { assert init[..n] == cs[..n]; }
      RunUndoable(s, init, path, d);
      ApplyUndoable(s, Run(s, init), cs[|cs| - 1].0, cs[|cs| - 1].1, path, d);
    }
  }

  // The text an editor would give back: as read, or empty for a file that did not exist.
  function Restored(s: State, path: string): Option<File> {
    if path !in s.files then Some(File.Text(""))
    else if s.files[path].Binary? then None
    else Some(File.Text(Normal(s.files[path].content)))
  }

  // After any run whose edits of a path are all undone again, in whatever order and with whatever
  // failures and edits of other paths between them, the file is as it was, or holds its original
  // text with tabs expanded and newlines normalized (empty if it did not exist).
  lemma UndoRestores(s: State, cs: seq<(Command, bool)>, path: string)
    requires CleanHistory(s, path) && StaysAbove(s, cs, path, |History(s, path)|)
    requires |History(Run(s, cs), path)| == |History(s, path)|
    ensures var s' := Run(s, cs);
      History(s', path) == History(s, path)
      && (SameAt(s, s', path) || (path in s'.files && Restored(s, path) == Some(s'.files[path])))
  {
    var d := |History(s, path)|;
    RunUndoable(s, cs, path, d);
    assert History(s, path)[..d] == History(s, path);
    assert History(Run(s, cs), path)[..d] == History(Run(s, cs), path);
  }

  // At some point of the run an edit of the path stood.
  predicate WasEdited(s: State, cs: seq<(Command, bool)>, path: string) {
    cs != [] && (|History(Run(s, cs), path)| > |History(s, path)| || WasEdited(s, cs[..|cs| - 1], path))
  }

  lemma PrefixStays(s: State, cs: seq<(Command, bool)>, path: string, d: nat)
    requires cs != [] && StaysAbove(s, cs, path, d)
    ensures StaysAbove(s, cs[..|cs| - 1], path, d) && |History(Run(s, cs), path)| >= d
  {
    assert cs[..|cs|] == cs;
    var init := cs[..|cs| - 1];
    forall n | 0 <= n <= |init| ensures |History(Run(s, init[..n]), path)| >= d { assert init[..n] == cs[..n]; }
  }

  // Once edited and undone again, the file holds the text that was saved.
  lemma {:induction false} EditedHoldsSaved(s: State, cs: seq<(Command, bool)>, path: string)
    requires CleanHistory(s, path) && StaysAbove(s, cs, path, |History(s, path)|)
    requires |History(Run(s, cs), path)| == |History(s, path)| && WasEdited(s, cs, path)
    ensures HoldsSaved(s, Run(s, cs), path)
    decreases |cs|
  {
    PrefixStays(s, cs, path, |History(s, path)|);
    var init := cs[..|cs| - 1];
    if |History(Run(s, init), path)| == |History(s, path)| { EditedHoldsSaved(s, init, path); }
    RunUndoable(s, init, path, |History(s, path)|);
    LastCommand(s, Run(s, init), cs[|cs| - 1].0, cs[|cs| - 1].1, path);
  }

  predicate HoldsSaved(s: State, s': State, path: string) {
    path in s'.files && Restored(s, path) == Some(s'.files[path])
  }

  // A command that ends at the starting depth restores the saved text, or finds it there and leaves it.
  lemma LastCommand(s0: State, s: State, c: Command, writeOk: bool, path: string)
    requires Undoable(s0, s, path, |History(s0, path)|)
    requires |History(s, path)| == |History(s0, path)| ==> HoldsSaved(s0, s, path)
    requires |History(Apply(s, c, writeOk).0, path)| == |History(s0, path)|
    ensures HoldsSaved(s0, Apply(s, c, writeOk).0, path)
  {
    if |History(s, path)| == |History(s0, path)| {
      SameDepthSame(s, c, writeOk, path);
    } else {
      LastUndo(s0, s, c, writeOk, path, |History(s0, path)|);
    }
  }

  // A command that keeps a path's depth keeps its file.
  lemma SameDepthSame(s: State, c: Command, writeOk: bool, path: string)
    requires |History(Apply(s, c, writeOk).0, path)| == |History(s, path)|
    ensures SameAt(s, Apply(s, c, writeOk).0, path)
  {
    var o := Apply(s, c, writeOk).1;
    if o != Done {
      FailureChangesNothing(s, c, writeOk);
    } else if c.path != path {
      OtherPathsUntouched(s, c, writeOk, path);
    } else {
      DoneIsEditOrUndo(s, c, writeOk);
    }
  }

  // A command that brings a path down to depth d writes what was saved there.
  lemma LastUndo(s0: State, s: State, c: Command, writeOk: bool, path: string, d: nat)
    requires Undoable(s0, s, path, d) && d == |History(s0, path)| < |History(s, path)|
    requires |History(Apply(s, c, writeOk).0, path)| == d
    ensures HoldsSaved(s0, Apply(s, c, writeOk).0, path)
  {
    var o := Apply(s, c, writeOk).1;
    if o != Done {
      FailureChangesNothing(s, c, writeOk);
    } else if c.path != path {
      OtherPathsUntouched(s, c, writeOk, path);
    } else {
      DoneIsEditOrUndo(s, c, writeOk);
    }
  }

  // After such a run the file is exactly as it was if and only if nothing edited it, or its text had
  // no tab and no carriage return.
  lemma UndoRestoresExactlyIff(s: State, cs: seq<(Command, bool)>, path: string)
    requires CleanHistory(s, path) && StaysAbove(s, cs, path, |History(s, path)|)
    requires |History(Run(s, cs), path)| == |History(s, path)|
    requires path in s.files && s.files[path].Text?
    ensures SameAt(s, Run(s, cs), path) <==> !WasEdited(s, cs, path) || Clean(s.files[path].content)
  {
    UndoRestores(s, cs, path);
    var content := s.files[path].content;
    NormalClean(content);
    if Clean(content) { NormalFixed(content); }
    if WasEdited(s, cs, path) { EditedHoldsSaved(s, cs, path); } else { NeverEditedSame(s, cs, path); }
  }

  lemma {:induction false} NeverEditedSame(s: State, cs: seq<(Command, bool)>, path: string)
    requires StaysAbove(s, cs, path, |History(s, path)|) && !WasEdited(s, cs, path)
    ensures SameAt(s, Run(s, cs), path)
    decreases |cs|
  {
    if cs != [] {
      var init := cs[..|cs| - 1];
      PrefixStays(s, cs, path, |History(s, path)|);
      NeverEditedSame(s, init, path);
      SameDepthSame(Run(s, init), cs[|cs| - 1].0, cs[|cs| - 1].1, path);
    }
  }

  // ----- k edits, then k undos -----

  function Undos(path: string, k: nat): seq<(Command, bool)> { seq(k, _ => (Undo(path), true)) }

  // On a nonempty stack every undo succeeds, so k undos lower the stack by k.
  lemma {:induction false} UndosLower(s: State, path: string, k: nat)
    requires path != "" && path in s.files && path !in s.dirs && k <= |History(s, path)|
    ensures var s' := Run(s, Undos(path, k));
      |History(s', path)| == |History(s, path)| - k && path in s'.files && s'.dirs == s.dirs
  {
    if k > 0 {
      assert Undos(path, k)[..k - 1] == Undos(path, k - 1);
      UndosLower(s, path, k - 1);
    }
  }

  lemma {:induction false} RunAppend(s: State, cs: seq<(Command, bool)>, ds: seq<(Command, bool)>)
    ensures Run(s, cs + ds) == Run(Run(s, cs), ds)
  {
    if ds == [] {
      assert cs + ds == cs;
    } else {
      assert (cs + ds)[..|cs + ds| - 1] == cs + ds[..|ds| - 1];
      RunAppend(s, cs, ds[..|ds| - 1]);
    }
  }

  // Edits of one path that all succeed.
  ghost predicate AllDone(s: State, cs: seq<(Command, bool)>, path: string) {
    forall n :: 0 <= n < |cs| ==> EditsAt(Run(s, cs[..n]), cs[n], path)
  }

  predicate EditsAt(s: State, c: (Command, bool), path: string) {
    c.0.path == path && !c.0.Undo? && Apply(s, c.0, c.1).1 == Done
  }

  lemma {:induction false} EditsRaise(s: State, cs: seq<(Command, bool)>, path: string)
    requires AllDone(s, cs, path)
    ensures var s' := Run(s, cs); |History(s', path)| == |History(s, path)| + |cs| && s'.dirs == s.dirs
    ensures cs != [] ==> path in Run(s, cs).files && path != "" && path !in s.dirs
  {
    if cs != [] {
      var init, c := cs[..|cs| - 1], cs[|cs| - 1];
      PrefixDone(s, cs, path, |init|);
      EditsRaise(s, init, path);
      assert EditsAt(Run(s, init), c, path);
      OneEditRaises(Run(s, init), c, path);
    }
  }

  lemma OneEditRaises(s: State, c: (Command, bool), path: string)
    requires EditsAt(s, c, path)
    ensures var s' := Apply(s, c.0, c.1).0;
      |History(s', path)| == |History(s, path)| + 1 && s'.dirs == s.dirs && path in s'.files && path != "" && path !in s.dirs
  {
    DoneIsEditOrUndo(s, c.0, c.1);
  }

  // k successful edits followed by k undos give the original text back as an editor reads it.
  lemma EditsThenUndos(s: State, cs: seq<(Command, bool)>, path: string)
    requires CleanHistory(s, path) && AllDone(s, cs, path)
    ensures var s' := Run(s, cs + Undos(path, |cs|));
      History(s', path) == History(s, path)
      && (SameAt(s, s', path) || (path in s'.files && Restored(s, path) == Some(s'.files[path])))
  {
    var undos := Undos(path, |cs|);
    UndosStayAbove(s, cs, path);
    EditsRaise(s, cs, path);
    RunAppend(s, cs, undos);
    if cs != [] { UndosLower(Run(s, cs), path, |cs|); }
    UndoRestores(s, cs + undos, path);
  }

  lemma UndosStayAbove(s: State, cs: seq<(Command, bool)>, path: string)
    requires AllDone(s, cs, path)
    ensures StaysAbove(s, cs + Undos(path, |cs|), path, |History(s, path)|)
  {
    var all := cs + Undos(path, |cs|);
    forall n | 0 <= n <= |all| ensures |History(Run(s, all[..n]), path)| >= |History(s, path)| {
      if n <= |cs| {
        assert all[..n] == cs[..n];
        PrefixDone(s, cs, path, n);
        EditsRaise(s, cs[..n], path);
      } else {
        var undos := Undos(path, n - |cs|);
        assert all[..n] == cs + undos;
        RunAppend(s, cs, undos);
        EditsRaise(s, cs, path);
        UndosLower(Run(s, cs), path, n - |cs|);
      }
    }
  }

  lemma PrefixDone(s: State, cs: seq<(Command, bool)>, path: string, n: nat)
    requires AllDone(s, cs, path) && n <= |cs|
    ensures AllDone(s, cs[..n], path)
  {
    forall m | 0 <= m < n ensures EditsAt(Run(s, cs[..n][..m]), cs[..n][m], path) { assert cs[..n][..m] == cs[..m]; }
  }
}
