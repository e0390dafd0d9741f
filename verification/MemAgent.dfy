// The memory agent: context segments, step and token budgets, and the chunk-by-chunk run.
module MemAgent {
  import opened Common

  // A message's content: a filled prompt template, or other text.
  datatype Content = Memorize(prompt: string, memory: string, chunk: string) | FinalAnswer(prompt: string, memory: string) | Text(text: string)

  datatype Msg = Msg(role: string, content: Content)

  datatype Turn = Turn(stepIdx: nat, response: string, promptTokens: int, completionTokens: int)

  // One context segment: the prompt it was built from, its messages once collected, its turns.
  datatype Segment = Segment(prompt: seq<Msg>, messages: seq<Msg>, turns: seq<Turn>)

  // maxTotal and perTurn are max_total_tokens and max_tokens_per_turn.
  datatype Config = Config(maxSteps: int, maxChunks: int, memorizeTokens: int, finalTokens: int, maxTotal: Option<int>, perTurn: Option<int>)

  datatype Reply = Reply(content: string, promptTokens: int, completionTokens: int) | QueryRaises

  // The policy sees the messages, the requested max_tokens and the number of the call.
  type Policy = (seq<Msg>, Option<int>, nat) -> Reply

  // failed counts the calls that were started and did not produce a turn.
  datatype State = State(trajectory: seq<Segment>, current: Option<Segment>, globalSteps: nat, segmentSteps: nat,
                         completion: int, messages: seq<Msg>, failed: nat)

  datatype CallOutcome = Replied(turn: Turn) | NoContext | StepLimit | TokenBudget | QueryRaised

  function Fresh(): State { State([], None, 0, 0, 0, [], 0) }

  // _collect_context_step: a segment without turns is not kept.
  function Collect(s: State): State {
    if s.current.None? || s.current.value.turns == [] then s
    else s.(trajectory := s.trajectory + [s.current.value.(messages := s.messages)], current := None)
  }

  function Update(s: State, messages: seq<Msg>): State {
    Collect(s).(current := Some(Segment(messages, [], [])), segmentSteps := 0, messages := messages)
  }

  // The max_tokens to request; the outer None is the raised budget error.
  function Limit(cfg: Config, requested: Option<int>, completion: int): Option<Option<int>> {
    var wanted := if requested.Some? then requested else cfg.perTurn;
    if cfg.maxTotal.None? then Some(wanted)
    else
      var remaining := cfg.maxTotal.value - completion;
      if remaining <= 0 then None
      else Some(Some(if wanted.Some? && wanted.value < remaining then wanted.value else remaining))
  }

  function Call(cfg: Config, policy: Policy, s: State, requested: Option<int>): (State, CallOutcome) {
    if s.current.None? then (s, NoContext)
    else if s.globalSteps >= cfg.maxSteps then (s, StepLimit)
    else
      var begun := s.(globalSteps := s.globalSteps + 1, segmentSteps := s.segmentSteps + 1);
      var limit := Limit(cfg, requested, s.completion);
      if limit.None? then (begun.(failed := s.failed + 1), TokenBudget)
      else
        var r := policy(s.messages, limit.value, begun.globalSteps);
        if r.QueryRaises? then (begun.(failed := s.failed + 1), QueryRaised)
        else
          var turn := Turn(begun.segmentSteps, r.content, r.promptTokens, r.completionTokens);
          (begun.(completion := s.completion + r.completionTokens,
                  messages := s.messages + [Msg("assistant", Text(r.content))],
                  current := Some(s.current.value.(turns := s.current.value.turns + [turn]))), Replied(turn))
  }

  // ----- what every sequence of calls keeps -----

  datatype Op = UpdateContext(messages: seq<Msg>) | StepCall(requested: Option<int>)

  function Apply(cfg: Config, policy: Policy, s: State, op: Op): State {
    match op
    case UpdateContext(messages) => Update(s, messages)
    case StepCall(requested) => Call(cfg, policy, s, requested).0
  }

  function Run(cfg: Config, policy: Policy, ops: seq<Op>): State {
    if ops == [] then Fresh() else Apply(cfg, policy, Run(cfg, policy, ops[..|ops| - 1]), ops[|ops| - 1])
  }

  // One assistant message per turn.
  function Replies(turns: seq<Turn>, n: nat): seq<Msg>
    requires n <= |turns|
  {
    if n == 0 then [] else Replies(turns, n - 1) + [Msg("assistant", Text(turns[n - 1].response))]
  }

  predicate Whole(g: Segment) { g.turns != [] && g.messages == g.prompt + Replies(g.turns, |g.turns|) }

  function Tokens(turns: seq<Turn>, n: nat): int
    requires n <= |turns|
  {
    if n == 0 then 0 else Tokens(turns, n - 1) + turns[n - 1].completionTokens
  }

  // Turns recorded, and tokens spent, in the first n segments.
  function TurnCount(segments: seq<Segment>, n: nat): nat
    requires n <= |segments|
  {
    if n == 0 then 0 else TurnCount(segments, n - 1) + |segments[n - 1].turns|
  }

  function TokenCount(segments: seq<Segment>, n: nat): int
    requires n <= |segments|
  {
    if n == 0 then 0 else TokenCount(segments, n - 1) + Tokens(segments[n - 1].turns, |segments[n - 1].turns|)
  }

  function CurrentTurns(s: State): seq<Turn> { if s.current.Some? then s.current.value.turns else [] }

  // Turns of one segment number the calls made in it, so a failed call leaves a gap.
  predicate Numbered(turns: seq<Turn>, last: nat) {
    forall i :: 0 <= i < |turns| ==> i < turns[i].stepIdx <= last && (i > 0 ==> turns[i - 1].stepIdx < turns[i].stepIdx)
  }

  ghost predicate Inv(s: State) {
    && (forall i :: 0 <= i < |s.trajectory| ==> Whole(s.trajectory[i]))
    && (s.current.Some? ==> s.messages == s.current.value.prompt + Replies(CurrentTurns(s), |CurrentTurns(s)|))
    && s.globalSteps == TurnCount(s.trajectory, |s.trajectory|) + |CurrentTurns(s)| + s.failed
    && s.completion == TokenCount(s.trajectory, |s.trajectory|) + Tokens(CurrentTurns(s), |CurrentTurns(s)|)
    && Numbered(CurrentTurns(s), s.segmentSteps)
  }

  lemma {:induction false} RepliesPrefix(turns: seq<Turn>, more: seq<Turn>, n: nat)
    requires n <= |turns|
    ensures Replies(turns + more, n) == Replies(turns, n) && Tokens(turns + more, n) == Tokens(turns, n)
  {
    if n > 0 { RepliesPrefix(turns, more, n - 1); }
  }

  lemma {:induction false} CountPrefix(segments: seq<Segment>, more: seq<Segment>, n: nat)
    requires n <= |segments|
    ensures TurnCount(segments + more, n) == TurnCount(segments, n) && TokenCount(segments + more, n) == TokenCount(segments, n)
  {
    if n > 0 { CountPrefix(segments, more, n - 1); }
  }

  lemma CollectInv(s: State)
    requires Inv(s)
    ensures Inv(Collect(s)) && CurrentTurns(Collect(s)) == []
  {
    if CurrentTurns(s) != [] {
      var g := s.current.value.(messages := s.messages);
      CountPrefix(s.trajectory, [g], |s.trajectory|);
      assert Whole(g);
    }
  }

  lemma UpdateInv(s: State, messages: seq<Msg>)
    requires Inv(s)
    ensures Inv(Update(s, messages))
  {
    CollectInv(s);
  }

  lemma CallInv(cfg: Config, policy: Policy, s: State, requested: Option<int>)
    requires Inv(s)
    ensures Inv(Call(cfg, policy, s, requested).0)
  {
    var (s', o) := Call(cfg, policy, s, requested);
    if o.Replied? {
      ReplyInv(s, s', o.turn);
    } else {
      assert CurrentTurns(s') == CurrentTurns(s) && s'.messages == s.messages;
    }
  }

  // A reply adds one turn and its message to the current segment.
  lemma ReplyInv(s: State, s': State, turn: Turn)
    requires Inv(s) && s.current.Some? && s'.current == Some(s.current.value.(turns := s.current.value.turns + [turn]))
    requires s'.trajectory == s.trajectory && s'.messages == s.messages + [Msg("assistant", Text(turn.response))]
    requires s'.globalSteps == s.globalSteps + 1 && s'.failed == s.failed && s'.completion == s.completion + turn.completionTokens
    requires s'.segmentSteps == s.segmentSteps + 1 == turn.stepIdx
    ensures Inv(s')
  {
    RepliesPrefix(CurrentTurns(s), [turn], |CurrentTurns(s)|);
  }

  // Total steps are recorded turns plus failed calls; every collected segment is nonempty and its
  // messages are its prompt plus one assistant message per turn; tokens spent are the turns' tokens.
  lemma {:induction false} RunInv(cfg: Config, policy: Policy, ops: seq<Op>)
    ensures Inv(Run(cfg, policy, ops)) && Inv(Collect(Run(cfg, policy, ops)))
  {
    if ops != [] {
      var s := Run(cfg, policy, ops[..|ops| - 1]);
      RunInv(cfg, policy, ops[..|ops| - 1]);
      match ops[|ops| - 1]
      case UpdateContext(messages) => UpdateInv(s, messages);
      case StepCall(requested) => CallInv(cfg, policy, s, requested);
    }
    CollectInv(Run(cfg, policy, ops));
  }

  // When the session closes, everything recorded is in the trajectory.
  lemma ClosedConservation(cfg: Config, policy: Policy, ops: seq<Op>)
    ensures var s := Collect(Run(cfg, policy, ops));
      s.globalSteps == TurnCount(s.trajectory, |s.trajectory|) + s.failed
      && s.completion == TokenCount(s.trajectory, |s.trajectory|)
  {
    RunInv(cfg, policy, ops);
    CollectInv(Run(cfg, policy, ops));
  }

  function Max(a: int, b: int): int { if a < b then b else a }

  lemma {:induction false} StepBound(cfg: Config, policy: Policy, ops: seq<Op>)
    ensures Run(cfg, policy, ops).globalSteps <= Max(cfg.maxSteps, 0)
  {
    if ops != [] { StepBound(cfg, policy, ops[..|ops| - 1]); }
  }

  // Every reply keeps to the requested max_tokens.
  ghost predicate Honest(policy: Policy) { forall m, limit, k :: Honours(policy(m, limit, k), limit) }

  predicate Honours(r: Reply, limit: Option<int>) {
    r.Reply? ==> r.completionTokens >= 0 && (limit.Some? ==> r.completionTokens <= limit.value)
  }

  lemma {:induction false} TokenBound(cfg: Config, policy: Policy, ops: seq<Op>)
    requires Honest(policy) && cfg.maxTotal.Some?
    ensures Run(cfg, policy, ops).completion <= Max(cfg.maxTotal.value, 0)
  {
    if ops != [] {
      var s := Run(cfg, policy, ops[..|ops| - 1]);
      TokenBound(cfg, policy, ops[..|ops| - 1]);
      match ops[|ops| - 1]
      case UpdateContext(_) =>
      case StepCall(requested) =>
        var limit := Limit(cfg, requested, s.completion);
        if limit.Some? { assert Honours(policy(s.messages, limit.value, s.globalSteps + 1), limit.value); }
    }
  }

  // Every call counts as a step unless there is no context or the steps are used up; one whose token
  // budget is spent does not reach the policy, and a reply adds its tokens, one message and one turn.
  lemma CallDoes(cfg: Config, policy: Policy, s: State, requested: Option<int>)
    ensures var (s', o) := Call(cfg, policy, s, requested);
      && (o == NoContext <==> s.current == None) && (o == StepLimit <==> s.current.Some? && s.globalSteps >= cfg.maxSteps)
      && (o.NoContext? || o.StepLimit? ==> s' == s)
      && (!o.NoContext? && !o.StepLimit? ==>
            && s'.globalSteps == s.globalSteps + 1 && s'.segmentSteps == s.segmentSteps + 1 && s'.trajectory == s.trajectory
            && (o == TokenBudget <==> cfg.maxTotal.Some? && s.completion >= cfg.maxTotal.value)
            && (o != TokenBudget ==> exists limit :: Requests(cfg, requested, s.completion, limit)
                                       && Answered(s, s', o, policy(s.messages, limit, s.globalSteps + 1)))
            && (!o.Replied? ==> s'.failed == s.failed + 1 && s'.completion == s.completion && s'.messages == s.messages && s'.current == s.current))
  {
    var limit := Limit(cfg, requested, s.completion);
    if s.current.Some? && s.globalSteps < cfg.maxSteps && limit.Some? {
      var (s', o) := Call(cfg, policy, s, requested);
      assert Requests(cfg, requested, s.completion, limit.value) && Answered(s, s', o, policy(s.messages, limit.value, s.globalSteps + 1));
    }
  }

  // The max_tokens of a call: what was asked for, else the agent's own limit, and never more than is left of the total.
  predicate Requests(cfg: Config, requested: Option<int>, spent: int, limit: Option<int>) {
    var wanted := if requested.Some? then requested else cfg.perTurn;
    match cfg.maxTotal
    case None => limit == wanted
    case Some(most) => spent < most && limit == Some(if wanted.Some? && wanted.value < most - spent then wanted.value else most - spent)
  }

  predicate Answered(s: State, s': State, o: CallOutcome, r: Reply)
    requires s.current.Some?
  {
    match r
    case QueryRaises => o == QueryRaised
    case Reply(content, promptTokens, completionTokens) =>
      && o == Replied(Turn(s.segmentSteps + 1, content, promptTokens, completionTokens))
      && s'.completion == s.completion + completionTokens && s'.messages == s.messages + [Msg("assistant", Text(content))]
      && s'.current == Some(Segment(s.current.value.prompt, s.current.value.messages, s.current.value.turns + [o.turn])) && s'.failed == s.failed
  }

  // ----- the chunk run, as a fold -----

  // What is known after some chunks: the memory, the tokens spent and the segments so far.
  datatype Chain = Chain(memory: string, completion: int, segments: seq<Segment>)

  const NO_MEMORY := "No previous memory"

  function MemoryText(memory: string): string { if memory == "" then NO_MEMORY else memory }

  // One single-turn segment, or None if the call raises. k is the number of the call.
  function Extend(cfg: Config, policy: Policy, c: Chain, content: Content, tokens: int, k: nat): Option<Chain> {
    var limit := Limit(cfg, Some(tokens), c.completion);
    if k > cfg.maxSteps || limit.None? then None
    else
      var prompt := [Msg("user", content)];
      var r := policy(prompt, limit.value, k);
      if r.QueryRaises? then None
      else
        Some(Chain(r.content, c.completion + r.completionTokens,
                   c.segments + [Segment(prompt, prompt + [Msg("assistant", Text(r.content))],
                                         [Turn(1, r.content, r.promptTokens, r.completionTokens)])]))
  }

  // The first n chunks, each read with the memory the one before left.
  function Read(cfg: Config, policy: Policy, prompt: string, chunks: seq<string>, n: nat): Option<Chain>
    requires n <= |chunks|
  {
    if n == 0 then Some(Chain("", 0, []))
    else
      var before := Read(cfg, policy, prompt, chunks, n - 1);
      if before.None? then None
      else
        Extend(cfg, policy, before.value, Memorize(prompt, MemoryText(before.value.memory), chunks[n - 1]), cfg.memorizeTokens, n)
  }

  // How many chunks are read.
  function ReadCount(cfg: Config, chunks: seq<string>): nat {
    if cfg.maxChunks < 0 then 0 else if cfg.maxChunks < |chunks| then cfg.maxChunks else |chunks|
  }

  function Answer(cfg: Config, policy: Policy, prompt: string, chunks: seq<string>): Option<Chain> {
    var n := ReadCount(cfg, chunks);
    var read := Read(cfg, policy, prompt, chunks, n);
    if read.None? then None
    else Extend(cfg, policy, read.value, FinalAnswer(prompt, MemoryText(read.value.memory)), cfg.finalTokens, n + 1)
  }

  // The memory segment i is prompted with: the response of the segment before it, unless that is empty.
  function MemoryOf(segments: seq<Segment>, i: nat): string
    requires i <= |segments|
  {
    if i == 0 || segments[i - 1].turns == [] || segments[i - 1].turns[0].response == "" then "No previous memory"
    else segments[i - 1].turns[0].response
  }

  // Segment i is one fresh context with one call, the policy's reply to this content.
  predicate Asked(cfg: Config, policy: Policy, segments: seq<Segment>, i: nat, content: Content, tokens: int, limit: Option<int>) {
    && i < |segments| && i < cfg.maxSteps && Requests(cfg, Some(tokens), TokenCount(segments, i), limit)
    && var prompt := [Msg("user", content)]; var r := policy(prompt, limit, i + 1);
       && r.Reply?
       && segments[i] == Segment(prompt, prompt + [Msg("assistant", Text(r.content))], [Turn(1, r.content, r.promptTokens, r.completionTokens)])
  }

  // Segment i reads chunk i, with the memory the segment before it left.
  ghost predicate ReadsChunk(cfg: Config, policy: Policy, segments: seq<Segment>, i: nat, prompt: string, chunks: seq<string>) {
    i < |chunks| && i <= |segments|
    && exists limit :: Asked(cfg, policy, segments, i, Memorize(prompt, MemoryOf(segments, i), chunks[i]), cfg.memorizeTokens, limit)
  }

  lemma {:induction false} ReadShape(cfg: Config, policy: Policy, prompt: string, chunks: seq<string>, n: nat)
    requires n <= |chunks| && Read(cfg, policy, prompt, chunks, n).Some?
    ensures var c := Read(cfg, policy, prompt, chunks, n).value;
      |c.segments| == n && c.completion == TokenCount(c.segments, n)
      && MemoryText(c.memory) == MemoryOf(c.segments, n)
      && forall i :: 0 <= i < n ==> ReadsChunk(cfg, policy, c.segments, i, prompt, chunks)
    decreases n
  {
    if n > 0 {
      ReadShape(cfg, policy, prompt, chunks, n - 1);
      var before, c := Read(cfg, policy, prompt, chunks, n - 1).value, Read(cfg, policy, prompt, chunks, n).value;
      ExtendAsks(cfg, policy, before, Memorize(prompt, MemoryText(before.memory), chunks[n - 1]), cfg.memorizeTokens);
      SameMemory(before.segments, c.segments[n - 1]);
      assert ReadsChunk(cfg, policy, c.segments, n - 1, prompt, chunks);
      forall i | 0 <= i < n - 1 ensures ReadsChunk(cfg, policy, c.segments, i, prompt, chunks) {
        assert ReadsChunk(cfg, policy, before.segments, i, prompt, chunks);
        StillReads(cfg, policy, before.segments, c.segments[n - 1], i, prompt, chunks);
      }
    }
  }

  // A call that succeeds adds the segment it should.
  lemma ExtendAsks(cfg: Config, policy: Policy, c: Chain, content: Content, tokens: int)
    requires c.completion == TokenCount(c.segments, |c.segments|)
    ensures var next := Extend(cfg, policy, c, content, tokens, |c.segments| + 1);
      next.Some? ==>
        && |next.value.segments| == |c.segments| + 1 && next.value.segments == c.segments + [next.value.segments[|c.segments|]]
        && next.value.completion == TokenCount(next.value.segments, |c.segments| + 1)
        && (exists limit :: Asked(cfg, policy, next.value.segments, |c.segments|, content, tokens, limit))
        && MemoryText(next.value.memory) == MemoryOf(next.value.segments, |c.segments| + 1)
        && next.value.segments[|c.segments|].turns[0].response == next.value.memory
  {
    var next := Extend(cfg, policy, c, content, tokens, |c.segments| + 1);
    if next.Some? {
      var g := next.value.segments[|c.segments|];
      CountPrefix(c.segments, [g], |c.segments|);
      assert Tokens(g.turns, 0) == 0;
      assert Asked(cfg, policy, next.value.segments, |c.segments|, content, tokens, Limit(cfg, Some(tokens), c.completion).value);
    }
  }

  lemma StillReads(cfg: Config, policy: Policy, segments: seq<Segment>, g: Segment, i: nat, prompt: string, chunks: seq<string>)
    requires i < |segments| && ReadsChunk(cfg, policy, segments, i, prompt, chunks)
    ensures ReadsChunk(cfg, policy, segments + [g], i, prompt, chunks)
  {
    CountPrefix(segments, [g], i);
    var limit :| Asked(cfg, policy, segments, i, Memorize(prompt, MemoryOf(segments, i), chunks[i]), cfg.memorizeTokens, limit);
    assert Asked(cfg, policy, segments + [g], i, Memorize(prompt, MemoryOf(segments + [g], i), chunks[i]), cfg.memorizeTokens, limit);
  }

  // A finished run has read the chunks in order, as many as max_chunks allows, and then asked for the
  // answer: one single-turn segment each, chained through the memory.
  lemma AnswerShape(cfg: Config, policy: Policy, prompt: string, chunks: seq<string>)
    requires Answer(cfg, policy, prompt, chunks).Some?
    ensures var c := Answer(cfg, policy, prompt, chunks).value; var g, n := c.segments, |c.segments| - 1;
      && n == (if Max(cfg.maxChunks, 0) < |chunks| then Max(cfg.maxChunks, 0) else |chunks|)
      && (forall i :: 0 <= i < n ==> ReadsChunk(cfg, policy, g, i, prompt, chunks))
      && (exists limit :: Asked(cfg, policy, g, n, FinalAnswer(prompt, MemoryOf(g, n)), cfg.finalTokens, limit))
      && c.memory == g[n].turns[0].response
  {
    var n := ReadCount(cfg, chunks);
    var c, g := Read(cfg, policy, prompt, chunks, n).value, Answer(cfg, policy, prompt, chunks).value.segments;
    ReadShape(cfg, policy, prompt, chunks, n);
    ExtendAsks(cfg, policy, c, FinalAnswer(prompt, MemoryText(c.memory)), cfg.finalTokens);
    forall i | 0 <= i < n ensures ReadsChunk(cfg, policy, g, i, prompt, chunks) {
      assert ReadsChunk(cfg, policy, c.segments, i, prompt, chunks);
      StillReads(cfg, policy, c.segments, g[n], i, prompt, chunks);
    }
    SameMemory(c.segments, g[n]);
  }

  lemma SameMemory(segments: seq<Segment>, g: Segment)
    ensures MemoryOf(segments + [g], |segments|) == MemoryOf(segments, |segments|)
  {}

  // The call after these segments is refused: too many steps, no tokens left, or the policy raises.
  ghost predicate Refuses(cfg: Config, policy: Policy, segments: seq<Segment>, content: Content, tokens: int) {
    var n := |segments|;
    || n >= cfg.maxSteps || (cfg.maxTotal.Some? && TokenCount(segments, n) >= cfg.maxTotal.value)
    || exists limit :: Requests(cfg, Some(tokens), TokenCount(segments, n), limit) && policy([Msg("user", content)], limit, n + 1).QueryRaises?
  }

  lemma ExtendRefuses(cfg: Config, policy: Policy, c: Chain, content: Content, tokens: int)
    requires c.completion == TokenCount(c.segments, |c.segments|)
    requires Extend(cfg, policy, c, content, tokens, |c.segments| + 1).None?
    ensures Refuses(cfg, policy, c.segments, content, tokens)
  {
    var limit := Limit(cfg, Some(tokens), c.completion);
    if limit.Some? { assert Requests(cfg, Some(tokens), c.completion, limit.value); }
  }

  // The run has read some chunks as it should, and its next call is refused.
  ghost predicate StuckAt(cfg: Config, policy: Policy, prompt: string, chunks: seq<string>, g: seq<Segment>, n: nat)
    requires n <= |chunks|
  {
    && |g| <= n && (forall i :: 0 <= i < |g| ==> ReadsChunk(cfg, policy, g, i, prompt, chunks))
    && if |g| < n then Refuses(cfg, policy, g, Memorize(prompt, MemoryOf(g, |g|), chunks[|g|]), cfg.memorizeTokens)
       else Refuses(cfg, policy, g, FinalAnswer(prompt, MemoryOf(g, n)), cfg.finalTokens)
  }

  lemma {:induction false} ReadFails(cfg: Config, policy: Policy, prompt: string, chunks: seq<string>, n: nat, m: nat) returns (g: seq<Segment>)
    requires n <= m <= |chunks| && Read(cfg, policy, prompt, chunks, n).None?
    ensures StuckAt(cfg, policy, prompt, chunks, g, m)
    decreases n
  {
    var before := Read(cfg, policy, prompt, chunks, n - 1);
    if before.None? {
      g := ReadFails(cfg, policy, prompt, chunks, n - 1, m);
    } else {
      g := before.value.segments;
      ReadShape(cfg, policy, prompt, chunks, n - 1);
      ExtendRefuses(cfg, policy, before.value, Memorize(prompt, MemoryText(before.value.memory), chunks[n - 1]), cfg.memorizeTokens);
    }
  }

  // A run fails only at a call that must be refused.
  lemma AnswerFails(cfg: Config, policy: Policy, prompt: string, chunks: seq<string>) returns (g: seq<Segment>)
    requires Answer(cfg, policy, prompt, chunks).None?
    ensures StuckAt(cfg, policy, prompt, chunks, g, if Max(cfg.maxChunks, 0) < |chunks| then Max(cfg.maxChunks, 0) else |chunks|)
  {
    var n := ReadCount(cfg, chunks);
    var read := Read(cfg, policy, prompt, chunks, n);
    if read.None? {
      g := ReadFails(cfg, policy, prompt, chunks, n, n);
    } else {
      g := read.value.segments;
      ReadShape(cfg, policy, prompt, chunks, n);
      ExtendRefuses(cfg, policy, read.value, FinalAnswer(prompt, MemoryText(read.value.memory)), cfg.finalTokens);
    }
  }

  // ----- the agent -----

  datatype Failure = NoMessages | NoChunks | Nested | Raised(outcome: CallOutcome)

  datatype RunResult = RunResult(response: string, totalSteps: nat, numContexts: nat)

  class MemAgent {
    const cfg: Config
    var trajectory: seq<Segment>
    var current: Option<Segment>
    var globalSteps: nat
    var segmentSteps: nat
    var completion: int
    var messages: seq<Msg>
    ghost var failed: nat

    ghost function Contents(): State reads this {
      State(trajectory, current, globalSteps, segmentSteps, completion, messages, failed)
    }

    constructor (config: Config)
      ensures cfg == config && Contents() == Fresh()
      ensures trajectory == [] && current == None && messages == [] && globalSteps == 0 && segmentSteps == 0 && completion == 0
    {
      cfg := config;
      trajectory, current, globalSteps, segmentSteps, completion, messages, failed := [], None, 0, 0, 0, [], 0;
    }

    method CollectContextStep()
      modifies this
      ensures Contents() == Collect(old(Contents()))
    {
      if current.None? || current.value.turns == [] { return; }
      trajectory := trajectory + [current.value.(messages := messages)];
      current := None;
    }

    method UpdateContext(conversation: seq<Msg>)
      modifies this
      ensures Contents() == Update(old(Contents()), conversation)
    {
      CollectContextStep();
      current := Some(Segment([], [], []));
      segmentSteps := 0;
      current := Some(current.value.(prompt := conversation));
      messages := conversation;
    }

    method StepOnce(policy: Policy, requested: Option<int>) returns (o: CallOutcome)
      modifies this
      ensures (Contents(), o) == Call(cfg, policy, old(Contents()), requested)
    {
      if current.None? { return NoContext; }
      if globalSteps >= cfg.maxSteps { return StepLimit; }
      globalSteps := globalSteps + 1;
      segmentSteps := segmentSteps + 1;
      var maxTokens := if requested.Some? then requested else cfg.perTurn;
      if cfg.maxTotal.Some? {
        var remaining := cfg.maxTotal.value - completion;
        if remaining <= 0 {
          failed := failed + 1;
          return TokenBudget;
        }
        maxTokens := Some(if maxTokens.Some? && maxTokens.value < remaining then maxTokens.value else remaining);
      }
      var r := policy(messages, maxTokens, globalSteps);
      if r.QueryRaises? {
        failed := failed + 1;
        return QueryRaised;
      }
      completion := completion + r.completionTokens;
      messages := messages + [Msg("assistant", Text(r.content))];
      var turn := Turn(segmentSteps, r.content, r.promptTokens, r.completionTokens);
      current := Some(current.value.(turns := current.value.turns + [turn]));
      o := Replied(turn);
    }

    // One context with one call; on success its memory and its segment are those of the fold.
    method AskOnce(policy: Policy, content: Content, tokens: int, ghost c: Chain) returns (o: CallOutcome)
      requires Follows(Contents(), c)
      modifies this
      ensures var next := Extend(cfg, policy, c, content, tokens, |c.segments| + 1);
        (o.Replied? <==> next.Some?) && (o.Replied? ==> Follows(Contents(), next.value) && o.turn.response == next.value.memory)
      ensures !o.Replied? ==> Collect(Contents()).trajectory == c.segments
    {
      UpdateContext([Msg("user", content)]);
      ghost var before := Contents();
      o := StepOnce(policy, Some(tokens));
      AskedOnce(cfg, policy, before, content, tokens, c);
    }

    // The chunk loop of run.
    method ReadChunks(policy: Policy, prompt: string, chunks: seq<string>) returns (o: CallOutcome, memory: string, ghost c: Chain)
      requires Contents() == Fresh()
      modifies this
      ensures o.Replied? ==> Follows(Contents(), c) && memory == c.memory && |c.segments| == ReadCount(cfg, chunks)
      ensures Read(cfg, policy, prompt, chunks, ReadCount(cfg, chunks)) == if o.Replied? then Some(c) else None
    {
      memory := "";
      o := Replied(Turn(0, "", 0, 0));
      c := Chain("", 0, []);
      var i := 0;
      while i < |chunks| && globalSteps < cfg.maxChunks
        invariant i <= ReadCount(cfg, chunks) && o.Replied?
        invariant Read(cfg, policy, prompt, chunks, i) == Some(c)
        invariant Follows(Contents(), c) && memory == c.memory && |c.segments| == i
      {
        o := AskOnce(policy, Memorize(prompt, if memory == "" then NO_MEMORY else memory, chunks[i]), cfg.memorizeTokens, c);
        if !o.Replied? {
          Stuck(cfg, policy, prompt, chunks, i + 1, ReadCount(cfg, chunks));
          return;
        }
        memory := o.turn.response;
        ReadShape(cfg, policy, prompt, chunks, i + 1);
        c := Read(cfg, policy, prompt, chunks, i + 1).value;
        i := i + 1;
      }
    }

    // run: read the chunks, then answer. The session collects the last segment in any case.
    method Run(policy: Policy, prompts: seq<Msg>, prompt: string, chunks: Option<seq<string>>)
      returns (r: Result<RunResult, Failure>)
      requires Contents() == Fresh()
      modifies this
      ensures prompts == [] ==> r == Err(NoMessages)
      ensures prompts != [] && chunks.None? ==> r == Err(NoChunks)
      ensures prompts != [] && chunks.Some? ==>
        (r.Ok? <==> Answer(cfg, policy, prompt, chunks.value).Some?) && (r.Err? ==> r.error.Raised?)
      ensures r.Ok? ==> chunks.Some? && Answer(cfg, policy, prompt, chunks.value).Some?
      ensures r.Ok? ==> var c := Answer(cfg, policy, prompt, chunks.value).value;
        trajectory == c.segments && r.value == RunResult(c.memory, |c.segments|, |c.segments|)
    {
      if prompts == [] { return Err(NoMessages); }
      if chunks.None? { return Err(NoChunks); }
      var o, memory;
      ghost var c;
      o, memory, c := ReadChunks(policy, prompt, chunks.value);
      if !o.Replied? {
        CollectContextStep();
        return Err(Raised(o));
      }
      o := AskOnce(policy, FinalAnswer(prompt, if memory == "" then NO_MEMORY else memory), cfg.finalTokens, c);
      CollectContextStep();
      if !o.Replied? { return Err(Raised(o)); }
      var last := trajectory[|trajectory| - 1];
      r := Ok(RunResult(if last.turns != [] then last.turns[|last.turns| - 1].response else "", globalSteps, |trajectory|));
    }
  }

  // The agent's state after the fold's chain: the segments are collected, or will be.
  predicate Follows(s: State, c: Chain) {
    && Collect(s).trajectory == c.segments && s.completion == c.completion && s.globalSteps == |c.segments|
    && (c.segments != [] ==> |c.segments[|c.segments| - 1].turns| == 1 && c.segments[|c.segments| - 1].turns[0].response == c.memory)
  }

  // One call in a fresh context extends the chain as the fold does.
  lemma AskedOnce(cfg: Config, policy: Policy, s: State, content: Content, tokens: int, c: Chain)
    requires s.trajectory == c.segments && s.completion == c.completion && s.globalSteps == |c.segments| && s.segmentSteps == 0
    requires s.messages == [Msg("user", content)] && s.current == Some(Segment(s.messages, [], []))
    ensures var (s', o) := Call(cfg, policy, s, Some(tokens)); var next := Extend(cfg, policy, c, content, tokens, |c.segments| + 1);
      (o.Replied? <==> next.Some?) && (o.Replied? ==> Follows(s', next.value) && o.turn.response == next.value.memory)
      && (!o.Replied? ==> Collect(s').trajectory == c.segments)
  {
    var (s', o) := Call(cfg, policy, s, Some(tokens));
    if o.Replied? {
      assert s'.current.value.turns == [o.turn];
      assert Collect(s').trajectory == c.segments + [Segment(s.messages, s'.messages, [o.turn])];
    }
  }

  // ----- the chunk run is a sequence of calls -----

  function AskOps(content: Content, tokens: int): seq<Op> { [UpdateContext([Msg("user", content)]), StepCall(Some(tokens))] }

  lemma RunAsked(cfg: Config, policy: Policy, ops: seq<Op>, content: Content, tokens: int)
    ensures Run(cfg, policy, ops + AskOps(content, tokens))
      == Call(cfg, policy, Update(Run(cfg, policy, ops), [Msg("user", content)]), Some(tokens)).0
  {
    var all := ops + AskOps(content, tokens);
    assert all[..|all| - 1] == ops + [UpdateContext([Msg("user", content)])];
    assert all[..|all| - 1][..|ops|] == ops;
  }

  lemma ExtendIsRun(cfg: Config, policy: Policy, ops: seq<Op>, c: Chain, content: Content, tokens: int)
    requires Follows(Run(cfg, policy, ops), c)
    ensures var next := Extend(cfg, policy, c, content, tokens, |c.segments| + 1);
      next.Some? ==> Follows(Run(cfg, policy, ops + AskOps(content, tokens)), next.value)
  {
    RunAsked(cfg, policy, ops, content, tokens);
    AskedOnce(cfg, policy, Update(Run(cfg, policy, ops), [Msg("user", content)]), content, tokens, c);
  }

  lemma {:induction false} ReadIsRun(cfg: Config, policy: Policy, prompt: string, chunks: seq<string>, n: nat) returns (ops: seq<Op>)
    requires n <= |chunks| && Read(cfg, policy, prompt, chunks, n).Some?
    ensures Follows(Run(cfg, policy, ops), Read(cfg, policy, prompt, chunks, n).value)
    decreases n
  {
    ops := [];
    if n > 0 {
      var before := Read(cfg, policy, prompt, chunks, n - 1).value;
      var content := Memorize(prompt, MemoryText(before.memory), chunks[n - 1]);
      var init := ReadIsRun(cfg, policy, prompt, chunks, n - 1);
      ReadShape(cfg, policy, prompt, chunks, n - 1);
      ExtendIsRun(cfg, policy, init, before, content, cfg.memorizeTokens);
      ops := init + AskOps(content, cfg.memorizeTokens);
    }
  }

  lemma AnswerIsRun(cfg: Config, policy: Policy, prompt: string, chunks: seq<string>) returns (ops: seq<Op>)
    requires Answer(cfg, policy, prompt, chunks).Some?
    ensures Follows(Run(cfg, policy, ops), Answer(cfg, policy, prompt, chunks).value)
  {
    var n := ReadCount(cfg, chunks);
    var read := Read(cfg, policy, prompt, chunks, n).value;
    var content := FinalAnswer(prompt, MemoryText(read.memory));
    var init := ReadIsRun(cfg, policy, prompt, chunks, n);
    ReadShape(cfg, policy, prompt, chunks, n);
    ExtendIsRun(cfg, policy, init, read, content, cfg.finalTokens);
    ops := init + AskOps(content, cfg.finalTokens);
  }

  // A finished chunk run is one of the sequences of calls whose bounds hold, so it keeps both budgets.
  lemma AnswerWithinBudgets(cfg: Config, policy: Policy, prompt: string, chunks: seq<string>) returns (ops: seq<Op>)
    requires Answer(cfg, policy, prompt, chunks).Some?
    ensures Follows(Run(cfg, policy, ops), Answer(cfg, policy, prompt, chunks).value)
    ensures var g := Answer(cfg, policy, prompt, chunks).value.segments;
      |g| <= Max(cfg.maxSteps, 0)
      && (Honest(policy) && cfg.maxTotal.Some? ==> TokenCount(g, |g|) <= Max(cfg.maxTotal.value, 0))
  {
    ops := AnswerIsRun(cfg, policy, prompt, chunks);
    var s, c := Run(cfg, policy, ops), Answer(cfg, policy, prompt, chunks).value;
    FollowsCount(cfg, policy, ops, c);
    StepBound(cfg, policy, ops);
    if Honest(policy) && cfg.maxTotal.Some? { TokenBound(cfg, policy, ops); }
  }

  lemma FollowsCount(cfg: Config, policy: Policy, ops: seq<Op>, c: Chain)
    requires Follows(Run(cfg, policy, ops), c)
    ensures c.completion == TokenCount(c.segments, |c.segments|)
  {
    ClosedConservation(cfg, policy, ops);
  }

  // Once a chunk's call has raised, so has the run.
  lemma {:induction false} Stuck(cfg: Config, policy: Policy, prompt: string, chunks: seq<string>, i: nat, n: nat)
    requires i <= n <= |chunks| && Read(cfg, policy, prompt, chunks, i).None?
    ensures Read(cfg, policy, prompt, chunks, n).None?
  {
    if i < n { Stuck(cfg, policy, prompt, chunks, i, n - 1); }
  }
}
