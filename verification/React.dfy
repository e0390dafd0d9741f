// The ReAct agent loop: query the policy, run its tool calls, stop on a budget or a finish.
module React {
  import opened Common

  datatype ToolCall = ToolCall(id: string, name: string, arguments: string)

  datatype Message =
    | Plain(role: string, content: string)
    | Assistant(content: string, calls: seq<ToolCall>)
    | Tool(id: string, name: string, content: string)

  datatype Status = StatusOk | StatusTimeout | StatusOther

  // What a tool and the policy do when called; either may raise.
  datatype ToolReply = Observed(status: Status, observation: string) | ToolRaises(error: string)

  datatype Reply = Reply(content: string, calls: seq<ToolCall>, tokens: int, truncated: bool) | QueryRaises(error: string)

  // maxTotal and perTurn are max_total_tokens and max_tokens_per_turn.
  datatype Config = Config(maxSteps: int, timeoutBudget: int, maxTotal: Option<int>, perTurn: Option<int>)

  datatype Info = Info(steps: nat, toolCalls: nat, timeouts: nat, errors: nat, totalTokens: int)

  datatype Query = Query(transcript: seq<Message>, maxTokens: Option<int>)

  // queries records what the policy was asked, in order.
  datatype State = State(transcript: seq<Message>, info: Info, queries: seq<Query>)

  datatype Stop = Completed | Finished | TokenLimit | TimeoutLimit | MaxSteps | QueryRaised | ToolRaised

  // The policy and the tools may answer differently at every step and call.
  type Policy = (nat, Query) -> Reply

  type Tools = (nat, nat, ToolCall) -> ToolReply

  const SKIPPED := "Skipped: timeout budget exhausted."

  predicate IsFinishTool(name: string) { name == "submit" || name == "finish" }

  // ----- what the loop computes -----

  // None when the token budget is spent; else the max_tokens to send, if any.
  function TurnLimit(cfg: Config, totalTokens: int): Option<Option<int>> {
    var limit := if cfg.perTurn.Some? && cfg.perTurn.value != 0 then cfg.perTurn else cfg.maxTotal;
    if cfg.maxTotal.None? then Some(limit)
    else
      var remaining := cfg.maxTotal.value - totalTokens;
      if remaining <= 0 then None else Some(Some(if limit.value < remaining then limit.value else remaining))
  }

  function Answer(call: ToolCall, content: string): Message { Tool(call.id, call.name, content) }

  // The calls from i on are answered without being run.
  function Skip(calls: seq<ToolCall>, i: nat): seq<Message>
    requires i <= |calls|
    decreases |calls| - i
  {
    if i == |calls| then [] else [Answer(calls[i], SKIPPED)] + Skip(calls, i + 1)
  }

  // The state after one tool call ran.
  function Observe(s: State, call: ToolCall, r: ToolReply): State
    requires r.Observed?
  {
    var info := s.info.(toolCalls := s.info.toolCalls + 1,
                        timeouts := s.info.timeouts + if r.status.StatusTimeout? then 1 else 0,
                        errors := s.info.errors + if r.status.StatusOther? then 1 else 0);
    s.(transcript := s.transcript + [Answer(call, r.observation)], info := info)
  }

  function Dispatch(cfg: Config, tools: Tools, s: State, calls: seq<ToolCall>, i: nat, sawFinish: bool): (State, Stop)
    requires i <= |calls|
    decreases |calls| - i
  {
    if i == |calls| then (s, if sawFinish then Finished else Completed)
    else
      var r := tools(s.info.steps, i, calls[i]);
      if r.ToolRaises? then (s, ToolRaised)
      else
        var s' := Observe(s, calls[i], r);
        if s'.info.timeouts > cfg.timeoutBudget then
          (s'.(transcript := s'.transcript + Skip(calls, i + 1)), TimeoutLimit)
        else Dispatch(cfg, tools, s', calls, i + 1, sawFinish || (IsFinishTool(calls[i].name) && r.status.StatusOk?))
  }

  // The state after the policy replied.
  function Hear(s: State, q: Query, r: Reply): State
    requires r.Reply?
  {
    State(s.transcript + [Assistant(r.content, r.calls)], s.info.(totalTokens := r.tokens), s.queries + [q])
  }

  function Step(cfg: Config, policy: Policy, tools: Tools, s: State): (State, Stop) {
    var limit := TurnLimit(cfg, s.info.totalTokens);
    if limit.None? then (s, TokenLimit)
    else
      var q := Query(s.transcript, limit.value);
      var r := policy(s.info.steps, q);
      if r.QueryRaises? then (s.(queries := s.queries + [q]), QueryRaised)
      else
        var s' := Hear(s, q, r);
        if (cfg.maxTotal.Some? && r.tokens >= cfg.maxTotal.value) || r.truncated then (s', TokenLimit)
        else if r.calls == [] then (s', Finished)
        else Dispatch(cfg, tools, s', r.calls, 0, false)
  }

  // Steps from step onwards.
  function Loop(cfg: Config, policy: Policy, tools: Tools, s: State, step: nat): (State, Stop)
    decreases cfg.maxSteps - step
  {
    if step > cfg.maxSteps then (s, MaxSteps)
    else
      var (s', stop) := Step(cfg, policy, tools, s.(info := s.info.(steps := step)));
      if stop != Completed then (s', stop) else Loop(cfg, policy, tools, s', step + 1)
  }

  function Start(messages: seq<Message>): State { State(messages, Info(0, 0, 0, 0, 0), []) }

  // ----- the agent -----

  class ReActAgent {
    const cfg: Config
    var transcript: seq<Message>
    var info: Info
    ghost var queries: seq<Query>

    ghost function Contents(): State reads this { State(transcript, info, queries) }

    constructor (config: Config, messages: seq<Message>)
      ensures cfg == config && Contents() == Start(messages)
      ensures transcript == messages && info == Info(0, 0, 0, 0, 0) && queries == []
    {
      cfg := config;
      transcript, info, queries := messages, Info(0, 0, 0, 0, 0), [];
    }

    // The dispatch loop of step.
    method RunCalls(tools: Tools, calls: seq<ToolCall>) returns (stop: Stop)
      modifies this
      ensures (Contents(), stop) == Dispatch(cfg, tools, old(Contents()), calls, 0, false)
    {
      var sawFinish := false;
      for i := 0 to |calls|
        invariant Dispatch(cfg, tools, old(Contents()), calls, 0, false) == Dispatch(cfg, tools, Contents(), calls, i, sawFinish)
      {
        var r := tools(info.steps, i, calls[i]);
        if r.ToolRaises? { return ToolRaised; }
        info := info.(toolCalls := info.toolCalls + 1);
        if r.status.StatusTimeout? {
          info := info.(timeouts := info.timeouts + 1);
        } else if !r.status.StatusOk? {
          info := info.(errors := info.errors + 1);
        }
        transcript := transcript + [Tool(calls[i].id, calls[i].name, r.observation)];
        if info.timeouts > cfg.timeoutBudget {
          FillSkipped(calls, i + 1);
          return TimeoutLimit;
        }
        if IsFinishTool(calls[i].name) && r.status.StatusOk? { sawFinish := true; }
      }
      stop := if sawFinish then Finished else Completed;
    }

    method FillSkipped(calls: seq<ToolCall>, from: nat)
      requires from <= |calls|
      modifies this`transcript
      ensures transcript == old(transcript) + Skip(calls, from)
    {
      var i := from;
      while i < |calls|
        invariant from <= i <= |calls|
        invariant transcript + Skip(calls, i) == old(transcript) + Skip(calls, from)
      {
        transcript := transcript + [Tool(calls[i].id, calls[i].name, SKIPPED)];
        i := i + 1;
      }
    }

    method StepOnce(policy: Policy, tools: Tools) returns (stop: Stop)
      modifies this
      ensures (Contents(), stop) == Step(cfg, policy, tools, old(Contents()))
    {
      var limit := if cfg.perTurn.Some? && cfg.perTurn.value != 0 then cfg.perTurn else cfg.maxTotal;
      if cfg.maxTotal.Some? {
        var remaining := cfg.maxTotal.value - info.totalTokens;
        if remaining <= 0 { return TokenLimit; }
        limit := Some(if limit.value < remaining then limit.value else remaining);
      }
      var q := Query(transcript, limit);
      queries := queries + [q];
      var r := policy(info.steps, q);
      if r.QueryRaises? { return QueryRaised; }
      info := info.(totalTokens := r.tokens);
      transcript := transcript + [Assistant(r.content, r.calls)];
      if cfg.maxTotal.Some? && info.totalTokens >= cfg.maxTotal.value { return TokenLimit; }
      if r.truncated { return TokenLimit; }
      if r.calls == [] { return Finished; }
      stop := RunCalls(tools, r.calls);
    }

    // run: entering or leaving the toolbox may raise as well.
    method Run(policy: Policy, tools: Tools, entered: bool, left: bool) returns (finished: bool, stop: Stop)
      requires info.steps == 0
      modifies this
      ensures !entered ==> Contents() == old(Contents()) && stop == ToolRaised && !finished
      ensures entered ==> (Contents(), stop) == Loop(cfg, policy, tools, old(Contents()), 1)
      ensures entered ==> (finished <==> stop == Finished && left)
    {
      if !entered { return false, ToolRaised; }
      stop := Completed;
      var step := 1;
      while step <= cfg.maxSteps && stop == Completed
        invariant 1 <= step
        invariant if stop == Completed then Loop(cfg, policy, tools, old(Contents()), 1) == Loop(cfg, policy, tools, Contents(), step)
                  else Loop(cfg, policy, tools, old(Contents()), 1) == (Contents(), stop)
        decreases cfg.maxSteps - step, stop == Completed
      {
        info := info.(steps := step);
        stop := StepOnce(policy, tools);
        if stop == Completed { step := step + 1; }
      }
      if stop == Completed { stop := MaxSteps; }
      finished := stop == Finished && left;
    }
  }

  // ----- well-formed transcripts -----

  // The tool messages t[at..] begin with the answers to calls, one each, in order.
  predicate Answered(t: seq<Message>, at: nat, calls: seq<ToolCall>) {
    at + |calls| <= |t| && Answers(t[at..at + |calls|], calls, 0)
  }

  // The messages answer the calls from i on, as far as they go.
  predicate Answers(ms: seq<Message>, calls: seq<ToolCall>, i: nat) {
    i + |ms| <= |calls| && forall k :: 0 <= k < |ms| ==> AnswersCall(ms[k], calls[i + k])
  }

  predicate AnswersCall(m: Message, call: ToolCall) { m.Tool? && m.id == call.id && m.name == call.name }

  // From i on, every assistant message's calls are answered at once and no other tool message occurs.
  predicate Complete(t: seq<Message>, i: nat)
    requires i <= |t|
    decreases |t| - i
  {
    i == |t| || match t[i]
                case Plain(_, _) => Complete(t, i + 1)
                case Assistant(_, calls) => Answered(t, i + 1, calls) && Complete(t, i + 1 + |calls|)
                case Tool(_, _, _) => false
  }

  predicate WellFormed(t: seq<Message>) { Complete(t, 0) }

  // A well-formed transcript stays so exactly when what follows is well-formed by itself.
  lemma {:induction false} CompleteAppend(t: seq<Message>, more: seq<Message>, i: nat)
    requires i <= |t| && Complete(t, i)
    ensures Complete(t + more, i) <==> Complete(more, 0)
    decreases |t| - i
  {
    if i == |t| {
      CompleteShift(t, more, 0);
    } else {
      match t[i]
      case Plain(_, _) => CompleteAppend(t, more, i + 1);
      case Assistant(_, calls) =>
        CompleteAppend(t, more, i + 1 + |calls|);
        assert (t + more)[i + 1..i + 1 + |calls|] == t[i + 1..i + 1 + |calls|];
    }
  }

  lemma {:induction false} CompleteShift(t: seq<Message>, more: seq<Message>, i: nat)
    requires i <= |more|
    ensures Complete(t + more, |t| + i) <==> Complete(more, i)
    decreases |more| - i
  {
    if i < |more| {
      match more[i]
      case Plain(_, _) => CompleteShift(t, more, i + 1);
      case Tool(_, _, _) =>
      case Assistant(_, calls) =>
        if i + 1 + |calls| <= |more| {
          CompleteShift(t, more, i + 1 + |calls|);
          AnsweredShift(t, more, i + 1, calls);
        }
    }
  }

  lemma AnsweredShift(t: seq<Message>, more: seq<Message>, at: nat, calls: seq<ToolCall>)
    ensures Answered(t + more, |t| + at, calls) <==> Answered(more, at, calls)
  {
    if at + |calls| <= |more| {
      assert (t + more)[|t| + at..|t| + at + |calls|] == more[at..at + |calls|];
    }
  }

  // ----- what each step keeps -----

  lemma AnswersCons(m: Message, ms: seq<Message>, calls: seq<ToolCall>, i: nat)
    requires i < |calls| && AnswersCall(m, calls[i]) && Answers(ms, calls, i + 1)
    ensures Answers([m] + ms, calls, i)
  {
    forall k | 0 <= k < |[m] + ms| ensures AnswersCall(([m] + ms)[k], calls[i + k]) {
      if k > 0 { assert AnswersCall(ms[k - 1], calls[i + 1 + (k - 1)]); }
    }
  }

  lemma {:induction false} SkipAnswers(calls: seq<ToolCall>, i: nat)
    requires i <= |calls|
    ensures |Skip(calls, i)| == |calls| - i && Answers(Skip(calls, i), calls, i)
    decreases |calls| - i
  {
    if i < |calls| {
      SkipAnswers(calls, i + 1);
      AnswersCons(Answer(calls[i], SKIPPED), Skip(calls, i + 1), calls, i);
    }
  }

  // The dispatch of calls from i on adds one answer per call, or fewer if a tool raised.
  lemma {:induction false} DispatchAdds(cfg: Config, tools: Tools, s: State, calls: seq<ToolCall>, i: nat, sawFinish: bool)
    returns (ms: seq<Message>)
    requires i <= |calls|
    ensures var (s', stop) := Dispatch(cfg, tools, s, calls, i, sawFinish);
      s'.transcript == s.transcript + ms && Answers(ms, calls, i) && (i + |ms| == |calls| <==> stop != ToolRaised)
      && s'.queries == s.queries && s'.info.steps == s.info.steps
    decreases |calls| - i
  {
    ms := [];
    if i < |calls| {
      var r := tools(s.info.steps, i, calls[i]);
      if r.Observed? {
        var s1, answer := Observe(s, calls[i], r), Answer(calls[i], r.observation);
        if s1.info.timeouts > cfg.timeoutBudget {
          SkipAnswers(calls, i + 1);
          ms := Skip(calls, i + 1);
        } else {
          ms := DispatchAdds(cfg, tools, s1, calls, i + 1, sawFinish || (IsFinishTool(calls[i].name) && r.status.StatusOk?));
        }
        AnswersCons(answer, ms, calls, i);
        assert s.transcript + [answer] + ms == s.transcript + ([answer] + ms);
        ms := [answer] + ms;
      }
    }
  }

  predicate EndsWithCalls(t: seq<Message>) { t != [] && t[|t| - 1].Assistant? && t[|t| - 1].calls != [] }

  // An assistant message followed by answers to its calls, all or only some.
  lemma TurnWellFormed(t: seq<Message>, m: Message, answers: seq<Message>)
    requires WellFormed(t) && m.Assistant? && Answers(answers, m.calls, 0)
    ensures WellFormed(t + ([m] + answers)) <==> |answers| == |m.calls|
  {
    var turn := [m] + answers;
    CompleteAppend(t, turn, 0);
    if |answers| == |m.calls| {
      assert turn[1..1 + |m.calls|] == answers;
      assert Complete(turn, |turn|);
    }
  }

  // From a well-formed transcript, a step queries it once at most and leaves it well-formed unless
  // it hits the token limit with calls pending or a tool raises.
  lemma StepWellFormed(cfg: Config, policy: Policy, tools: Tools, s: State)
    requires WellFormed(s.transcript)
    ensures var (s', stop) := Step(cfg, policy, tools, s);
      (WellFormed(s'.transcript) <==> stop != ToolRaised && !(stop == TokenLimit && EndsWithCalls(s'.transcript)))
      && (s'.queries == s.queries || exists q :: s'.queries == s.queries + [q] && q.transcript == s.transcript)
      && s'.info.steps == s.info.steps
  {
    var limit := TurnLimit(cfg, s.info.totalTokens);
    WellFormedEnd(s.transcript, 0);
    if limit.Some? {
      var q := Query(s.transcript, limit.value);
      var r := policy(s.info.steps, q);
      if r.Reply? { ReplyWellFormed(cfg, policy, tools, s, q, r); }
    }
  }

  // A well-formed transcript has no calls pending.
  lemma {:induction false} WellFormedEnd(t: seq<Message>, i: nat)
    requires i <= |t| && Complete(t, i)
    ensures i < |t| ==> !EndsWithCalls(t)
    decreases |t| - i
  {
    if i < |t| {
      match t[i]
      case Plain(_, _) => WellFormedEnd(t, i + 1);
      case Assistant(_, calls) =>
        WellFormedEnd(t, i + 1 + |calls|);
        if calls != [] && i + 1 + |calls| == |t| {
          assert AnswersCall(t[i + 1..i + 1 + |calls|][|calls| - 1], calls[0 + (|calls| - 1)]);
        }
    }
  }

  lemma ReplyWellFormed(cfg: Config, policy: Policy, tools: Tools, s: State, q: Query, r: Reply)
    requires WellFormed(s.transcript) && TurnLimit(cfg, s.info.totalTokens) == Some(q.maxTokens) && q.transcript == s.transcript
    requires r.Reply? && r == policy(s.info.steps, q)
    ensures var (s', stop) := Step(cfg, policy, tools, s);
      (WellFormed(s'.transcript) <==> stop != ToolRaised && !(stop == TokenLimit && EndsWithCalls(s'.transcript)))
      && s'.queries == s.queries + [q] && s'.info.steps == s.info.steps
  {
    var m, heard := Assistant(r.content, r.calls), Hear(s, q, r);
    var (s', stop) := Step(cfg, policy, tools, s);
    assert q == Query(s.transcript, q.maxTokens);
    if (cfg.maxTotal.Some? && r.tokens >= cfg.maxTotal.value) || r.truncated || r.calls == [] {
      TurnWellFormed(s.transcript, m, []);
      assert [m] + [] == [m];
    } else {
      var answers := DispatchAdds(cfg, tools, heard, r.calls, 0, false);
      DispatchStops(cfg, tools, heard, r.calls, 0, false);
      assert s'.transcript == s.transcript + ([m] + answers);
      TurnWellFormed(s.transcript, m, answers);
    }
  }

  lemma {:induction false} DispatchStops(cfg: Config, tools: Tools, s: State, calls: seq<ToolCall>, i: nat, sawFinish: bool)
    requires i <= |calls|
    ensures var stop := Dispatch(cfg, tools, s, calls, i, sawFinish).1;
      stop == Finished || stop == Completed || stop == TimeoutLimit || stop == ToolRaised
    decreases |calls| - i
  {
    if i < |calls| {
      var r := tools(s.info.steps, i, calls[i]);
      if r.Observed? {
        var s' := Observe(s, calls[i], r);
        if s'.info.timeouts <= cfg.timeoutBudget {
          DispatchStops(cfg, tools, s', calls, i + 1, sawFinish || (IsFinishTool(calls[i].name) && r.status.StatusOk?));
        }
      }
    }
  }

  predicate QueriesWellFormed(s: State) { forall i :: 0 <= i < |s.queries| ==> WellFormed(s.queries[i].transcript) }

  // ----- the whole episode -----

  // Every query of an episode sees a well-formed transcript, and the final one is well-formed
  // unless the token limit left calls pending or a tool raised.
  lemma {:induction false} LoopWellFormed(cfg: Config, policy: Policy, tools: Tools, s: State, step: nat)
    requires WellFormed(s.transcript) && QueriesWellFormed(s)
    ensures var (s', stop) := Loop(cfg, policy, tools, s, step);
      QueriesWellFormed(s')
      && (WellFormed(s'.transcript) <==> stop != ToolRaised && !(stop == TokenLimit && EndsWithCalls(s'.transcript)))
    decreases cfg.maxSteps - step
  {
    if step <= cfg.maxSteps {
      var now := s.(info := s.info.(steps := step));
      StepWellFormed(cfg, policy, tools, now);
      var (s', stop) := Step(cfg, policy, tools, now);
      if stop == Completed { LoopWellFormed(cfg, policy, tools, s', step + 1); }
    }
  }

  function Max(a: int, b: int): int { if a < b then b else a }

  lemma {:induction false} DispatchTimeouts(cfg: Config, tools: Tools, s: State, calls: seq<ToolCall>, i: nat, sawFinish: bool)
    requires i <= |calls| && s.info.timeouts <= Max(cfg.timeoutBudget, 0)
    ensures var (s', stop) := Dispatch(cfg, tools, s, calls, i, sawFinish);
      s'.info.timeouts <= Max(cfg.timeoutBudget, 0) + 1 && (stop == Completed ==> s'.info.timeouts <= Max(cfg.timeoutBudget, 0))
    decreases |calls| - i
  {
    if i < |calls| {
      var r := tools(s.info.steps, i, calls[i]);
      if r.Observed? {
        var s' := Observe(s, calls[i], r);
        if s'.info.timeouts <= cfg.timeoutBudget {
          DispatchTimeouts(cfg, tools, s', calls, i + 1, sawFinish || (IsFinishTool(calls[i].name) && r.status.StatusOk?));
        }
      }
    }
  }

  // Steps never exceed max_steps and timeouts exceed the budget by at most one.
  lemma {:induction false} LoopBudgets(cfg: Config, policy: Policy, tools: Tools, s: State, step: nat)
    requires 0 < step && s.info.steps < step && s.info.steps <= Max(cfg.maxSteps, 0)
    requires s.info.timeouts <= Max(cfg.timeoutBudget, 0)
    ensures var s' := Loop(cfg, policy, tools, s, step).0;
      s'.info.steps <= Max(cfg.maxSteps, 0) && s'.info.timeouts <= Max(cfg.timeoutBudget, 0) + 1
    decreases cfg.maxSteps - step
  {
    if step <= cfg.maxSteps {
      var now := s.(info := s.info.(steps := step));
      StepBudgets(cfg, policy, tools, now);
      var (s', stop) := Step(cfg, policy, tools, now);
      if stop == Completed { LoopBudgets(cfg, policy, tools, s', step + 1); }
    }
  }

  lemma StepBudgets(cfg: Config, policy: Policy, tools: Tools, s: State)
    requires s.info.timeouts <= Max(cfg.timeoutBudget, 0)
    ensures var (s', stop) := Step(cfg, policy, tools, s);
      s'.info.steps == s.info.steps && s'.info.timeouts <= Max(cfg.timeoutBudget, 0) + 1
      && (stop == Completed ==> s'.info.timeouts <= Max(cfg.timeoutBudget, 0))
  {
    var limit := TurnLimit(cfg, s.info.totalTokens);
    if limit.Some? {
      var q := Query(s.transcript, limit.value);
      var r := policy(s.info.steps, q);
      if r.Reply? {
        DispatchTimeouts(cfg, tools, Hear(s, q, r), r.calls, 0, false);
        var ms := DispatchAdds(cfg, tools, Hear(s, q, r), r.calls, 0, false);
      }
    }
  }

  // A whole episode from a well-formed prompt.
  lemma Episode(cfg: Config, policy: Policy, tools: Tools, messages: seq<Message>)
    requires WellFormed(messages)
    ensures var (s, stop) := Loop(cfg, policy, tools, Start(messages), 1);
      QueriesWellFormed(s)
      && (WellFormed(s.transcript) <==> stop != ToolRaised && !(stop == TokenLimit && EndsWithCalls(s.transcript)))
      && s.info.steps <= Max(cfg.maxSteps, 0) && s.info.timeouts <= Max(cfg.timeoutBudget, 0) + 1
  {
    LoopWellFormed(cfg, policy, tools, Start(messages), 1);
    LoopBudgets(cfg, policy, tools, Start(messages), 1);
  }

  // ----- what a turn does, spelled out -----

  // How many of the calls a..b ended with this status.
  function Ended(tools: Tools, step: nat, calls: seq<ToolCall>, a: nat, b: nat, status: Status): nat
    requires a <= b <= |calls|
  {
    if a == b then 0
    else
      var r := tools(step, b - 1, calls[b - 1]);
      Ended(tools, step, calls, a, b - 1, status) + if r.Observed? && r.status == status then 1 else 0
  }

  lemma {:induction false} EndedFirst(tools: Tools, step: nat, calls: seq<ToolCall>, a: nat, b: nat, status: Status)
    requires a < b <= |calls|
    ensures var r := tools(step, a, calls[a]);
      Ended(tools, step, calls, a, b, status)
      == Ended(tools, step, calls, a + 1, b, status) + if r.Observed? && r.status == status then 1 else 0
    decreases b
  {
    if a + 1 < b { EndedFirst(tools, step, calls, a, b - 1, status); }
  }

  // The calls i..n ran: message k holds the observation of call k, and every call is counted once.
  predicate Ran(tools: Tools, s: State, s': State, calls: seq<ToolCall>, i: nat, n: nat) {
    var at := |s.transcript|;
    && i <= n <= |calls| && at + (n - i) <= |s'.transcript| && s'.transcript[..at] == s.transcript
    && (forall k | i <= k < n :: tools(s.info.steps, k, calls[k]).Observed?
          && s'.transcript[at + (k - i)] == Tool(calls[k].id, calls[k].name, tools(s.info.steps, k, calls[k]).observation))
    && s'.info.steps == s.info.steps && s'.info.totalTokens == s.info.totalTokens
    && s'.info.toolCalls == s.info.toolCalls + (n - i)
    && s'.info.timeouts == s.info.timeouts + Ended(tools, s.info.steps, calls, i, n, StatusTimeout)
    && s'.info.errors == s.info.errors + Ended(tools, s.info.steps, calls, i, n, StatusOther)
    && s'.queries == s.queries
  }

  // A finish tool among the calls i..n succeeded.
  predicate FinishRan(tools: Tools, step: nat, calls: seq<ToolCall>, i: nat, n: nat)
    requires n <= |calls|
  {
    exists k :: i <= k < n && (calls[k].name == "submit" || calls[k].name == "finish")
      && tools(step, k, calls[k]).Observed? && tools(step, k, calls[k]).status == StatusOk
  }

  // Up to call n the timeouts stay within the budget.
  predicate WithinBudget(cfg: Config, tools: Tools, s: State, calls: seq<ToolCall>, i: nat, n: nat)
    requires n <= |calls|
  {
    forall k: nat :: i < k <= n ==> s.info.timeouts + Ended(tools, s.info.steps, calls, i, k, StatusTimeout) <= cfg.timeoutBudget
  }

  // Why the dispatch stopped after n calls, and that nothing is answered beyond them except when the
  // last one exceeded the timeout budget: then every remaining call gets the fixed text.
  predicate RanUntil(cfg: Config, tools: Tools, s: State, s': State, stop: Stop, calls: seq<ToolCall>, i: nat, n: nat, sawFinish: bool)
    requires i <= n <= |calls|
  {
    var at, added := |s.transcript|, |s'.transcript| - |s.transcript|;
    match stop
    case ToolRaised =>
      n < |calls| && added == n - i && tools(s.info.steps, n, calls[n]).ToolRaises? && WithinBudget(cfg, tools, s, calls, i, n)
    case TimeoutLimit =>
      && i < n && added == |calls| - i && WithinBudget(cfg, tools, s, calls, i, n - 1)
      && s.info.timeouts + Ended(tools, s.info.steps, calls, i, n, StatusTimeout) > cfg.timeoutBudget
      && forall k :: n <= k < |calls| ==>
           s'.transcript[at + (k - i)] == Tool(calls[k].id, calls[k].name, "Skipped: timeout budget exhausted.")
    case Finished =>
      n == |calls| && added == n - i && WithinBudget(cfg, tools, s, calls, i, n)
      && (sawFinish || FinishRan(tools, s.info.steps, calls, i, n))
    case Completed =>
      n == |calls| && added == n - i && WithinBudget(cfg, tools, s, calls, i, n)
      && !sawFinish && !FinishRan(tools, s.info.steps, calls, i, n)
    case _ => false
  }

  lemma {:induction false} SkipLength(calls: seq<ToolCall>, i: nat)
    requires i <= |calls|
    ensures |Skip(calls, i)| == |calls| - i
    decreases |calls| - i
  {
    if i < |calls| { SkipLength(calls, i + 1); }
  }

  lemma {:induction false} SkipText(calls: seq<ToolCall>, i: nat, k: nat)
    requires i <= k < |calls|
    ensures |Skip(calls, i)| == |calls| - i
    ensures Skip(calls, i)[k - i] == Tool(calls[k].id, calls[k].name, "Skipped: timeout budget exhausted.")
    decreases k - i
  {
    SkipLength(calls, i);
    if i < k { SkipText(calls, i + 1, k); }
  }

  lemma SkipTexts(calls: seq<ToolCall>, i: nat)
    requires i <= |calls|
    ensures |Skip(calls, i)| == |calls| - i
    ensures forall k :: i <= k < |calls| ==>
      Skip(calls, i)[k - i] == Tool(calls[k].id, calls[k].name, "Skipped: timeout budget exhausted.")
  {
    SkipLength(calls, i);
    forall k | i <= k < |calls|
      ensures Skip(calls, i)[k - i] == Tool(calls[k].id, calls[k].name, "Skipped: timeout budget exhausted.")
    {
      SkipText(calls, i, k);
    }
  }

  // What the dispatch of a reply's calls does: some number of them run in order, each answered with
  // its own observation, and it is exactly determined why it stops there.
  lemma {:induction false} DispatchRuns(cfg: Config, tools: Tools, s: State, calls: seq<ToolCall>, i: nat, sawFinish: bool)
    returns (n: nat)
    requires i <= |calls|
    ensures i <= n <= |calls|
    ensures var (s', stop) := Dispatch(cfg, tools, s, calls, i, sawFinish);
      Ran(tools, s, s', calls, i, n) && RanUntil(cfg, tools, s, s', stop, calls, i, n, sawFinish)
    decreases |calls| - i
  {
    n := i;
    if i < |calls| {
      var r := tools(s.info.steps, i, calls[i]);
      if r.Observed? {
        var s1 := Observe(s, calls[i], r);
        if s1.info.timeouts > cfg.timeoutBudget {
          n := i + 1;
          BudgetSpent(cfg, tools, s, calls, i, sawFinish);
        } else {
          n := DispatchRuns(cfg, tools, s1, calls, i + 1, sawFinish || (IsFinishTool(calls[i].name) && r.status.StatusOk?));
          OneMoreRan(cfg, tools, s, calls, i, n, sawFinish);
        }
      }
    }
  }

  // The call's timeout exceeds the budget, and the calls after it are skipped.
  lemma BudgetSpent(cfg: Config, tools: Tools, s: State, calls: seq<ToolCall>, i: nat, sawFinish: bool)
    requires i < |calls| && tools(s.info.steps, i, calls[i]).Observed?
    requires Observe(s, calls[i], tools(s.info.steps, i, calls[i])).info.timeouts > cfg.timeoutBudget
    ensures var (s', stop) := Dispatch(cfg, tools, s, calls, i, sawFinish);
      Ran(tools, s, s', calls, i, i + 1) && RanUntil(cfg, tools, s, s', stop, calls, i, i + 1, sawFinish)
  {
    SkipTexts(calls, i + 1);
  }

  // The first call ran within the budget, then the others as described.
  lemma OneMoreRan(cfg: Config, tools: Tools, s: State, calls: seq<ToolCall>, i: nat, n: nat, sawFinish: bool)
    requires i < |calls| && i + 1 <= n <= |calls| && tools(s.info.steps, i, calls[i]).Observed?
    requires var r := tools(s.info.steps, i, calls[i]);
      var s1, saw := Observe(s, calls[i], r), sawFinish || (IsFinishTool(calls[i].name) && r.status.StatusOk?);
      var (s', stop) := Dispatch(cfg, tools, s1, calls, i + 1, saw);
      s1.info.timeouts <= cfg.timeoutBudget && Ran(tools, s1, s', calls, i + 1, n) && RanUntil(cfg, tools, s1, s', stop, calls, i + 1, n, saw)
    ensures var (s', stop) := Dispatch(cfg, tools, s, calls, i, sawFinish);
      Ran(tools, s, s', calls, i, n) && RanUntil(cfg, tools, s, s', stop, calls, i, n, sawFinish)
  {
    var r := tools(s.info.steps, i, calls[i]);
    var s1, saw := Observe(s, calls[i], r), sawFinish || (IsFinishTool(calls[i].name) && r.status.StatusOk?);
    var (s', stop) := Dispatch(cfg, tools, s1, calls, i + 1, saw);
    RanShift(tools, s, s1, s', calls, i, n);
    UntilShift(cfg, tools, s, s1, s', stop, calls, i, n, sawFinish);
  }

  lemma UntilShift(cfg: Config, tools: Tools, s: State, s1: State, s': State, stop: Stop, calls: seq<ToolCall>, i: nat, n: nat, sawFinish: bool)
    requires i < |calls| && i + 1 <= n <= |calls| && tools(s.info.steps, i, calls[i]).Observed?
    requires s1 == Observe(s, calls[i], tools(s.info.steps, i, calls[i])) && s1.info.timeouts <= cfg.timeoutBudget
    requires RanUntil(cfg, tools, s1, s', stop, calls, i + 1, n,
                      sawFinish || (IsFinishTool(calls[i].name) && tools(s.info.steps, i, calls[i]).status.StatusOk?))
    ensures RanUntil(cfg, tools, s, s', stop, calls, i, n, sawFinish)
  {
    FinishShift(tools, s.info.steps, calls, i, n);
    EndedFirst(tools, s.info.steps, calls, i, n, StatusTimeout);
    if stop == TimeoutLimit { BudgetShift(cfg, tools, s, s1, calls, i, n - 1); } else { BudgetShift(cfg, tools, s, s1, calls, i, n); }
  }

  lemma RanShift(tools: Tools, s: State, s1: State, s': State, calls: seq<ToolCall>, i: nat, n: nat)
    requires i < |calls| && tools(s.info.steps, i, calls[i]).Observed? && s1 == Observe(s, calls[i], tools(s.info.steps, i, calls[i]))
    requires Ran(tools, s1, s', calls, i + 1, n)
    ensures Ran(tools, s, s', calls, i, n)
  {
    var at := |s.transcript|;
    EndedFirst(tools, s.info.steps, calls, i, n, StatusTimeout);
    EndedFirst(tools, s.info.steps, calls, i, n, StatusOther);
    assert s'.transcript[..at] == s'.transcript[..at + 1][..at] == s.transcript;
    assert s'.transcript[at] == s'.transcript[..at + 1][at];
  }

  lemma BudgetShift(cfg: Config, tools: Tools, s: State, s1: State, calls: seq<ToolCall>, i: nat, n: nat)
    requires i < |calls| && tools(s.info.steps, i, calls[i]).Observed? && s1 == Observe(s, calls[i], tools(s.info.steps, i, calls[i]))
    requires s1.info.timeouts <= cfg.timeoutBudget && n <= |calls| && WithinBudget(cfg, tools, s1, calls, i + 1, n)
    ensures WithinBudget(cfg, tools, s, calls, i, n)
  {
    forall k: nat | i < k <= n ensures s.info.timeouts + Ended(tools, s.info.steps, calls, i, k, StatusTimeout) <= cfg.timeoutBudget {
      EndedFirst(tools, s.info.steps, calls, i, k, StatusTimeout);
    }
  }

  lemma FinishShift(tools: Tools, step: nat, calls: seq<ToolCall>, i: nat, n: nat)
    requires i < n <= |calls|
    ensures FinishRan(tools, step, calls, i, n) <==>
      FinishRan(tools, step, calls, i + 1, n)
      || (IsFinishTool(calls[i].name) && tools(step, i, calls[i]).Observed? && tools(step, i, calls[i]).status.StatusOk?)
  {}

  // ----- a whole turn, and the turns of a run -----

  // The max_tokens a turn asks for, when the token budget is not spent.
  predicate AsksFor(cfg: Config, totalTokens: int, maxTokens: Option<int>) {
    match cfg.maxTotal
    case None => maxTokens == if cfg.perTurn == Some(0) then None else cfg.perTurn
    case Some(most) =>
      && maxTokens.Some? && maxTokens.value <= most - totalTokens
      && maxTokens.value <= (if cfg.perTurn.Some? && cfg.perTurn != Some(0) then cfg.perTurn.value else most)
      && (maxTokens.value == most - totalTokens
          || maxTokens.value == if cfg.perTurn.Some? && cfg.perTurn != Some(0) then cfg.perTurn.value else most)
  }

  // One turn: nothing if the token budget is spent; else one query, with the transcript so far and
  // the least of the limits; the reply goes in as it is; a spent budget or a truncated reply ends the
  // episode with its calls pending, a reply without calls finishes it, and otherwise its calls run.
  lemma StepDoes(cfg: Config, policy: Policy, tools: Tools, s: State)
    ensures var (s', stop) := Step(cfg, policy, tools, s);
      if cfg.maxTotal.Some? && s.info.totalTokens >= cfg.maxTotal.value then s' == s && stop == TokenLimit
      else exists maxTokens: Option<int> ::
        && AsksFor(cfg, s.info.totalTokens, maxTokens)
        && Turned(cfg, tools, s, Query(s.transcript, maxTokens), policy(s.info.steps, Query(s.transcript, maxTokens)), s', stop)
  {
    var limit := TurnLimit(cfg, s.info.totalTokens);
    if limit.Some? {
      var q := Query(s.transcript, limit.value);
      var r := policy(s.info.steps, q);
      if r.Reply? && r.calls != [] {
        var n := DispatchRuns(cfg, tools, Hear(s, q, r), r.calls, 0, false);
      }
      assert AsksFor(cfg, s.info.totalTokens, limit.value);
      assert Turned(cfg, tools, s, q, r, Step(cfg, policy, tools, s).0, Step(cfg, policy, tools, s).1);
    }
  }

  // What a turn makes of the policy's reply.
  ghost predicate Turned(cfg: Config, tools: Tools, s: State, q: Query, r: Reply, s': State, stop: Stop) {
    match r
    case QueryRaises(_) => s' == State(s.transcript, s.info, s.queries + [q]) && stop == QueryRaised
    case Reply(content, calls, tokens, truncated) =>
      var heard := State(s.transcript + [Assistant(content, calls)],
                         Info(s.info.steps, s.info.toolCalls, s.info.timeouts, s.info.errors, tokens), s.queries + [q]);
      if truncated || (cfg.maxTotal.Some? && tokens >= cfg.maxTotal.value) then s' == heard && stop == TokenLimit
      else if calls == [] then s' == heard && stop == Finished
      else exists n: nat :: Ran(tools, heard, s', calls, 0, n) && RanUntil(cfg, tools, heard, s', stop, calls, 0, n, false)
  }

  // The state after the first n turns, if each leads to the next.
  function TurnsFrom(cfg: Config, policy: Policy, tools: Tools, s: State, n: nat): State {
    if n == 0 then s
    else
      var before := TurnsFrom(cfg, policy, tools, s, n - 1);
      Step(cfg, policy, tools, before.(info := before.info.(steps := n))).0
  }

  // How turn n ends.
  function TurnEnds(cfg: Config, policy: Policy, tools: Tools, s: State, n: nat): Stop
    requires n > 0
  {
    var before := TurnsFrom(cfg, policy, tools, s, n - 1);
    Step(cfg, policy, tools, before.(info := before.info.(steps := n))).1
  }

  // A run takes turns 1, 2, ... as long as they complete and there are fewer than max_steps; it ends
  // as its last turn did, or with max_steps completed turns.
  lemma {:induction false} LoopTurns(cfg: Config, policy: Policy, tools: Tools, s: State, step: nat) returns (n: nat)
    requires step > 0 && forall k :: 0 < k < step ==> TurnEnds(cfg, policy, tools, s, k) == Completed
    requires step <= Max(cfg.maxSteps, 0) + 1
    ensures step - 1 <= n <= Max(cfg.maxSteps, 0)
    ensures forall k :: 0 < k < n ==> TurnEnds(cfg, policy, tools, s, k) == Completed
    ensures var (s', stop) := Loop(cfg, policy, tools, TurnsFrom(cfg, policy, tools, s, step - 1), step);
      && s' == TurnsFrom(cfg, policy, tools, s, n)
      && (stop != MaxSteps ==> n > 0 && stop == TurnEnds(cfg, policy, tools, s, n) != Completed)
      && (stop == MaxSteps ==> n == Max(cfg.maxSteps, 0) && (n > 0 ==> TurnEnds(cfg, policy, tools, s, n) == Completed))
    decreases Max(cfg.maxSteps, 0) + 1 - step
  {
    if step > cfg.maxSteps {
      n := step - 1;
    } else if TurnEnds(cfg, policy, tools, s, step) != Completed {
      n := step;
      TurnNotMax(cfg, policy, tools, s, step);
    } else {
      n := LoopTurns(cfg, policy, tools, s, step + 1);
    }
  }

  lemma TurnNotMax(cfg: Config, policy: Policy, tools: Tools, s: State, n: nat)
    requires n > 0
    ensures TurnEnds(cfg, policy, tools, s, n) != MaxSteps
  {
    var before := TurnsFrom(cfg, policy, tools, s, n - 1);
    StepNotMax(cfg, policy, tools, before.(info := before.info.(steps := n)));
  }

  lemma StepNotMax(cfg: Config, policy: Policy, tools: Tools, s: State)
    ensures Step(cfg, policy, tools, s).1 != MaxSteps
  {
    var limit := TurnLimit(cfg, s.info.totalTokens);
    if limit.Some? {
      var q := Query(s.transcript, limit.value);
      var r := policy(s.info.steps, q);
      if r.Reply? { DispatchStops(cfg, tools, Hear(s, q, r), r.calls, 0, false); }
    }
  }
}
