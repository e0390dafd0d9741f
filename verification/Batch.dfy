// A rollout batch: sessions grouped by prompt, their trajectories written to the transfer queue,
// and the statistics that must agree with what was written.
module Batch {
  import opened Common
  import I = Interleaving

  // finished and posted come from reward_info; score is reward_score.
  datatype Traj = Traj(finished: Option<bool>, posted: Option<real>, score: Option<real>,
                       modelTokens: nat, responseLen: nat, turns: nat)

  // ----- which trajectories of a session are kept, and their scores -----

  // Ordered by (model tokens, response length, turns, position).
  predicate Longer(a: Traj, i: int, b: Traj, j: int) {
    a.modelTokens > b.modelTokens || (a.modelTokens == b.modelTokens &&
    (a.responseLen > b.responseLen || (a.responseLen == b.responseLen &&
    (a.turns > b.turns || (a.turns == b.turns && i > j)))))
  }

  // The best of the first n.
  function BestOf(trajs: seq<Traj>, n: nat): (k: nat)
    requires 1 <= n <= |trajs|
    ensures k < n
  {
    if n == 1 then 0
    else
      var k := BestOf(trajs, n - 1);
      if Longer(trajs[n - 1], n - 1, trajs[k], k) then n - 1 else k
  }

  lemma {:induction false} BestBeats(trajs: seq<Traj>, n: nat, j: nat)
    requires 1 <= n <= |trajs| && j < n && j != BestOf(trajs, n)
    ensures Longer(trajs[BestOf(trajs, n)], BestOf(trajs, n), trajs[j], j)
  {
    if j < n - 1 && j != BestOf(trajs, n - 1) { BestBeats(trajs, n - 1, j); }
  }

  function Kept(trajs: seq<Traj>, longest: bool): seq<Traj> {
    if !longest || |trajs| <= 1 then trajs else [trajs[BestOf(trajs, |trajs|)]]
  }

  // No trajectory has more model tokens than t; none that has as many has a longer response; none that
  // ties in both has more turns; and t comes last among those that tie in all three.
  predicate Longest(trajs: seq<Traj>, k: int, t: Traj) {
    forall j :: 0 <= j < |trajs| ==>
      && trajs[j].modelTokens <= t.modelTokens
      && (trajs[j].modelTokens == t.modelTokens ==> trajs[j].responseLen <= t.responseLen)
      && (trajs[j].modelTokens == t.modelTokens && trajs[j].responseLen == t.responseLen ==> trajs[j].turns <= t.turns)
      && (trajs[j].modelTokens == t.modelTokens && trajs[j].responseLen == t.responseLen && trajs[j].turns == t.turns ==> j <= k)
  }

  lemma KeptIsLongest(trajs: seq<Traj>)
    requires |trajs| > 1
    ensures exists k :: 0 <= k < |trajs| && Kept(trajs, true) == [trajs[k]] && Longest(trajs, k, trajs[k])
  {
    var k := BestOf(trajs, |trajs|);
    forall j | 0 <= j < |trajs| && j != k ensures Longer(trajs[k], k, trajs[j], j) { BestBeats(trajs, |trajs|, j); }
    assert Longest(trajs, k, trajs[k]);
  }

  method SelectTrajectories(trajs: seq<Traj>, longest: bool) returns (kept: seq<Traj>)
    ensures kept == Kept(trajs, longest)
    ensures !longest || |trajs| <= 1 ==> kept == trajs
    ensures longest && |trajs| > 1 ==> exists k :: 0 <= k < |trajs| && kept == [trajs[k]] && Longest(trajs, k, trajs[k])
  {
    if !longest || |trajs| <= 1 { return trajs; }
    var best := 0;
    for i := 1 to |trajs|
      invariant best == BestOf(trajs, i)
    {
      if Longer(trajs[i], i, trajs[best], best) { best := i; }
    }
    KeptIsLongest(trajs);
    kept := [trajs[best]];
  }

  // Every trajectory of a session gets the session's one score.
  function Annotate(trajs: seq<Traj>, score: real): seq<Traj> {
    seq(|trajs|, i requires 0 <= i < |trajs| => trajs[i].(score := Some(score)))
  }

  // How a session ends whose trajectories were finalized: the reward posted on the last kept one
  // scores them all, else the reward worker's score if there is a worker; the worker may raise.
  function SessionEnd(trajs: seq<Traj>, longest: bool, worker: Result<Option<real>, string>): Outcome {
    var kept := Kept(trajs, longest);
    if kept == [] then Done([])
    else if kept[|kept| - 1].posted.Some? then Done(Annotate(kept, kept[|kept| - 1].posted.value))
    else
      match worker
      case Err(reason) => Raised(reason)
      case Ok(None) => Done(kept)
      case Ok(Some(score)) => Done(Annotate(kept, score))
  }

  // _run_session after the runner has finished and finalize_session has returned.
  method FinishSession(trajs: seq<Traj>, longest: bool, worker: Result<Option<real>, string>) returns (o: Outcome)
    ensures o == SessionEnd(trajs, longest, worker)
  {
    var kept := SelectTrajectories(trajs, longest);
    if kept == [] { return Done([]); }
    var score := kept[|kept| - 1].posted;
    if score.None? {
      if worker.Err? { return Raised(worker.error); }
      score := worker.value;
    }
    if score.None? { return Done(kept); }
    var annotated := [];
    for i := 0 to |kept|
      invariant |annotated| == i && forall j :: 0 <= j < i ==> annotated[j] == kept[j].(score := Some(score.value))
    {
      annotated := annotated + [kept[i].(score := Some(score.value))];
    }
    o := Done(annotated);
  }

  // A session raises only if it has no posted reward and its worker raises. Otherwise the reward
  // posted on the last kept trajectory goes on every kept one, else the worker's score; without
  // either they keep the scores they came with.
  lemma EndScores(trajs: seq<Traj>, longest: bool, worker: Result<Option<real>, string>)
    requires trajs != []
    ensures var kept, end := Kept(trajs, longest), SessionEnd(trajs, longest, worker);
      |kept| > 0 && var posted := kept[|kept| - 1].posted;
      if posted.None? && worker.Err? then end == Raised(worker.error)
      else end.Done? && |end.trajectories| == |kept| && forall i :: 0 <= i < |kept| ==>
        end.trajectories[i] == kept[i].(score := if posted.Some? then posted else if worker.value.Some? then worker.value else kept[i].score)
  {}

  // rm_scores of one record: zero everywhere except the reward on the last response token.
  function RmScores(t: Traj): seq<real> {
    if t.score.Some? && t.responseLen > 0 then seq(t.responseLen - 1, _ => 0.0) + [t.score.value]
    else seq(t.responseLen, _ => 0.0)
  }

  // The reward sits on the last response token and every other token has zero.
  lemma RmScoresAre(t: Traj)
    ensures |RmScores(t)| == t.responseLen && forall i :: 0 <= i < t.responseLen ==>
      RmScores(t)[i] == if i == t.responseLen - 1 && t.score.Some? then t.score.value else 0.0
  {
    var scores := RmScores(t);
    forall i | 0 <= i < t.responseLen
      ensures |scores| == t.responseLen && scores[i] == if i == t.responseLen - 1 && t.score.Some? then t.score.value else 0.0
    {
    }
  }

  // ----- one prompt -----

  // ControlFlow: cancellation, interpreter exit and the like.
  datatype Outcome = Raised(reason: string) | ControlFlow | Done(trajectories: seq<Traj>)

  // A session task's outcome, and the error its storage write would raise.
  datatype SessionRun = SessionRun(outcome: Outcome, writeError: Option<string>)

  // setupError: a missing uid or bad sampling parameters; markError: the status write raises.
  datatype Prompt = Prompt(uid: string, setupError: Option<string>, runs: seq<SessionRun>, markError: Option<string>)

  datatype Event = Put(uid: string, session: nat, trajectories: seq<Traj>) | Mark(uid: string, finished: bool)

  datatype Reason = Error(text: string) | EmptyTrajectories(uid: string, session: nat) | WriteError(text: string)

  datatype Stats = Stats(success: nat, failed: nat, outputs: nat, unfinished: nat, failedUids: nat, reasons: seq<Reason>)

  datatype PromptOutcome = Returned(stats: Stats) | Failed(reason: string) | Interrupted

  predicate Written(run: SessionRun) {
    run.outcome.Done? && run.outcome.trajectories != [] && run.writeError.None?
  }

  // Some session among the first n was written.
  predicate AnyWritten(runs: seq<SessionRun>, n: nat)
    requires n <= |runs|
  {
    exists i :: 0 <= i < n && Written(runs[i])
  }

  // The first n sessions end without a control-flow exception.
  predicate Uninterrupted(runs: seq<SessionRun>, n: nat)
    requires n <= |runs|
  {
    forall i :: 0 <= i < n ==> !runs[i].outcome.ControlFlow?
  }

  // The number of sessions before the first control-flow outcome.
  function Interrupt(runs: seq<SessionRun>, n: nat): (k: nat)
    requires n <= |runs|
    ensures k <= n && Uninterrupted(runs, k)
    ensures k < n ==> runs[k].outcome.ControlFlow?
  {
    if n == 0 then 0
    else
      var k := Interrupt(runs, n - 1);
      if k < n - 1 || runs[n - 1].outcome.ControlFlow? then k else n
  }

  function SessionPut(uid: string, session: nat, run: SessionRun): seq<Event> {
    if Written(run) then [Put(uid, session, run.outcome.trajectories)] else []
  }

  function SessionReason(uid: string, session: nat, run: SessionRun): seq<Reason> {
    match run.outcome
    case Raised(reason) => [Error(reason)]
    case ControlFlow => []
    case Done(trajs) =>
      if trajs == [] then [EmptyTrajectories(uid, session)]
      else if run.writeError.Some? then [WriteError(run.writeError.value)] else []
  }

  // The storage writes of a prompt's first n sessions, in session order.
  function Puts(uid: string, runs: seq<SessionRun>, n: nat): seq<Event>
    requires n <= |runs|
  {
    if n == 0 then [] else Puts(uid, runs, n - 1) + SessionPut(uid, n - 1, runs[n - 1])
  }

  function Reasons(uid: string, runs: seq<SessionRun>, n: nat): seq<Reason>
    requires n <= |runs|
  {
    if n == 0 then [] else Reasons(uid, runs, n - 1) + SessionReason(uid, n - 1, runs[n - 1])
  }

  // Everything a prompt writes: its sessions' records, then one status marker.
  function PromptLog(p: Prompt): seq<Event> {
    if p.setupError.Some? then []
    else Puts(p.uid, p.runs, Interrupt(p.runs, |p.runs|)) +
         if Uninterrupted(p.runs, |p.runs|) && p.markError.None? then [Mark(p.uid, AnyWritten(p.runs, |p.runs|))] else []
  }

  // The prompt's task returns normally.
  predicate Returns(p: Prompt) { p.setupError.None? && Uninterrupted(p.runs, |p.runs|) && p.markError.None? }

  predicate Stopped(p: Prompt) { p.setupError.None? && !Uninterrupted(p.runs, |p.runs|) }

  // ----- what a log holds -----

  datatype Totals = Totals(puts: nat, records: nat, unfinished: nat, finished: nat)

  predicate EpisodeUnfinished(trajs: seq<Traj>) { exists i :: 0 <= i < |trajs| && trajs[i].finished == Some(false) }

  function Of(e: Event): Totals {
    match e
    case Put(_, _, trajs) => Totals(1, |trajs|, if EpisodeUnfinished(trajs) then 1 else 0, 0)
    case Mark(_, finished) => Totals(0, 0, 0, if finished then 1 else 0)
  }

  function Plus(a: Totals, b: Totals): Totals {
    Totals(a.puts + b.puts, a.records + b.records, a.unfinished + b.unfinished, a.finished + b.finished)
  }

  function TallyTo(log: seq<Event>, n: nat): Totals
    requires n <= |log|
  {
    if n == 0 then Totals(0, 0, 0, 0) else Plus(TallyTo(log, n - 1), Of(log[n - 1]))
  }

  function Tally(log: seq<Event>): Totals { TallyTo(log, |log|) }

  lemma {:induction false} TallyPrefix(a: seq<Event>, b: seq<Event>, n: nat)
    requires n <= |a|
    ensures TallyTo(a + b, n) == TallyTo(a, n)
  {
    if n > 0 { TallyPrefix(a, b, n - 1); }
  }

  lemma {:induction false} TallyRest(a: seq<Event>, b: seq<Event>, n: nat)
    requires n <= |b|
    ensures TallyTo(a + b, |a| + n) == Plus(Tally(a), TallyTo(b, n))
  {
    if n == 0 { TallyPrefix(a, b, |a|); } else { TallyRest(a, b, n - 1); }
  }

  lemma TallyAppend(a: seq<Event>, b: seq<Event>)
    ensures Tally(a + b) == Plus(Tally(a), Tally(b))
  {
    TallyRest(a, b, |b|);
  }

  lemma TallyOne(e: Event)
    ensures Tally([e]) == Of(e)
  {
    assert TallyTo([e], 0) == Totals(0, 0, 0, 0);
  }

  // What one session adds to the log.
  lemma SessionTally(uid: string, i: nat, run: SessionRun)
    ensures Tally(SessionPut(uid, i, run)) ==
      if Written(run) then Of(Put(uid, i, run.outcome.trajectories)) else Totals(0, 0, 0, 0)
  {
    if Written(run) { TallyOne(Put(uid, i, run.outcome.trajectories)); }
  }

  // A written session writes at least one record.
  lemma {:induction false} PutsTally(uid: string, runs: seq<SessionRun>, n: nat)
    requires n <= |runs|
    ensures var t := Tally(Puts(uid, runs, n)); t.finished == 0 && t.puts <= n && t.puts <= t.records
    ensures AnyWritten(runs, n) <==> Tally(Puts(uid, runs, n)).puts > 0
    ensures AnyWritten(runs, n) <==> Tally(Puts(uid, runs, n)).records > 0
  {
    if n > 0 {
      PutsTally(uid, runs, n - 1);
      PutsStep(uid, runs, n - 1);
      assert AnyWritten(runs, n) <==> AnyWritten(runs, n - 1) || Written(runs[n - 1]);
    }
  }

  lemma {:induction false} OnlyPuts(uid: string, runs: seq<SessionRun>, n: nat)
    requires n <= |runs|
    ensures forall i :: 0 <= i < |Puts(uid, runs, n)| ==> SessionRecord(Puts(uid, runs, n)[i], uid, n)
  {
    if n > 0 { OnlyPuts(uid, runs, n - 1); }
  }

  predicate SessionRecord(e: Event, uid: string, n: nat) {
    e.Put? && e.uid == uid && e.session < n && e.trajectories != []
  }

  // A status marker comes from a prompt that returned, after all its session writes.
  lemma MarkerIsLast(p: Prompt, i: nat)
    requires i < |PromptLog(p)| && PromptLog(p)[i].Mark?
    ensures Returns(p) && i == |PromptLog(p)| - 1 && PromptLog(p)[i] == Mark(p.uid, AnyWritten(p.runs, |p.runs|))
  {
    OnlyPuts(p.uid, p.runs, Interrupt(p.runs, |p.runs|));
  }

  lemma ReturnedPromptLog(p: Prompt)
    requires Returns(p)
    ensures PromptLog(p) == Puts(p.uid, p.runs, |p.runs|) + [Mark(p.uid, AnyWritten(p.runs, |p.runs|))]
  {}

  lemma ReturnedTally(p: Prompt)
    requires Returns(p)
    ensures var t, written := Tally(Puts(p.uid, p.runs, |p.runs|)), AnyWritten(p.runs, |p.runs|);
      Tally(PromptLog(p)) == t.(finished := if written then 1 else 0) && (written <==> t.records > 0) && (written <==> t.puts > 0)
  {
    var mark := Mark(p.uid, AnyWritten(p.runs, |p.runs|));
    ReturnedPromptLog(p);
    PutsTally(p.uid, p.runs, |p.runs|);
    TallyAppend(Puts(p.uid, p.runs, |p.runs|), [mark]);
    TallyOne(mark);
  }

  // The finished marker means exactly that the prompt returned and wrote a record of its uid.
  lemma FinishedMarker(p: Prompt)
    ensures Mark(p.uid, true) in PromptLog(p) <==> Returns(p) && Tally(PromptLog(p)).records > 0
  {
    if Returns(p) {
      ReturnedTally(p);
      ReturnedPromptLog(p);
      OnlyPuts(p.uid, p.runs, |p.runs|);
    } else if Mark(p.uid, true) in PromptLog(p) {
      var i :| 0 <= i < |PromptLog(p)| && PromptLog(p)[i] == Mark(p.uid, true);
      MarkerIsLast(p, i);
    }
  }

  // How many of the first n sessions finished with trajectories that were then stored.
  function StoredBefore(runs: seq<SessionRun>, n: nat): nat
    requires n <= |runs|
  {
    if n == 0 then 0
    else
      var run := runs[n - 1];
      StoredBefore(runs, n - 1) + match run.outcome { case Done(trajs) => if trajs != [] && run.writeError == None then 1 else 0 case _ => 0 }
  }

  // The write of each stored session, and the reason of each other one, at its place.
  predicate SessionAt(uid: string, run: SessionRun, i: nat, stored: nat, puts: seq<Event>, reasons: seq<Reason>) {
    stored <= i &&
    match run.outcome
    case Done(trajs) =>
      if trajs == [] then i - stored < |reasons| && reasons[i - stored] == EmptyTrajectories(uid, i)
      else if run.writeError.Some? then i - stored < |reasons| && reasons[i - stored] == WriteError(run.writeError.value)
      else stored < |puts| && puts[stored] == Put(uid, i, trajs)
    case Raised(reason) => i - stored < |reasons| && reasons[i - stored] == Error(reason)
    case ControlFlow => false
  }

  lemma {:induction false} SessionsAt(uid: string, runs: seq<SessionRun>, n: nat, i: nat)
    requires i < n <= |runs| && Uninterrupted(runs, n)
    ensures SessionAt(uid, runs[i], i, StoredBefore(runs, i), Puts(uid, runs, n), Reasons(uid, runs, n))
    decreases n
  {
    SessionCounts(uid, runs, n - 1);
    if i < n - 1 {
      SessionsAt(uid, runs, n - 1, i);
      StillAt(uid, runs[i], i, StoredBefore(runs, i), Puts(uid, runs, n - 1), SessionPut(uid, n - 1, runs[n - 1]),
              Reasons(uid, runs, n - 1), SessionReason(uid, n - 1, runs[n - 1]));
    } else {
      NewAt(uid, runs[i], i, Puts(uid, runs, i), Reasons(uid, runs, i));
    }
  }

  lemma StillAt(uid: string, run: SessionRun, i: nat, stored: nat, puts: seq<Event>, put: seq<Event>, reasons: seq<Reason>, reason: seq<Reason>)
    requires SessionAt(uid, run, i, stored, puts, reasons)
    ensures SessionAt(uid, run, i, stored, puts + put, reasons + reason)
  {}

  lemma NewAt(uid: string, run: SessionRun, i: nat, puts: seq<Event>, reasons: seq<Reason>)
    requires |puts| + |reasons| == i && !run.outcome.ControlFlow?
    ensures SessionAt(uid, run, i, |puts|, puts + SessionPut(uid, i, run), reasons + SessionReason(uid, i, run))
  {}

  lemma {:induction false} SessionCounts(uid: string, runs: seq<SessionRun>, n: nat)
    requires n <= |runs| && Uninterrupted(runs, n)
    ensures |Puts(uid, runs, n)| == StoredBefore(runs, n) <= n && |Reasons(uid, runs, n)| == n - StoredBefore(runs, n)
    decreases n
  {
    if n > 0 { SessionCounts(uid, runs, n - 1); }
  }

  // What a prompt writes: nothing if its setup fails; else, of the sessions before the first
  // control-flow exception, each stored one's own trajectories under its index, in session order; and
  // if there is no such exception and the status write succeeds, one marker that says whether any was.
  lemma PromptLogIs(p: Prompt)
    ensures p.setupError.Some? ==> PromptLog(p) == []
    ensures p.setupError.None? ==>
      var k, log := Interrupt(p.runs, |p.runs|), PromptLog(p); var stored := StoredBefore(p.runs, k);
      && |log| == stored + (if k == |p.runs| && p.markError == None then 1 else 0)
      && (|log| > stored ==> log[stored] == Mark(p.uid, stored > 0))
      && forall i :: 0 <= i < k ==> SessionAt(p.uid, p.runs[i], i, StoredBefore(p.runs, i), log[..stored], Reasons(p.uid, p.runs, k))
  {
    if p.setupError.None? {
      var k, log := Interrupt(p.runs, |p.runs|), PromptLog(p);
      SessionCounts(p.uid, p.runs, k);
      AnyStored(p.runs, k);
      assert log[..StoredBefore(p.runs, k)] == Puts(p.uid, p.runs, k);
      forall i | 0 <= i < k
        ensures SessionAt(p.uid, p.runs[i], i, StoredBefore(p.runs, i), Puts(p.uid, p.runs, k), Reasons(p.uid, p.runs, k))
      {
        SessionsAt(p.uid, p.runs, k, i);
      }
    }
  }

  lemma {:induction false} AnyStored(runs: seq<SessionRun>, n: nat)
    requires n <= |runs|
    ensures AnyWritten(runs, n) <==> StoredBefore(runs, n) > 0
    decreases n
  {
    if n > 0 {
      AnyStored(runs, n - 1);
      assert AnyWritten(runs, n) <==> AnyWritten(runs, n - 1) || Written(runs[n - 1]);
    }
  }

  // A prompt's counters describe its own log, and every session is counted once.
  predicate Describes(s: Stats, p: Prompt) {
    var t := Tally(PromptLog(p));
    && s.success == t.puts && s.outputs == t.records && s.unfinished == t.unfinished
    && s.success + s.failed == |p.runs|
    && s.failedUids + t.finished == 1
    && s.reasons == Reasons(p.uid, p.runs, |p.runs|) && |s.reasons| == s.failed
  }

  // What the batch reports about a prompt's failures.
  function PromptReasons(p: Prompt): seq<Reason> {
    if Returns(p) then Reasons(p.uid, p.runs, |p.runs|) else [Error(FailReason(p))]
  }

  function FailReason(p: Prompt): string {
    if p.setupError.Some? then p.setupError.value else if p.markError.Some? then p.markError.value else ""
  }

  // How a prompt's task ends.
  predicate Matches(p: Prompt, o: PromptOutcome) {
    && (o.Returned? <==> Returns(p)) && (o.Interrupted? <==> Stopped(p))
    && (o.Failed? ==> o.reason == FailReason(p))
    && (o.Returned? ==> Describes(o.stats, p))
  }

  // The counters after the first n sessions.
  predicate Counts(s: Stats, uid: string, runs: seq<SessionRun>, n: nat)
    requires n <= |runs|
  {
    && Tally(Puts(uid, runs, n)) == Totals(s.success, s.outputs, s.unfinished, 0)
    && s.success + s.failed == n
    && s.reasons == Reasons(uid, runs, n) && |s.reasons| == s.failed
  }

  // The counters after one more session.
  function Count(s: Stats, uid: string, session: nat, run: SessionRun): Stats {
    if Written(run) then
      var t := Of(Put(uid, session, run.outcome.trajectories));
      s.(success := s.success + 1, outputs := s.outputs + t.records, unfinished := s.unfinished + t.unfinished)
    else s.(failed := s.failed + 1, reasons := s.reasons + SessionReason(uid, session, run))
  }

  lemma CountsStep(s: Stats, uid: string, runs: seq<SessionRun>, n: nat)
    requires n < |runs| && Counts(s, uid, runs, n) && !runs[n].outcome.ControlFlow?
    ensures Counts(Count(s, uid, n, runs[n]), uid, runs, n + 1)
  {
    PutsStep(uid, runs, n);
    ReasonsStep(s, uid, runs, n);
  }

  lemma PutsStep(uid: string, runs: seq<SessionRun>, n: nat)
    requires n < |runs|
    ensures Tally(Puts(uid, runs, n + 1)) == Plus(Tally(Puts(uid, runs, n)),
      if Written(runs[n]) then Of(Put(uid, n, runs[n].outcome.trajectories)) else Totals(0, 0, 0, 0))
  {
    TallyAppend(Puts(uid, runs, n), SessionPut(uid, n, runs[n]));
    SessionTally(uid, n, runs[n]);
  }

  lemma ReasonsStep(s: Stats, uid: string, runs: seq<SessionRun>, n: nat)
    requires n < |runs| && !runs[n].outcome.ControlFlow?
    requires s.reasons == Reasons(uid, runs, n) && |s.reasons| == s.failed && s.success + s.failed == n
    ensures var s' := Count(s, uid, n, runs[n]);
      s'.reasons == Reasons(uid, runs, n + 1) && |s'.reasons| == s'.failed && s'.success + s'.failed == n + 1
  {}

  lemma CountsDescribe(s: Stats, p: Prompt)
    requires Counts(s, p.uid, p.runs, |p.runs|) && Returns(p)
    ensures Describes(s.(failedUids := if s.success > 0 then 0 else 1), p)
    ensures AnyWritten(p.runs, |p.runs|) <==> s.success > 0
  {
    ReturnedTally(p);
  }

  // One turn of the session loop: a written session is logged and counted, any other counted as failed.
  method CountSession(p: Prompt, i: nat, s: Stats) returns (s': Stats, events: seq<Event>)
    requires i < |p.runs| && Counts(s, p.uid, p.runs, i) && !p.runs[i].outcome.ControlFlow?
    ensures events == SessionPut(p.uid, i, p.runs[i]) && Counts(s', p.uid, p.runs, i + 1)
  {
    var run := p.runs[i];
    CountsStep(s, p.uid, p.runs, i);
    s', events := s, [];
    match run.outcome
    case Raised(reason) => s' := s.(failed := s.failed + 1, reasons := s.reasons + [Error(reason)]);
    case Done(trajs) =>
      if trajs == [] {
        s' := s.(failed := s.failed + 1, reasons := s.reasons + [EmptyTrajectories(p.uid, i)]);
      } else if run.writeError.Some? {
        s' := s.(failed := s.failed + 1, reasons := s.reasons + [WriteError(run.writeError.value)]);
      } else {
        events := [Put(p.uid, i, trajs)];
        s' := s.(success := s.success + 1, outputs := s.outputs + |trajs|,
                 unfinished := s.unfinished + if EpisodeUnfinished(trajs) then 1 else 0);
      }
    assert s' == Count(s, p.uid, i, run);
  }

  // The session loop: write what succeeded, count what did not, stop at a control-flow exception.
  method WriteSessions(p: Prompt) returns (stopped: bool, s: Stats, log: seq<Event>)
    ensures stopped <==> !Uninterrupted(p.runs, |p.runs|)
    ensures log == Puts(p.uid, p.runs, Interrupt(p.runs, |p.runs|))
    ensures Counts(s, p.uid, p.runs, Interrupt(p.runs, |p.runs|))
  {
    s, log := Stats(0, 0, 0, 0, 0, []), [];
    for i := 0 to |p.runs|
      invariant i <= Interrupt(p.runs, |p.runs|)
      invariant log == Puts(p.uid, p.runs, i)
      invariant Counts(s, p.uid, p.runs, i)
    {
      if p.runs[i].outcome.ControlFlow? { return true, s, log; }
      var events;
      s, events := CountSession(p, i, s);
      log := log + events;
    }
    stopped := false;
  }

  // _run_prompt_sessions_to_tq: the session loop, then the status marker.
  method RunPrompt(p: Prompt) returns (r: PromptOutcome, log: seq<Event>)
    ensures log == PromptLog(p)
    ensures Matches(p, r)
    ensures p.setupError.Some? ==> r == Failed(p.setupError.value)
    ensures p.setupError.None? && p.markError.Some? && Uninterrupted(p.runs, |p.runs|) ==> r == Failed(p.markError.value)
  {
    if p.setupError.Some? { return Failed(p.setupError.value), []; }
    var stopped, s;
    stopped, s, log := WriteSessions(p);
    if stopped { return Interrupted, log; }
    if p.markError.Some? { return Failed(p.markError.value), log; }
    CountsDescribe(s, p);
    log := log + [Mark(p.uid, s.success > 0)];
    r := Returned(s.(failedUids := if s.success > 0 then 0 else 1));
  }

  // ----- the batch -----

  datatype BatchOutcome =
    | Summary(prompts: nat, stats: Stats) | EmptyBatch | BadSessionCount | BatchInterrupted | AllFailed

  function PromptLogs(prompts: seq<Prompt>): seq<seq<Event>> {
    seq(|prompts|, i requires 0 <= i < |prompts| => PromptLog(prompts[i]))
  }

  // The logs of the first n prompts, one after the other.
  function BatchLog(prompts: seq<Prompt>, n: nat): seq<Event>
    requires n <= |prompts|
  {
    I.Flat(PromptLogs(prompts), n)
  }

  // The part of the log written by prompts that returned normally.
  function ReturnedLog(prompts: seq<Prompt>, n: nat): seq<Event>
    requires n <= |prompts|
  {
    if n == 0 then []
    else ReturnedLog(prompts, n - 1) + if Returns(prompts[n - 1]) then PromptLog(prompts[n - 1]) else []
  }

  function BatchReasons(prompts: seq<Prompt>, n: nat): seq<Reason>
    requires n <= |prompts|
  {
    if n == 0 then [] else BatchReasons(prompts, n - 1) + PromptReasons(prompts[n - 1])
  }

  // The session tasks of the first n prompts.
  function Sessions(prompts: seq<Prompt>, n: nat): nat
    requires n <= |prompts|
  {
    if n == 0 then 0 else Sessions(prompts, n - 1) + |prompts[n - 1].runs|
  }

  lemma {:induction false} SessionsProduct(prompts: seq<Prompt>, n: nat, numSessions: nat)
    requires n <= |prompts| && forall i :: 0 <= i < n ==> |prompts[i].runs| == numSessions
    ensures Sessions(prompts, n) == n * numSessions
  {
    if n > 0 {
      SessionsProduct(prompts, n - 1, numSessions);
      MulStep(n, numSessions);
    }
  }

  // The batch's counters describe the log of the first n prompts, as far as they returned.
  predicate Accounts(s: Stats, prompts: seq<Prompt>, n: nat)
    requires n <= |prompts|
  {
    var t := Tally(ReturnedLog(prompts, n));
    && s.success == t.puts && s.outputs == t.records && s.unfinished == t.unfinished
    && s.failedUids + t.finished == n
    && s.reasons == BatchReasons(prompts, n)
    && s.success + s.failed == Sessions(prompts, n)
  }

  lemma FailedStep(s: Stats, s': Stats, prompts: seq<Prompt>, n: nat, reason: string)
    requires n < |prompts| && Accounts(s, prompts, n) && Matches(prompts[n], Failed(reason))
    requires s' == Stats(s.success, s.failed + |prompts[n].runs|, s.outputs, s.unfinished, s.failedUids + 1, s.reasons + [Error(reason)])
    ensures Accounts(s', prompts, n + 1)
  {
    assert ReturnedLog(prompts, n + 1) == ReturnedLog(prompts, n);
  }

  lemma ReturnedStep(s: Stats, s': Stats, prompts: seq<Prompt>, n: nat, t: Stats)
    requires n < |prompts| && Accounts(s, prompts, n) && Matches(prompts[n], Returned(t))
    requires s' == Stats(s.success + t.success, s.failed + t.failed, s.outputs + t.outputs, s.unfinished + t.unfinished,
                         s.failedUids + t.failedUids, s.reasons + t.reasons)
    ensures Accounts(s', prompts, n + 1)
  {
    TallyAppend(ReturnedLog(prompts, n), PromptLog(prompts[n]));
  }

  // ----- writes of concurrent prompts -----

  // The prompts' writes in any order that keeps each prompt's own: what asyncio.gather allows.
  ghost predicate Concurrent(log: seq<Event>, writers: seq<nat>, prompts: seq<Prompt>) {
    I.Interleaves(log, writers, PromptLogs(prompts))
  }

  function PutsIn(e: Event): nat { if e.Put? then 1 else 0 }

  function RecordsIn(e: Event): nat { if e.Put? then |e.trajectories| else 0 }

  // Sessions written with a trajectory that is marked as not finished.
  function UnfinishedIn(e: Event): nat {
    if e.Put? && exists i :: 0 <= i < |e.trajectories| && e.trajectories[i].finished == Some(false) then 1 else 0
  }

  function FinishedIn(e: Event): nat { if e.Mark? && e.finished then 1 else 0 }

  // A log's totals, one at a time.
  lemma {:induction false} TallyWeights(log: seq<Event>, n: nat)
    requires n <= |log|
    ensures TallyTo(log, n).puts == I.Weigh(PutsIn, log, n)
    ensures TallyTo(log, n).records == I.Weigh(RecordsIn, log, n)
    ensures TallyTo(log, n).unfinished == I.Weigh(UnfinishedIn, log, n)
    ensures TallyTo(log, n).finished == I.Weigh(FinishedIn, log, n)
    decreases n
  {
    if n > 0 { TallyWeights(log, n - 1); }
  }

  // However the prompts' writes interleave, the log holds as much.
  lemma InterleavedTally(log: seq<Event>, writers: seq<nat>, prompts: seq<Prompt>)
    requires Concurrent(log, writers, prompts)
    ensures Tally(log) == Tally(BatchLog(prompts, |prompts|))
  {
    var logs, flat := PromptLogs(prompts), BatchLog(prompts, |prompts|);
    TallyWeights(log, |log|);
    TallyWeights(flat, |flat|);
    I.SameWeight(PutsIn, log, writers, logs);
    I.SameWeight(RecordsIn, log, writers, logs);
    I.SameWeight(UnfinishedIn, log, writers, logs);
    I.SameWeight(FinishedIn, log, writers, logs);
  }

  method RunBatch(prompts: seq<Prompt>, numSessions: int) returns (r: BatchOutcome, log: seq<Event>, writers: seq<nat>)
    requires numSessions > 0 ==> forall i :: 0 <= i < |prompts| ==> |prompts[i].runs| == numSessions
    ensures r == EmptyBatch <==> prompts == []
    ensures r == BadSessionCount <==> prompts != [] && numSessions <= 0
    ensures r == BatchInterrupted <==> prompts != [] && numSessions > 0 && exists i :: 0 <= i < |prompts| && Stopped(prompts[i])
    ensures r != AllFailed
    ensures if numSessions <= 0 then log == [] else Concurrent(log, writers, prompts)
    ensures r.Summary? ==> r.prompts == |prompts| && Accounts(r.stats, prompts, |prompts|)
    ensures r.Summary? ==> r.stats.success + r.stats.failed == |prompts| * numSessions
  {
    log, writers := [], [];
    if prompts == [] { return EmptyBatch, log, writers; }
    if numSessions <= 0 { return BadSessionCount, log, writers; }
    var outcomes;
    outcomes, log, writers := Gather(prompts);
    r := Summarize(prompts, outcomes, numSessions);
  }

  // asyncio.gather over the prompt tasks: their writes interleave in any way, and every one of
  // them ends before the outcomes are read.
  method Gather(prompts: seq<Prompt>) returns (outcomes: seq<PromptOutcome>, log: seq<Event>, writers: seq<nat>)
    ensures |outcomes| == |prompts| && Concurrent(log, writers, prompts)
    ensures forall j :: 0 <= j < |prompts| ==> Matches(prompts[j], outcomes[j])
  {
    outcomes := [];
    var logs := [];
    for i := 0 to |prompts|
      invariant |outcomes| == |logs| == i
      invariant forall j :: 0 <= j < i ==> logs[j] == PromptLog(prompts[j]) && Matches(prompts[j], outcomes[j])
    {
      var outcome, events := RunPrompt(prompts[i]);
      outcomes, logs := outcomes + [outcome], logs + [events];
    }
    assert logs == PromptLogs(prompts);
    log, writers := I.Interleave(logs);
  }

  // One turn of the loop over the outcomes.
  method AddOutcome(s: Stats, prompts: seq<Prompt>, i: nat, outcome: PromptOutcome, numSessions: nat) returns (stop: bool, s': Stats)
    requires i < |prompts| && Accounts(s, prompts, i) && Matches(prompts[i], outcome) && |prompts[i].runs| == numSessions
    ensures stop <==> Stopped(prompts[i])
    ensures !stop ==> Accounts(s', prompts, i + 1)
  {
    match outcome
    case Failed(reason) =>
      s' := s.(failed := s.failed + numSessions, failedUids := s.failedUids + 1, reasons := s.reasons + [Error(reason)]);
      FailedStep(s, s', prompts, i, reason);
      stop := false;
    case Interrupted =>
      stop, s' := true, s;
    case Returned(t) =>
      s' := Stats(s.success + t.success, s.failed + t.failed, s.outputs + t.outputs, s.unfinished + t.unfinished,
                  s.failedUids + t.failedUids, s.reasons + t.reasons);
      ReturnedStep(s, s', prompts, i, t);
      stop := false;
  }

  // The loop over the prompts' outcomes.
  method Summarize(prompts: seq<Prompt>, outcomes: seq<PromptOutcome>, numSessions: nat) returns (r: BatchOutcome)
    requires |outcomes| == |prompts| && forall j :: 0 <= j < |prompts| ==> Matches(prompts[j], outcomes[j])
    requires forall i :: 0 <= i < |prompts| ==> |prompts[i].runs| == numSessions
    ensures r.Summary? || r == BatchInterrupted
    ensures r == BatchInterrupted <==> exists i :: 0 <= i < |prompts| && Stopped(prompts[i])
    ensures r.Summary? ==> r.prompts == |prompts| && Accounts(r.stats, prompts, |prompts|)
    ensures r.Summary? ==> r.stats.success + r.stats.failed == |prompts| * numSessions
  {
    var s := Stats(0, 0, 0, 0, 0, []);
    for i := 0 to |prompts|
      invariant Accounts(s, prompts, i)
      invariant forall j :: 0 <= j < i ==> !Stopped(prompts[j])
    {
      var stop;
      stop, s := AddOutcome(s, prompts, i, outcomes[i], numSessions);
      if stop { return BatchInterrupted; }
    }
    SessionsProduct(prompts, |prompts|, numSessions);
    r := Summary(|prompts|, s);
  }

  // The prompt's task raises although one of its sessions was written.
  predicate WroteAndRaised(p: Prompt) {
    p.setupError.None? && !Returns(p) && AnyWritten(p.runs, Interrupt(p.runs, |p.runs|))
  }

  lemma PromptRecords(p: Prompt)
    requires !Returns(p)
    ensures var t := Tally(PromptLog(p)); (t.records > 0 <==> WroteAndRaised(p)) && (t.puts > 0 <==> WroteAndRaised(p)) && t.finished == 0
  {
    if p.setupError.None? {
      var k := Interrupt(p.runs, |p.runs|);
      PutsTally(p.uid, p.runs, k);
      assert PromptLog(p) == Puts(p.uid, p.runs, k) + [] == Puts(p.uid, p.runs, k);
    }
  }

  // No prompt raised after one of its sessions was written.
  predicate NoneRaisedLate(prompts: seq<Prompt>) {
    forall i :: 0 <= i < |prompts| ==> !WroteAndRaised(prompts[i])
  }

  function Returning(prompts: seq<Prompt>): seq<bool> {
    seq(|prompts|, i requires 0 <= i < |prompts| => Returns(prompts[i]))
  }

  lemma {:induction false} KeptIsReturned(prompts: seq<Prompt>, n: nat)
    requires n <= |prompts|
    ensures I.FlatKept(PromptLogs(prompts), Returning(prompts), n) == ReturnedLog(prompts, n)
    decreases n
  {
    if n > 0 {
      KeptIsReturned(prompts, n - 1);
      KeptMore(prompts, n - 1);
    }
  }

  lemma KeptMore(prompts: seq<Prompt>, n: nat)
    requires n < |prompts| && I.FlatKept(PromptLogs(prompts), Returning(prompts), n) == ReturnedLog(prompts, n)
    ensures I.FlatKept(PromptLogs(prompts), Returning(prompts), n + 1) == ReturnedLog(prompts, n + 1)
  {
    assert PromptLogs(prompts)[n] == PromptLog(prompts[n]) && Returning(prompts)[n] == Returns(prompts[n]);
  }

  // The counters never claim more than was stored, and they leave no record and no written session
  // out exactly when no prompt raised after one of its sessions was written.
  lemma NothingLost(prompts: seq<Prompt>)
    ensures var counted, stored := Tally(ReturnedLog(prompts, |prompts|)), Tally(BatchLog(prompts, |prompts|));
      && counted.records <= stored.records && counted.puts <= stored.puts
      && (counted.records == stored.records <==> NoneRaisedLate(prompts))
      && (counted.puts == stored.puts <==> NoneRaisedLate(prompts))
  {
    CountedOrLost(prompts, RecordsIn);
    CountedOrLost(prompts, PutsIn);
    TallyWeights(BatchLog(prompts, |prompts|), |BatchLog(prompts, |prompts|)|);
    TallyWeights(ReturnedLog(prompts, |prompts|), |ReturnedLog(prompts, |prompts|)|);
    forall i | 0 <= i < |prompts|
      ensures LosesNothing(prompts[i], RecordsIn) <==> !WroteAndRaised(prompts[i])
      ensures LosesNothing(prompts[i], PutsIn) <==> !WroteAndRaised(prompts[i])
    {
      LosesNothingIff(prompts[i]);
    }
  }

  predicate LosesNothing(p: Prompt, w: Event -> nat) {
    Returns(p) || I.Weigh(w, PromptLog(p), |PromptLog(p)|) == 0
  }

  lemma CountedOrLost(prompts: seq<Prompt>, w: Event -> nat)
    ensures var counted, stored := ReturnedLog(prompts, |prompts|), BatchLog(prompts, |prompts|);
      && I.Weigh(w, counted, |counted|) <= I.Weigh(w, stored, |stored|)
      && (I.Weigh(w, counted, |counted|) == I.Weigh(w, stored, |stored|) <==>
            forall i :: 0 <= i < |prompts| ==> LosesNothing(prompts[i], w))
  {
    KeptIsReturned(prompts, |prompts|);
    I.NothingDroppedIff(w, PromptLogs(prompts), Returning(prompts));
    forall i | 0 <= i < |prompts| ensures I.Light(w, PromptLogs(prompts), Returning(prompts), i) <==> LosesNothing(prompts[i], w) {}
  }

  lemma LosesNothingIff(p: Prompt)
    ensures LosesNothing(p, RecordsIn) <==> !WroteAndRaised(p)
    ensures LosesNothing(p, PutsIn) <==> !WroteAndRaised(p)
  {
    TallyWeights(PromptLog(p), |PromptLog(p)|);
    if !Returns(p) { PromptRecords(p); }
  }

  // One prompt, one session, written; then the status write raises.
  function Raiser(t: Traj, error: string): Prompt { Prompt("a", None, [SessionRun(Done([t]), None)], Some(error)) }

  lemma RaiserLog(t: Traj, error: string)
    ensures PromptLog(Raiser(t, error)) == [Put("a", 0, [t])] && !Returns(Raiser(t, error))
  {
    var runs := Raiser(t, error).runs;
    assert Interrupt(runs, 0) == 0 && Puts("a", runs, 0) == [];
    assert Puts("a", runs, 1) == [Put("a", 0, [t])];
  }

  // Its record is stored, and the batch reports no successful session and no output.
  lemma StatusWriteFails(t: Traj, error: string, s: Stats)
    requires Accounts(s, [Raiser(t, error)], 1)
    ensures BatchLog([Raiser(t, error)], 1) == [Put("a", 0, [t])]
    ensures s.success == 0 && s.failed == 1 && s.outputs == 0 && s.failedUids == 1
  {
    var prompts := [Raiser(t, error)];
    RaiserLog(t, error);
    assert BatchLog(prompts, 0) == [] && PromptLogs(prompts)[0] == PromptLog(prompts[0]);
    assert ReturnedLog(prompts, 0) == [] && ReturnedLog(prompts, 1) == [];
    assert Sessions(prompts, 0) == 0;
  }

  predicate Scored(p: Prompt) { Returns(p) && AnyWritten(p.runs, |p.runs|) }

  // generate_sequences raises unless some prompt that returned has written a record.
  method GenerateSequences(prompts: seq<Prompt>, numSessions: int) returns (r: BatchOutcome, log: seq<Event>, writers: seq<nat>)
    requires numSessions > 0 ==> forall i :: 0 <= i < |prompts| ==> |prompts[i].runs| == numSessions
    ensures numSessions > 0 ==> Concurrent(log, writers, prompts)
    ensures r.Summary? ==> Accounts(r.stats, prompts, |prompts|)
    ensures prompts != [] && numSessions > 0 && (forall i :: 0 <= i < |prompts| ==> !Stopped(prompts[i])) ==>
      (r.Summary? <==> exists i :: 0 <= i < |prompts| && Scored(prompts[i])) && (r == AllFailed <==> !r.Summary?)
  {
    r, log, writers := RunBatch(prompts, numSessions);
    RecordsOfReturned(prompts, |prompts|);
    if r.Summary? && r.stats.outputs == 0 { r := AllFailed; }
  }

  lemma {:induction false} RecordsOfReturned(prompts: seq<Prompt>, n: nat)
    requires n <= |prompts|
    ensures Tally(ReturnedLog(prompts, n)).records > 0 <==> exists i :: 0 <= i < n && Scored(prompts[i])
  {
    if n > 0 {
      RecordsOfReturned(prompts, n - 1);
      var p := prompts[n - 1];
      TallyAppend(ReturnedLog(prompts, n - 1), if Returns(p) then PromptLog(p) else []);
      if Returns(p) { ReturnedTally(p); }
    }
  }
}
