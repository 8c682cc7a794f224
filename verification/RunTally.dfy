/** What the ledger's totals mean in events: how many turns were counted, which tokens were summed,
and which batches end a run. */
module RunTally {
  import opened Common
  import opened RunRows
  import opened RunLedger
  import opened RunEndings
  import opened RunStreams
  import RunCounters
  import R = RunReplay

  // ------------------------------------------------------------ counting events

  /** The event is one to count, past the mark. */
  predicate PastMark(e: Event, mark: int) { 1 <= e.seqNo <= MAX_RUNNER_SEQ && e.seqNo > mark }

  /** Where the turns past the mark stand. */
  function TurnsIn(es: seq<Event>, mark: int): set<nat> {
    set i: nat | i < |es| && es[i].kind == Turn && PastMark(es[i], mark)
  }

  function InBounds(v: int): int { Max(0, Min(v, MAX_USAGE_REPORT)) }

  function InputsIn(es: seq<Event>, mark: int): seq<int> {
    seq(|es|, i requires 0 <= i < |es| => if es[i].kind == Usage && PastMark(es[i], mark) then InBounds(es[i].inputTokens) else 0)
  }

  function OutputsIn(es: seq<Event>, mark: int): seq<int> {
    seq(|es|, i requires 0 <= i < |es| => if es[i].kind == Usage && PastMark(es[i], mark) then InBounds(es[i].outputTokens) else 0)
  }

  /** As many turns as there are turn events, and as many tokens as the usage events report. */
  function Tally(es: seq<Event>, mark: int): Spend {
    Spend(|TurnsIn(es, mark)|, Sum(InputsIn(es, mark)), Sum(OutputsIn(es, mark)))
  }

  lemma {:induction false} CostIsTally(es: seq<Event>, mark: int)
    ensures CostAbove(es, mark) == Tally(es, mark)
  {
    if es != [] {
      var init, last := es[..|es| - 1], es[|es| - 1];
      CostIsTally(init, mark);
      assert InputsIn(es, mark)[..|init|] == InputsIn(init, mark);
      assert OutputsIn(es, mark)[..|init|] == OutputsIn(init, mark);
      assert TurnsIn(es, mark)
          == TurnsIn(init, mark) + if last.kind == Turn && PastMark(last, mark) then {|init|} else {};
    } else {
      assert TurnsIn(es, mark) == {};
    }
  }

  /** The row has what it had, and what these events come to. */
  ghost predicate Gained(before: Run, after: Run, es: seq<Event>, mark: int) {
    && after.turns == before.turns + |TurnsIn(es, mark)|
    && after.inputTokens == before.inputTokens + Sum(InputsIn(es, mark))
    && after.outputTokens == before.outputTokens + Sum(OutputsIn(es, mark))
  }

  /** Served one after another without gaps, however often repeated: the run has gained as many turns
  as turn events were counted, and the tokens that the usage events among them report. */
  lemma LedgerTallies(t: R.Terms, s: R.Service)
    requires R.Numbered(t.stream) && R.GapFree(t, s)
    ensures 0 <= R.Counted(t, s) <= |t.stream|
    ensures Gained(R.Start(s), R.RowAfter(t, s), t.stream[..R.Counted(t, s)], R.Start(s).lastRunnerSeq)
  {
    R.LedgerCountsEachEventOnce(t, s);
    CostIsTally(t.stream[..R.Counted(t, s)], R.Start(s).lastRunnerSeq);
  }

  // ------------------------------------------------------------ what one batch does

  predicate Accepts(row: Run, runnerID: string) { !row.state.Terminal() && row.runnerID == runnerID }

  /** The turns and the tokens the run would have after the batch. */
  ghost predicate TurnsSpent(row: Run, batch: seq<Event>, l: Limits, m: Mode) {
    m != Task && row.turns + |TurnsIn(batch, row.lastRunnerSeq)| > TurnsFor(l, m)
  }

  ghost predicate TokensSpent(row: Run, batch: seq<Event>, l: Limits, m: Mode) {
    && m != Task
    && row.inputTokens + row.outputTokens
         + Sum(InputsIn(batch, row.lastRunnerSeq)) + Sum(OutputsIn(batch, row.lastRunnerSeq)) > l.maxTokens
  }

  /** A batch is answered by the first of these that holds of the run and the events counted: it is
  over, it is another runner's, its turns are spent, its tokens are, its deadline was passed. */
  lemma AnswerIff(row: Run, runnerID: string, batch: seq<Event>, now: int, l: Limits, m: Mode)
    ensures var answer := Reported(row, runnerID, batch, now, l, m).0;
            var turns, tokens, late := TurnsSpent(row, batch, l, m), TokensSpent(row, batch, l, m), now > row.deadline;
      && (answer == Abort("run_closed") <==> row.state.Terminal())
      && (answer == WrongRunner <==> !row.state.Terminal() && row.runnerID != runnerID)
      && (answer == Abort("turn_limit") <==> Accepts(row, runnerID) && turns)
      && (answer == Abort("token_budget") <==> Accepts(row, runnerID) && !turns && tokens)
      && (answer == Abort("deadline") <==> Accepts(row, runnerID) && !turns && !tokens && late)
      && (answer == Continue <==> Accepts(row, runnerID) && !turns && !tokens && !late)
  {
    CostIsTally(batch, row.lastRunnerSeq);
    var names := ["run_closed", "turn_limit", "token_budget", "deadline"];
    assert forall i, j | 0 <= i < j < |names| :: names[i] != names[j] by {
      assert names[0][0] == 'r' && names[1][1] == 'u' && names[2][1] == 'o' && names[3][0] == 'd';
    }
  }

  /** Where the deadline moves: with a ceiling, in time and for something said, to the idle window
  from now, but not past the ceiling and not back. */
  function DeadlineAfter(row: Run, batch: seq<Event>, now: int): int {
    if row.hard.Some? && now <= row.deadline && batch != [] && now + 15 * 60 * SECOND > row.deadline
    then Min(now + 15 * 60 * SECOND, row.hard.value) else row.deadline
  }

  ghost predicate SaysRunning(batch: seq<Event>) {
    exists e <- batch :: e.kind == StateChange && 1 <= e.seqNo <= MAX_RUNNER_SEQ
  }

  /** An accepted batch adds what its new events come to, renews the lease and the deadline, and
  moves the run to running if it says so; a run whose limits are spent ends with the reason it is
  told. Nothing else changes. */
  lemma BatchLeaves(row: Run, runnerID: string, batch: seq<Event>, now: int, l: Limits, m: Mode)
    requires Accepts(row, runnerID)
    ensures var r := Reported(row, runnerID, batch, now, l, m);
            var answer, after := r.0, r.1;
      && Gained(row, after, batch, row.lastRunnerSeq)
      && after.lastRunnerSeq == MarkAfter(batch, row.lastRunnerSeq)
      && after.lease == now + 60 * SECOND && after.deadline == DeadlineAfter(row, batch, now)
      && (answer.Abort? ==> after.state == Failed && after.failReason == answer.reason)
      && (answer == Continue ==>
            && after.failReason == row.failReason
            && after.state == if row.state == Acknowledged && SaysRunning(batch) then Running else row.state)
      && after.runnerID == row.runnerID && after.posts == row.posts && after.hard == row.hard
      && after.connectors == row.connectors && after.archived == row.archived
  {
    CostIsTally(batch, row.lastRunnerSeq);
    assert SaysRunning(batch) <==> SaysState(batch) by {
      if i :| 0 <= i < |batch| && Accepted(batch[i]) && batch[i].kind == StateChange { assert batch[i] in batch; }
    }
  }

  /** How long and how far a run may go, by its mode; a limit that is not set is the default. */
  lemma ModeLimits(l: Limits)
    ensures forall m :: TurnsFor(DEFAULT_LIMITS, m) ==
              match m { case Task => 1_073_741_824 case Direct => 128 case Scheduled => 128 case _ => 16 }
    ensures forall m :: WallClockFor(DEFAULT_LIMITS, m) ==
              SECOND * match m { case Task => 2_592_000 case Direct => 7200 case Scheduled => 7200 case _ => 300 }
    ensures forall m | m == Direct || m == Scheduled ::
              && (l.maxTaskTurns > 0 ==> TurnsFor(l, m) == l.maxTaskTurns)
              && (l.maxTaskWallClockSec > 0 ==> WallClockFor(l, m) == l.maxTaskWallClockSec * SECOND)
    ensures forall m | m != Direct && m != Scheduled && m != Task ::
              && (l.maxTurns > 0 ==> TurnsFor(l, m) == l.maxTurns)
              && (l.maxWallClockSec > 0 ==> WallClockFor(l, m) == l.maxWallClockSec * SECOND)
  {}

  // ------------------------------------------------------------ over every interleaving

  /** What a's request was about. */
  function JobOf(h: History, a: ActorId): Option<Job> {
    if h.Created? then None
    else if h.e.Read? && h.e.a == a then Some(h.e.job)
    else JobOf(h.before, a)
  }

  /** The usage a final answer reports; nothing else ends a run with usage of its own. */
  function FinalUsage(job: Option<Job>): Spend {
    if job.Some? && job.value.End? then Spend(0, InBounds(job.value.inputTokens), InBounds(job.value.outputTokens)) else Spend(0, 0, 0)
  }

  /** Who is ending the run does so with the usage reported, and the others came with other jobs. */
  predicate OwnOk(job: Option<Job>, pc: Pc) {
    && (pc.Ending? ==> pc.own == FinalUsage(job))
    && (pc.Limiting? || pc.Counting? ==> job.Some? && job.value.Report?)
    && (pc.Claiming? || pc.Rebasing? ==> job.Some? && job.value.Claim?)
  }

  ghost predicate OwnsAsAsked(h: History, s: State) { forall a <- s.actors :: OwnOk(JobOf(h, a), s.actors[a]) }

  lemma ActOwns(t: Terms, s: State, a: ActorId, now: int, ok: bool, job: Option<Job>)
    requires a in s.actors && OwnOk(job, s.actors[a])
    ensures var u := Next(t, s, a, now, ok); a in u.actors && OwnOk(job, u.actors[a])
  {
    match s.actors[a]
    case Counting(copy, batch, at) =>
    case Claiming(copy, lease) =>
    case Rebasing(copy) =>
    case _ =>
  }

  lemma StepOwns(t: Terms, s: State, e: Step, b: ActorId, job: Option<Job>)
    requires Inv(t, s) && Enabled(t, s, e) && (b in s.actors ==> OwnOk(job, s.actors[b])) && b in Apply(t, s, e).actors
    ensures OwnOk(if e.Read? && e.a == b then Some(e.job) else job, Apply(t, s, e).actors[b])
  {
    if e.Act? {
      StepMoves(t, s, e);
      if e.a == b { ActOwns(t, s, b, e.now, e.ok, job); }
    }
  }

  lemma {:induction false} HistoryOwns(t: Terms, h: History)
    requires Possible(t, h)
    ensures OwnsAsAsked(h, Last(t, h))
  {
    if h.Then? {
      HistoryOwns(t, h.before);
      HistoryKeepsInv(t, h.before);
      forall b | b in Last(t, h).actors ensures OwnOk(JobOf(h, b), Last(t, h).actors[b]) {
        StepOwns(t, Last(t, h.before), h.e, b, JobOf(h.before, b));
      }
    }
  }

  ghost function WinnersUsage(h: History, wins: seq<Win>): Spend {
    if wins == [] then Spend(0, 0, 0) else FinalUsage(JobOf(h, wins[0].actor))
  }

  /** What a step adds to the run besides what it charges. */
  function OwnDue(t: Terms, s: State, e: Step): Spend {
    if Charges(t, s, e) then R.ZERO else RunCounters.Due(t, s, e).spend
  }

  lemma StepWins(t: Terms, s: State, e: Step)
    requires Inv(t, s) && Enabled(t, s, e)
    ensures var u := Apply(t, s, e);
            u.wins == s.wins || (e.Act? && s.wins == [] && |u.wins| == 1 && u.wins[0].actor == e.a)
  {
    if e.Act? {
      match s.actors[e.a]
      case Ending(copy, final, reason, own) => assert CopyOk(t, s.row, s.actors[e.a]);
      case Limiting(copy, which) => assert CopyOk(t, s.row, s.actors[e.a]);
      case _ =>
    }
  }

  lemma StepUsage(t: Terms, s: State, e: Step, job: Option<Job>)
    requires Inv(t, s) && Enabled(t, s, e) && (e.Act? ==> OwnOk(job, s.actors[e.a]))
    ensures var u := Apply(t, s, e);
            || (u.wins == s.wins && OwnDue(t, s, e) == R.ZERO)
            || (e.Act? && s.wins == [] && |u.wins| == 1 && u.wins[0].actor == e.a && OwnDue(t, s, e) == FinalUsage(job))
  {
    if e.Act? {
      match s.actors[e.a]
      case Ending(copy, final, reason, own) => assert CopyOk(t, s.row, s.actors[e.a]);
      case Limiting(copy, which) => assert CopyOk(t, s.row, s.actors[e.a]);
      case _ =>
    }
  }

  lemma {:induction false} WinnerCame(t: Terms, h: History)
    requires Possible(t, h) && Last(t, h).wins != []
    ensures Last(t, h).wins[0].actor in Last(t, h).actors
  {
    if h.Then? {
      var s := Last(t, h.before);
      HistoryKeepsInv(t, h.before);
      StepWins(t, s, h.e);
      if s.wins != [] { WinnerCame(t, h.before); }
      if h.e.Act? { StepMoves(t, s, h.e); }
    }
  }

  lemma WinnersUsageStays(t: Terms, h: History)
    requires Possible(t, h) && h.Then? && Last(t, h).wins == Last(t, h.before).wins
    ensures WinnersUsage(h, Last(t, h).wins) == WinnersUsage(h.before, Last(t, h).wins)
  {
    if Last(t, h.before).wins != [] { WinnerCame(t, h.before); }
  }

  lemma UsageOfStep(t: Terms, h: History)
    requires Possible(t, h) && h.Then?
    ensures var s, u := Last(t, h.before), Last(t, h);
            || (u.wins == s.wins && OwnDue(t, s, h.e) == R.ZERO)
            || (s.wins == [] && |u.wins| == 1 && OwnDue(t, s, h.e) == FinalUsage(JobOf(h, u.wins[0].actor)))
  {
    HistoryOwns(t, h.before);
    HistoryKeepsInv(t, h.before);
    StepUsage(t, Last(t, h.before), h.e, if h.e.Post? then None else JobOf(h.before, h.e.a));
  }

  lemma {:induction false} OwnUsageGrows(t: Terms, h: History)
    requires Possible(t, h) && h.Then?
    ensures OwnUsage(t, h) == OwnUsage(t, h.before).Plus(OwnDue(t, Last(t, h.before), h.e))
  {}

  /** Besides its events a run is charged the usage its final answer reports, if it ended with one. */
  lemma {:induction false} OwnUsageIsFinal(t: Terms, h: History)
    requires Possible(t, h)
    ensures OwnUsage(t, h) == WinnersUsage(h, Last(t, h).wins)
  {
    if h.Then? {
      OwnUsageIsFinal(t, h.before);
      OwnUsageGrows(t, h);
      var before, after := Last(t, h.before).wins, Last(t, h).wins;
      UsageOfStep(t, h);
      if after == before { WinnersUsageStays(t, h); }
    }
  }

  // ------------------------------------------------------------ one stream, under every interleaving

  /** The run has as many turns as there are turn events among those reached, and the tokens that the
  usage events among them and the final answer report; each once. */
  ghost predicate TalliedOnce(t: Terms, stream: seq<Event>, h: History)
    requires Possible(t, h)
  {
    var first, row := RunCounters.Created(h), Last(t, h).row;
    var reached, own := stream[..Reached(t, stream, h)], WinnersUsage(h, Last(t, h).wins);
    && row.turns == first.turns + |TurnsIn(reached, first.lastRunnerSeq)|
    && row.inputTokens == first.inputTokens + Sum(InputsIn(reached, first.lastRunnerSeq)) + own.input
    && row.outputTokens == first.outputTokens + Sum(OutputsIn(reached, first.lastRunnerSeq)) + own.output
  }

  lemma OnceIsTally(t: Terms, stream: seq<Event>, h: History)
    requires Possible(t, h)
    ensures Once(t, stream, h) <==> TalliedOnce(t, stream, h)
  {
    OwnUsageIsFinal(t, h);
    CostIsTally(stream[..Reached(t, stream, h)], First(h));
  }

  ghost predicate TalliedThroughout(t: Terms, stream: seq<Event>, h: History)
    requires Possible(t, h)
  {
    TalliedOnce(t, stream, h) && (h.Then? ==> TalliedThroughout(t, stream, h.before))
  }

  /** The event would be charged for. */
  predicate Costly(e: Event, mark: int) {
    PastMark(e, mark) && (e.kind == Turn || (e.kind == Usage && (e.inputTokens > 0 || e.outputTokens > 0)))
  }

  /** None of them costs anything. */
  ghost predicate AllFree(es: seq<Event>, mark: int) { forall i | 0 <= i < |es| :: !Costly(es[i], mark) }

  predicate IsNothing(x: Spend) { x.turns == 0 && x.input == 0 && x.output == 0 }

  lemma NothingIsZero(x: Spend)
    ensures IsNothing(x) <==> x == R.ZERO
  {}

  lemma {:induction false} CostsAreCounts(es: seq<Event>, mark: int)
    ensures var c := CostAbove(es, mark); c.turns >= 0 && c.input >= 0 && c.output >= 0
  {
    if es != [] { CostsAreCounts(es[..|es| - 1], mark); }
  }

  lemma CostIsFreeIff(e: Event, mark: int)
    requires Accepted(e) && e.seqNo > mark
    ensures IsNothing(Cost(e)) <==> !Costly(e, mark)
    ensures Cost(e).turns >= 0 && Cost(e).input >= 0 && Cost(e).output >= 0
  {}

  lemma AllFreeButOne(es: seq<Event>, mark: int)
    requires es != []
    ensures AllFree(es, mark) <==> AllFree(es[..|es| - 1], mark) && !Costly(es[|es| - 1], mark)
  {
    var init := es[..|es| - 1];
    if AllFree(init, mark) { assert forall i | 0 <= i < |init| :: es[i] == init[i]; }
  }

  lemma {:induction false} CostsNothingIff(es: seq<Event>, mark: int)
    ensures CostAbove(es, mark) == R.ZERO <==> AllFree(es, mark)
  {
    if es != [] {
      AllFreeButOne(es, mark);
      OneMoreCosts(es[..|es| - 1], es[|es| - 1], mark);
      CostsNothingIff(es[..|es| - 1], mark);
      assert es == es[..|es| - 1] + [es[|es| - 1]];
    }
  }

  lemma OneMoreCosts(init: seq<Event>, last: Event, mark: int)
    ensures CostAbove(init + [last], mark) == R.ZERO <==> CostAbove(init, mark) == R.ZERO && !Costly(last, mark)
  {
    CostWithLast(init, last, mark);
    CostsAreCounts(init, mark);
    NothingIsZero(CostAbove(init, mark));
    NothingIsZero(CostAbove(init + [last], mark));
    if Accepted(last) && last.seqNo > mark {
      CostIsFreeIff(last, mark);
    }
  }

  lemma CostWithLast(init: seq<Event>, last: Event, mark: int)
    ensures CostAbove(init + [last], mark)
         == if Accepted(last) && last.seqNo > mark then CostAbove(init, mark).Plus(Cost(last)) else CostAbove(init, mark)
  {
    assert (init + [last])[..|init|] == init;
  }

  /** The batch at stream[from..to] leaves out an event that costs something, or holds one that costs
  something once more: reached before, and above the mark its instance read. */
  ghost predicate SkipsOrRepeats(stream: seq<Event>, reached: nat, from: nat, to: nat, read: int, first: int) {
    || (exists i | reached <= i < from && i < |stream| :: Costly(stream[i], first))
    || (exists i | from <= i < to && i < reached && i < |stream| :: Costly(stream[i], read))
  }

  lemma PartCosts(stream: seq<Event>, from: nat, to: nat, mark: int)
    requires from <= to <= |stream|
    ensures CostAbove(stream[from..to], mark) == R.ZERO <==> forall i | from <= i < to :: !Costly(stream[i], mark)
  {
    var part := stream[from..to];
    CostsNothingIff(part, mark);
    if forall i | from <= i < to :: !Costly(stream[i], mark) {
      assert forall i | 0 <= i < |part| :: part[i] == stream[from + i];
    }
    if forall i | 0 <= i < |part| :: !Costly(part[i], mark) {
      assert forall i | from <= i < to :: stream[i] == part[i - from];
    }
  }

  lemma MiscountsIff(t: Terms, stream: seq<Event>, reached: nat, s: State, e: Step, m: int)
    requires reached <= |stream| && Charges(t, s, e) && PartOf(stream, s.actors[e.a].batch)
    ensures var pc := s.actors[e.a];
            Miscounts(t, stream, reached, s, e, m)
            <==> SkipsOrRepeats(stream, reached, From(stream, pc.batch), To(stream, pc.batch), pc.copy.lastRunnerSeq, m)
  {
    var pc := s.actors[e.a];
    var from, to := From(stream, pc.batch), To(stream, pc.batch);
    if from > reached {
      PartCosts(stream, reached, from, m);
    } else {
      PartCosts(stream, from, Max(from, Min(reached, to)), pc.copy.lastRunnerSeq);
    }
  }

  /** A batch goes through that does so. */
  ghost predicate Mischarges(t: Terms, stream: seq<Event>, reached: nat, s: State, e: Step, first: int) {
    && Charges(t, s, e) && PartOf(stream, s.actors[e.a].batch)
    && var pc := s.actors[e.a];
       SkipsOrRepeats(stream, reached, From(stream, pc.batch), To(stream, pc.batch), pc.copy.lastRunnerSeq, first)
  }

  ghost predicate NoneMischarges(t: Terms, stream: seq<Event>, h: History)
    requires Possible(t, h)
  {
    h.Then? ==>
      && NoneMischarges(t, stream, h.before)
      && !StaleTotals(Last(t, h.before), h.e)
      && !Mischarges(t, stream, Reached(t, stream, h.before), Last(t, h.before), h.e, First(h))
  }

  lemma {:induction false} NoneErrsIff(t: Terms, stream: seq<Event>, h: History)
    requires Possible(t, h)
    ensures NoneErrs(t, stream, h) <==> NoneMischarges(t, stream, h)
  {
    if h.Then? {
      NoneErrsIff(t, stream, h.before);
      var s := Last(t, h.before);
      if Charges(t, s, h.e) && PartOf(stream, s.actors[h.e.a].batch) {
        MiscountsIff(t, stream, Reached(t, stream, h.before), s, h.e, First(h));
      }
    }
  }

  lemma {:induction false} ThroughoutIsTally(t: Terms, stream: seq<Event>, h: History)
    requires Possible(t, h)
    ensures OnceThroughout(t, stream, h) <==> TalliedThroughout(t, stream, h)
  {
    OnceIsTally(t, stream, h);
    if h.Then? { ThroughoutIsTally(t, stream, h.before); }
  }

  /** However the batches of one stream are delivered, repeated and raced: the turns and tokens stored
  are, all along, those of the events reached, exactly when no batch that goes through skips or
  repeats one that costs something, and no whole-row write goes through with totals that have moved. */
  lemma EachEventTalliedIff(t: Terms, stream: seq<Event>, h: History)
    requires Possible(t, h) && R.Numbered(stream) && CutFrom(stream, h)
    ensures TalliedThroughout(t, stream, h) <==> NoneMischarges(t, stream, h)
  {
    EachEventOnceIff(t, stream, h);
    ThroughoutIsTally(t, stream, h);
    NoneErrsIff(t, stream, h);
  }
}
