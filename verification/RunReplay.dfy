/** What the ledger adds up to over a whole run of batches: exact and replay-safe while batches
are served one after another without gaps, and exactly when it still is if they are not. */
module RunReplay {
  import opened Common
  import opened RunRows
  import opened RunLedger

  const ZERO := Spend(0, 0, 0)

  function Totals(row: Run): Spend { Spend(row.turns, row.inputTokens, row.outputTokens) }

  // ------------------------------------------------------------ folds over batches

  lemma {:induction false} CostOfJoined(a: seq<Event>, b: seq<Event>, mark: int)
    ensures CostAbove(a + b, mark) == CostAbove(a, mark).Plus(CostAbove(b, mark))
  {
    if b == [] {
      assert a + b == a;
    } else {
      assert (a + b)[..|a + b| - 1] == a + b[..|b| - 1];
      CostOfJoined(a, b[..|b| - 1], mark);
    }
  }

  lemma {:induction false} MarkOfJoined(a: seq<Event>, b: seq<Event>, mark: int)
    ensures MarkAfter(a + b, mark) == MarkAfter(b, MarkAfter(a, mark))
  {
    if b == [] {
      assert a + b == a;
    } else {
      assert (a + b)[..|a + b| - 1] == a + b[..|b| - 1];
      MarkOfJoined(a, b[..|b| - 1], mark);
    }
  }

  /** The mark is the largest accepted sequence, or the old mark if that is larger. */
  lemma {:induction false} MarkIsLargest(es: seq<Event>, mark: int)
    ensures forall e <- es :: Accepted(e) ==> e.seqNo <= MarkAfter(es, mark)
    ensures MarkAfter(es, mark) == mark || exists e <- es :: Accepted(e) && e.seqNo == MarkAfter(es, mark)
  {
    if es != [] {
      MarkIsLargest(es[..|es| - 1], mark);
      assert es == es[..|es| - 1] + [es[|es| - 1]];
    }
  }

  /** Two marks charge a batch alike when they agree on which accepted events are new. */
  lemma {:induction false} SameCost(es: seq<Event>, m: int, n: int)
    requires forall e <- es :: Accepted(e) ==> (e.seqNo > m <==> e.seqNo > n)
    ensures CostAbove(es, m) == CostAbove(es, n)
  {
    if es != [] { SameCost(es[..|es| - 1], m, n); }
  }

  lemma {:induction false} NothingNew(es: seq<Event>, mark: int)
    requires forall e <- es :: Accepted(e) ==> e.seqNo <= mark
    ensures CostAbove(es, mark) == ZERO && MarkAfter(es, mark) == mark
  {
    if es != [] { NothingNew(es[..|es| - 1], mark); }
  }

  // ------------------------------------------------------------ one runner's stream

  /** A runner numbers its events upwards. */
  predicate Numbered(stream: seq<Event>) {
    forall i, j :: 0 <= i < j < |stream| ==> stream[i].seqNo < stream[j].seqNo
  }

  /** The mark reached after a prefix tells its events from the later ones, among those past m. */
  lemma MarkSplitsStream(stream: seq<Event>, done: nat, i: nat, m: int)
    requires Numbered(stream) && done <= |stream| && i < |stream| && Accepted(stream[i])
    ensures i < done ==> stream[i].seqNo <= MarkAfter(stream[..done], m)
    ensures i >= done ==> (stream[i].seqNo > m <==> stream[i].seqNo > MarkAfter(stream[..done], m))
  {
    MarkIsLargest(stream[..done], m);
    if i < done { assert stream[..done][i] == stream[i]; }
  }

  /** An event that the mark has passed is charged nothing, a later one exactly what it costs. */
  lemma ReplaySplits(stream: seq<Event>, done: nat, a: nat, b: nat, m: int)
    requires Numbered(stream) && a <= b <= |stream| && done <= |stream|
    ensures b <= done ==> NewCost(stream, done, a, b, m) == ZERO
    ensures b <= done ==> MarkAfter(stream[a..b], MarkAfter(stream[..done], m)) == MarkAfter(stream[..done], m)
    ensures a >= done ==> NewCost(stream, done, a, b, m) == CostAbove(stream[a..b], m)
  {
    var mark, part := MarkAfter(stream[..done], m), stream[a..b];
    forall e | e in part && Accepted(e)
      ensures b <= done ==> e.seqNo <= mark
      ensures a >= done ==> (e.seqNo > m <==> e.seqNo > mark)
    {
      var i :| 0 <= i < |part| && part[i] == e;
      MarkSplitsStream(stream, done, a + i, m);
    }
    if b <= done { NothingNew(part, mark); }
    if a >= done { SameCost(part, m, mark); }
  }

  function NewCost(stream: seq<Event>, done: nat, from: nat, to: nat, m: int): Spend
    requires done <= |stream| && from <= to <= |stream|
  {
    CostAbove(stream[from..to], MarkAfter(stream[..done], m))
  }

  lemma ReplayMark(stream: seq<Event>, done: nat, from: nat, to: nat, m: int)
    requires Numbered(stream) && from <= done <= |stream| && from <= to <= |stream|
    ensures MarkAfter(stream[from..to], MarkAfter(stream[..done], m)) == MarkAfter(stream[..Max(done, to)], m)
  {
    if to <= done {
      ReplaySplits(stream, done, from, to, m);
    } else {
      var before, again, later := stream[..done], stream[from..done], stream[done..to];
      assert stream[from..to] == again + later && stream[..to] == before + later;
      MarkOfJoined(again, later, MarkAfter(before, m));
      MarkOfJoined(before, later, m);
      ReplaySplits(stream, done, from, done, m);
    }
  }

  lemma ReplayCost(stream: seq<Event>, done: nat, from: nat, to: nat, m: int)
    requires Numbered(stream) && from <= done <= |stream| && from <= to <= |stream|
    ensures CostAbove(stream[..done], m).Plus(NewCost(stream, done, from, to, m)) == CostAbove(stream[..Max(done, to)], m)
  {
    if to <= done {
      ReplaySplits(stream, done, from, to, m);
    } else {
      var before, again, later := stream[..done], stream[from..done], stream[done..to];
      assert stream[from..to] == again + later && stream[..to] == before + later;
      CostOfJoined(again, later, MarkAfter(before, m));
      CostOfJoined(before, later, m);
      ReplaySplits(stream, done, from, done, m);
      ReplaySplits(stream, done, done, to, m);
    }
  }

  /** A batch that starts no later than the first event not yet counted takes the ledger and the
  mark to what counting the whole prefix once gives, however much of it was counted before. */
  lemma ReplayCountsOnce(stream: seq<Event>, done: nat, from: nat, to: nat, m: int)
    requires Numbered(stream) && from <= done <= |stream| && from <= to <= |stream|
    ensures CostAbove(stream[..done], m).Plus(NewCost(stream, done, from, to, m)) == CostAbove(stream[..Max(done, to)], m)
    ensures MarkAfter(stream[from..to], MarkAfter(stream[..done], m)) == MarkAfter(stream[..Max(done, to)], m)
  {
    ReplayCost(stream, done, from, to, m);
    ReplayMark(stream, done, from, to, m);
  }

  /** For any cut, gaps included: the ledger ends at the whole prefix's cost exactly when the batch
  leaves no gap, or the skipped events cost nothing. A skipped cost is gone for good. */
  lemma GapLosesItsCost(stream: seq<Event>, done: nat, from: nat, to: nat, m: int)
    requires Numbered(stream) && done <= |stream| && from <= to <= |stream|
    ensures CostAbove(stream[..done], m).Plus(NewCost(stream, done, from, to, m)) == CostAbove(stream[..Max(done, to)], m)
            <==> (from <= done || CostAbove(stream[done..from], m) == ZERO)
    ensures from > done ==> NewCost(stream, to, done, from, m) == ZERO
  {
    if from <= done {
      ReplayCountsOnce(stream, done, from, to, m);
    } else {
      assert stream[..to] == stream[..done] + (stream[done..from] + stream[from..to]);
      CostOfJoined(stream[..done], stream[done..from] + stream[from..to], m);
      CostOfJoined(stream[done..from], stream[from..to], m);
      ReplaySplits(stream, done, from, to, m);
      ReplaySplits(stream, to, done, from, m);
    }
  }

  // ------------------------------------------------------------ a run served batch by batch

  /** Batches cut from one stream, oldest first, each served to the end before the next. */
  datatype Service = Claimed(row: Run) | Served(before: Service, from: nat, to: nat, now: int)

  datatype Terms = Terms(stream: seq<Event>, runnerID: string, limits: Limits, mode: Mode)

  /** No batch starts past the first event not yet counted. */
  ghost predicate GapFree(t: Terms, s: Service) {
    s.Served? ==> GapFree(t, s.before) && s.from <= s.to <= |t.stream| && s.from <= Counted(t, s.before)
  }

  /** How far into the stream the ledger has counted. */
  ghost function Counted(t: Terms, s: Service): int {
    match s
    case Claimed(_) => 0
    case Served(before, _, to, _) => if Accepting(t, before) then Max(Counted(t, before), to) else Counted(t, before)
  }

  ghost predicate Accepting(t: Terms, s: Service) {
    !RowAfter(t, s).state.Terminal() && RowAfter(t, s).runnerID == t.runnerID
  }

  ghost function BatchOf(t: Terms, s: Service): seq<Event>
    requires s.Served?
  {
    if s.from <= s.to <= |t.stream| then t.stream[s.from..s.to] else []
  }

  ghost function RowAfter(t: Terms, s: Service): Run {
    match s
    case Claimed(row) => row
    case Served(before, _, _, now) =>
      Reported(RowAfter(t, before), t.runnerID, BatchOf(t, s), now, t.limits, t.mode).1
  }

  ghost function AnswerTo(t: Terms, s: Service): Answer
    requires s.Served?
  {
    Reported(RowAfter(t, s.before), t.runnerID, BatchOf(t, s), s.now, t.limits, t.mode).0
  }

  ghost function Start(s: Service): Run { if s.Claimed? then s.row else Start(s.before) }

  lemma {:induction false} CountedWithinStream(t: Terms, s: Service)
    requires GapFree(t, s)
    ensures 0 <= Counted(t, s) <= |t.stream|
  {
    if s.Served? { CountedWithinStream(t, s.before); }
  }

  /** What serving one batch does to the totals and the mark. */
  lemma ServedAdds(t: Terms, s: Service)
    requires s.Served?
    ensures !Accepting(t, s.before) ==> RowAfter(t, s) == RowAfter(t, s.before)
    ensures Accepting(t, s.before) ==>
      && Totals(RowAfter(t, s)) == Totals(RowAfter(t, s.before)).Plus(CostAbove(BatchOf(t, s), RowAfter(t, s.before).lastRunnerSeq))
      && RowAfter(t, s).lastRunnerSeq == MarkAfter(BatchOf(t, s), RowAfter(t, s.before).lastRunnerSeq)
  {
    if Accepting(t, s.before) {
      DeltaFromRead(RowAfter(t, s.before), RowAfter(t, s.before), t.runnerID, s.now, BatchOf(t, s));
    }
  }

  /** The ledger of a row is what a run started with plus the cost of the first done events. */
  ghost predicate Counts(row: Run, start: Run, stream: seq<Event>, done: int) {
    && 0 <= done <= |stream|
    && Totals(row) == Totals(start).Plus(CostAbove(stream[..done], start.lastRunnerSeq))
    && row.lastRunnerSeq == MarkAfter(stream[..done], start.lastRunnerSeq)
  }

  lemma BatchKeepsCount(row: Run, after: Run, start: Run, stream: seq<Event>, done: nat, from: nat, to: nat)
    requires Numbered(stream) && Counts(row, start, stream, done) && from <= done && from <= to <= |stream|
    requires Totals(after) == Totals(row).Plus(CostAbove(stream[from..to], row.lastRunnerSeq))
    requires after.lastRunnerSeq == MarkAfter(stream[from..to], row.lastRunnerSeq)
    ensures Counts(after, start, stream, Max(done, to))
  {
    ReplayCountsOnce(stream, done, from, to, start.lastRunnerSeq);
  }

  /** Replay-safe: whatever was re-delivered or overlapped, the stored ledger is what the run
  started with plus each counted event once, and the mark is theirs. */
  lemma {:induction false} LedgerCountsEachEventOnce(t: Terms, s: Service)
    requires Numbered(t.stream) && GapFree(t, s)
    ensures Counts(RowAfter(t, s), Start(s), t.stream, Counted(t, s))
  {
    CountedWithinStream(t, s);
    if s.Served? {
      LedgerCountsEachEventOnce(t, s.before);
      ServedAdds(t, s);
      if Accepting(t, s.before) {
        BatchKeepsCount(RowAfter(t, s.before), RowAfter(t, s), Start(s), t.stream, Counted(t, s.before), s.from, s.to);
      }
    }
  }

  // ------------------------------------------------------------ the two clocks

  /** rebaseClaimDeadlines */
  function Rebased(run: Run, now: int, l: Limits, m: Mode): (r: Run)
    ensures r.hard == Some(now + WallClockFor(l, m))
    ensures r.deadline == Min(r.hard.value, now + (if l.maxWallClockSec > 0 then l.maxWallClockSec else 300) * SECOND)
    ensures r == run.(hard := r.hard, deadline := r.deadline)
  {
    var hard := now + WallClockFor(l, m);
    var window := now + OrDefault(l.maxWallClockSec, DEFAULT_LIMITS.maxWallClockSec) * SECOND;
    run.(hard := Some(hard), deadline := if window > hard then hard else window)
  }

  /** From the claim on, with batches served one after another, the rolling deadline stays under a
  ceiling that never moves. */
  lemma {:induction false} DeadlineUnderCeiling(t: Terms, s: Service, claimed: int, run: Run)
    requires Start(s) == Rebased(run, claimed, t.limits, t.mode)
    ensures RowAfter(t, s).hard == Some(claimed + WallClockFor(t.limits, t.mode))
    ensures RowAfter(t, s).deadline <= claimed + WallClockFor(t.limits, t.mode)
  {
    if s.Served? { DeadlineUnderCeiling(t, s.before, claimed, run); }
  }

  /** It never moves back, and a batch that arrives after it neither moves it nor keeps the run
  alive; so every batch the server lets go on arrives within the mode's wall clock of the claim. */
  lemma DeadlineRolls(t: Terms, s: Service, claimed: int, run: Run)
    requires s.Served? && Start(s) == Rebased(run, claimed, t.limits, t.mode)
    ensures RowAfter(t, s.before).deadline <= RowAfter(t, s).deadline
    ensures s.now > RowAfter(t, s.before).deadline ==>
              RowAfter(t, s).deadline == RowAfter(t, s.before).deadline && AnswerTo(t, s) != Continue
    ensures AnswerTo(t, s) == Continue ==> s.now <= claimed + WallClockFor(t.limits, t.mode)
    ensures AnswerTo(t, s) == Continue && BatchOf(t, s) != [] ==>
              RowAfter(t, s).deadline >= s.now + TASK_IDLE_WINDOW || RowAfter(t, s).deadline == claimed + WallClockFor(t.limits, t.mode)
  {
    DeadlineUnderCeiling(t, s.before, claimed, run);
  }

  // ------------------------------------------------------------ batches served at once

  /** The cost of the accepted events a stale reader takes for new though the stored mark has
  passed them. */
  function CostBetween(batch: seq<Event>, stale: int, mark: int): Spend {
    if batch == [] then ZERO
    else
      var last, rest := batch[|batch| - 1], CostBetween(batch[..|batch| - 1], stale, mark);
      if Accepted(last) && stale < last.seqNo <= mark then rest.Plus(Cost(last)) else rest
  }

  /** Two deliveries of one batch read at once are both charged: what a stale reader commits is off
  by exactly the repeated events' cost. */
  lemma {:induction false} StaleReaderRecounts(batch: seq<Event>, stale: int, mark: int)
    requires stale <= mark
    ensures CostAbove(batch, stale) == CostAbove(batch, mark).Plus(CostBetween(batch, stale, mark))
  {
    if batch != [] {
      var init, last := batch[..|batch| - 1], batch[|batch| - 1];
      StaleReaderRecounts(init, stale, mark);
    }
  }

  /** What a delta worked out from another read of the row stores. */
  lemma DeltaFromRead(row: Run, read: Run, runnerID: string, now: int, batch: seq<Event>)
    requires !row.state.Terminal() && row.runnerID == runnerID
    ensures var w := AddRunSpend(row, runnerID, DeltaOf(read, now, batch));
            && w.Ok?
            && Totals(w.value) == Totals(row).Plus(CostAbove(batch, read.lastRunnerSeq))
            && w.value.lastRunnerSeq == MarkAfter(batch, read.lastRunnerSeq)
  {
  }

  /** A delta worked out from another read charges what the row's own mark says exactly when the
  events between the two marks cost nothing: those are charged again, or, if the row's mark has
  moved back meanwhile, not at all. */
  lemma StaleDeltaIsExactIff(row: Run, read: Run, runnerID: string, now: int, batch: seq<Event>)
    requires !row.state.Terminal() && row.runnerID == runnerID
    ensures var stale := AddRunSpend(row, runnerID, DeltaOf(read, now, batch));
            var serial := AddRunSpend(row, runnerID, DeltaOf(row, now, batch));
            var low, high := Min(read.lastRunnerSeq, row.lastRunnerSeq), Max(read.lastRunnerSeq, row.lastRunnerSeq);
            && stale.Ok? && serial.Ok?
            && (Totals(stale.value) == Totals(serial.value) <==> CostBetween(batch, low, high) == ZERO)
  {
    DeltaFromRead(row, read, runnerID, now, batch);
    DeltaFromRead(row, row, runnerID, now, batch);
    StaleReaderRecounts(batch, Min(read.lastRunnerSeq, row.lastRunnerSeq), Max(read.lastRunnerSeq, row.lastRunnerSeq));
  }

  /** The mark is set, not raised: it moves back, so that even a later serial retry is charged
  again, exactly when an older read meets a batch that ends below the stored mark. */
  lemma MarkMovesBackIff(row: Run, read: Run, runnerID: string, now: int, batch: seq<Event>)
    requires !row.state.Terminal() && row.runnerID == runnerID
    ensures var w := AddRunSpend(row, runnerID, DeltaOf(read, now, batch));
            && w.Ok?
            && (w.value.lastRunnerSeq < row.lastRunnerSeq
                <==> (&& read.lastRunnerSeq < row.lastRunnerSeq
                      && forall e <- batch :: Accepted(e) ==> e.seqNo < row.lastRunnerSeq))
  {
    DeltaFromRead(row, read, runnerID, now, batch);
    MarkIsLargest(batch, read.lastRunnerSeq);
  }
}
