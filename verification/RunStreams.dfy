/** One runner's event stream served by any number of instances at once: when the stored totals still
count each of its events exactly once. */
module RunStreams {
  import opened Common
  import opened RunRows
  import opened RunLedger
  import opened RunEndings
  import opened RunCounters
  import R = RunReplay

  // ------------------------------------------------------------ batches cut from the stream

  /** How far into the stream an event's last occurrence reaches. */
  function EndOf(stream: seq<Event>, e: Event): (k: nat)
    ensures k <= |stream|
  {
    if stream == [] then 0
    else if stream[|stream| - 1] == e then |stream|
    else EndOf(stream[..|stream| - 1], e)
  }

  function To(stream: seq<Event>, batch: seq<Event>): (k: nat)
    ensures k <= |stream|
  {
    if batch == [] then 0 else EndOf(stream, batch[|batch| - 1])
  }

  predicate PartOf(stream: seq<Event>, batch: seq<Event>) {
    |batch| <= To(stream, batch) && stream[To(stream, batch) - |batch|..To(stream, batch)] == batch
  }

  function From(stream: seq<Event>, batch: seq<Event>): (k: nat)
    requires PartOf(stream, batch)
  {
    To(stream, batch) - |batch|
  }

  /** Every batch the runner ever sends is a part of its stream, in any order, any number of times. */
  ghost predicate CutFrom(stream: seq<Event>, h: History) {
    h.Then? ==> CutFrom(stream, h.before) && (h.e.Read? && h.e.job.Report? ==> PartOf(stream, h.e.job.batch))
  }

  // ------------------------------------------------------------ one charge

  /** Past the furthest event reached, a mark reached so far charges like the first one. */
  lemma NewAlike(stream: seq<Event>, reached: nat, a: nat, b: nat, r: int, m: int)
    requires R.Numbered(stream) && reached <= a <= b <= |stream| && m <= r <= MarkAfter(stream[..reached], m)
    ensures CostAbove(stream[a..b], r) == CostAbove(stream[a..b], m)
  {
    var part := stream[a..b];
    forall e | e in part && Accepted(e) ensures e.seqNo > r <==> e.seqNo > m {
      var i :| 0 <= i < |part| && part[i] == e;
      R.MarkSplitsStream(stream, reached, a + i, m);
    }
    R.SameCost(part, r, m);
  }

  /** What is skipped by a batch that starts past the furthest event reached. */
  function Skipped(stream: seq<Event>, reached: nat, from: nat, m: int): Spend
    requires reached <= |stream| && from <= |stream|
  {
    if from > reached then CostAbove(stream[reached..from], m) else R.ZERO
  }

  /** What a batch charges again: events reached before, above the mark that was read. */
  function Repeated(stream: seq<Event>, reached: nat, from: nat, to: nat, r: int): Spend
    requires reached <= |stream| && from <= to <= |stream|
  {
    if from > reached then R.ZERO else CostAbove(stream[from..Min(reached, to)], r)
  }

  lemma GapCosts(stream: seq<Event>, reached: nat, from: nat, to: nat, r: int, m: int)
    requires R.Numbered(stream) && reached < from <= to <= |stream| && m <= r <= MarkAfter(stream[..reached], m)
    ensures var c := CostAbove(stream[from..to], r);
            CostAbove(stream[..to], m) == CostAbove(stream[..reached], m).Plus(CostAbove(stream[reached..from], m).Plus(c))
  {
    assert stream[..to] == stream[..reached] + (stream[reached..from] + stream[from..to]);
    R.CostOfJoined(stream[..reached], stream[reached..from] + stream[from..to], m);
    R.CostOfJoined(stream[reached..from], stream[from..to], m);
    NewAlike(stream, reached, from, to, r, m);
  }

  lemma OverlapCosts(stream: seq<Event>, reached: nat, from: nat, to: nat, r: int, m: int)
    requires R.Numbered(stream) && from <= reached < to <= |stream| && m <= r <= MarkAfter(stream[..reached], m)
    ensures var c := CostAbove(stream[reached..to], m);
            && CostAbove(stream[..to], m) == CostAbove(stream[..reached], m).Plus(c)
            && CostAbove(stream[from..to], r) == CostAbove(stream[from..reached], r).Plus(c)
  {
    assert stream[..to] == stream[..reached] + stream[reached..to];
    assert stream[from..to] == stream[from..reached] + stream[reached..to];
    R.CostOfJoined(stream[..reached], stream[reached..to], m);
    R.CostOfJoined(stream[from..reached], stream[reached..to], r);
    NewAlike(stream, reached, reached, to, r, m);
  }

  lemma OneTooMany(x: Spend, c: Spend, d: Spend)
    ensures x.Plus(c) == x.Plus(d.Plus(c)) <==> d == R.ZERO
    ensures x.Plus(d.Plus(c)) == x.Plus(c) <==> d == R.ZERO
    ensures x.Plus(d) == x <==> d == R.ZERO
  {}

  /** A charge takes the cost of a prefix to that of the longer prefix exactly when it skips nothing
  and repeats nothing that costs. */
  lemma ChargeIsRightIff(stream: seq<Event>, reached: nat, from: nat, to: nat, r: int, m: int)
    requires R.Numbered(stream) && reached <= |stream| && from <= to <= |stream| && m <= r <= MarkAfter(stream[..reached], m)
    ensures CostAbove(stream[..reached], m).Plus(CostAbove(stream[from..to], r)) == CostAbove(stream[..Max(reached, to)], m)
            <==> Skipped(stream, reached, from, m) == Repeated(stream, reached, from, to, r) == R.ZERO
  {
    var x := CostAbove(stream[..reached], m);
    if from > reached {
      GapCosts(stream, reached, from, to, r, m);
      OneTooMany(x, CostAbove(stream[from..to], r), CostAbove(stream[reached..from], m));
    } else if to > reached {
      OverlapCosts(stream, reached, from, to, r, m);
      OneTooMany(x, CostAbove(stream[reached..to], m), CostAbove(stream[from..reached], r));
    } else {
      OneTooMany(x, R.ZERO, CostAbove(stream[from..to], r));
    }
  }

  lemma MarkGrows(stream: seq<Event>, reached: nat, far: nat, m: int)
    requires reached <= far <= |stream|
    ensures MarkAfter(stream[..reached], m) <= MarkAfter(stream[..far], m)
  {
    assert stream[..far] == stream[..reached] + stream[reached..far];
    R.MarkOfJoined(stream[..reached], stream[reached..far], m);
  }

  lemma PartStaysUnder(stream: seq<Event>, from: nat, to: nat, far: nat, r: int, m: int)
    requires R.Numbered(stream) && from <= to <= far <= |stream| && r <= MarkAfter(stream[..far], m)
    ensures MarkAfter(stream[from..to], r) <= MarkAfter(stream[..far], m)
  {
    var part := stream[from..to];
    R.MarkIsLargest(part, r);
    if MarkAfter(part, r) != r {
      var e :| e in part && Accepted(e) && e.seqNo == MarkAfter(part, r);
      var i :| 0 <= i < |part| && part[i] == e;
      R.MarkSplitsStream(stream, far, from + i, m);
    }
  }

  /** No mark gets past that of the furthest event reached. */
  lemma MarkStaysIn(stream: seq<Event>, reached: nat, from: nat, to: nat, r: int, m: int)
    requires R.Numbered(stream) && reached <= |stream| && from <= to <= |stream| && r <= MarkAfter(stream[..reached], m)
    ensures MarkAfter(stream[..reached], m) <= MarkAfter(stream[..Max(reached, to)], m)
    ensures MarkAfter(stream[from..to], r) <= MarkAfter(stream[..Max(reached, to)], m)
  {
    MarkGrows(stream, reached, Max(reached, to), m);
    PartStaysUnder(stream, from, to, Max(reached, to), r, m);
  }

  // ------------------------------------------------------------ the furthest event reached

  predicate Charges(t: Terms, s: State, e: Step) {
    e.Act? && e.a in s.actors && s.actors[e.a].Counting? && s.row.runnerID == t.runnerID && !s.row.state.Terminal()
  }

  ghost function Reached(t: Terms, stream: seq<Event>, h: History): (k: nat)
    requires Possible(t, h)
    ensures k <= |stream|
  {
    if h.Then? then
      var s, k := Last(t, h.before), Reached(t, stream, h.before);
      if Charges(t, s, h.e) then Max(k, To(stream, s.actors[h.e.a].batch)) else k
    else 0
  }

  function First(h: History): int { RunCounters.Created(h).lastRunnerSeq }

  ghost function Bound(t: Terms, stream: seq<Event>, h: History): int
    requires Possible(t, h)
  {
    MarkAfter(stream[..Reached(t, stream, h)], First(h))
  }

  ghost predicate PcMarks(stream: seq<Event>, low: int, high: int, pc: Pc) {
    && (!pc.Done? ==> low <= pc.copy.lastRunnerSeq <= high)
    && (pc.Counting? ==> PartOf(stream, pc.batch))
  }

  ghost predicate MarksOk(stream: seq<Event>, low: int, high: int, s: State) {
    low <= s.row.lastRunnerSeq <= high && forall a <- s.actors :: PcMarks(stream, low, high, s.actors[a])
  }

  lemma OtherMarks(t: Terms, stream: seq<Event>, low: int, high: int, s: State, a: ActorId, now: int, ok: bool)
    requires MarksOk(stream, low, high, s) && a in s.actors && !s.actors[a].Counting?
    ensures MarksOk(stream, low, high, Next(t, s, a, now, ok))
  {
    match s.actors[a]
    case Claiming(_, _) =>
    case Rebasing(_) =>
    case _ =>
  }

  lemma ChargeMarks(t: Terms, stream: seq<Event>, low: int, reached: nat, s: State, e: Step)
    requires R.Numbered(stream) && reached <= |stream| && MarksOk(stream, low, MarkAfter(stream[..reached], low), s)
    requires Enabled(t, s, e) && Charges(t, s, e)
    ensures MarksOk(stream, low, MarkAfter(stream[..Max(reached, To(stream, s.actors[e.a].batch))], low), Apply(t, s, e))
  {
    match s.actors[e.a]
    case Counting(copy, batch, now) =>
      var to := To(stream, batch);
      assert PcMarks(stream, low, MarkAfter(stream[..reached], low), s.actors[e.a]);
      MarkStaysIn(stream, reached, From(stream, batch), to, copy.lastRunnerSeq, low);
  }

  lemma {:induction false} MarksHold(t: Terms, stream: seq<Event>, h: History)
    requires Possible(t, h) && R.Numbered(stream) && CutFrom(stream, h)
    ensures MarksOk(stream, First(h), Bound(t, stream, h), Last(t, h))
  {
    if h.Then? {
      MarksHold(t, stream, h.before);
      var s, low, high := Last(t, h.before), First(h), Bound(t, stream, h.before);
      if Charges(t, s, h.e) {
        ChargeMarks(t, stream, low, Reached(t, stream, h.before), s, h.e);
      } else if h.e.Act? && !s.actors[h.e.a].Counting? {
        OtherMarks(t, stream, low, high, s, h.e.a, h.e.now, h.e.ok);
      }
    }
  }

  // ------------------------------------------------------------ main result

  /** The usage the final answers have added so far. */
  ghost function OwnUsage(t: Terms, h: History): Spend
    requires Possible(t, h)
  {
    if h.Then? then
      var s := Last(t, h.before);
      OwnUsage(t, h.before).Plus(if Charges(t, s, h.e) then R.ZERO else Due(t, s, h.e).spend)
    else R.ZERO
  }

  /** The stored totals are those of the beginning, each event up to the furthest one reached counted
  once, and the final answer's own usage. */
  ghost predicate Once(t: Terms, stream: seq<Event>, h: History)
    requires Possible(t, h)
  {
    R.Totals(Last(t, h).row)
      == R.Totals(RunCounters.Created(h)).Plus(CostAbove(stream[..Reached(t, stream, h)], First(h))).Plus(OwnUsage(t, h))
  }

  ghost predicate OnceThroughout(t: Terms, stream: seq<Event>, h: History)
    requires Possible(t, h)
  {
    Once(t, stream, h) && (h.Then? ==> OnceThroughout(t, stream, h.before))
  }

  /** A whole-row write that goes through with totals that have moved since its copy was read. */
  predicate StaleTotals(s: State, e: Step) {
    && e.Act? && e.a in s.actors && !s.actors[e.a].Done? && !s.actors[e.a].Counting?
    && var pc := s.actors[e.a];
       && s.row.state == Expected(pc) && R.Totals(pc.copy) != R.Totals(s.row)
       && (pc.Archiving? ==> e.ok && !pc.copy.archived)
  }

  /** A batch that goes through and leaves a gap that costs something, or holds events reached before
  above the mark its instance read. */
  ghost predicate Miscounts(t: Terms, stream: seq<Event>, reached: nat, s: State, e: Step, m: int)
    requires reached <= |stream|
  {
    Charges(t, s, e) &&
    var pc := s.actors[e.a];
    PartOf(stream, pc.batch) &&
    var from, to := From(stream, pc.batch), To(stream, pc.batch);
    !(Skipped(stream, reached, from, m) == Repeated(stream, reached, from, to, pc.copy.lastRunnerSeq) == R.ZERO)
  }

  ghost predicate NoneErrs(t: Terms, stream: seq<Event>, h: History)
    requires Possible(t, h)
  {
    h.Then? ==>
      && NoneErrs(t, stream, h.before)
      && !StaleTotals(Last(t, h.before), h.e)
      && !Miscounts(t, stream, Reached(t, stream, h.before), Last(t, h.before), h.e, First(h))
  }

  lemma StepTotalsIff(t: Terms, s: State, e: Step)
    requires OwnIsUsage(s) && Enabled(t, s, e)
    ensures R.Totals(Apply(t, s, e).row) == R.Totals(s.row).Plus(Due(t, s, e).spend) <==> !StaleTotals(s, e)
  {
    if e.Act? {
      match s.actors[e.a]
      case Counting(copy, batch, now) => ChargeIsDue(t, s, e.a, copy, batch, now);
      case Ending(copy, final, reason, own) =>
      case Limiting(copy, which) =>
      case Archiving(copy) =>
      case Writing(copy) =>
      case Claiming(copy, lease) =>
      case Rebasing(copy) =>
      case Done =>
    }
  }

  lemma SumsAgreeIff(x: Spend, c: Spend, d: Spend, own: Spend, charge: Spend)
    ensures x.Plus(c).Plus(own).Plus(charge) == x.Plus(d).Plus(own) <==> c.Plus(charge) == d
  {}

  lemma TotalsRightIff(stream: seq<Event>, reached: nat, from: nat, to: nat, r: int, m: int, x: Spend, own: Spend)
    requires R.Numbered(stream) && reached <= |stream| && from <= to <= |stream| && m <= r <= MarkAfter(stream[..reached], m)
    ensures x.Plus(CostAbove(stream[..reached], m)).Plus(own).Plus(CostAbove(stream[from..to], r))
              == x.Plus(CostAbove(stream[..Max(reached, to)], m)).Plus(own)
            <==> Skipped(stream, reached, from, m) == Repeated(stream, reached, from, to, r) == R.ZERO
  {
    ChargeIsRightIff(stream, reached, from, to, r, m);
    SumsAgreeIff(x, CostAbove(stream[..reached], m), CostAbove(stream[..Max(reached, to)], m), own, CostAbove(stream[from..to], r));
  }

  /** What a charge that goes through changes. */
  lemma ChargeChanges(t: Terms, stream: seq<Event>, h: History)
    requires Possible(t, h) && h.Then? && Charges(t, Last(t, h.before), h.e)
    ensures var pc := Last(t, h.before).actors[h.e.a];
            && R.Totals(Last(t, h).row) == R.Totals(Last(t, h.before).row).Plus(CostAbove(pc.batch, pc.copy.lastRunnerSeq))
            && Reached(t, stream, h) == Max(Reached(t, stream, h.before), To(stream, pc.batch))
            && OwnUsage(t, h) == OwnUsage(t, h.before) && RunCounters.Created(h) == RunCounters.Created(h.before)
  {
    var s := Last(t, h.before);
    match s.actors[h.e.a]
    case Counting(copy, batch, now) => ChargeIsDue(t, s, h.e.a, copy, batch, now);
  }

  lemma ReaderMarks(t: Terms, stream: seq<Event>, h: History, a: ActorId)
    requires Possible(t, h) && R.Numbered(stream) && CutFrom(stream, h) && a in Last(t, h).actors && Last(t, h).actors[a].Counting?
    ensures PcMarks(stream, First(h), Bound(t, stream, h), Last(t, h).actors[a])
  {
    MarksHold(t, stream, h);
  }

  lemma ChargeStepIff(t: Terms, stream: seq<Event>, h: History)
    requires Possible(t, h) && R.Numbered(stream) && CutFrom(stream, h)
    requires h.Then? && Once(t, stream, h.before) && Charges(t, Last(t, h.before), h.e)
    ensures Once(t, stream, h) <==> !Miscounts(t, stream, Reached(t, stream, h.before), Last(t, h.before), h.e, First(h))
  {
    ReaderMarks(t, stream, h.before, h.e.a);
    ChargeChanges(t, stream, h);
    var pc := Last(t, h.before).actors[h.e.a];
    var from, to := From(stream, pc.batch), To(stream, pc.batch);
    assert pc.batch == stream[from..to];
    TotalsRightIff(stream, Reached(t, stream, h.before), from, to, pc.copy.lastRunnerSeq, First(h),
                   R.Totals(RunCounters.Created(h)), OwnUsage(t, h.before));
  }

  lemma OtherStepIff(t: Terms, stream: seq<Event>, h: History)
    requires Possible(t, h) && h.Then? && Once(t, stream, h.before) && !Charges(t, Last(t, h.before), h.e)
    ensures Once(t, stream, h) <==> !StaleTotals(Last(t, h.before), h.e)
  {
    EndingsAddUsage(t, h.before);
    StepTotalsIff(t, Last(t, h.before), h.e);
  }

  /** However the batches of one stream are delivered, repeated, raced and mixed with other writers,
  the stored totals count each event reached exactly once, all along, exactly when no batch that goes
  through leaves a gap that costs something or holds a costly event reached before above the mark its
  instance read, and no whole-row write goes through with totals that have moved. */
  lemma {:induction false} EachEventOnceIff(t: Terms, stream: seq<Event>, h: History)
    requires Possible(t, h) && R.Numbered(stream) && CutFrom(stream, h)
    ensures OnceThroughout(t, stream, h) <==> NoneErrs(t, stream, h)
  {
    if h.Then? {
      EachEventOnceIff(t, stream, h.before);
      if Once(t, stream, h.before) {
        if Charges(t, Last(t, h.before), h.e) {
          ChargeStepIff(t, stream, h);
        } else {
          OtherStepIff(t, stream, h);
        }
      }
    }
  }

  // ------------------------------------------------------------ batches one after another

  /** A batch served with no other request in between leaves what ReportEvents leaves. */
  lemma ServedInPeace(t: Terms, h: History, batch: seq<Event>, now: int) returns (later: History)
    requires Possible(t, h) && var s := Last(t, h); s.armed && !s.row.state.Terminal() && s.row.runnerID == t.runnerID
    ensures Possible(t, later) && Last(t, later).armed
    ensures Last(t, later).row == Reported(Last(t, h).row, t.runnerID, batch, now, t.limits, t.mode).1
  {
    var a := FreshNumber(Last(t, h).actors.Keys);
    ReportAlone(t, Last(t, h), a, batch, now, true);
    later := Longer(t, h, Read(a, Report(batch, now)));
    later := Longer(t, later, Act(a, now, true));
    if Last(t, later).actors[a].Limiting? { later := Longer(t, later, Act(a, now, true)); }
  }

  /** Every series of batches served one after another is one of the interleavings, so what is proved
  of the one is met by the other. */
  lemma {:induction false} ServiceIsInterleaving(t: Terms, rt: R.Terms, h: History, s: R.Service) returns (later: History)
    requires Possible(t, h) && Last(t, h).armed && R.Start(s) == Last(t, h).row
    requires rt.runnerID == t.runnerID && rt.limits == t.limits && rt.mode == t.mode
    ensures Possible(t, later) && Last(t, later).armed && Last(t, later).row == R.RowAfter(rt, s)
  {
    later := h;
    if s.Served? {
      later := ServiceIsInterleaving(t, rt, h, s.before);
      if R.Accepting(rt, s.before) { later := ServedInPeace(t, later, R.BatchOf(rt, s), s.now); }
    }
  }
}
