/** What a runner's event batches do to a run: the spend ledger, the rolling deadline, and the
limits that end the run. */
module RunLedger {
  import opened Common
  import opened RunRows

  const MAX_RUNNER_SEQ := 1_000_000_000_000
  const MAX_USAGE_REPORT := 10_000_000
  const TASK_IDLE_WINDOW := 15 * 60 * SECOND
  const RUN_LEASE_TTL := 60 * SECOND

  /** The event types ReportEvents tells apart. Reserved is a name in one of the server's own
  namespaces, Other is any other name a runner sends. */
  datatype Kind = Turn | Usage | Progress | StateChange | Tool | Reserved(name: string) | Other(name: string)

  datatype Event = Event(seqNo: int, kind: Kind, inputTokens: int, outputTokens: int)

  predicate Accepted(e: Event) { 1 <= e.seqNo <= MAX_RUNNER_SEQ && !e.kind.Reserved? }

  function ClampUsage(v: int): (r: int)
    ensures 0 <= r <= MAX_USAGE_REPORT && (v <= r || r == MAX_USAGE_REPORT) && (r <= v || r == 0)
  {
    if v < 0 then 0 else if v > MAX_USAGE_REPORT then MAX_USAGE_REPORT else v
  }

  datatype Spend = Spend(turns: int, input: int, output: int) {
    function Plus(o: Spend): Spend { Spend(turns + o.turns, input + o.input, output + o.output) }
  }

  /** What one event costs, were it counted. */
  function Cost(e: Event): Spend {
    if e.kind == Turn then Spend(1, 0, 0)
    else if e.kind == Usage then Spend(0, ClampUsage(e.inputTokens), ClampUsage(e.outputTokens))
    else Spend(0, 0, 0)
  }

  /** The cost of every accepted event past the high-water mark. */
  function CostAbove(es: seq<Event>, mark: int): Spend {
    if es == [] then Spend(0, 0, 0)
    else
      var last := es[|es| - 1];
      var rest := CostAbove(es[..|es| - 1], mark);
      if Accepted(last) && last.seqNo > mark then rest.Plus(Cost(last)) else rest
  }

  /** The high-water mark after a batch. */
  function MarkAfter(es: seq<Event>, mark: int): (m: int)
    ensures m >= mark
  {
    if es == [] then mark
    else
      var last, rest := es[|es| - 1], MarkAfter(es[..|es| - 1], mark);
      if Accepted(last) && last.seqNo > rest then last.seqNo else rest
  }

  predicate SaysState(es: seq<Event>) { exists i | 0 <= i < |es| :: Accepted(es[i]) && es[i].kind == StateChange }

  function Extension(run: Run, now: int, batch: seq<Event>): Option<int> {
    if now > run.deadline || run.hard == None || batch == [] || now + TASK_IDLE_WINDOW <= run.deadline then None
    else Some(if now + TASK_IDLE_WINDOW > run.hard.value then run.hard.value else now + TASK_IDLE_WINDOW)
  }

  /** The delta a batch adds, worked out from the row as it was read. */
  function DeltaOf(run: Run, now: int, batch: seq<Event>): SpendDelta {
    var c := CostAbove(batch, run.lastRunnerSeq);
    SpendDelta(c.turns, c.input, c.output, MarkAfter(batch, run.lastRunnerSeq),
               if run.state == Acknowledged && SaysState(batch) then Some(Running) else None,
               Extension(run, now, batch), now + RUN_LEASE_TTL)
  }

  datatype Answer = Continue | Abort(reason: string) | WrongRunner

  function OverLimit(run: Run, l: Limits, m: Mode): Option<string> {
    if Uncapped(m) then None
    else if run.turns > TurnsFor(l, m) then Some("turn_limit")
    else if run.inputTokens + run.outputTokens > l.maxTokens then Some("token_budget")
    else None
  }

  /** What one batch, read and written without interference, answers and leaves stored. Limits
  are judged on what was committed, and the deadline as it stood before the batch. */
  function Reported(row: Run, runnerID: string, batch: seq<Event>, now: int, l: Limits, m: Mode): (Answer, Run) {
    var committed := AddRunSpend(row, runnerID, DeltaOf(row, now, batch));
    if row.state.Terminal() then (Abort("run_closed"), row)
    else if committed.Err? then (WrongRunner, row)
    else
      var over := OverLimit(committed.value, l, m);
      if over.Some? then (Abort(over.value), Limited(committed.value, over.value))
      else if now > row.deadline then (Abort("deadline"), Limited(committed.value, "deadline"))
      else (Continue, committed.value)
  }

  function Limited(run: Run, which: string): Run { run.(state := Failed, failReason := which) }

  class RunStore {
    var row: Run

    constructor (row: Run)
      ensures this.row == row
    {
      this.row := row;
    }

    method UpdateRun(copy: Run, expectState: RunState) returns (stale: bool)
      modifies this
      ensures stale <==> old(row).state != expectState
      ensures row == if stale then old(row) else copy
    {
      stale := row.state != expectState;
      if !stale { row := copy; }
    }

    /** finishLimit; a lost race still tears the run down, so the caller aborts either way. */
    method FinishLimit(run: Run, which: string)
      modifies this
      ensures row == if old(row).state == run.state then run.(state := Failed, failReason := which) else old(row)
    {
      var stale := UpdateRun(Limited(run, which), run.state);
    }

    method ReportEvents(runnerID: string, batch: seq<Event>, now: int, l: Limits, m: Mode) returns (answer: Answer)
      modifies this
      ensures (answer, row) == Reported(old(row), runnerID, batch, now, l, m)
    {
      var run := row;
      if run.state.Terminal() { return Abort("run_closed"); }
      if run.runnerID != runnerID { return WrongRunner; }
      var mark, spent, state := run.lastRunnerSeq, Spend(0, 0, 0), run.state;
      for i := 0 to |batch|
        invariant mark == MarkAfter(batch[..i], run.lastRunnerSeq)
        invariant spent == CostAbove(batch[..i], run.lastRunnerSeq)
        invariant state == if run.state == Acknowledged && SaysState(batch[..i]) then Running else run.state
      {
        var e := batch[i];
        assert batch[..i + 1][..i] == batch[..i] && batch[..i + 1][i] == e;
        if Accepted(e) {
          var fresh' := e.seqNo > run.lastRunnerSeq;
          if e.seqNo > mark { mark := e.seqNo; }
          if e.kind == Turn && fresh' {
            spent := spent.(turns := spent.turns + 1);
          } else if e.kind == Usage && fresh' {
            spent := Spend(spent.turns, spent.input + ClampUsage(e.inputTokens), spent.output + ClampUsage(e.outputTokens));
          } else if e.kind == StateChange && state == Acknowledged {
            state := Running;
          }
        }
      }
      assert batch[..|batch|] == batch;
      var expired := now > run.deadline;
      var delta := SpendDelta(spent.turns, spent.input, spent.output, mark,
                              if state != run.state then Some(Running) else None,
                              Extension(run, now, batch), now + RUN_LEASE_TTL);
      var committed := AddRunSpend(row, runnerID, delta);
      if committed.Err? { return Abort("run_closed"); }
      row := committed.value;
      var over := OverLimit(row, l, m);
      if over.Some? {
        FinishLimit(row, over.value);
        return Abort(over.value);
      }
      if expired {
        FinishLimit(row, "deadline");
        return Abort("deadline");
      }
      return Continue;
    }
  }
}
