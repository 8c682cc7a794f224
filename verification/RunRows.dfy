/** The stored row of one agent run and the conditional writes the run store offers on it. */
module RunRows {
  import opened Common

  datatype RunState = Queued | Acknowledged | Running | Completed | Failed | Canceled {
    predicate Terminal() { Completed? || Failed? || Canceled? }
  }

  /** hard is the ceiling of the rolling deadline, absent on rows older than the field. */
  datatype Run = Run(
    state: RunState, runnerID: string, failReason: string,
    turns: int, inputTokens: int, outputTokens: int, posts: int, lastRunnerSeq: int,
    deadline: int, hard: Option<int>, lease: int, connectors: seq<string>, archived: bool)

  datatype StoreError = StaleRun

  type Write = Result<Run, StoreError>

  /** The whole row is replaced by the caller's copy; only the state is compared. */
  function UpdateRun(row: Run, copy: Run, expectState: RunState): Write {
    if row.state == expectState then Ok(copy) else Err(StaleRun)
  }

  datatype SpendDelta = SpendDelta(
    turns: int, inputTokens: int, outputTokens: int, lastRunnerSeq: int,
    state: Option<RunState>, deadline: Option<int>, lease: int)

  /** Counters are added to what is stored, the rest is set, and a terminal row is refused. */
  function AddRunSpend(row: Run, runnerID: string, d: SpendDelta): Write {
    if row.runnerID != runnerID || row.state.Terminal() then Err(StaleRun)
    else Ok(row.(
      turns := row.turns + d.turns,
      inputTokens := row.inputTokens + d.inputTokens,
      outputTokens := row.outputTokens + d.outputTokens,
      lastRunnerSeq := d.lastRunnerSeq,
      state := if d.state.Some? then d.state.value else row.state,
      deadline := if d.deadline.Some? then d.deadline.value else row.deadline,
      lease := d.lease))
  }

  function AddRunPosts(row: Run, delta: int): Write {
    if row.state.Terminal() then Err(StaleRun) else Ok(row.(posts := row.posts + delta))
  }

  function ClaimedCopy(copy: Run, runnerID: string, lease: int): Run {
    copy.(state := Acknowledged, runnerID := runnerID, lease := lease)
  }

  /** Hands a queued run to a runner; like UpdateRun it writes the caller's whole copy. */
  function ClaimRun(row: Run, copy: Run, runnerID: string, lease: int): Write {
    UpdateRun(row, ClaimedCopy(copy, runnerID, lease), Queued)
  }

  // ------------------------------------------------------------ limits

  datatype Mode = Direct | Scheduled | Task | Watch | Heartbeat | FollowUp

  datatype Limits = Limits(
    maxTurns: int, maxWallClockSec: int, maxTokens: int, maxTaskWallClockSec: int, maxTaskTurns: int)

  const DEFAULT_LIMITS := Limits(16, 300, 200_000, 7200, 128)

  function OrDefault(n: int, d: int): int { if n <= 0 then d else n }

  function WallClockFor(l: Limits, m: Mode): int {
    if m == Task then 30 * 24 * 3600 * SECOND
    else if m == Direct || m == Scheduled then OrDefault(l.maxTaskWallClockSec, DEFAULT_LIMITS.maxTaskWallClockSec) * SECOND
    else OrDefault(l.maxWallClockSec, DEFAULT_LIMITS.maxWallClockSec) * SECOND
  }

  function TurnsFor(l: Limits, m: Mode): int {
    if m == Task then 0x4000_0000
    else if m == Direct || m == Scheduled then OrDefault(l.maxTaskTurns, DEFAULT_LIMITS.maxTaskTurns)
    else OrDefault(l.maxTurns, DEFAULT_LIMITS.maxTurns)
  }

  predicate Uncapped(m: Mode) { m == Task }
}
