/** The two clocks of a run under every interleaving: the ceiling its claim sets, and the rolling
deadline that batches push out below it. */
module RunClocks {
  import opened Common
  import opened RunRows
  import opened RunLedger
  import opened RunEndings
  import RunReplay

  /** What the mode allows from the moment the run was claimed. */
  function Ceiling(t: Terms, claim: Option<Taking>): Option<int> {
    if claim.Some? then Some(claim.value.now + WallClockFor(t.limits, t.mode)) else None
  }

  ghost predicate UnderCeiling(t: Terms, claim: Option<Taking>, run: Run) {
    run.hard.Some? ==> run.hard == Ceiling(t, claim) && run.deadline <= run.hard.value
  }

  // ------------------------------------------------------------ the invariant

  /** A copy has the claim's ceiling or none. A copy that keeps a claimed run live was read after
  the token was minted, and has the ceiling exactly when the row has it. */
  ghost predicate Timed(t: Terms, s: State, a: ActorId, pc: Pc) {
    && (!pc.Done? ==> UnderCeiling(t, s.claim, pc.copy))
    && (pc.Claiming? || (pc.Writing? && pc.copy.state == Queued) ==> pc.copy.hard == None)
    && (pc.Rebasing? ==> s.claim.Some? && s.claim.value.who == a && !s.armed && !s.based && pc.copy.hard.Some?)
    && (pc.Counting? || pc.Limiting? || (pc.Writing? && pc.copy.state != Queued) ==>
          s.armed && (pc.copy.hard.Some? <==> s.based))
  }

  ghost predicate RowTimed(t: Terms, s: State) {
    && UnderCeiling(t, s.claim, s.row)
    && (s.row.state == Queued ==> s.claim == None)
    && (s.claim == None ==> !s.armed && !s.based && (s.row.state == Queued || s.row.state.Terminal()))
    && (!s.row.state.Terminal() ==> (s.row.hard.Some? <==> s.based))
  }

  ghost predicate ClockInv(t: Terms, s: State) {
    RowTimed(t, s) && forall a <- s.actors :: Timed(t, s, a, s.actors[a])
  }

  lemma EndingTimed(t: Terms, s: State, a: ActorId, copy: Run, final: RunState, reason: string, own: Spend)
    requires ClockInv(t, s) && a in s.actors && s.actors[a] == Ending(copy, final, reason, own) && final.Terminal()
    ensures ClockInv(t, EndingNext(s, a, copy, final, reason, own))
  {}

  lemma LimitingTimed(t: Terms, s: State, a: ActorId, copy: Run, which: string)
    requires ClockInv(t, s) && a in s.actors && s.actors[a] == Limiting(copy, which)
    ensures ClockInv(t, LimitingNext(s, a, copy, which))
  {}

  lemma CountingTimed(t: Terms, s: State, a: ActorId, copy: Run, batch: seq<Event>, now: int)
    requires ClockInv(t, s) && a in s.actors && s.actors[a] == Counting(copy, batch, now)
    requires CopyInv(t, s)
    ensures ClockInv(t, CountingNext(t, s, a, copy, batch, now))
  {}

  lemma ClaimingTimed(t: Terms, s: State, a: ActorId, copy: Run, lease: int, now: int)
    requires ClockInv(t, s) && a in s.actors && s.actors[a] == Claiming(copy, lease)
    ensures ClockInv(t, ClaimingNext(t, s, a, copy, lease, now))
  {}

  lemma RebasingTimed(t: Terms, s: State, a: ActorId, copy: Run, ok: bool)
    requires ClockInv(t, s) && a in s.actors && s.actors[a] == Rebasing(copy) && copy.state == Acknowledged
    ensures ClockInv(t, RebasingNext(s, a, copy, ok)) && ClockInv(t, UnstoredNext(s, a, copy, ok))
  {}

  lemma WritingTimed(t: Terms, s: State, a: ActorId, now: int, ok: bool)
    requires ClockInv(t, s) && a in s.actors && (s.actors[a].Writing? || s.actors[a].Done?)
    ensures ClockInv(t, Next(t, s, a, now, ok))
  {
    assert s.actors[a].Done? ==> s.actors[a := Done] == s.actors;
  }

  lemma StepTimed(t: Terms, s: State, e: Step)
    requires Inv(t, s) && ClockInv(t, s) && Enabled(t, s, e)
    ensures ClockInv(t, Apply(t, s, e))
  {
    match e
    case Read(a, job) =>
    case Post =>
    case Unstored(a, ok) => RebasingTimed(t, s, a, s.actors[a].copy, ok);
    case Act(a, now, ok) =>
      match s.actors[a]
      case Ending(copy, final, reason, own) => EndingTimed(t, s, a, copy, final, reason, own);
      case Counting(copy, batch, at) => CountingTimed(t, s, a, copy, batch, at);
      case Limiting(copy, which) => LimitingTimed(t, s, a, copy, which);
      case Archiving(copy) =>
      case Claiming(copy, lease) => ClaimingTimed(t, s, a, copy, lease, now);
      case Rebasing(copy) => RebasingTimed(t, s, a, copy, ok);
      case _ => WritingTimed(t, s, a, now, ok);
  }

  lemma {:induction false} HistoryTimed(t: Terms, h: History)
    requires Possible(t, h)
    ensures ClockInv(t, Last(t, h))
  {
    if h.Then? {
      HistoryKeepsInv(t, h.before);
      HistoryTimed(t, h.before);
      StepTimed(t, Last(t, h.before), h.e);
    }
  }

  // ------------------------------------------------------------ main results

  /** Whatever races, a run has no ceiling but the one of its claim, and its deadline never passes
  it. A claimed run that is live and in its runner's hands has it exactly when the claim's clocks
  were stored. */
  lemma CeilingHolds(t: Terms, h: History)
    requires Possible(t, h)
    ensures var s := Last(t, h);
            && (s.row.hard.Some? ==>
                  s.claim.Some? && s.row.hard.value == s.claim.value.now + WallClockFor(t.limits, t.mode)
                  && s.row.deadline <= s.row.hard.value)
            && (s.armed && !s.row.state.Terminal() ==> (s.row.hard.Some? <==> s.based))
  {
    HistoryTimed(t, h);
  }

  /** A live run keeps its ceiling: no step of anybody's moves it or takes it away. */
  lemma CeilingStays(t: Terms, h: History, e: Step)
    requires Possible(t, Then(h, e)) && Last(t, h).row.hard.Some?
    ensures var s, u := Last(t, h), Last(t, Then(h, e));
            !u.row.state.Terminal() ==> u.row.hard == s.row.hard
  {
    HistoryTimed(t, h);
    HistoryTimed(t, Then(h, e));
    HistoryKeepsInv(t, Then(h, e));
    HistoryKeepsInv(t, h);
    if !e.Post? { StepMoves(t, Last(t, h), e); }
  }

  /** A batch the server lets go on, whatever it raced with, found the stored ledger within the
  limits of a capped mode with its own spend in it, and arrived within the mode's wall clock of the
  claim, if the claim's clocks were stored. */
  lemma BatchesStayInBounds(t: Terms, h: History, a: ActorId, now: int, ok: bool)
    requires Possible(t, h) && a in Last(t, h).actors && Last(t, h).actors[a].Counting?
    ensures var s, u := Last(t, h), Next(t, Last(t, h), a, now, ok);
            !s.row.state.Terminal() && s.row.runnerID == t.runnerID && u.actors[a] == Done ==>
              && (s.based ==> s.claim.Some? && s.actors[a].now <= s.claim.value.now + WallClockFor(t.limits, t.mode))
              && (!Uncapped(t.mode) ==>
                    && u.row.turns <= TurnsFor(t.limits, t.mode)
                    && u.row.inputTokens + u.row.outputTokens <= t.limits.maxTokens)
  {
    HistoryTimed(t, h);
    var s := Last(t, h);
    assert Timed(t, s, a, s.actors[a]);
  }

  /** A claim whose clocks the store failed to take: the runner is let loose on a run without a
  ceiling. */
  lemma NoCeiling(t: Terms) returns (h: History)
    requires t.runnerID != ""
    ensures Possible(t, h) && var s := Last(t, h);
            s.armed && !s.row.state.Terminal() && s.row.runnerID == t.runnerID && s.row.hard == None
  {
    h := Created(Run(Queued, "", "", 0, 0, 0, 0, 0, 0, None, 0, [], false));
    h := Longer(t, h, Read(1, Claim(0)));
    h := Longer(t, h, Act(1, 0, true));
    h := Longer(t, h, Unstored(1, true));
  }
}
