/** How one run ends. Any number of requests on any number of instances read the row, each works
on its own copy, and write it back on the sole condition that the stored state is still the one
they read; event batches and posts change single fields instead. */
module RunEndings {
  import opened Common
  import opened RunRows
  import opened RunLedger
  import RunReplay

  type ActorId = int

  /** final, reason and usage of the three endings a loser of the write walks away from. */
  datatype Job =
    | End(final: RunState, reason: string, inputTokens: int, outputTokens: int)
    | Report(batch: seq<Event>, now: int)
    | Attach(slug: string)
    | Claim(lease: int)
    | Extend(until: int)

  /** Where an actor stands between two store calls, with the copy of the row it holds. own: the
  usage the final answer reports, added to the copy as the run ends. */
  datatype Pc =
    | Ending(copy: Run, final: RunState, reason: string, own: Spend)
    | Counting(copy: Run, batch: seq<Event>, now: int)
    | Limiting(copy: Run, which: string)
    | Archiving(copy: Run)
    | Writing(copy: Run)
    | Claiming(copy: Run, lease: int)
    | Rebasing(copy: Run)
    | Done

  datatype Win = Win(actor: ActorId, row: Run)

  datatype Taking = Taking(who: ActorId, now: int)

  /** wins: the terminal writes that succeeded. torn: who tore the run down. limiters: who of
  them did so as finishLimit. claim: the claim that succeeded and its clock then. based: its clocks
  were stored. armed: its token was minted, so the runner knows of the run. */
  datatype State = State(row: Run, actors: map<ActorId, Pc>, wins: seq<Win>, torn: set<ActorId>, limiters: set<ActorId>,
                         claim: Option<Taking>, based: bool, armed: bool)

  datatype Terms = Terms(runnerID: string, limits: Limits, mode: Mode)

  /** Read: a request looks the row up. Post: a post is counted. Act: an actor's next store call;
  ok is false when archiving or minting the token fails, now is its clock. Unstored: the store fails
  the write of a claim's clocks for a reason of its own, which the claimer shrugs off. */
  datatype Step = Read(a: ActorId, job: Job) | Post | Act(a: ActorId, now: int, ok: bool) | Unstored(a: ActorId, ok: bool)

  predicate Readable(t: Terms, row: Run, job: Job) {
    match job
    case End(final, _, _, _) => !row.state.Terminal() && final.Terminal()
    case Report(_, _) => !row.state.Terminal() && row.runnerID == t.runnerID
    case Attach(_) => !row.state.Terminal()
    case Claim(_) => row.state == Queued
    case Extend(_) => row.state == Queued
  }

  /** Reports, posts and attachments come from the runner, which is told of the run last. */
  ghost predicate Enabled(t: Terms, s: State, e: Step) {
    match e
    case Read(a, job) => a !in s.actors && Readable(t, s.row, job) && (job.Report? || job.Attach? ==> s.armed)
    case Post => s.armed
    case Act(a, _, _) => a in s.actors
    case Unstored(a, _) => a in s.actors && s.actors[a].Rebasing?
  }

  function Begin(row: Run, job: Job): Pc {
    match job
    case End(final, reason, input, output) =>
      Ending(row, final, reason, Spend(0, ClampUsage(input), ClampUsage(output)))
    case Report(batch, now) => Counting(row, batch, now)
    case Attach(slug) => if slug in row.connectors then Done else Writing(row.(connectors := row.connectors + [slug]))
    case Claim(lease) => Claiming(row, lease)
    case Extend(until) => Writing(row.(deadline := until))
  }

  function Goto(s: State, a: ActorId, pc: Pc): State { s.(actors := s.actors[a := pc]) }

  /** beginTerminal */
  function Ended(copy: Run, final: RunState, reason: string): Run {
    copy.(state := final, failReason := if reason != "" then reason else copy.failReason)
  }

  function Spent(copy: Run, own: Spend): Run {
    copy.(inputTokens := copy.inputTokens + own.input, outputTokens := copy.outputTokens + own.output)
  }

  function Stored(row: Run, copy: Run, expectState: RunState): Run {
    var w := UpdateRun(row, copy, expectState);
    if w.Ok? then w.value else row
  }

  /** Complete, fail and cancel: a loser does nothing more. */
  function EndingNext(s: State, a: ActorId, copy: Run, final: RunState, reason: string, own: Spend): State {
    var won, ended := s.row.state == copy.state, Ended(Spent(copy, own), final, reason);
    Goto(s.(row := Stored(s.row, ended, copy.state),
            wins := if won then s.wins + [Win(a, ended)] else s.wins,
            torn := if won then s.torn + {a} else s.torn),
         a, if won then Archiving(ended) else Done)
  }

  /** finishLimit: the run is torn down whoever wins. */
  function LimitingNext(s: State, a: ActorId, copy: Run, which: string): State {
    var won, ended := s.row.state == copy.state, Limited(copy, which);
    Goto(s.(row := Stored(s.row, ended, copy.state),
            wins := if won then s.wins + [Win(a, ended)] else s.wins,
            torn := s.torn + {a}, limiters := s.limiters + {a}),
         a, Archiving(ended))
  }

  /** The reporter's copy after its spend was committed: the ledger and clocks are the stored
  ones, the rest is still what it read. */
  function Refreshed(copy: Run, committed: Run, d: SpendDelta): Run {
    copy.(state := if d.state.Some? then d.state.value else copy.state,
          turns := committed.turns, inputTokens := committed.inputTokens, outputTokens := committed.outputTokens,
          posts := committed.posts, lastRunnerSeq := committed.lastRunnerSeq,
          deadline := committed.deadline, lease := committed.lease)
  }

  function Exceeded(t: Terms, copy: Run, read: Run, now: int): Option<string> {
    var over := OverLimit(copy, t.limits, t.mode);
    if over.Some? then over else if now > read.deadline then Some("deadline") else None
  }

  function CountingNext(t: Terms, s: State, a: ActorId, copy: Run, batch: seq<Event>, now: int): State {
    var d := DeltaOf(copy, now, batch);
    var w := AddRunSpend(s.row, t.runnerID, d);
    var kept := Refreshed(copy, if w.Ok? then w.value else copy, d);
    var which := Exceeded(t, kept, copy, now);
    Goto(s.(row := if w.Ok? then w.value else s.row), a,
         if w.Ok? && which.Some? then Limiting(kept, which.value) else Done)
  }

  /** archiveEvents: the marker is saved as a whole row, under the state of the copy. */
  function ArchivingNext(s: State, a: ActorId, copy: Run, ok: bool): State {
    Goto(s.(row := if ok && !copy.archived then Stored(s.row, copy.(archived := true), copy.state) else s.row), a, Done)
  }

  function ClaimingNext(t: Terms, s: State, a: ActorId, copy: Run, lease: int, now: int): State {
    var w := ClaimRun(s.row, copy, t.runnerID, lease);
    Goto(s.(row := if w.Ok? then w.value else s.row, claim := if w.Ok? then Some(Taking(a, now)) else s.claim), a,
         if w.Ok? then Rebasing(RunReplay.Rebased(w.value, now, t.limits, t.mode)) else Done)
  }

  /** The two clocks are stored, then the token is minted; a run that has ended gets none. */
  function RebasingNext(s: State, a: ActorId, copy: Run, ok: bool): State {
    var stored := s.row.state == Acknowledged;
    Goto(s.(row := Stored(s.row, copy, Acknowledged), based := s.based || stored, armed := s.armed || (stored && ok)), a,
         if !stored || ok then Done else Ending(copy, Failed, "token_mint_failed", RunReplay.ZERO))
  }

  /** Only a stale write stops a claim: one that fails otherwise is logged and the token minted. */
  function UnstoredNext(s: State, a: ActorId, copy: Run, ok: bool): State {
    Goto(s.(armed := s.armed || ok), a, if ok then Done else Ending(copy, Failed, "token_mint_failed", RunReplay.ZERO))
  }

  function Next(t: Terms, s: State, a: ActorId, now: int, ok: bool): State
    requires a in s.actors
  {
    match s.actors[a]
    case Ending(copy, final, reason, own) => EndingNext(s, a, copy, final, reason, own)
    case Counting(copy, batch, at) => CountingNext(t, s, a, copy, batch, at)
    case Limiting(copy, which) => LimitingNext(s, a, copy, which)
    case Archiving(copy) => ArchivingNext(s, a, copy, ok)
    case Writing(copy) => Goto(s.(row := Stored(s.row, copy, copy.state)), a, Done)
    case Claiming(copy, lease) => ClaimingNext(t, s, a, copy, lease, now)
    case Rebasing(copy) => RebasingNext(s, a, copy, ok)
    case Done => Goto(s, a, Done)
  }

  function Apply(t: Terms, s: State, e: Step): State
    requires Enabled(t, s, e)
  {
    match e
    case Read(a, job) => Goto(s, a, Begin(s.row, job))
    case Post => s.(row := if AddRunPosts(s.row, 1).Ok? then AddRunPosts(s.row, 1).value else s.row)
    case Act(a, now, ok) => Next(t, s, a, now, ok)
    case Unstored(a, ok) => UnstoredNext(s, a, s.actors[a].copy, ok)
  }

  /** One interleaving from a queued row, newest step last. */
  datatype History = Created(row: Run) | Then(before: History, e: Step)

  ghost predicate Possible(t: Terms, h: History)
    decreases h, 0
  {
    match h
    case Created(row) => row.state == Queued && row.runnerID == "" && row.hard == None && t.runnerID != ""
    case Then(before, e) => Possible(t, before) && Enabled(t, Last(t, before), e)
  }

  ghost function Last(t: Terms, h: History): State
    requires Possible(t, h)
    decreases h, 1
  {
    match h
    case Created(row) => State(row, map[], [], {}, {}, None, false, false)
    case Then(before, e) => Apply(t, Last(t, before), e)
  }

  // ------------------------------------------------------------ the same steps on the store

  /** What an ending does to the row, as EndingNext has it. */
  method BeginTerminal(store: RunStore, read: Run, final: RunState, reason: string) returns (won: bool, run: Run)
    modifies store
    ensures run == read.(state := final, failReason := if reason == "" then read.failReason else reason)
    ensures (won <==> old(store.row).state == read.state) && store.row == if won then run else old(store.row)
  {
    run := read.(state := final);
    if reason != "" { run := run.(failReason := reason); }
    var stale := store.UpdateRun(run, read.state);
    won := !stale;
  }

  /** What archiving does to the row, as ArchivingNext has it; stored is whether the archive took
  the events. */
  method ArchiveEvents(store: RunStore, run: Run, stored: bool)
    modifies store
    ensures store.row == if stored && !run.archived && old(store.row).state == run.state then run.(archived := true) else old(store.row)
  {
    if run.archived || !stored { return; }
    var stale := store.UpdateRun(run.(archived := true), run.state);
  }

  /** What attaching does to the row, as the Writing step of an Attach job has it. */
  method AttachConnector(store: RunStore, read: Run, slug: string)
    modifies store
    ensures store.row == if slug in read.connectors || old(store.row).state != read.state then old(store.row)
                         else read.(connectors := read.connectors + [slug])
  {
    for i := 0 to |read.connectors|
      invariant slug !in read.connectors[..i] && store.row == old(store.row)
    {
      if read.connectors[i] == slug { return; }
    }
    var stale := store.UpdateRun(read.(connectors := read.connectors + [slug]), read.state);
  }

  // ------------------------------------------------------------ the invariant

  function Rank(st: RunState): int {
    match st
    case Queued => 0
    case Acknowledged => 1
    case Running => 2
    case _ => 3
  }

  predicate Unclaimed(row: Run) { row.state == Queued ==> row.runnerID == "" }

  /** A copy still to be written is of a live row, and the stored state is never behind it. */
  ghost predicate CopyOk(t: Terms, row: Run, pc: Pc) {
    && (!pc.Archiving? && !pc.Done? ==>
        !pc.copy.state.Terminal() && Rank(pc.copy.state) <= Rank(row.state) && Unclaimed(pc.copy))
    && (pc.Counting? || pc.Limiting? ==> pc.copy.state != Queued)
    && (pc.Claiming? ==> pc.copy.state == Queued)
    && (pc.Rebasing? ==> pc.copy.state == Acknowledged)
    && (pc.Ending? ==> pc.final.Terminal())
  }

  ghost predicate CopyInv(t: Terms, s: State) {
    && t.runnerID != "" && Unclaimed(s.row)
    && forall a <- s.actors :: CopyOk(t, s.row, s.actors[a])
  }

  ghost predicate WinInv(s: State) {
    && |s.wins| <= 1
    && (s.row.state.Terminal() <==> |s.wins| == 1)
    && (|s.wins| == 1 ==> s.row.state == s.wins[0].row.state)
    && (|s.wins| == 1 && s.row.state != Failed ==> s.row == s.wins[0].row.(archived := s.row.archived))
  }

  /** Only the winner and the limiters go on, and a limiter's copy says failed. */
  ghost predicate TornInv(s: State) {
    && (forall a <- s.actors | s.actors[a].Archiving? ::
          || (a in s.limiters && s.actors[a].copy.state == Failed)
          || (|s.wins| == 1 && s.wins[0] == Win(a, s.actors[a].copy)))
    && (forall a <- s.torn :: a in s.limiters || (|s.wins| == 1 && s.wins[0].actor == a))
    && s.limiters <= s.torn
    && (|s.wins| == 1 ==> s.wins[0].actor in s.torn)
  }

  ghost predicate Inv(t: Terms, s: State) { CopyInv(t, s) && WinInv(s) && TornInv(s) }

  /** What one step may do to the row and the win: nothing to a row that has ended, but for the
  archive marker. */
  ghost predicate Moves(t: Terms, s: State, u: State, a: ActorId) {
    && a in u.actors && u.actors == s.actors[a := u.actors[a]]
    && Rank(s.row.state) <= Rank(u.row.state) && Unclaimed(u.row) && CopyOk(t, u.row, u.actors[a])
    && s.torn <= u.torn <= s.torn + {a} && s.limiters <= u.limiters <= s.limiters + {a} && u.limiters <= u.torn
    && if u.wins == s.wins then
         && (s.row.state.Terminal() <==> u.row.state.Terminal())
         && (s.row.state.Terminal() ==> u.row.state == s.row.state)
         && (s.row.state.Terminal() && u.row != s.row ==>
               && a in s.actors && s.actors[a].Archiving? && s.actors[a].copy.state == s.row.state
               && u.row == s.actors[a].copy.(archived := true))
         && (u.actors[a].Archiving? ==> a in u.limiters && u.actors[a].copy.state == Failed)
         && (a in u.torn ==> a in s.torn || a in u.limiters)
       else
         && !s.row.state.Terminal() && u.row.state.Terminal() && a in u.torn
         && u.wins == s.wins + [Win(a, u.row)] && u.actors[a] == Archiving(u.row)
  }

  lemma EndingMoves(t: Terms, s: State, a: ActorId, copy: Run, final: RunState, reason: string, own: Spend)
    requires CopyInv(t, s) && TornInv(s) && a in s.actors && s.actors[a] == Ending(copy, final, reason, own)
    ensures Moves(t, s, EndingNext(s, a, copy, final, reason, own), a)
  {}

  lemma LimitingMoves(t: Terms, s: State, a: ActorId, copy: Run, which: string)
    requires CopyInv(t, s) && TornInv(s) && a in s.actors && s.actors[a] == Limiting(copy, which)
    ensures Moves(t, s, LimitingNext(s, a, copy, which), a)
  {}

  lemma CountingMoves(t: Terms, s: State, a: ActorId, copy: Run, batch: seq<Event>, now: int)
    requires CopyInv(t, s) && TornInv(s) && a in s.actors && s.actors[a] == Counting(copy, batch, now)
    ensures Moves(t, s, CountingNext(t, s, a, copy, batch, now), a)
  {}

  lemma ArchivingMoves(t: Terms, s: State, a: ActorId, copy: Run, ok: bool)
    requires Inv(t, s) && a in s.actors && s.actors[a] == Archiving(copy)
    ensures Moves(t, s, ArchivingNext(s, a, copy, ok), a)
  {}

  lemma ClaimingMoves(t: Terms, s: State, a: ActorId, copy: Run, lease: int, now: int)
    requires CopyInv(t, s) && TornInv(s) && a in s.actors && s.actors[a] == Claiming(copy, lease)
    ensures Moves(t, s, ClaimingNext(t, s, a, copy, lease, now), a)
  {}

  lemma RewriteMoves(t: Terms, s: State, a: ActorId, now: int, ok: bool)
    requires CopyInv(t, s) && TornInv(s) && a in s.actors
    requires s.actors[a].Writing? || s.actors[a].Rebasing? || s.actors[a].Done?
    ensures Moves(t, s, Next(t, s, a, now, ok), a)
  {
    assert s.actors[a].Done? ==> s.actors[a := Done] == s.actors;
  }

  lemma StepMoves(t: Terms, s: State, e: Step)
    requires Inv(t, s) && Enabled(t, s, e) && !e.Post?
    ensures Moves(t, s, Apply(t, s, e), e.a)
  {
    if e.Act? {
      match s.actors[e.a]
      case Ending(copy, final, reason, own) => EndingMoves(t, s, e.a, copy, final, reason, own);
      case Counting(copy, batch, at) => CountingMoves(t, s, e.a, copy, batch, at);
      case Limiting(copy, which) => LimitingMoves(t, s, e.a, copy, which);
      case Archiving(copy) => ArchivingMoves(t, s, e.a, copy, e.ok);
      case Claiming(copy, lease) => ClaimingMoves(t, s, e.a, copy, lease, e.now);
      case _ => RewriteMoves(t, s, e.a, e.now, e.ok);
    }
  }

  lemma MovesKeepInv(t: Terms, s: State, u: State, a: ActorId)
    requires Inv(t, s) && Moves(t, s, u, a)
    ensures Inv(t, u)
  {}

  lemma {:induction false} HistoryKeepsInv(t: Terms, h: History)
    requires Possible(t, h)
    ensures Inv(t, Last(t, h))
  {
    if h.Then? {
      HistoryKeepsInv(t, h.before);
      if !h.e.Post? {
        StepMoves(t, Last(t, h.before), h.e);
        MovesKeepInv(t, Last(t, h.before), Last(t, h), h.e.a);
      }
    }
  }

  // ------------------------------------------------------------ main results

  /** At most one terminal write ever succeeds, the row is terminal exactly when one did, and it
  then says what that writer said. */
  lemma TerminalOnce(t: Terms, h: History)
    requires Possible(t, h)
    ensures var s := Last(t, h);
            && |s.wins| <= 1 && (s.row.state.Terminal() <==> |s.wins| == 1)
            && (|s.wins| == 1 ==> s.row.state == s.wins[0].row.state)
  {
    HistoryKeepsInv(t, h);
  }

  /** No later write moves a run out of the state it ended in. */
  lemma EndedForGood(t: Terms, h: History, e: Step)
    requires Possible(t, Then(h, e)) && Last(t, h).row.state.Terminal()
    ensures Last(t, Then(h, e)).row.state == Last(t, h).row.state
    ensures Last(t, Then(h, e)).wins == Last(t, h).wins
  {
    HistoryKeepsInv(t, h);
    HistoryKeepsInv(t, Then(h, e));
    if !e.Post? { StepMoves(t, Last(t, h), e); }
  }

  /** Whoever tears the run down won the terminal write, or is finishLimit. */
  lemma OnlyLimitersTearDownAfterLosing(t: Terms, h: History, a: ActorId)
    requires Possible(t, h) && a in Last(t, h).torn
    ensures a in Last(t, h).limiters || (|Last(t, h).wins| == 1 && Last(t, h).wins[0].actor == a)
  {
    HistoryKeepsInv(t, h);
  }

  /** A completed or canceled run keeps every field its winner wrote; only the marker is added. */
  lemma WinnersRowStays(t: Terms, h: History)
    requires Possible(t, h)
    ensures var s := Last(t, h);
            s.row.state == Completed || s.row.state == Canceled ==>
              |s.wins| == 1 && s.row == s.wins[0].row.(archived := s.row.archived)
  {
    HistoryKeepsInv(t, h);
  }

  /** finishLimit takes a lost write to mean the run is over. It is not exactly when the loser had
  read the run as acknowledged and another batch has since made it running. */
  lemma LimitTearsDownLiveRunIff(t: Terms, h: History, a: ActorId, now: int, ok: bool)
    requires Possible(t, h) && a in Last(t, h).actors && Last(t, h).actors[a].Limiting?
    ensures var s, u := Last(t, h), Next(t, Last(t, h), a, now, ok);
            && a in u.torn
            && (!u.row.state.Terminal() <==> s.row.state == Running && s.actors[a].copy.state == Acknowledged)
  {
    HistoryKeepsInv(t, h);
    var s := Last(t, h);
    assert CopyOk(t, s.row, s.actors[a]);
  }

  /** The state a whole-row write is conditional on. */
  function Expected(pc: Pc): RunState
    requires !pc.Done?
  {
    match pc
    case Claiming(_, _) => Queued
    case Rebasing(_) => Acknowledged
    case _ => pc.copy.state
  }

  predicate SameCounters(x: Run, y: Run) { x.posts == y.posts && RunReplay.Totals(x) == RunReplay.Totals(y) }

  /** Every whole-row write of a run that has not ended puts back the counters of its copy. It loses
  what was added since, over and above the usage an ending adds itself, exactly when it goes
  through and the stored counters have moved. */
  lemma RewriteLosesCountersIff(t: Terms, s: State, a: ActorId, now: int, ok: bool)
    requires a in s.actors && var pc := s.actors[a]; pc.Writing? || pc.Rebasing? || pc.Ending? || pc.Limiting? || pc.Claiming?
    ensures var pc, u := s.actors[a], Next(t, s, a, now, ok);
            var through := s.row.state == Expected(pc);
            var due := if through && pc.Ending? then Spent(s.row, pc.own) else s.row;
            !SameCounters(u.row, due) <==> through && !SameCounters(pc.copy, s.row)
  {
  }

  /** The row of a run that has ended is its winner's until an archiver that lost to it, but failed
  the run as it did, stores another copy with the marker: no other step, and no other copy, takes
  it away. */
  lemma WinnerOverwrittenIff(t: Terms, h: History, e: Step)
    requires Possible(t, Then(h, e)) && |Last(t, h).wins| == 1
    requires Last(t, h).row == Last(t, h).wins[0].row.(archived := Last(t, h).row.archived)
    ensures var s, u := Last(t, h), Last(t, Then(h, e));
            u.row.(archived := s.row.archived) != s.row
            <==> (&& e.Act? && e.ok && s.actors[e.a].Archiving?
                  && var copy := s.actors[e.a].copy;
                  && !copy.archived && copy.state == s.row.state == Failed && copy.(archived := s.row.archived) != s.row)
  {
    HistoryKeepsInv(t, h);
    if !e.Post? { StepMoves(t, Last(t, h), e); }
  }

  // ------------------------------------------------------------ one request alone

  /** A batch that meets no other writer is served as ReportEvents serves it. */
  lemma ReportAlone(t: Terms, s: State, a: ActorId, batch: seq<Event>, now: int, ok: bool)
    requires Enabled(t, s, Read(a, Report(batch, now)))
    ensures var counted := Next(t, Apply(t, s, Read(a, Report(batch, now))), a, now, ok);
            var (answer, row) := Reported(s.row, t.runnerID, batch, now, t.limits, t.mode);
            && (counted.actors[a].Limiting? <==> answer != Continue)
            && row == if counted.actors[a].Limiting? then Next(t, counted, a, now, ok).row else counted.row
  {
  }

  /** A request that reads the row and makes its next store calls with nobody in between. */
  function Alone(t: Terms, s: State, a: ActorId, job: Job, now: int, ok: bool, calls: nat): State {
    if calls == 0 then Goto(s, a, Begin(s.row, job))
    else
      var u := Alone(t, s, a, job, now, ok, calls - 1);
      if a in u.actors then Next(t, u, a, now, ok) else u
  }

  /** A run that is ended undisturbed is as it was, but for its state, the reason if there is one, the
  tokens the final answer reports, within bounds, and the marker if its events could be archived. */
  lemma EndAlone(t: Terms, s: State, a: ActorId, final: RunState, reason: string, input: int, output: int, now: int, ok: bool)
    requires Enabled(t, s, Read(a, End(final, reason, input, output)))
    ensures var u := Alone(t, s, a, End(final, reason, input, output), now, ok, 2);
      && u.row == s.row.(state := final, failReason := if reason != "" then reason else s.row.failReason,
                         inputTokens := s.row.inputTokens + Max(0, Min(input, MAX_USAGE_REPORT)),
                         outputTokens := s.row.outputTokens + Max(0, Min(output, MAX_USAGE_REPORT)),
                         archived := s.row.archived || ok)
      && u.torn == s.torn + {a} && u.actors == s.actors[a := Done]
  {
    var job := End(final, reason, input, output);
    assert Alone(t, s, a, job, now, ok, 1) == Next(t, Alone(t, s, a, job, now, ok, 0), a, now, ok);
  }

  /** The row as its claim leaves it, with the two clocks rebased to now. */
  function TakenBy(t: Terms, row: Run, lease: int, now: int): Run {
    var hard := now + WallClockFor(t.limits, t.mode);
    var window := (if t.limits.maxWallClockSec > 0 then t.limits.maxWallClockSec else 300) * SECOND;
    row.(state := Acknowledged, runnerID := t.runnerID, lease := lease, hard := Some(hard), deadline := Min(hard, now + window))
  }

  lemma ClaimThenRebase(t: Terms, s: State, a: ActorId, lease: int, now: int, ok: bool)
    requires Enabled(t, s, Read(a, Claim(lease)))
    ensures var u := Alone(t, s, a, Claim(lease), now, ok, 1);
      && a in u.actors && u.actors == s.actors[a := Rebasing(TakenBy(t, s.row, lease, now))] && u.row.state == Acknowledged
      && u.claim == Some(Taking(a, now)) && u.armed == s.armed && u.torn == s.torn
  {
    assert Alone(t, s, a, Claim(lease), now, ok, 0).actors[a] == Claiming(s.row, lease);
  }

  /** A run that is claimed undisturbed is the runner's; its token is minted, or the run fails. */
  lemma ClaimAlone(t: Terms, s: State, a: ActorId, lease: int, now: int, ok: bool)
    requires Enabled(t, s, Read(a, Claim(lease)))
    ensures var u, taken := Alone(t, s, a, Claim(lease), now, ok, if ok then 2 else 3), TakenBy(t, s.row, lease, now);
      && u.row == (if ok then taken else taken.(state := Failed, failReason := "token_mint_failed"))
      && u.based && u.claim == Some(Taking(a, now)) && (ok ==> u.armed && u.actors == s.actors[a := Done])
      && (!ok ==> u.armed == s.armed && a in u.torn)
  {
    ClaimThenRebase(t, s, a, lease, now, ok);
    var second := Alone(t, s, a, Claim(lease), now, ok, 2);
    if !ok { assert second.actors[a] == Ending(TakenBy(t, s.row, lease, now), Failed, "token_mint_failed", RunReplay.ZERO); }
  }

  /** A queued run whose deadline is put off undisturbed has that deadline, and is as it was otherwise. */
  lemma ExtendAlone(t: Terms, s: State, a: ActorId, until: int, now: int, ok: bool)
    requires Enabled(t, s, Read(a, Extend(until)))
    ensures Alone(t, s, a, Extend(until), now, ok, 1).row == s.row.(deadline := until)
  {
    assert Alone(t, s, a, Extend(until), now, ok, 0).actors[a] == Writing(s.row.(deadline := until));
  }

  /** A connector that is attached undisturbed comes last, unless it was there; nothing else changes. */
  lemma AttachAlone(t: Terms, s: State, a: ActorId, slug: string, now: int, ok: bool)
    requires Enabled(t, s, Read(a, Attach(slug)))
    ensures Alone(t, s, a, Attach(slug), now, ok, 1).row
         == s.row.(connectors := s.row.connectors + if slug in s.row.connectors then [] else [slug])
  {
    assert s.row.connectors + [] == s.row.connectors;
    assert Alone(t, s, a, Attach(slug), now, ok, 1) == Next(t, Alone(t, s, a, Attach(slug), now, ok, 0), a, now, ok);
  }

  // ------------------------------------------------------------ runs that show the limits

  lemma Longer(t: Terms, h: History, e: Step) returns (longer: History)
    requires Possible(t, h) && Enabled(t, Last(t, h), e)
    ensures longer == Then(h, e) && Possible(t, longer) && Last(t, longer) == Apply(t, Last(t, h), e)
  {
    longer := Then(h, e);
  }

  /** One usage report that is enough to exhaust a capped run's budget. */
  predicate Exhausts(t: Terms, e: Event) {
    && t.runnerID != "" && !Uncapped(t.mode)
    && Accepted(e) && e.kind == Usage && ClampUsage(e.inputTokens) + ClampUsage(e.outputTokens) > t.limits.maxTokens
  }

  lemma OneEventAlone(batch: seq<Event>, mark: int)
    requires |batch| == 1 && Accepted(batch[0]) && mark < batch[0].seqNo
    ensures var c, d := CostAbove(batch, mark), Cost(batch[0]); c.turns == d.turns && c.input == d.input && c.output == d.output
    ensures MarkAfter(batch, mark) == batch[0].seqNo
  {
    assert batch[..|batch| - 1] == [];
    assert CostAbove([], mark) == Spend(0, 0, 0) && MarkAfter([], mark) == mark;
  }

  lemma OneEventSays(batch: seq<Event>)
    requires |batch| == 1 && Accepted(batch[0])
    ensures SaysState(batch) <==> batch[0].kind == StateChange
  {}

  lemma OneEventDelta(run: Run, now: int, batch: seq<Event>)
    requires |batch| == 1 && Accepted(batch[0]) && run.lastRunnerSeq < batch[0].seqNo
    ensures var d, e := DeltaOf(run, now, batch), batch[0];
            && d.turns == Cost(e).turns && d.inputTokens == Cost(e).input && d.outputTokens == Cost(e).output
            && d.lastRunnerSeq == e.seqNo
            && d.state == (if run.state == Acknowledged && e.kind == StateChange then Some(Running) else None)
  {
    OneEventAlone(batch, run.lastRunnerSeq);
    OneEventSays(batch);
  }

  /** A reporter whose batch trips the token budget goes on to end the run with what it read. */
  lemma BudgetTrips(t: Terms, s: State, a: ActorId, copy: Run, batch: seq<Event>, now: int)
    requires a in s.actors && s.actors[a] == Counting(copy, batch, now)
    requires !s.row.state.Terminal() && s.row.runnerID == t.runnerID && !Uncapped(t.mode)
    requires var d := DeltaOf(copy, now, batch);
             && d.state == None && s.row.turns + d.turns <= TurnsFor(t.limits, t.mode)
             && s.row.inputTokens + d.inputTokens + s.row.outputTokens + d.outputTokens > t.limits.maxTokens
    ensures var u := CountingNext(t, s, a, copy, batch, now);
            && u.row.state == s.row.state && u.row.runnerID == t.runnerID && u.wins == s.wins
            && u.actors.Keys == s.actors.Keys && u.actors[a].Limiting? && u.actors[a].which == "token_budget"
            && u.actors[a].copy.state == copy.state && u.actors[a].copy.archived == copy.archived
  {
  }

  /** A claimed run with nothing spent, posted or attached yet. */
  ghost predicate JustClaimed(t: Terms, row: Run) {
    && row.state == Acknowledged && row.runnerID == t.runnerID && row.posts == 0 && row.lastRunnerSeq == 0
    && row.turns == 0 && row.inputTokens == 0 && row.outputTokens == 0 && row.connectors == [] && !row.archived
  }

  lemma Claimed(t: Terms) returns (h: History)
    requires t.runnerID != ""
    ensures Possible(t, h) && JustClaimed(t, Last(t, h).row) && Last(t, h).actors.Keys == {1} && Last(t, h).wins == []
    ensures Last(t, h).armed
  {
    h := Created(Run(Queued, "", "", 0, 0, 0, 0, 0, 0, None, 0, [], false));
    h := Longer(t, h, Read(1, Claim(0)));
    h := Longer(t, h, Act(1, 0, true));
    h := Longer(t, h, Act(1, 0, true));
  }

  /** The next step of a reporter whose one-event batch exhausts the budget. */
  lemma ReportTrips(t: Terms, s: State, a: ActorId)
    requires a in s.actors && s.actors[a].Counting? && |s.actors[a].batch| == 1 && Exhausts(t, s.actors[a].batch[0])
    requires !s.row.state.Terminal() && s.row.runnerID == t.runnerID && s.actors[a].copy.lastRunnerSeq == 0
    requires s.row.turns == 0 && s.row.inputTokens == 0 && s.row.outputTokens == 0
    ensures var u := Next(t, s, a, 0, true);
            && u.row.state == s.row.state && u.row.runnerID == t.runnerID && u.wins == s.wins
            && u.actors.Keys == s.actors.Keys && u.actors[a].Limiting? && u.actors[a].which == "token_budget"
            && u.actors[a].copy.state == s.actors[a].copy.state && u.actors[a].copy.archived == s.actors[a].copy.archived
  {
    match s.actors[a]
    case Counting(copy, batch, now) =>
      OneEventDelta(copy, now, batch);
      BudgetTrips(t, s, a, copy, batch, now);
  }

  lemma StateDelta(run: Run, now: int, batch: seq<Event>)
    requires |batch| == 1 && Accepted(batch[0]) && batch[0].kind == StateChange
    requires run.state == Acknowledged && run.lastRunnerSeq == 0
    ensures var d := DeltaOf(run, now, batch);
            d.state == Some(Running) && d.turns == 0 && d.inputTokens == 0 && d.outputTokens == 0
  {
    OneEventDelta(run, now, batch);
  }

  /** A batch that costs nothing and says the run is running. */
  lemma StateReported(t: Terms, s: State, a: ActorId, copy: Run, batch: seq<Event>, now: int)
    requires a in s.actors && s.actors[a] == Counting(copy, batch, now)
    requires !s.row.state.Terminal() && s.row.runnerID == t.runnerID && copy.state == Acknowledged && copy.lastRunnerSeq == 0
    requires |batch| == 1 && Accepted(batch[0]) && batch[0].kind == StateChange
    ensures var u := Next(t, s, a, 0, true);
            && u.row.state == Running && u.row.runnerID == t.runnerID
            && u.row.turns == s.row.turns && u.row.inputTokens == s.row.inputTokens && u.row.outputTokens == s.row.outputTokens
            && u.actors == s.actors[a := u.actors[a]]
  {
    StateDelta(copy, now, batch);
  }

  /** Reporter 2 is about to stop the run for its tokens; the copy it holds says acknowledged. */
  lemma OverBudget(t: Terms, batch: seq<Event>) returns (h: History)
    requires |batch| == 1 && Exhausts(t, batch[0])
    ensures Possible(t, h) && var s := Last(t, h);
            && s.row.state == Acknowledged && s.actors.Keys == {1, 2} && s.wins == []
            && s.actors[2].Limiting? && s.actors[2].which == "token_budget"
            && s.actors[2].copy.state == Acknowledged && !s.actors[2].copy.archived
  {
    h := Claimed(t);
    h := Longer(t, h, Read(2, Report(batch, 0)));
    ReportTrips(t, Last(t, h), 2);
    h := Longer(t, h, Act(2, 0, true));
  }

  /** Reporters 2 and 3 read the run as acknowledged; batch 3 has since made it running. */
  lemma OneBatchAhead(t: Terms, batch: seq<Event>, other: seq<Event>) returns (h: History)
    requires |batch| == 1 && Exhausts(t, batch[0])
    requires |other| == 1 && Accepted(other[0]) && other[0].kind == StateChange
    ensures Possible(t, h) && var s := Last(t, h);
            && s.row.state == Running && s.row.runnerID == t.runnerID
            && s.row.turns == s.row.inputTokens == s.row.outputTokens == 0 && s.actors.Keys == {1, 2, 3}
            && s.actors[2].Counting? && s.actors[2].batch == batch
            && s.actors[2].copy.state == Acknowledged && s.actors[2].copy.lastRunnerSeq == 0
  {
    h := Claimed(t);
    h := Longer(t, h, Read(2, Report(batch, 0)));
    h := Longer(t, h, Read(3, Report(other, 0)));
    StateReported(t, Last(t, h), 3, Last(t, h).row, other, 0);
    h := Longer(t, h, Act(3, 0, true));
  }

  /** Batch 2 then trips the budget, loses its write, and tears down a run that is still live. */
  lemma LiveRunTornDown(t: Terms, batch: seq<Event>, other: seq<Event>) returns (h: History)
    requires |batch| == 1 && Exhausts(t, batch[0])
    requires |other| == 1 && Accepted(other[0]) && other[0].kind == StateChange
    ensures Possible(t, h) && 2 in Last(t, h).torn && Last(t, h).row.state == Running
  {
    h := OneBatchAhead(t, batch, other);
    ReportTrips(t, Last(t, h), 2);
    h := Longer(t, h, Act(2, 0, true));
    h := Longer(t, h, Act(2, 0, true));
  }

  /** A limiter that lost to another failure writes its own row over the winner's with the marker. */
  lemma LoserRewritesFailedRow(t: Terms, batch: seq<Event>) returns (h: History)
    requires |batch| == 1 && Exhausts(t, batch[0])
    ensures Possible(t, h) && var s := Last(t, h);
            && |s.wins| == 1 && s.wins[0].actor == 3
            && s.wins[0].row.failReason == "runner_lost" && s.row.failReason == "token_budget"
  {
    h := OverBudget(t, batch);
    h := Longer(t, h, Read(3, End(Failed, "runner_lost", 0, 0)));
    h := Longer(t, h, Act(3, 0, true));
    h := Longer(t, h, Act(2, 0, true));
    h := Longer(t, h, Act(2, 0, true));
  }

  /** Attaching a connector from a copy read before a post was counted takes the post back. */
  lemma AttachLosesPost(t: Terms) returns (h: History)
    requires t.runnerID != ""
    ensures Possible(t, h) && h.Then? && var s, u := Last(t, h.before), Last(t, h);
            s.row.posts == 1 && u.row.posts == 0 && u.row.connectors == ["jira"]
  {
    h := Claimed(t);
    h := Longer(t, h, Read(2, Attach("jira")));
    h := Longer(t, h, Post);
    h := Longer(t, h, Act(2, 0, true));
  }

  /** A completion that was read before a post was counted takes the post back as the run ends. */
  lemma EndingLosesPost(t: Terms) returns (h: History)
    requires t.runnerID != ""
    ensures Possible(t, h) && h.Then? && var s, u := Last(t, h.before), Last(t, h);
            s.row.posts == 1 && u.row.posts == 0 && u.row.state == Completed
  {
    h := Claimed(t);
    h := Longer(t, h, Read(2, End(Completed, "", 0, 0)));
    h := Longer(t, h, Post);
    h := Longer(t, h, Act(2, 0, true));
  }
}
