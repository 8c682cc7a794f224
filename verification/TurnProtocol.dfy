/** The turn protocol of one (parent, thread, agent, invoker) key, step by step.

Every program counter below sits between two calls on the coordinator or the run store, a claim
over Redis being two of them, so a run of this machine is one interleaving of any number of
requests on any number of instances.
Keys never interact, so one key is enough. */
module TurnProtocol {
  import opened Common

  type RunId = int
  type HandoffId = int
  type ActorId = int

  datatype Row = Live | Ended(ender: ActorId)

  /** How a run gave its slot back: through afterTerminal, through cancelRun, or because its
      row could not be created. Only the first one goes on to look for a parked hand-off. */
  datatype Ending = Finished | Canceled | NotCreated

  datatype Pc =
    | Claim(run: RunId, from: Option<HandoffId>)
    | Get(run: RunId, from: Option<HandoffId>)
    | Probe(run: RunId, from: Option<HandoffId>, holder: RunId)
    | Replace(run: RunId, from: Option<HandoffId>, holder: RunId)
    | Create(run: RunId, from: Option<HandoffId>)
    | Park(handoff: HandoffId)
    | Check(handoff: HandoffId)
    | Watch(handoff: HandoffId, held: RunId)
    | Fence(handoff: HandoffId, held: RunId)
    | Release(run: RunId, ending: Ending)
    | Take
    | Done
  {
    /** startRun is in progress for a run whose row does not exist yet. */
    predicate Starting() { Seeking() || Create? }

    /** It does not have its turn yet. */
    predicate Seeking() { Claim? || Get? || Probe? || Replace? }

    /** A takeTurn is certain to follow, whatever the others do, if the slot stays free. */
    predicate WillTake() { Check? || Fence? || Take? }

    function Carries(): Option<HandoffId> {
      if Starting() then from else if Park? then Some(handoff) else None
    }
  }

  datatype Fate = Refused | Started(run: RunId) | Swallowed | Failed | Expired | Dropped

  datatype Place = With(actor: ActorId) | Parked(parker: ActorId) | Gone(fate: Fate)

  /** shared: the Redis coordinator is wired; otherwise one process with its own maps.
      quiet: a path that looks for no hand-off freed the slot with one parked, and nobody has
      looked since.
      taker: the actor that last freed the slot or parked a hand-off.
      stolen: runs whose slot was taken over or torn down while their row did not say they had
      ended.
      unslotted: runs that went ahead without the slot, because it was held when they tried to set
      it and empty when they asked by whom.
      taken: hand-offs in the order takeTurn handed them out. */
  datatype State = State(
    shared: bool, slot: Option<RunId>, parked: Option<HandoffId>,
    rows: map<RunId, Row>, actors: map<ActorId, Pc>,
    used: map<RunId, ActorId>, handoffs: map<HandoffId, Place>,
    quiet: bool, taker: ActorId, stolen: set<RunId>, unslotted: set<RunId>, taken: seq<HandoffId>)

  /** Invoke: a mention starts startRun. Finish: a terminal write won. Late: finishLimit lost its
      write, usually to such a one, and tears down all the same. Act: one actor takes its next step; next names
      the run or hand-off the step may create, and ok is false when its store call fails
      (a row it cannot read, a row it cannot create, a person it cannot load). GiveUp: a watchdog
      runs out of patience. Sweep: StopThread drops what is parked, before it cancels any run. */
  datatype Event =
    | Invoke(a: ActorId, run: RunId)
    | Finish(a: ActorId, run: RunId, ending: Ending)
    | Late(a: ActorId, run: RunId)
    | Act(a: ActorId, next: int, ok: bool)
    | GiveUp(a: ActorId)
    | Sweep(a: ActorId)

  function Init(shared: bool): State {
    State(shared, None, None, map[], map[], map[], map[], false, 0, {}, {}, [])
  }

  ghost predicate Enabled(s: State, e: Event) {
    match e
    case Invoke(a, run) => a !in s.actors && run !in s.used && run !in s.rows
    case Finish(a, run, ending) => a !in s.actors && run in s.rows && s.rows[run] == Live && ending != NotCreated
    case Late(a, run) => a !in s.actors && run in s.rows
    case Act(a, next, ok) => a in s.actors && next !in s.used && next !in s.rows && next !in s.handoffs
    case GiveUp(a) => a in s.actors && s.actors[a].Watch?
    case Sweep(a) => a !in s.actors
  }

  function Goto(s: State, a: ActorId, pc: Pc): State { s.(actors := s.actors[a := pc]) }

  function Settle(s: State, from: Option<HandoffId>, fate: Fate): State {
    s.(handoffs := if from.Some? then s.handoffs[from.value := Gone(fate)] else s.handoffs)
  }

  predicate HasEnded(s: State, run: RunId) { run in s.rows && s.rows[run].Ended? }

  /** What threadSlotStillLive answers: an unreadable or missing row counts as finished. */
  predicate StillLive(s: State, run: RunId, readable: bool) {
    readable && run in s.rows && s.rows[run] == Live
  }

  /** ErrAgentBusy: a mention is parked; a hand-off that was already taken is dropped. */
  function Busy(s: State, a: ActorId, from: Option<HandoffId>, next: int): State {
    s.(handoffs := if from.Some? then s.handoffs[from.value := Gone(Swallowed)] else s.handoffs[next := With(a)])
  }

  function AfterBusy(from: Option<HandoffId>, next: int): Pc {
    if from.Some? then Done else Park(next)
  }

  function TakeOver(s: State, holder: RunId, slot: Option<RunId>): State {
    s.(slot := slot, stolen := if HasEnded(s, holder) then s.stolen else s.stolen + {holder})
  }

  /** In process the holder comes with the refusal; over Redis it has to be asked for. */
  function ClaimNext(s: State, a: ActorId, run: RunId, from: Option<HandoffId>): State {
    var free := s.slot == None || s.slot.value == run;
    Goto(if free then s.(slot := Some(run)) else s, a,
         if free then Create(run, from) else if s.shared then Get(run, from) else Probe(run, from, s.slot.value))
  }

  /** A slot that is gone by now counts as this run's, though nobody sets it. */
  function GetNext(s: State, a: ActorId, run: RunId, from: Option<HandoffId>): State {
    Goto(s.(unslotted := if s.slot == None then s.unslotted + {run} else s.unslotted), a,
         if s.slot == None || s.slot.value == run then Create(run, from) else Probe(run, from, s.slot.value))
  }

  function ProbeNext(s: State, a: ActorId, run: RunId, from: Option<HandoffId>, holder: RunId, next: int, ok: bool): State {
    var live := StillLive(s, holder, ok);
    Goto(if live then Busy(s, a, from, next) else s, a,
         if live then AfterBusy(from, next) else Replace(run, from, holder))
  }

  function ReplaceNext(s: State, a: ActorId, run: RunId, from: Option<HandoffId>, holder: RunId, next: int): State {
    var won := s.slot == Some(holder);
    Goto(if won then TakeOver(s, holder, Some(run)) else Busy(s, a, from, next), a,
         if won then Create(run, from) else AfterBusy(from, next))
  }

  function CreateNext(s: State, a: ActorId, run: RunId, from: Option<HandoffId>, ok: bool): State {
    Goto(Settle(if ok then s.(rows := s.rows[run := Live]) else s, from, if ok then Started(run) else Failed), a,
         if ok then Done else Release(run, NotCreated))
  }

  function ParkNext(s: State, a: ActorId, h: HandoffId): State {
    var first := s.parked == None;
    Goto(s.(parked := if first then Some(h) else s.parked, taker := if first then a else s.taker, quiet := s.quiet && !first,
            handoffs := s.handoffs[h := if first then Parked(a) else Gone(Refused)]), a,
         if first then Check(h) else Done)
  }

  function CheckNext(s: State, a: ActorId, h: HandoffId): State {
    Goto(s, a, if s.slot == None then Take else if s.shared then Done else Watch(h, s.slot.value))
  }

  /** One tick of the in-process watchdog. */
  function WatchNext(s: State, a: ActorId, h: HandoffId, held: RunId, ok: bool): State {
    Goto(s, a, if s.parked == None then Done else if StillLive(s, held, ok) then Watch(h, held) else Fence(h, held))
  }

  function GiveUpNext(s: State, a: ActorId, h: HandoffId): State {
    Goto(if s.parked == Some(h) then s.(parked := None, quiet := false, handoffs := s.handoffs[h := Gone(Expired)]) else s,
         a, Done)
  }

  function FenceNext(s: State, a: ActorId, held: RunId): State {
    Goto(if s.slot == Some(held) then TakeOver(s, held, None).(quiet := false, taker := a) else s, a, Take)
  }

  function ReleaseNext(s: State, a: ActorId, run: RunId, ending: Ending): State {
    var live := run in s.rows && s.rows[run] == Live;
    Goto(if s.slot == Some(run) then
           s.(slot := None, quiet := !ending.Finished? && s.parked.Some?, taker := a, stolen := if live then s.stolen + {run} else s.stolen)
         else s, a,
         if ending.Finished? then Take else Done)
  }

  function TakeNext(s: State, a: ActorId, next: int, ok: bool): State {
    var h := if s.parked.Some? then s.parked.value else next;
    Goto(if s.parked == None then s
         else s.(parked := None, quiet := false, taken := s.taken + [h], used := if ok then s.used[next := a] else s.used,
                 handoffs := s.handoffs[h := if ok then With(a) else Gone(Failed)]), a,
         if s.parked == None || !ok then Done else Claim(next, Some(h)))
  }

  function SweepNext(s: State, a: ActorId): State {
    Goto(if s.parked.Some? then s.(parked := None, quiet := false, handoffs := s.handoffs[s.parked.value := Gone(Dropped)]) else s,
         a, Done)
  }

  function Step(s: State, a: ActorId, next: int, ok: bool): State
    requires a in s.actors
  {
    match s.actors[a]
    case Claim(run, from) => ClaimNext(s, a, run, from)
    case Get(run, from) => GetNext(s, a, run, from)
    case Probe(run, from, holder) => ProbeNext(s, a, run, from, holder, next, ok)
    case Replace(run, from, holder) => ReplaceNext(s, a, run, from, holder, next)
    case Create(run, from) => CreateNext(s, a, run, from, ok)
    case Park(h) => ParkNext(s, a, h)
    case Check(h) => CheckNext(s, a, h)
    case Watch(h, held) => WatchNext(s, a, h, held, ok)
    case Fence(_, held) => FenceNext(s, a, held)
    case Release(run, ending) => ReleaseNext(s, a, run, ending)
    case Take => TakeNext(s, a, next, ok)
    case Done => Goto(s, a, Done)
  }

  function Apply(s: State, e: Event): State
    requires Enabled(s, e)
  {
    match e
    case Invoke(a, run) => Goto(s.(used := s.used[run := a]), a, Claim(run, None))
    case Finish(a, run, ending) => Goto(s.(rows := s.rows[run := Ended(a)]), a, Release(run, ending))
    case Late(a, run) => Goto(s, a, Release(run, Finished))
    case Act(a, next, ok) => Step(s, a, next, ok)
    case GiveUp(a) => GiveUpNext(s, a, s.actors[a].handoff)
    case Sweep(a) => SweepNext(s, a)
  }

  /** One interleaving, newest event last. */
  datatype Run = Start(shared: bool) | Then(before: Run, e: Event)

  ghost predicate Possible(run: Run)
    decreases run, 0
  {
    run.Then? ==> Possible(run.before) && Enabled(Last(run.before), run.e)
  }

  ghost function Last(run: Run): State
    requires Possible(run)
    decreases run, 1
  {
    match run
    case Start(shared) => Init(shared)
    case Then(before, e) => Apply(Last(before), e)
  }

  // ------------------------------------------------------------ the invariant

  /** A run id belongs to the one startRun that made it, and its row appears when that is done. */
  ghost predicate RunIdOk(s: State, a: ActorId, pc: Pc) {
    && (pc.Starting() || (pc.Release? && pc.ending.NotCreated?) ==>
      pc.run in s.used && s.used[pc.run] == a && pc.run !in s.rows)
    && (pc.Release? && !pc.ending.NotCreated? ==> pc.run in s.rows)
  }

  ghost predicate IdsInv(s: State) {
    && (forall r <- s.rows :: r in s.used)
    && (forall a <- s.actors :: RunIdOk(s, a, s.actors[a]))
  }

  /** A held slot belongs to a run that is being created, is live, or is about to release it. */
  ghost predicate HolderInv(s: State) {
    s.slot.Some? ==>
      var r := s.slot.value;
      && (r !in s.rows ==>
          && r in s.used && s.used[r] in s.actors
          && (s.actors[s.used[r]] == Release(r, NotCreated) || (s.actors[s.used[r]].Create? && s.actors[s.used[r]].run == r)))
      && (r in s.rows && s.rows[r].Ended? ==>
          && s.rows[r].ender in s.actors
          && s.actors[s.rows[r].ender].Release? && s.actors[s.rows[r].ender].run == r)
  }

  /** A live run, or one being created, holds the slot unless it was stolen or never set. */
  ghost predicate TurnInv(s: State) {
    && (forall r <- s.rows | s.rows[r] == Live :: s.slot == Some(r) || r in s.stolen || r in s.unslotted)
    && (forall a <- s.actors | s.actors[a].Create? ::
          s.slot == Some(s.actors[a].run) || s.actors[a].run in s.stolen || s.actors[a].run in s.unslotted)
  }

  /** A run that lost the slot, or never had it, will not have it: it is past seeking it. */
  ghost predicate LostInv(s: State) {
    forall r <- s.stolen + s.unslotted :: s.slot != Some(r) && r in s.used && !SeekingFor(s, r)
  }

  ghost predicate SeekingFor(s: State, r: RunId) { exists a <- s.actors :: s.actors[a].Seeking() && s.actors[a].run == r }

  /** A hand-off parked behind a free slot has an actor on its way to take it; in one process
      the actor that parked it also stays with it. */
  ghost predicate TakerInv(s: State) {
    && (s.parked.Some? && s.slot == None && !s.quiet ==>
      s.taker in s.actors && s.actors[s.taker].WillTake())
    && (s.quiet ==> s.parked.Some?)
    && (s.parked.Some? && !s.shared ==>
      && s.parked.value in s.handoffs && s.handoffs[s.parked.value].Parked?
      && s.handoffs[s.parked.value].parker in s.actors
      && Stays(s.actors[s.handoffs[s.parked.value].parker], s.parked.value))
  }

  predicate Stays(pc: Pc, h: HandoffId) {
    (pc.WillTake() || pc.Watch?) && (pc.Check? || pc.Watch? ==> pc.handoff == h)
  }

  /** Every hand-off is in exactly one place. */
  ghost predicate PlaceInv(s: State) {
    && (forall a <- s.actors | s.actors[a].Carries().Some? ::
      s.actors[a].Carries().value in s.handoffs && s.handoffs[s.actors[a].Carries().value] == With(a))
    && (forall h <- s.handoffs | s.handoffs[h].With? ::
      s.handoffs[h].actor in s.actors && s.actors[s.handoffs[h].actor].Carries() == Some(h))
    && (s.parked.Some? ==> s.parked.value in s.handoffs && s.handoffs[s.parked.value].Parked?)
    && (forall h <- s.handoffs | s.handoffs[h].Parked? :: s.parked == Some(h))
  }

  ghost predicate NotBack(s: State, h: HandoffId) {
    h in s.handoffs && s.parked != Some(h) && forall a <- s.actors :: s.actors[a] != Park(h)
  }

  ghost predicate TakenInv(s: State) {
    && (forall i | 0 <= i < |s.taken| :: NotBack(s, s.taken[i]))
    && (forall i, j | 0 <= i < j < |s.taken| :: s.taken[i] != s.taken[j])
  }

  ghost predicate Inv(s: State) {
    IdsInv(s) && HolderInv(s) && TurnInv(s) && LostInv(s) && TakerInv(s) && PlaceInv(s) && TakenInv(s)
  }

  // ------------------------------------------------- what one step may touch

  /** Only actor a moves; a new run id is a's own; a row appears where a was creating one, or
      ends where it was live. */
  ghost predicate Moves(s: State, t: State, a: ActorId) {
    && a in t.actors && t.actors == s.actors[a := t.actors[a]]
    && (t.used == s.used || (t.actors[a].Claim? && t.actors[a].run !in s.used && t.used == s.used[t.actors[a].run := a]))
    && (|| t.rows == s.rows
        || (a in s.actors && s.actors[a].Create? && t.actors[a] == Done && t.rows == s.rows[s.actors[a].run := Live])
        || (t.actors[a].Release? && t.actors[a].run in s.rows && s.rows[t.actors[a].run] == Live
            && t.rows == s.rows[t.actors[a].run := Ended(a)]))
  }

  ghost predicate MovesSlot(s: State, t: State, a: ActorId)
    requires a in t.actors
  {
    && (t.slot == s.slot || t.slot == None || (t.actors[a].Create? && t.slot == Some(t.actors[a].run)))
    && (t.actors[a].Create? ==> t.slot == Some(t.actors[a].run) || t.actors[a].run in t.unslotted)
    && (a in s.actors && s.actors[a].Release? ==> t.slot != Some(s.actors[a].run))
    && (a in s.actors && s.actors[a].Create? && t.slot == Some(s.actors[a].run) ==>
      t.rows == s.rows[s.actors[a].run := Live] || t.actors[a] == Release(s.actors[a].run, NotCreated))
    && s.stolen <= t.stolen && s.unslotted <= t.unslotted
    && (s.slot.Some? && t.slot != s.slot ==>
      || s.slot.value in t.stolen || HasEnded(s, s.slot.value)
      || (a in s.actors && s.actors[a] == Release(s.slot.value, NotCreated)))
  }

  /** Only a run that seeks the slot gets it, and only its holder loses it. */
  ghost predicate MovesLost(s: State, t: State, a: ActorId)
    requires a in t.actors
  {
    && (t.slot.Some? && t.slot != s.slot ==> a in s.actors && s.actors[a].Seeking() && s.actors[a].run == t.slot.value)
    && (t.actors[a].Seeking() ==>
          || (a in s.actors && s.actors[a].Seeking() && s.actors[a].run == t.actors[a].run) || t.actors[a].run !in s.used)
    && (t.stolen == s.stolen
        || (s.slot.Some? && t.stolen == s.stolen + {s.slot.value}
            && (t.slot == s.slot ==> a in s.actors && s.actors[a].Seeking() && s.actors[a].run == s.slot.value)))
    && (t.unslotted == s.unslotted
        || (a in s.actors && s.actors[a].Get? && t.slot == None && t.unslotted == s.unslotted + {s.actors[a].run}
            && t.actors[a].Create?))
  }

  function Carried(s: State, a: ActorId): Option<HandoffId> {
    if a in s.actors then s.actors[a].Carries() else None
  }

  /** A hand-off stays put, starts its journey with a, ends it, is parked, expires, or is taken. */
  ghost predicate MovesHandoff(s: State, t: State, a: ActorId)
    requires a in t.actors
  {
    var c, d := Carried(s, a), t.actors[a].Carries();
    && (t.actors[a].Park? ==> d.value !in s.handoffs)
    && if t.parked == s.parked then
         && t.taken == s.taken
         && if c == d then t.handoffs == s.handoffs
            else if c == None then d.value !in s.handoffs && t.handoffs == s.handoffs[d.value := With(a)]
            else d == None && exists f :: t.handoffs == s.handoffs[c.value := Gone(f)]
       else if t.parked.Some? then
         && s.parked == None && t.parked == c && s.actors[a].Park? && t.actors[a] == Check(c.value)
         && t.handoffs == s.handoffs[c.value := Parked(a)] && t.taken == s.taken
       else if t.taken == s.taken then
         c == d == None && exists f :: t.handoffs == s.handoffs[s.parked.value := Gone(f)]
       else
         && c == None && t.taken == s.taken + [s.parked.value] && (d == None || d == s.parked)
         && t.handoffs == s.handoffs[s.parked.value := if d == None then Gone(Failed) else With(a)]
  }

  ghost predicate MovesTaker(s: State, t: State, a: ActorId)
    requires a in t.actors
  {
    && t.shared == s.shared && (t.quiet ==> t.parked.Some? || (s.quiet && t.parked == s.parked))
    && (t.parked.Some? && t.slot == None && !t.quiet ==>
      || (t.taker == a && t.actors[a].WillTake())
      || (t.parked == s.parked && s.slot == None && !s.quiet && t.taker == s.taker &&
          (a in s.actors && s.actors[a].WillTake() ==> t.actors[a].WillTake())))
    && (t.parked.Some? && t.parked == s.parked && !s.shared && a in s.actors && Stays(s.actors[a], s.parked.value) ==>
      Stays(t.actors[a], s.parked.value))
  }

  ghost predicate StepOk(s: State, t: State, a: ActorId) {
    && Moves(s, t, a) && MovesSlot(s, t, a) && MovesHandoff(s, t, a) && MovesTaker(s, t, a)
    && RunIdOk(t, a, t.actors[a])
  }

  /** Whom a step believes to hold the slot, and when it takes the slot from a run not over yet. */
  ghost predicate Honest(s: State, t: State, a: ActorId, ok: bool)
    requires a in s.actors && a in t.actors
  {
    var pc, qc := s.actors[a], t.actors[a];
    && (t.stolen != s.stolen ==>
      || (pc.Replace? && !HasEnded(s, pc.holder)) || (pc.Fence? && !HasEnded(s, pc.held))
      || (pc.Release? && !HasEnded(s, pc.run)))
    && (t.unslotted != s.unslotted ==> pc.Get? && s.slot == None)
    && (qc.Get? ==> pc.Claim? && s.slot.Some? && t.slot == s.slot)
    && (qc.Probe? ==> (pc.Claim? || pc.Get?) && s.slot == Some(qc.holder))
    && (qc.Replace? ==> pc.Probe? && pc.holder == qc.holder && !StillLive(s, qc.holder, ok))
    && (qc.Watch? ==> (pc.Check? && s.slot == Some(qc.held)) || qc == pc)
    && (qc.Fence? ==> pc.Watch? && pc.held == qc.held && !StillLive(s, qc.held, ok))
    && (qc.Release? ==> pc.Create? && !ok)
  }

  lemma ClaimStep(s: State, a: ActorId, next: int, ok: bool, run: RunId, from: Option<HandoffId>)
    requires Enabled(s, Act(a, next, ok)) && s.actors[a] == Claim(run, from) && RunIdOk(s, a, s.actors[a])
    ensures var t := ClaimNext(s, a, run, from); StepOk(s, t, a) && Honest(s, t, a, ok)
  {}

  lemma GetStep(s: State, a: ActorId, next: int, ok: bool, run: RunId, from: Option<HandoffId>)
    requires Enabled(s, Act(a, next, ok)) && s.actors[a] == Get(run, from) && RunIdOk(s, a, s.actors[a])
    ensures var t := GetNext(s, a, run, from); StepOk(s, t, a) && Honest(s, t, a, ok)
  {}

  lemma ProbeStep(s: State, a: ActorId, next: int, ok: bool, run: RunId, from: Option<HandoffId>, holder: RunId)
    requires Enabled(s, Act(a, next, ok)) && s.actors[a] == Probe(run, from, holder) && RunIdOk(s, a, s.actors[a])
    ensures var t := ProbeNext(s, a, run, from, holder, next, ok); StepOk(s, t, a) && Honest(s, t, a, ok)
  {}

  lemma ReplaceHandsOn(s: State, a: ActorId, next: int, ok: bool, run: RunId, from: Option<HandoffId>, holder: RunId)
    requires Enabled(s, Act(a, next, ok)) && s.actors[a] == Replace(run, from, holder)
    ensures var t := ReplaceNext(s, a, run, from, holder, next); MovesHandoff(s, t, a) && MovesTaker(s, t, a)
  {}

  lemma ReplaceStep(s: State, a: ActorId, next: int, ok: bool, run: RunId, from: Option<HandoffId>, holder: RunId)
    requires Enabled(s, Act(a, next, ok)) && s.actors[a] == Replace(run, from, holder) && RunIdOk(s, a, s.actors[a])
    ensures var t := ReplaceNext(s, a, run, from, holder, next); StepOk(s, t, a) && Honest(s, t, a, ok)
  {
    ReplaceHandsOn(s, a, next, ok, run, from, holder);
  }

  lemma CreateStep(s: State, a: ActorId, next: int, ok: bool, run: RunId, from: Option<HandoffId>)
    requires Enabled(s, Act(a, next, ok)) && s.actors[a] == Create(run, from) && RunIdOk(s, a, s.actors[a])
    ensures var t := CreateNext(s, a, run, from, ok); StepOk(s, t, a) && Honest(s, t, a, ok)
  {}

  lemma ParkStep(s: State, a: ActorId, next: int, ok: bool, h: HandoffId)
    requires Enabled(s, Act(a, next, ok)) && s.actors[a] == Park(h) && RunIdOk(s, a, s.actors[a])
    ensures var t := ParkNext(s, a, h); StepOk(s, t, a) && Honest(s, t, a, ok)
  {}

  lemma CheckStep(s: State, a: ActorId, next: int, ok: bool, h: HandoffId)
    requires Enabled(s, Act(a, next, ok)) && s.actors[a] == Check(h) && RunIdOk(s, a, s.actors[a])
    ensures var t := CheckNext(s, a, h); StepOk(s, t, a) && Honest(s, t, a, ok)
  {}

  lemma WatchStep(s: State, a: ActorId, next: int, ok: bool, h: HandoffId, held: RunId)
    requires Enabled(s, Act(a, next, ok)) && s.actors[a] == Watch(h, held) && RunIdOk(s, a, s.actors[a])
    ensures var t := WatchNext(s, a, h, held, ok); StepOk(s, t, a) && Honest(s, t, a, ok)
  {}

  lemma FenceStep(s: State, a: ActorId, next: int, ok: bool, h: HandoffId, held: RunId)
    requires Enabled(s, Act(a, next, ok)) && s.actors[a] == Fence(h, held) && RunIdOk(s, a, s.actors[a])
    ensures var t := FenceNext(s, a, held); StepOk(s, t, a) && Honest(s, t, a, ok)
  {}

  lemma ReleaseHandsOn(s: State, a: ActorId, next: int, ok: bool, run: RunId, ending: Ending)
    requires Enabled(s, Act(a, next, ok)) && s.actors[a] == Release(run, ending)
    ensures var t := ReleaseNext(s, a, run, ending); MovesHandoff(s, t, a) && MovesTaker(s, t, a)
  {}

  lemma ReleaseStep(s: State, a: ActorId, next: int, ok: bool, run: RunId, ending: Ending)
    requires Enabled(s, Act(a, next, ok)) && s.actors[a] == Release(run, ending) && RunIdOk(s, a, s.actors[a])
    ensures var t := ReleaseNext(s, a, run, ending); StepOk(s, t, a) && Honest(s, t, a, ok)
  {
    ReleaseHandsOn(s, a, next, ok, run, ending);
  }

  lemma TakeStep(s: State, a: ActorId, next: int, ok: bool)
    requires Enabled(s, Act(a, next, ok)) && s.actors[a] == Take && RunIdOk(s, a, s.actors[a])
    ensures var t := TakeNext(s, a, next, ok); StepOk(s, t, a) && Honest(s, t, a, ok)
  {}

  lemma GiveUpStep(s: State, a: ActorId)
    requires Enabled(s, GiveUp(a))
    ensures StepOk(s, Apply(s, GiveUp(a)), a)
  {}

  lemma SweepStep(s: State, a: ActorId)
    requires Enabled(s, Sweep(a))
    ensures StepOk(s, Apply(s, Sweep(a)), a)
  {}

  lemma SpawnStep(s: State, e: Event)
    requires Enabled(s, e) && !e.Act? && !e.GiveUp? && !e.Sweep?
    ensures StepOk(s, Apply(s, e), e.a)
  {}

  lemma SeekingLost(s: State, a: ActorId, next: int, ok: bool)
    requires Enabled(s, Act(a, next, ok)) && (s.actors[a].Claim? || s.actors[a].Get? || s.actors[a].Probe?)
    ensures MovesLost(s, Step(s, a, next, ok), a)
  {}

  lemma ReplaceLost(s: State, a: ActorId, next: int, ok: bool)
    requires Enabled(s, Act(a, next, ok)) && s.actors[a].Replace?
    ensures MovesLost(s, Step(s, a, next, ok), a)
  {}

  lemma FreeingLost(s: State, a: ActorId, next: int, ok: bool)
    requires Enabled(s, Act(a, next, ok)) && (s.actors[a].Fence? || s.actors[a].Release?)
    ensures MovesLost(s, Step(s, a, next, ok), a)
  {}

  lemma OtherLost(s: State, a: ActorId, next: int, ok: bool)
    requires Enabled(s, Act(a, next, ok))
    requires s.actors[a].Create? || s.actors[a].Park? || s.actors[a].Check? || s.actors[a].Watch? || s.actors[a].Done?
    ensures MovesLost(s, Step(s, a, next, ok), a)
  {}

  lemma SpawnLost(s: State, e: Event)
    requires Enabled(s, e) && !e.Act?
    ensures e.a in Apply(s, e).actors && MovesLost(s, Apply(s, e), e.a)
  {}

  lemma StepLost(s: State, e: Event)
    requires Enabled(s, e)
    ensures e.a in Apply(s, e).actors && MovesLost(s, Apply(s, e), e.a)
  {
    if e.Act? {
      match s.actors[e.a]
      case Claim(_, _) => SeekingLost(s, e.a, e.next, e.ok);
      case Get(_, _) => SeekingLost(s, e.a, e.next, e.ok);
      case Probe(_, _, _) => SeekingLost(s, e.a, e.next, e.ok);
      case Replace(_, _, _) => ReplaceLost(s, e.a, e.next, e.ok);
      case Fence(_, _) => FreeingLost(s, e.a, e.next, e.ok);
      case Release(_, _) => FreeingLost(s, e.a, e.next, e.ok);
      case Take =>
      case _ => OtherLost(s, e.a, e.next, e.ok);
    } else {
      SpawnLost(s, e);
    }
  }

  lemma IdsKept(s: State, t: State, a: ActorId)
    requires IdsInv(s) && Moves(s, t, a) && RunIdOk(t, a, t.actors[a])
    ensures IdsInv(t)
  {}

  lemma HolderKept(s: State, t: State, a: ActorId)
    requires IdsInv(s) && HolderInv(s) && Moves(s, t, a) && MovesSlot(s, t, a) && RunIdOk(t, a, t.actors[a])
    ensures HolderInv(t)
  {}

  lemma TurnKept(s: State, t: State, a: ActorId)
    requires IdsInv(s) && TurnInv(s) && Moves(s, t, a) && MovesSlot(s, t, a)
    ensures TurnInv(t)
  {}

  lemma HolderIsPastSeeking(s: State, a: ActorId)
    requires IdsInv(s) && HolderInv(s) && s.slot.Some? && a in s.actors && s.actors[a].Seeking()
    ensures s.actors[a].run != s.slot.value
  {
    assert RunIdOk(s, a, s.actors[a]);
  }

  lemma LostKept(s: State, t: State, a: ActorId)
    requires IdsInv(s) && HolderInv(s) && LostInv(s) && Moves(s, t, a) && MovesLost(s, t, a)
    ensures LostInv(t)
  {
    forall r | r in t.stolen + t.unslotted ensures t.slot != Some(r) && r in t.used && !SeekingFor(t, r) {
      if r !in s.stolen + s.unslotted {
        FreshlyLost(s, t, a, r);
      } else {
        assert r in s.used && !SeekingFor(s, r);
      }
    }
  }

  lemma FreshlyLost(s: State, t: State, a: ActorId, r: RunId)
    requires IdsInv(s) && HolderInv(s) && Moves(s, t, a) && MovesLost(s, t, a)
    requires r in t.stolen + t.unslotted && r !in s.stolen + s.unslotted
    ensures t.slot != Some(r) && r in t.used && !SeekingFor(t, r)
  {
    forall b | b in s.actors && s.actors[b].Seeking() ensures r in t.stolen ==> s.actors[b].run != r {
      if r in t.stolen { HolderIsPastSeeking(s, b); }
    }
    forall b | b in s.actors && b != a && s.actors[b].Seeking() ensures s.actors[b].run != r {
      assert RunIdOk(s, b, s.actors[b]);
      if a in s.actors { assert RunIdOk(s, a, s.actors[a]); }
    }
  }

  lemma PlaceKept(s: State, t: State, a: ActorId)
    requires PlaceInv(s) && Moves(s, t, a) && MovesHandoff(s, t, a)
    ensures PlaceInv(t)
  {}

  lemma TakerKept(s: State, t: State, a: ActorId)
    requires PlaceInv(s) && TakerInv(s) && Moves(s, t, a) && MovesHandoff(s, t, a) && MovesTaker(s, t, a)
    ensures TakerInv(t)
  {}

  lemma TakenKept(s: State, t: State, a: ActorId)
    requires PlaceInv(s) && TakenInv(s) && Moves(s, t, a) && MovesHandoff(s, t, a)
    ensures TakenInv(t)
  {}

  lemma StepMoves(s: State, e: Event)
    requires IdsInv(s) && Enabled(s, e)
    ensures StepOk(s, Apply(s, e), e.a) && (e.Act? ==> Honest(s, Apply(s, e), e.a, e.ok))
  {
    if e.Act? {
      match s.actors[e.a]
      case Claim(run, from) => ClaimStep(s, e.a, e.next, e.ok, run, from);
      case Get(run, from) => GetStep(s, e.a, e.next, e.ok, run, from);
      case Probe(run, from, holder) => ProbeStep(s, e.a, e.next, e.ok, run, from, holder);
      case Replace(run, from, holder) => ReplaceStep(s, e.a, e.next, e.ok, run, from, holder);
      case Create(run, from) => CreateStep(s, e.a, e.next, e.ok, run, from);
      case Park(h) => ParkStep(s, e.a, e.next, e.ok, h);
      case Check(h) => CheckStep(s, e.a, e.next, e.ok, h);
      case Watch(h, held) => WatchStep(s, e.a, e.next, e.ok, h, held);
      case Fence(h, held) => FenceStep(s, e.a, e.next, e.ok, h, held);
      case Release(run, ending) => ReleaseStep(s, e.a, e.next, e.ok, run, ending);
      case Take => TakeStep(s, e.a, e.next, e.ok);
      case Done => assert s.actors[e.a := Done] == s.actors;
    } else if e.GiveUp? {
      GiveUpStep(s, e.a);
    } else if e.Sweep? {
      SweepStep(s, e.a);
    } else {
      SpawnStep(s, e);
    }
  }

  lemma StepKeepsInv(s: State, e: Event)
    requires Inv(s) && Enabled(s, e)
    ensures Inv(Apply(s, e))
  {
    var t := Apply(s, e);
    StepMoves(s, e);
    StepLost(s, e);
    IdsKept(s, t, e.a);
    HolderKept(s, t, e.a);
    TurnKept(s, t, e.a);
    LostKept(s, t, e.a);
    PlaceKept(s, t, e.a);
    TakerKept(s, t, e.a);
    TakenKept(s, t, e.a);
  }

  lemma {:induction false} RunKeepsInv(run: Run)
    requires Possible(run)
    ensures Inv(Last(run))
  {
    if run.Then? {
      RunKeepsInv(run.before);
      StepKeepsInv(Last(run.before), run.e);
    }
  }

  // ----------------------------------------------------------- main results

  /** Nothing is in progress and no run is live. */
  ghost predicate Quiescent(s: State) {
    (forall a <- s.actors :: s.actors[a] == Done) && (forall r <- s.rows :: s.rows[r] != Live)
  }

  lemma HeldMeansBusy(s: State)
    requires Inv(s) && s.slot.Some?
    ensures !Quiescent(s)
  {
    var r := s.slot.value;
    if r !in s.rows {
      var b := s.used[r];
      assert b in s.actors && s.actors[b] != Done;
    } else if s.rows[r].Ended? {
      var b := s.rows[r].ender;
      assert b in s.actors && s.actors[b] != Done;
    }
  }

  /** A hand-off parked behind a free slot has an actor with a take still to come, unless a cancel
      or a run that could not be created freed the slot with it parked and nobody has looked since. */
  lemma {:induction false} NoHandoffStranded(run: Run)
    requires Possible(run)
    ensures var s := Last(run); s.parked.Some? && s.slot == None ==> s.quiet || exists a <- s.actors :: s.actors[a].WillTake()
  {
    RunKeepsInv(run);
  }

  /** At rest that is exactly when a hand-off is left behind, and one process with its own maps
      leaves none. */
  lemma {:induction false} StrandedIffQuiet(run: Run)
    requires Possible(run) && Quiescent(Last(run))
    ensures var s := Last(run);
      && (s.parked.Some? <==> s.quiet)
      && (s.parked.Some? ==> s.shared && s.slot == None)
  {
    RunKeepsInv(run);
    if Last(run).slot.Some? {
      HeldMeansBusy(Last(run));
    }
  }

  /** A live run holds the slot exactly when nobody has taken the slot from it while its row did not
      say it ended, and it did not go ahead without one. So of two live runs of a key at least one
      did, or lost it so. */
  lemma {:induction false} OneTurnUnlessStolen(run: Run, r: RunId, q: RunId)
    requires Possible(run)
    ensures var s := Last(run);
      && (r in s.rows && s.rows[r] == Live ==> (s.slot == Some(r) <==> r !in s.stolen && r !in s.unslotted))
      && (r != q && r in s.rows && q in s.rows && s.rows[r] == s.rows[q] == Live ==>
            r in s.stolen + s.unslotted || q in s.stolen + s.unslotted)
  {
    RunKeepsInv(run);
    var s := Last(run);
    assert r in s.stolen + s.unslotted <==> r in s.stolen || r in s.unslotted;
  }

  /** takeTurn hands every hand-off out at most once, and every hand-off is either parked, with
      exactly the one actor that parks or starts it, or gone for a known reason. */
  lemma {:induction false} TakenOnceAndInOnePlace(run: Run)
    requires Possible(run)
    ensures var s := Last(run);
      && (forall i, j | 0 <= i < j < |s.taken| :: s.taken[i] != s.taken[j])
      && (forall i | 0 <= i < |s.taken| :: s.taken[i] in s.handoffs && !s.handoffs[s.taken[i]].Parked?)
      && (forall h <- s.handoffs | s.handoffs[h].Parked? :: s.parked == Some(h))
      && (forall h <- s.handoffs, a <- s.actors ::
            s.handoffs[h] == With(a) <==> s.actors[a].Carries() == Some(h))
  {
    RunKeepsInv(run);
  }

  // ------------------------------------- claim and create as one step, rows readable

  /** A claim is followed at once by the question who holds the slot, or by the run's row; every
      row can be read, and finishLimit only loses to a writer that ended the run. */
  ghost predicate Coarse(run: Run)
    requires Possible(run)
  {
    run.Then? ==>
      && Coarse(run.before)
      && (run.e.Late? ==> HasEnded(Last(run.before), run.e.run))
      && (run.e.Act? && (Last(run.before).actors[run.e.a].Probe? || Last(run.before).actors[run.e.a].Watch?) ==> run.e.ok)
      && (forall a <- Last(run.before).actors | Midway(Last(run.before).actors[a]) ::
        run.e.Act? && run.e.a == a && run.e.ok)
  }

  predicate Midway(pc: Pc) { pc.Get? || pc.Create? }

  ghost predicate CoarsePc(s: State, pc: Pc) {
    && (pc.Get? ==> s.slot.Some? && s.slot.value in s.rows)
    && (pc.Probe? ==> pc.holder in s.rows)
    && (pc.Watch? ==> pc.held in s.rows)
    && (pc.Replace? ==> HasEnded(s, pc.holder))
    && (pc.Fence? ==> HasEnded(s, pc.held))
    && (pc.Release? ==> HasEnded(s, pc.run))
  }

  ghost predicate CoarseInv(s: State) {
    s.stolen == {} && s.unslotted == {} && forall a <- s.actors :: CoarsePc(s, s.actors[a])
  }

  /** When nobody else is creating a row, whoever holds the slot has one. */
  lemma CoarseSlot(s: State)
    requires Inv(s) && CoarseInv(s) && s.slot.Some? && forall a <- s.actors :: !s.actors[a].Create?
    ensures s.slot.value in s.rows
  {
    var r := s.slot.value;
    if r in s.used {
      var b := s.used[r];
      assert b in s.actors ==> CoarsePc(s, s.actors[b]) && !s.actors[b].Create?;
    }
  }

  lemma CoarseMoves(s: State, t: State, a: ActorId, ok: bool)
    requires IdsInv(s) && CoarseInv(s) && a in s.actors && Moves(s, t, a) && Honest(s, t, a, ok)
    requires Midway(s.actors[a]) || s.actors[a].Probe? || s.actors[a].Watch? ==> ok
    requires forall b <- s.actors | Midway(s.actors[b]) :: b == a
    requires !s.actors[a].Create? && s.slot.Some? ==> s.slot.value in s.rows
    ensures CoarseInv(t)
  {}

  lemma CoarseSpawn(s: State, e: Event)
    requires CoarseInv(s) && Enabled(s, e) && !e.Act? && forall a <- s.actors :: !Midway(s.actors[a])
    requires e.Late? ==> HasEnded(s, e.run)
    ensures CoarseInv(Apply(s, e))
  {}

  lemma {:induction false} CoarseKept(run: Run)
    requires Possible(run) && Coarse(run)
    ensures CoarseInv(Last(run))
  {
    if run.Then? {
      var s, e := Last(run.before), run.e;
      RunKeepsInv(run.before);
      CoarseKept(run.before);
      StepMoves(s, e);
      if e.Act? {
        if !s.actors[e.a].Create? && s.slot.Some? {
          CoarseSlot(s);
        }
        CoarseMoves(s, Last(run), e.a, e.ok);
      } else {
        CoarseSpawn(s, e);
      }
    }
  }

  /** At that grain the slot is exclusive: at most one live run per key. */
  lemma {:induction false} OneTurnAtCoarseGrain(run: Run, r: RunId, q: RunId)
    requires Possible(run) && Coarse(run)
    ensures var s := Last(run);
      r in s.rows && q in s.rows && s.rows[r] == s.rows[q] == Live ==> r == q && s.slot == Some(r)
  {
    RunKeepsInv(run);
    CoarseKept(run);
  }

  // ------------------------------------------------- runs that show the limits

  lemma Next(run: Run, e: Event) returns (longer: Run)
    requires Possible(run) && Enabled(Last(run), e)
    ensures longer == Then(run, e) && Possible(longer) && Last(longer) == Apply(Last(run), e)
  {
    longer := Then(run, e);
  }

  /** Two requests race on an empty slot: the second one reads no row for the holder yet, takes
      the slot over, and both runs go live. */
  lemma TwoLiveTurns() returns (run: Run)
    ensures Possible(run) && var s := Last(run);
      1 in s.rows && 2 in s.rows && s.rows[1] == s.rows[2] == Live
  {
    run := Next(Start(true), Invoke(1, 1));
    run := Next(run, Act(1, 100, true));
    run := Next(run, Invoke(2, 2));
    run := Next(run, Act(2, 100, true));
    run := Next(run, Act(2, 100, true));
    run := Next(run, Act(2, 100, true));
    run := Next(run, Act(2, 100, true));
    run := Next(run, Act(1, 100, true));
    run := Next(run, Act(2, 100, true));
  }

  /** finishLimit loses its write to a batch that did not end run 1 and frees the slot of a live
      run; the next mention starts a second one, every row readable. */
  lemma TwoLiveTurnsAfterLateTeardown() returns (run: Run)
    ensures Possible(run) && var s := Last(run);
      1 in s.rows && 3 in s.rows && s.rows[1] == s.rows[3] == Live
  {
    run := Next(Start(true), Invoke(1, 1));
    run := Next(run, Act(1, 100, true));
    run := Next(run, Act(1, 100, true));
    run := Next(run, Late(2, 1));
    run := Next(run, Act(2, 100, true));
    run := Next(run, Invoke(3, 3));
    run := Next(run, Act(3, 100, true));
    run := Next(run, Act(3, 100, true));
  }

  /** What the runs below need to know about a state: the slot, the lot, and where four actors are. */
  ghost predicate Scene(s: State, slot: Option<RunId>, parked: Option<HandoffId>, pcs: map<ActorId, Pc>, top: RunId) {
    && s.shared && s.slot == slot && s.parked == parked && s.taken == []
    && s.actors == pcs
    && (forall r <- s.used :: r <= top) && (forall r <- s.rows :: r <= top) && s.handoffs.Keys == {100}
  }

  /** Run 1 is live and nothing else has happened. */
  lemma OneLive() returns (run: Run)
    ensures Possible(run) && var s := Last(run);
      && s.shared && s.slot == Some(1) && s.parked == None && s.taken == [] && s.handoffs == map[] && s.stolen == {}
      && s.actors == map[1 := Done] && s.rows == map[1 := Live] && s.used == map[1 := 1]
  {
    run := Next(Start(true), Invoke(1, 1));
    run := Next(run, Act(1, 9, true));
    run := Next(run, Act(1, 9, true));
  }

  /** Run 2's mention found the slot held and is about to ask by whom. */
  lemma OneLiveOneGetting() returns (run: Run)
    ensures Possible(run) && var s := Last(run);
      && s.shared && s.slot == Some(1) && s.parked == None && s.taken == [] && s.handoffs == map[] && s.stolen == {}
      && s.actors == map[1 := Done, 2 := Get(2, None)] && s.rows == map[1 := Live] && s.used == map[1 := 1, 2 := 2]
  {
    run := OneLive();
    run := Next(run, Invoke(2, 2));
    run := Next(run, Act(2, 9, true));
  }

  /** Run 1 ends before run 2's mention asks: run 2 goes ahead without the slot. */
  lemma WithoutSlot() returns (run: Run)
    ensures Possible(run) && var s := Last(run);
      && s.slot == None && s.parked == None && s.stolen == {} && s.actors.Keys == {1, 2, 3} && s.used == map[1 := 1, 2 := 2]
      && s.rows.Keys == {1, 2} && s.rows[2] == Live && s.handoffs == map[]
  {
    run := OneLiveOneGetting();
    run := Next(run, Finish(3, 1, Finished));
    run := Next(run, Act(3, 9, true));
    run := Next(run, Act(2, 9, true));
    run := Next(run, Act(2, 9, true));
  }

  /** The next mention finds the slot free: two live runs, though every row was readable and nobody
      took a slot from anybody. */
  lemma TwoLiveTurnsWithoutTheft() returns (run: Run)
    ensures Possible(run) && var s := Last(run);
      2 in s.rows && 4 in s.rows && s.rows[2] == s.rows[4] == Live && s.stolen == {}
  {
    run := WithoutSlot();
    run := Next(run, Invoke(4, 4));
    run := Next(run, Act(4, 9, true));
    run := Next(run, Act(4, 9, true));
  }

  /** Run 2's mention found the slot held by run 1 and is about to ask whether that run is live. */
  lemma OneLiveOneAsking() returns (run: Run)
    ensures Possible(run) && var s := Last(run);
      && s.shared && s.slot == Some(1) && s.parked == None && s.taken == [] && s.handoffs == map[]
      && s.actors == map[1 := Done, 2 := Probe(2, None, 1)] && s.rows == map[1 := Live] && s.used == map[1 := 1, 2 := 2]
  {
    run := OneLiveOneGetting();
    run := Next(run, Act(2, 9, true));
  }

  /** Run 1 is live, run 2's mention found it busy, and its hand-off 100 is about to be parked. */
  lemma OneLiveOneBusy() returns (run: Run)
    ensures Possible(run) && Scene(Last(run), Some(1), None, map[1 := Done, 2 := Park(100)], 2)
    ensures Last(run).rows == map[1 := Live]
  {
    run := OneLiveOneAsking();
    run := Next(run, Act(2, 100, true));
  }

  lemma ParkedBehindRunOne() returns (run: Run)
    ensures Possible(run) && Scene(Last(run), Some(1), Some(100), map[1 := Done, 2 := Done], 2)
    ensures Last(run).rows == map[1 := Live]
  {
    run := OneLiveOneBusy();
    run := Next(run, Act(2, 9, true));
    run := Next(run, Act(2, 9, true));
  }

  /** cancelRun looks for no hand-off, so one parked just before it stays behind. */
  lemma CancelStrands() returns (run: Run)
    ensures Possible(run) && Quiescent(Last(run)) && Last(run).parked.Some?
  {
    run := ParkedBehindRunOne();
    run := Next(run, Finish(3, 1, Canceled));
    run := Next(run, Act(3, 9, true));
  }

  /** Run 1 gave its slot back, and its teardown has not looked for a hand-off yet. */
  lemma OneEnding() returns (run: Run)
    ensures Possible(run) && Scene(Last(run), None, None, map[1 := Done, 2 := Park(100), 3 := Take], 2)
  {
    run := OneLiveOneBusy();
    run := Next(run, Finish(3, 1, Finished));
    run := Next(run, Act(3, 9, true));
  }

  /** In that gap run 4 claims the slot and hand-off 100 is parked behind it. */
  lemma ParkedBehindTheNextTurn() returns (run: Run)
    ensures Possible(run)
    ensures Scene(Last(run), Some(4), Some(100), map[1 := Done, 2 := Check(100), 3 := Take, 4 := Create(4, None)], 4)
  {
    run := OneEnding();
    run := Next(run, Invoke(4, 4));
    run := Next(run, Act(4, 9, true));
    run := Next(run, Act(2, 9, true));
  }

  lemma TakenBehindTheNextTurn() returns (run: Run)
    ensures Possible(run) && var s := Last(run);
      && s.shared && s.slot == Some(4) && s.parked == None && s.taken == [100] && s.handoffs == map[100 := With(3)]
      && s.actors == map[1 := Done, 2 := Done, 3 := Claim(5, Some(100)), 4 := Done]
      && 4 in s.rows && s.rows[4] == Live && 9 !in s.rows && 9 !in s.used
  {
    run := ParkedBehindTheNextTurn();
    run := Next(run, Act(2, 9, true));
    run := Next(run, Act(4, 9, true));
    run := Next(run, Act(3, 5, true));
  }

  /** Run 1's teardown takes the hand-off meant for the end of run 4, finds the agent busy and
      drops it: nothing is left that would ever start it. */
  lemma TakenHandoffSwallowed() returns (run: Run)
    ensures Possible(run) && var s := Last(run);
      && s.parked == None && s.taken == [100] && 100 in s.handoffs && s.handoffs[100] == Gone(Swallowed)
      && (forall a <- s.actors :: s.actors[a] == Done)
  {
    run := TakenBehindTheNextTurn();
    run := Next(run, Act(3, 9, true));
    run := Next(run, Act(3, 9, true));
    run := Next(run, Act(3, 9, true));
  }

  /** Run 1's teardown has looked and found nothing. */
  lemma OneEnded() returns (run: Run)
    ensures Possible(run) && Scene(Last(run), None, None, map[1 := Done, 2 := Park(100), 3 := Done], 2)
    ensures Last(run).rows == map[1 := Ended(3)]
  {
    run := OneLiveOneBusy();
    run := Next(run, Finish(3, 1, Finished));
    run := Next(run, Act(3, 9, true));
    run := Next(run, Act(3, 9, true));
  }

  lemma OneCreating() returns (run: Run)
    ensures Possible(run)
    ensures Scene(Last(run), Some(4), None, map[1 := Done, 2 := Park(100), 3 := Done, 4 := Create(4, None)], 4)
    ensures Last(run).rows == map[1 := Ended(3)]
  {
    run := OneEnded();
    run := Next(run, Invoke(4, 4));
    run := Next(run, Act(4, 9, true));
  }

  /** Run 4 has claimed the slot, and hand-off 100 is parked behind it. */
  lemma ParkedBehindNobody() returns (run: Run)
    ensures Possible(run)
    ensures Scene(Last(run), Some(4), Some(100), map[1 := Done, 2 := Check(100), 3 := Done, 4 := Create(4, None)], 4)
    ensures Last(run).rows == map[1 := Ended(3)]
  {
    run := OneCreating();
    run := Next(run, Act(2, 9, true));
  }

  lemma NobodyWatches() returns (run: Run)
    ensures Possible(run)
    ensures Scene(Last(run), Some(4), Some(100), map[1 := Done, 2 := Done, 3 := Done, 4 := Create(4, None)], 4)
    ensures Last(run).rows == map[1 := Ended(3)]
  {
    run := ParkedBehindNobody();
    run := Next(run, Act(2, 9, true));
  }

  /** A row that cannot be created strands a hand-off too: it was parked behind a run that never was. */
  lemma FailedCreateStrands() returns (run: Run)
    ensures Possible(run) && Quiescent(Last(run)) && Last(run).parked.Some?
  {
    run := NobodyWatches();
    run := Next(run, Act(4, 9, false));
    run := Next(run, Act(4, 9, true));
  }

  /** StopThread has dropped what was parked, which was nothing yet, and cancels run 1. */
  lemma Swept() returns (run: Run)
    ensures Possible(run) && Scene(Last(run), Some(1), None, map[1 := Done, 2 := Park(100), 3 := Done, 4 := Release(1, Canceled)], 2)
    ensures Last(run).rows == map[1 := Ended(4)]
  {
    run := OneLiveOneBusy();
    run := Next(run, Sweep(3));
    run := Next(run, Finish(4, 1, Canceled));
  }

  /** A hand-off parked after the sweep and before the slot is free outlives the stop. */
  lemma ParkedAfterSweep() returns (run: Run)
    ensures Possible(run) && Quiescent(Last(run)) && Last(run).parked.Some?
  {
    run := Swept();
    run := Next(run, Act(2, 9, true));
    run := Next(run, Act(2, 9, true));
    run := Next(run, Act(4, 9, true));
  }
}
