/** What the protocol of one key does when nobody interferes, and that each of its steps on the
slot and the parked hand-off is a call on the coordinators' common table. */
module TurnSteps {
  import opened Common
  import opened TurnProtocol
  import TC = TurnCoordinator

  // ------------------------------------------------------------ one actor alone

  /** A number of steps of one actor, with every row readable and every call going through. */
  function Alone(s: State, a: ActorId, next: int, steps: nat): State
    decreases steps
  {
    if steps == 0 || a !in s.actors then s else Alone(Step(s, a, next, true), a, next, steps - 1)
  }

  /** The run's row is there and says so. */
  predicate IsLive(s: State, run: RunId) { run in s.rows && s.rows[run] == Live }

  predicate SlotIsFreeOrOver(s: State) { s.slot.Some? ==> !IsLive(s, s.slot.value) }

  /** startRun begins for a new run. */
  function Begin(s: State, a: ActorId, run: RunId): State { Goto(s.(used := s.used[run := a]), a, Claim(run, None)) }

  lemma {:induction false} AloneInTwoParts(s: State, a: ActorId, next: int, m: nat, n: nat)
    ensures Alone(s, a, next, m + n) == Alone(Alone(s, a, next, m), a, next, n)
    decreases m
  {
    if m > 0 && a in s.actors {
      var t := Step(s, a, next, true);
      assert Alone(s, a, next, m + n) == Alone(t, a, next, m - 1 + n);
      AloneInTwoParts(t, a, next, m - 1, n);
    }
  }

  lemma ClaimsFreeSlot(s: State, a: ActorId, run: RunId, from: Option<HandoffId>, next: int)
    requires a in s.actors && s.actors[a] == Claim(run, from) && s.slot == None
    ensures Alone(s, a, next, 2) == Settle(s.(slot := Some(run), rows := s.rows[run := Live]), from, Started(run))
                                   .(actors := s.actors[a := Done])
  {}

  /** How many steps it takes to learn that the slot is held and whether its holder is live. */
  function Asking(s: State): nat { if s.shared then 3 else 2 }

  lemma FindsHolder(s: State, a: ActorId, run: RunId, from: Option<HandoffId>, next: int)
    requires a in s.actors && s.actors[a] == Claim(run, from) && s.slot.Some? && s.slot != Some(run)
    ensures Alone(s, a, next, Asking(s) - 1) == s.(actors := s.actors[a := Probe(run, from, s.slot.value)])
  {
    var claimed := Step(s, a, next, true);
    AloneInTwoParts(s, a, next, 1, Asking(s) - 2);
    assert Alone(s, a, next, 1) == Alone(claimed, a, next, 0) == claimed;
    if s.shared {
      assert Alone(claimed, a, next, 1) == Alone(GetNext(claimed, a, run, from), a, next, 0);
      assert claimed.actors[a := Probe(run, from, s.slot.value)] == s.actors[a := Probe(run, from, s.slot.value)];
    }
  }

  lemma HolderIsAsked(s: State, a: ActorId, run: RunId, from: Option<HandoffId>, next: int)
    requires a in s.actors && s.actors[a] == Claim(run, from) && s.slot.Some? && s.slot != Some(run)
    ensures var found := s.(actors := s.actors[a := Probe(run, from, s.slot.value)]);
            Alone(s, a, next, Asking(s)) == ProbeNext(found, a, run, from, s.slot.value, next, true)
  {
    FindsHolder(s, a, run, from, next);
    AloneInTwoParts(s, a, next, Asking(s) - 1, 1);
  }

  lemma FindsHolderDead(s: State, a: ActorId, run: RunId, from: Option<HandoffId>, next: int)
    requires a in s.actors && s.actors[a] == Claim(run, from)
    requires s.slot.Some? && s.slot != Some(run) && !StillLive(s, s.slot.value, true)
    ensures Alone(s, a, next, Asking(s)) == s.(actors := s.actors[a := Replace(run, from, s.slot.value)])
  {
    HolderIsAsked(s, a, run, from, next);
  }

  lemma TakesOver(s: State, a: ActorId, run: RunId, from: Option<HandoffId>, next: int)
    requires a in s.actors && s.slot.Some? && s.actors[a] == Replace(run, from, s.slot.value)
    ensures Alone(s, a, next, 2) == Settle(TakeOver(s, s.slot.value, Some(run)).(rows := s.rows[run := Live]), from, Started(run))
                                      .(actors := s.actors[a := Done])
  {}

  lemma FindsHolderLive(s: State, a: ActorId, run: RunId, from: Option<HandoffId>, next: int)
    requires a in s.actors && s.actors[a] == Claim(run, from)
    requires s.slot.Some? && s.slot != Some(run) && StillLive(s, s.slot.value, true)
    ensures Alone(s, a, next, Asking(s)) == Busy(s, a, from, next).(actors := s.actors[a := AfterBusy(from, next)])
  {
    HolderIsAsked(s, a, run, from, next);
  }

  lemma {:induction false} AloneRests(s: State, a: ActorId, next: int, n: nat)
    requires a in s.actors && Step(s, a, next, true) == s
    ensures Alone(s, a, next, n) == s
    decreases n
  {
    if n > 0 { AloneRests(s, a, next, n - 1); }
  }

  /** Some steps, two more, and rest. */
  lemma AloneToRest(s: State, half: State, end: State, a: ActorId, next: int, m: nat, n: nat)
    requires n >= m + 2 && Alone(s, a, next, m) == half && Alone(half, a, next, 2) == end
    requires a in end.actors && Step(end, a, next, true) == end
    ensures Alone(s, a, next, n) == end
  {
    AloneInTwoParts(s, a, next, m, n - m);
    AloneInTwoParts(half, a, next, 2, n - m - 2);
    AloneRests(end, a, next, n - m - 2);
  }

  /** What a mention leaves that starts its run. */
  ghost predicate Starts(s: State, t: State, a: ActorId, run: RunId) {
    && t.slot == Some(run) && t.rows == s.rows[run := Live] && t.actors == s.actors[a := Done]
    && t.parked == s.parked && t.handoffs == s.handoffs
  }

  lemma DoneRests(s: State, a: ActorId, next: int)
    requires a in s.actors && s.actors[a] == Done
    ensures Step(s, a, next, true) == s
  {
    assert s.actors[a := Done] == s.actors;
  }

  lemma MentionMeetsFreeSlot(s: State, a: ActorId, run: RunId, next: int, n: nat)
    requires a !in s.actors && s.slot == None && n >= 4
    ensures Starts(s, Alone(Begin(s, a, run), a, next, n), a, run)
  {
    var s0 := Begin(s, a, run);
    ClaimsFreeSlot(s0, a, run, None, next);
    var s2 := Alone(s0, a, next, 2);
    DoneRests(s2, a, next);
    AloneRests(s2, a, next, 2);
    AloneToRest(s0, s2, s2, a, next, 2, n);
  }

  lemma TakeOverStarts(s: State, a: ActorId, run: RunId, next: int, asked: State)
    requires s.slot.Some?
    requires asked == Begin(s, a, run).(actors := Begin(s, a, run).actors[a := Replace(run, None, s.slot.value)])
    ensures var end := Alone(asked, a, next, 2); Starts(s, end, a, run) && Step(end, a, next, true) == end
  {
    TakesOver(asked, a, run, None, next);
    DoneRests(Alone(asked, a, next, 2), a, next);
  }

  lemma MentionMeetsDeadHolder(s: State, a: ActorId, run: RunId, next: int, n: nat)
    requires a !in s.actors && s.slot.Some? && s.slot != Some(run) && !StillLive(s, s.slot.value, true) && n >= 5
    ensures Starts(s, Alone(Begin(s, a, run), a, next, n), a, run)
  {
    var s0 := Begin(s, a, run);
    FindsHolderDead(s0, a, run, None, next);
    var asked := Alone(s0, a, next, Asking(s));
    TakeOverStarts(s, a, run, next, asked);
    AloneToRest(s0, asked, Alone(asked, a, next, 2), a, next, Asking(s), n);
  }

  /** A mention that meets a free slot, or one whose holder is over, starts its run and holds it. */
  lemma MentionAloneStarts(s: State, a: ActorId, run: RunId, next: int, n: nat)
    requires Inv(s) && Enabled(s, Invoke(a, run)) && n >= 5
    requires SlotIsFreeOrOver(s)
    ensures Starts(s, Alone(Apply(s, Invoke(a, run)), a, next, n), a, run)
  {
    if s.slot == None {
      MentionMeetsFreeSlot(s, a, run, next, n);
    } else {
      assert s.slot.value in s.rows || s.slot.value in s.used;
      MentionMeetsDeadHolder(s, a, run, next, n);
    }
  }

  /** The last two steps of a mention that found its agent busy. */
  lemma ParkedAndRests(s: State, t: State, a: ActorId, h: HandoffId, next: int)
    requires a in s.actors && s.actors[a] == Park(h) && s.slot.Some? && StillLive(s, s.slot.value, true)
    requires t == Alone(s, a, next, 2)
    ensures a in t.actors && Step(t, a, next, true) == t
    ensures t.slot == s.slot && t.rows == s.rows && t.parked == (if s.parked == None then Some(h) else s.parked)
    ensures t.handoffs == s.handoffs[h := if s.parked == None then Parked(a) else Gone(Refused)]
    ensures t.actors == s.actors[a := if s.parked == None && !s.shared then Watch(h, s.slot.value) else Done]
  {
    if t.actors[a] == Done {
      DoneRests(t, a, next);
    }
  }

  /** What a mention leaves that is parked, or refused because a hand-off is parked already. */
  ghost predicate Parks(s: State, t: State, a: ActorId, next: int)
    requires s.slot.Some?
  {
    && t.slot == s.slot && t.rows == s.rows && t.parked == (if s.parked == None then Some(next) else s.parked)
    && t.handoffs == s.handoffs[next := if s.parked == None then Parked(a) else Gone(Refused)]
    && t.actors == s.actors[a := if s.parked == None && !s.shared then Watch(next, s.slot.value) else Done]
  }

  lemma BusyThenParks(s: State, a: ActorId, run: RunId, next: int, asked: State)
    requires s.slot.Some? && StillLive(s, s.slot.value, true)
    requires asked == Busy(Begin(s, a, run), a, None, next).(actors := Begin(s, a, run).actors[a := Park(next)])
    ensures var end := Alone(asked, a, next, 2);
            Parks(s, end, a, next) && a in end.actors && Step(end, a, next, true) == end
  {
    var end := Alone(asked, a, next, 2);
    ParkedAndRests(asked, end, a, next, next);
  }

  /** One that meets a live holder is parked, unless a hand-off is parked already; nothing else changes. */
  lemma MentionAloneParks(s: State, a: ActorId, run: RunId, next: int, n: nat)
    requires a !in s.actors && s.slot.Some? && s.slot != Some(run) && IsLive(s, s.slot.value) && n >= 5
    ensures Parks(s, Alone(Begin(s, a, run), a, next, n), a, next)
  {
    var s0 := Begin(s, a, run);
    FindsHolderLive(s0, a, run, None, next);
    var asked := Alone(s0, a, next, Asking(s));
    BusyThenParks(s, a, run, next, asked);
    AloneToRest(s0, asked, Alone(asked, a, next, 2), a, next, Asking(s), n);
  }

  /** What becomes of a hand-off once it is taken, undisturbed: it starts exactly when the slot is
  free or held by a run that is over, and is dropped without a word otherwise. */
  lemma TakenHandoffStartsIffTurnFree(s: State, a: ActorId, run: RunId, h: HandoffId, next: int, n: nat)
    requires Inv(s) && a in s.actors && s.actors[a] == Claim(run, Some(h)) && n >= (if s.slot == None then 2 else 5)
    ensures var t, free := Alone(s, a, next, n), SlotIsFreeOrOver(s);
      && h in t.handoffs && t.handoffs[h] == Gone(if free then Started(run) else Swallowed)
      && t.slot == (if free then Some(run) else s.slot) && t.rows == if free then s.rows[run := Live] else s.rows
  {
    if s.slot == None {
      ClaimsFreeSlot(s, a, run, Some(h), next);
      DoneAfter(s, a, next, 2, n);
    } else {
      if StillLive(s, s.slot.value, true) {
        FindsHolderLive(s, a, run, Some(h), next);
        DoneAfter(s, a, next, Asking(s), n);
      } else {
        FindsHolderDead(s, a, run, Some(h), next);
        var asked := Alone(s, a, next, Asking(s));
        TakesOver(asked, a, run, Some(h), next);
        var end := Alone(asked, a, next, 2);
        DoneRests(end, a, next);
        AloneToRest(s, asked, end, a, next, Asking(s), n);
      }
    }
  }

  lemma DoneAfter(s: State, a: ActorId, next: int, m: nat, n: nat)
    requires n >= m && a in Alone(s, a, next, m).actors && Alone(s, a, next, m).actors[a] == Done
    ensures Alone(s, a, next, n) == Alone(s, a, next, m)
  {
    var half := Alone(s, a, next, m);
    DoneRests(half, a, next);
    AloneRests(half, a, next, n - m);
    AloneInTwoParts(s, a, next, m, n - m);
  }

  // ------------------------------------------------------------ the watchdog of a parked hand-off

  /** Whoever is about to take, with a hand-off parked, comes to claim a turn for it. */
  lemma TakesParked(s: State, a: ActorId, h: HandoffId, next: int)
    requires Inv(s) && Enabled(s, Act(a, next, true)) && s.actors[a] == Take && s.parked == Some(h)
    ensures var t := Alone(s, a, next, 1);
      && Inv(t) && a in t.actors && t.actors[a] == Claim(next, Some(h)) && t.slot == s.slot && t.rows == s.rows
  {
    StepKeepsInv(s, Act(a, next, true));
    assert Alone(s, a, next, 1) == Alone(Step(s, a, next, true), a, next, 0);
  }

  /** The parked hand-off becomes this run, with its turn; nobody else's row changes. */
  ghost predicate Serves(s: State, t: State, h: HandoffId, next: int) {
    && h in t.handoffs && t.handoffs[h] == Gone(Started(next))
    && t.slot == Some(next) && t.rows == s.rows[next := Live]
  }

  /** It is dropped as busy; nothing else changes. */
  ghost predicate Swallows(s: State, t: State, h: HandoffId) {
    h in t.handoffs && t.handoffs[h] == Gone(Swallowed) && t.slot == s.slot && t.rows == s.rows
  }

  lemma TakerServes(s: State, a: ActorId, h: HandoffId, next: int, n: nat)
    requires Inv(s) && Enabled(s, Act(a, next, true)) && s.actors[a] == Take && s.parked == Some(h)
    requires n >= if s.slot == None then 3 else 6
    ensures var t := Alone(s, a, next, n); if SlotIsFreeOrOver(s) then Serves(s, t, h, next) else Swallows(s, t, h)
  {
    TakesParked(s, a, h, next);
    TakenHandoffStartsIffTurnFree(Alone(s, a, next, 1), a, next, h, next, n - 1);
    AloneInTwoParts(s, a, next, 1, n - 1);
  }

  lemma FenceFrees(s: State, a: ActorId, h: HandoffId, held: RunId, next: int)
    requires Inv(s) && Enabled(s, Act(a, next, true)) && s.actors[a] == Fence(h, held)
    ensures var t := Alone(s, a, next, 1);
      && Inv(t) && Enabled(t, Act(a, next, true)) && t.actors[a] == Take && t.parked == s.parked
      && t.slot == (if s.slot == Some(held) then None else s.slot) && t.rows == s.rows
  {
    StepKeepsInv(s, Act(a, next, true));
    assert Alone(s, a, next, 1) == Alone(Step(s, a, next, true), a, next, 0);
  }

  lemma WatchEnds(s: State, a: ActorId, h: HandoffId, held: RunId, next: int)
    requires Inv(s) && Enabled(s, Act(a, next, true)) && s.actors[a] == Watch(h, held) && s.parked.Some? && !IsLive(s, held)
    ensures var t := Alone(s, a, next, 1);
      && Inv(t) && Enabled(t, Act(a, next, true)) && t.actors[a] == Fence(h, held) && t.parked == s.parked
      && t.slot == s.slot && t.rows == s.rows
  {
    StepKeepsInv(s, Act(a, next, true));
    assert Alone(s, a, next, 1) == Alone(Step(s, a, next, true), a, next, 0);
  }

  lemma FenceServes(s: State, a: ActorId, h: HandoffId, held: RunId, parked: HandoffId, next: int, n: nat)
    requires Inv(s) && Enabled(s, Act(a, next, true)) && s.actors[a] == Fence(h, held) && s.parked == Some(parked)
    requires n >= if s.slot == None || s.slot == Some(held) then 4 else 7
    ensures var t := Alone(s, a, next, n);
            if s.slot == Some(held) || SlotIsFreeOrOver(s) then Serves(s, t, parked, next) else Swallows(s, t, parked)
  {
    FenceFrees(s, a, h, held, next);
    TakerServes(Alone(s, a, next, 1), a, parked, next, n - 1);
    AloneInTwoParts(s, a, next, 1, n - 1);
  }

  /** The watchdog of a parked hand-off starts it as soon as the run it watches is over, wherever that
  run ended, unless another live run has the turn by then. */
  lemma WatchAloneServes(s: State, a: ActorId, h: HandoffId, held: RunId, next: int, n: nat)
    requires Inv(s) && Enabled(s, Act(a, next, true)) && s.actors[a] == Watch(h, held) && s.parked == Some(h)
    requires !IsLive(s, held) && n >= if s.slot == None || s.slot == Some(held) then 5 else 8
    ensures var t := Alone(s, a, next, n); if SlotIsFreeOrOver(s) then Serves(s, t, h, next) else Swallows(s, t, h)
  {
    WatchEnds(s, a, h, held, next);
    FenceServes(Alone(s, a, next, 1), a, h, held, h, next, n - 1);
    AloneInTwoParts(s, a, next, 1, n - 1);
  }

  /** While that run is live it waits, and it is through once nothing is parked. */
  lemma WatchAloneWaits(s: State, a: ActorId, h: HandoffId, held: RunId, next: int, n: nat)
    requires a in s.actors && s.actors[a] == Watch(h, held) && n >= 1
    ensures s.parked.Some? && IsLive(s, held) ==> Alone(s, a, next, n) == s
    ensures s.parked == None ==> Alone(s, a, next, n) == s.(actors := s.actors[a := Done])
  {
    assert s.actors[a := Watch(h, held)] == s.actors;
    if s.parked.Some? && IsLive(s, held) { AloneRests(s, a, next, n); }
    if s.parked == None {
      assert Alone(s, a, next, 1) == Alone(Step(s, a, next, true), a, next, 0);
      DoneAfter(s, a, next, 1, n);
    }
  }

  /** A row that cannot be read counts as over: its slot is taken over, and its watchdog goes on. */
  lemma UnreadableIsOver(s: State, a: ActorId, next: int)
    requires a in s.actors
    ensures s.actors[a].Probe? ==>
              var pc := s.actors[a]; Step(s, a, next, false) == s.(actors := s.actors[a := Replace(pc.run, pc.from, pc.holder)])
    ensures s.actors[a].Watch? && s.parked.Some? ==>
              var pc := s.actors[a]; Step(s, a, next, false) == s.(actors := s.actors[a := Fence(pc.handoff, pc.held)])
  {}

  lemma CheckLooks(s: State, a: ActorId, h: HandoffId, next: int)
    requires Inv(s) && Enabled(s, Act(a, next, true)) && s.actors[a] == Check(h) && !s.shared
    ensures var t := Alone(s, a, next, 1);
      && Inv(t) && Enabled(t, Act(a, next, true)) && t.parked == s.parked && t.slot == s.slot && t.rows == s.rows
      && t.actors[a] == if s.slot == None then Take else Watch(h, s.slot.value)
  {
    StepKeepsInv(s, Act(a, next, true));
    assert Alone(s, a, next, 1) == Alone(Step(s, a, next, true), a, next, 0);
  }

  lemma CheckServes(s: State, a: ActorId, h: HandoffId, next: int, n: nat)
    requires Inv(s) && Enabled(s, Act(a, next, true)) && s.actors[a] == Check(h) && s.parked == Some(h)
    requires !s.shared && SlotIsFreeOrOver(s) && n >= 6
    ensures Serves(s, Alone(s, a, next, n), h, next)
  {
    CheckLooks(s, a, h, next);
    var looked := Alone(s, a, next, 1);
    if s.slot == None {
      TakerServes(looked, a, h, next, n - 1);
    } else {
      WatchAloneServes(looked, a, h, s.slot.value, next, n - 1);
    }
    AloneInTwoParts(s, a, next, 1, n - 1);
  }

  /** In one process with its own maps, whatever happened before: the actor that parked a hand-off is
  still with it, and with the slot free or its holder over it starts it, if nobody does before,
  exactly when it is not watching another run that is still live. */
  lemma ParkerServesIff(run: Run, h: HandoffId, next: int, n: nat)
    requires Possible(run) && !Last(run).shared && Last(run).parked == Some(h) && SlotIsFreeOrOver(Last(run)) && n >= 8
    requires next !in Last(run).used && next !in Last(run).rows && next !in Last(run).handoffs
    ensures var s := Last(run);
      && h in s.handoffs && s.handoffs[h].Parked? && var a := s.handoffs[h].parker;
      && a in s.actors && (s.actors[a].Watch? && IsLive(s, s.actors[a].held) <==> !Serves(s, Alone(s, a, next, n), h, next))
  {
    RunKeepsInv(run);
    var s := Last(run);
    var a := s.handoffs[h].parker;
    match s.actors[a]
    case Check(_) => CheckServes(s, a, h, next, n);
    case Fence(f, held) => FenceServes(s, a, f, held, h, next, n);
    case Take => TakerServes(s, a, h, next, n);
    case Watch(_, held) =>
      if IsLive(s, held) {
        WatchAloneWaits(s, a, h, held, next, n);
      } else {
        WatchAloneServes(s, a, h, held, next, n);
      }
  }

  // ------------------------------------------------------------ an ending

  lemma ReleasesAndTakes(s: State, a: ActorId, run: RunId, next: int)
    requires a in s.actors && s.actors[a] == Release(run, Finished) && s.slot == Some(run)
    ensures var t := Alone(s, a, next, 2);
      && t.slot == None && t.parked == None && t.rows == s.rows
      && t.actors == s.actors[a := if s.parked == None then Done else Claim(next, s.parked)]
      && t.taken == (if s.parked == None then s.taken else s.taken + [s.parked.value])
  {}

  lemma EndingFreesSlot(s: State, a: ActorId, run: RunId, next: int, n: nat)
    requires a in s.actors && s.actors[a] == Release(run, Finished) && s.slot == Some(run) && s.parked == None && n >= 4
    ensures var t := Alone(s, a, next, n);
      && t.parked == None && t.slot == None && t.taken == s.taken && t.rows == s.rows && t.actors == s.actors[a := Done]
  {
    ReleasesAndTakes(s, a, run, next);
    var s2 := Alone(s, a, next, 2);
    DoneRests(s2, a, next);
    AloneRests(s2, a, next, 2);
    AloneToRest(s, s2, s2, a, next, 2, n);
  }

  lemma EndingStartsParked(s: State, a: ActorId, run: RunId, h: HandoffId, next: int, n: nat)
    requires a in s.actors && s.actors[a] == Release(run, Finished) && s.slot == Some(run) && s.parked == Some(h) && n >= 4
    ensures var t := Alone(s, a, next, n);
      && t.parked == None && t.slot == Some(next) && t.taken == s.taken + [h] && t.rows == s.rows[next := Live]
      && t.actors == s.actors[a := Done] && h in t.handoffs && t.handoffs[h] == Gone(Started(next))
  {
    ReleasesAndTakes(s, a, run, next);
    var s2 := Alone(s, a, next, 2);
    ClaimsFreeSlot(s2, a, next, Some(h), next);
    var s4 := Alone(s2, a, next, 2);
    DoneRests(s4, a, next);
    AloneToRest(s, s2, s4, a, next, 2, n);
  }

  /** A run that ends hands its slot to the parked hand-off, or frees it when there is none. */
  lemma EndingAloneHandsOver(s: State, a: ActorId, run: RunId, next: int, n: nat)
    requires Enabled(s, Finish(a, run, Finished)) && s.slot == Some(run) && next != run && n >= 4
    ensures var t := Alone(Apply(s, Finish(a, run, Finished)), a, next, n);
      && t.parked == None && t.actors == s.actors[a := Done] && run in t.rows && t.rows[run].Ended?
      && (s.parked == None ==> t.slot == None && t.taken == s.taken)
      && (s.parked.Some? ==>
            && t.slot == Some(next) && next in t.rows && t.rows[next] == Live && t.taken == s.taken + [s.parked.value]
            && s.parked.value in t.handoffs && t.handoffs[s.parked.value] == Gone(Started(next)))
  {
    var s0 := Apply(s, Finish(a, run, Finished));
    if s.parked == None {
      EndingFreesSlot(s0, a, run, next, n);
    } else {
      EndingStartsParked(s0, a, run, s.parked.value, next, n);
    }
  }

  // ------------------------------------------------------------ the coordinators' table

  ghost predicate SlotShown(slot: Option<RunId>, t: TC.Turns, key: string, name: RunId -> string) {
    (slot.Some? <==> key in t.slots) && (slot.Some? ==> t.slots[key] == name(slot.value))
  }

  ghost predicate ParkShown(parked: Option<HandoffId>, t: TC.Turns, key: string, turn: HandoffId -> TC.Turn) {
    (parked.Some? <==> key in t.parks) && (parked.Some? ==> t.parks[key] == turn(parked.value))
  }

  /** The machine's slot and parked hand-off are the table's entries for one key. */
  ghost predicate Shows(s: State, t: TC.Turns, key: string, name: RunId -> string, turn: HandoffId -> TC.Turn) {
    SlotShown(s.slot, t, key, name) && ParkShown(s.parked, t, key, turn)
  }

  ghost predicate DifferentNames(name: RunId -> string) { forall r, q :: name(r) == name(q) ==> r == q }

  /** The coordinator call an actor makes next, if it makes one that writes. */
  ghost function Call(t: TC.Turns, pc: Pc, key: string, name: RunId -> string, turn: HandoffId -> TC.Turn): TC.Turns {
    match pc
    case Claim(run, _) => t.Claim(key, name(run))
    case Replace(run, _, holder) => t.Replace(key, name(holder), name(run))
    case Release(run, _) => t.Release(key, name(run))
    case Fence(_, held) => t.Release(key, name(held))
    case Park(h) => t.Park(key, turn(h))
    case Take => t.Take(key)
    case _ => t
  }

  function SlotAfter(slot: Option<RunId>, pc: Pc): Option<RunId> {
    match pc
    case Claim(run, _) => if slot == None then Some(run) else slot
    case Replace(run, _, holder) => if slot == Some(holder) then Some(run) else slot
    case Release(run, _) => if slot == Some(run) then None else slot
    case Fence(_, held) => if slot == Some(held) then None else slot
    case _ => slot
  }

  function ParkedAfter(parked: Option<HandoffId>, pc: Pc): Option<HandoffId> {
    match pc
    case Park(h) => if parked == None then Some(h) else parked
    case Take => None
    case _ => parked
  }

  lemma SlotStepTouches(s: State, a: ActorId, next: int, ok: bool)
    requires Enabled(s, Act(a, next, ok))
    requires s.actors[a].Claim? || s.actors[a].Replace? || s.actors[a].Release? || s.actors[a].Fence?
    ensures var t := Step(s, a, next, ok); t.slot == SlotAfter(s.slot, s.actors[a]) && t.parked == s.parked
  {
  }

  lemma OtherStepTouches(s: State, a: ActorId, next: int, ok: bool)
    requires Enabled(s, Act(a, next, ok))
    requires s.actors[a].Get? || s.actors[a].Probe? || s.actors[a].Create? || s.actors[a].Check? || s.actors[a].Watch?
             || s.actors[a].Done?
    ensures var t := Step(s, a, next, ok); t.slot == s.slot && t.parked == s.parked
  {
  }

  lemma StepTouches(s: State, a: ActorId, next: int, ok: bool)
    requires Enabled(s, Act(a, next, ok))
    ensures Step(s, a, next, ok).slot == SlotAfter(s.slot, s.actors[a])
    ensures Step(s, a, next, ok).parked == ParkedAfter(s.parked, s.actors[a])
  {
    var pc := s.actors[a];
    if pc.Claim? || pc.Replace? || pc.Release? || pc.Fence? {
      SlotStepTouches(s, a, next, ok);
    } else if !pc.Park? && !pc.Take? {
      OtherStepTouches(s, a, next, ok);
    }
  }

  lemma CallMovesSlot(
    slot: Option<RunId>, t: TC.Turns, pc: Pc, key: string, name: RunId -> string, turn: HandoffId -> TC.Turn)
    requires SlotShown(slot, t, key, name) && DifferentNames(name)
    ensures SlotShown(SlotAfter(slot, pc), Call(t, pc, key, name, turn), key, name)
  {
    if slot.Some? {
      match pc
      case Replace(_, _, holder) => assert name(holder) == name(slot.value) ==> holder == slot.value;
      case Release(run, _) => assert name(run) == name(slot.value) ==> run == slot.value;
      case Fence(_, held) => assert name(held) == name(slot.value) ==> held == slot.value;
      case _ =>
    }
  }

  lemma ActIsCoordinatorCall(
    s: State, t: TC.Turns, a: ActorId, next: int, ok: bool, key: string, name: RunId -> string, turn: HandoffId -> TC.Turn)
    requires Enabled(s, Act(a, next, ok)) && Shows(s, t, key, name, turn) && DifferentNames(name)
    ensures Shows(Step(s, a, next, ok), Call(t, s.actors[a], key, name, turn), key, name, turn)
  {
    StepTouches(s, a, next, ok);
    CallMovesSlot(s.slot, t, s.actors[a], key, name, turn);
  }

  /** A watchdog that gives up takes its own hand-off off the table and no other, a sweep drops what
  is parked under the thread's prefix, and requests and endings make their calls later. */
  ghost function EventCall(
    s: State, t: TC.Turns, e: Event, key: string, prefix: string, name: RunId -> string, turn: HandoffId -> TC.Turn): TC.Turns
    requires Enabled(s, e)
  {
    match e
    case Act(a, _, _) => Call(t, s.actors[a], key, name, turn)
    case GiveUp(a) => if s.parked == Some(s.actors[a].handoff) then t.Take(key) else t
    case Sweep(_) => t.Drop(prefix)
    case _ => t
  }

  /** Every step is that call, so both coordinators run the machine. */
  lemma StepIsCoordinatorCall(
    s: State, t: TC.Turns, e: Event, key: string, prefix: string, name: RunId -> string, turn: HandoffId -> TC.Turn)
    requires Enabled(s, e) && Shows(s, t, key, name, turn) && DifferentNames(name) && prefix <= key
    ensures Shows(Apply(s, e), EventCall(s, t, e, key, prefix, name, turn), key, name, turn)
  {
    if e.Act? { ActIsCoordinatorCall(s, t, e.a, e.next, e.ok, key, name, turn); }
  }
}
