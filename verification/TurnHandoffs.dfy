/** What becomes of every hand-off, under every interleaving of the turn protocol. */
module TurnHandoffs {
  import opened Common
  import opened TurnProtocol

  /** How a step of a startRun ends the hand-off it carries: it finds the agent busy, creates the
  run's row, or fails to. */
  function CarriedFate(s: State, pc: Pc, ok: bool): Option<Fate> {
    match pc
    case Probe(_, _, holder) => if StillLive(s, holder, ok) then Some(Swallowed) else None
    case Replace(_, _, holder) => if s.slot != Some(holder) then Some(Swallowed) else None
    case Create(run, _) => Some(if ok then Started(run) else Failed)
    case _ => None
  }

  function ActFate(s: State, pc: Pc, ok: bool, h: HandoffId): Option<Fate> {
    if pc.Starting() then (if pc.from == Some(h) then CarriedFate(s, pc, ok) else None)
    else if pc == Park(h) then (if s.parked.Some? then Some(Refused) else None)
    else if pc.Take? && s.parked == Some(h) && !ok then Some(Failed)
    else None
  }

  /** The fate a step gives to a hand-off, if it ends that hand-off's journey. */
  function FateAt(s: State, e: Event, h: HandoffId): Option<Fate> {
    match e
    case Act(a, _, ok) => if a in s.actors then ActFate(s, s.actors[a], ok, h) else None
    case GiveUp(a) => if a in s.actors && s.actors[a].Watch? && s.actors[a].handoff == h && s.parked == Some(h) then Some(Expired) else None
    case Sweep(_) => if s.parked == Some(h) then Some(Dropped) else None
    case _ => None
  }

  predicate HasFate(s: State, h: HandoffId, f: Fate) { h in s.handoffs && s.handoffs[h] == Gone(f) }

  /** What a step does to the place of one hand-off. */
  ghost predicate FateKept(s: State, t: State, h: HandoffId, given: Option<Fate>) {
    if given.Some? then HasFate(t, h, given.value) && !(h in s.handoffs && s.handoffs[h].Gone?)
    else forall f :: HasFate(t, h, f) <==> HasFate(s, h, f)
  }

  lemma SeekingFates(s: State, a: ActorId, next: int, ok: bool, h: HandoffId)
    requires PlaceInv(s) && Enabled(s, Act(a, next, ok)) && (s.actors[a].Claim? || s.actors[a].Get? || s.actors[a].Probe?)
    ensures FateKept(s, Step(s, a, next, ok), h, ActFate(s, s.actors[a], ok, h))
  {}

  lemma ReplaceFates(s: State, a: ActorId, next: int, ok: bool, h: HandoffId)
    requires PlaceInv(s) && Enabled(s, Act(a, next, ok)) && s.actors[a].Replace?
    ensures FateKept(s, Step(s, a, next, ok), h, ActFate(s, s.actors[a], ok, h))
  {}

  lemma CreateFates(s: State, a: ActorId, next: int, ok: bool, h: HandoffId)
    requires PlaceInv(s) && Enabled(s, Act(a, next, ok)) && s.actors[a].Create?
    ensures FateKept(s, Step(s, a, next, ok), h, ActFate(s, s.actors[a], ok, h))
  {}

  lemma ParkFates(s: State, a: ActorId, next: int, ok: bool, h: HandoffId)
    requires PlaceInv(s) && Enabled(s, Act(a, next, ok)) && s.actors[a].Park?
    ensures FateKept(s, Step(s, a, next, ok), h, ActFate(s, s.actors[a], ok, h))
  {}

  lemma TakeFates(s: State, a: ActorId, next: int, ok: bool, h: HandoffId)
    requires PlaceInv(s) && Enabled(s, Act(a, next, ok)) && s.actors[a].Take?
    ensures FateKept(s, Step(s, a, next, ok), h, ActFate(s, s.actors[a], ok, h))
  {}

  lemma OtherFates(s: State, a: ActorId, next: int, ok: bool, h: HandoffId)
    requires PlaceInv(s) && Enabled(s, Act(a, next, ok))
    requires s.actors[a].Check? || s.actors[a].Watch? || s.actors[a].Fence? || s.actors[a].Release? || s.actors[a].Done?
    ensures FateKept(s, Step(s, a, next, ok), h, ActFate(s, s.actors[a], ok, h))
  {}

  lemma SpawnFates(s: State, e: Event, h: HandoffId)
    requires PlaceInv(s) && Enabled(s, e) && !e.Act?
    ensures FateKept(s, Apply(s, e), h, FateAt(s, e, h))
  {}

  lemma StepFates(s: State, e: Event, h: HandoffId)
    requires PlaceInv(s) && Enabled(s, e)
    ensures FateKept(s, Apply(s, e), h, FateAt(s, e, h))
  {
    if e.Act? {
      match s.actors[e.a]
      case Claim(_, _) => SeekingFates(s, e.a, e.next, e.ok, h);
      case Get(_, _) => SeekingFates(s, e.a, e.next, e.ok, h);
      case Probe(_, _, _) => SeekingFates(s, e.a, e.next, e.ok, h);
      case Replace(_, _, _) => ReplaceFates(s, e.a, e.next, e.ok, h);
      case Create(_, _) => CreateFates(s, e.a, e.next, e.ok, h);
      case Park(_) => ParkFates(s, e.a, e.next, e.ok, h);
      case Take => TakeFates(s, e.a, e.next, e.ok, h);
      case _ => OtherFates(s, e.a, e.next, e.ok, h);
    } else {
      SpawnFates(s, e, h);
    }
  }

  /** Some step of the run gave the hand-off this fate. */
  ghost predicate Given(run: Run, h: HandoffId, f: Fate)
    requires Possible(run)
  {
    run.Then? && (FateAt(Last(run.before), run.e, h) == Some(f) || Given(run.before, h, f))
  }

  /** A hand-off ends as some step of the run says, and stays so: nothing else ends one. */
  lemma {:induction false} FateIff(run: Run, h: HandoffId, f: Fate)
    requires Possible(run)
    ensures HasFate(Last(run), h, f) <==> Given(run, h, f)
  {
    if run.Then? {
      FateIff(run.before, h, f);
      RunKeepsInv(run.before);
      StepFates(Last(run.before), run.e, h);
    }
  }

  // ------------------------------------------------------------ taken hand-offs

  /** The step in which a startRun of h finds its turn held: the holder's row says it is live, or the
  slot of a dead holder has another one by now. */
  predicate SwallowsAt(s: State, e: Event, h: HandoffId) {
    e.Act? && e.a in s.actors &&
    match s.actors[e.a]
    case Probe(_, from, holder) => from == Some(h) && e.ok && holder in s.rows && s.rows[holder] == Live
    case Replace(_, from, holder) => from == Some(h) && s.slot != Some(holder)
    case _ => false
  }

  /** The step in which a store call fails it: its people cannot be loaded, its row not created. */
  predicate FailsAt(s: State, e: Event, h: HandoffId) {
    e.Act? && !e.ok && e.a in s.actors &&
    match s.actors[e.a]
    case Create(_, from) => from == Some(h)
    case Take => s.parked == Some(h)
    case _ => false
  }

  ghost predicate SwallowedIn(run: Run, h: HandoffId)
    requires Possible(run)
  {
    run.Then? && (SwallowsAt(Last(run.before), run.e, h) || SwallowedIn(run.before, h))
  }

  ghost predicate FailedIn(run: Run, h: HandoffId)
    requires Possible(run)
  {
    run.Then? && (FailsAt(Last(run.before), run.e, h) || FailedIn(run.before, h))
  }

  lemma {:induction false} GivenSwallowed(run: Run, h: HandoffId)
    requires Possible(run)
    ensures Given(run, h, Swallowed) <==> SwallowedIn(run, h)
  {
    if run.Then? { GivenSwallowed(run.before, h); }
  }

  lemma {:induction false} GivenFailed(run: Run, h: HandoffId)
    requires Possible(run)
    ensures Given(run, h, Failed) <==> FailedIn(run, h)
  {
    if run.Then? { GivenFailed(run.before, h); }
  }

  /** A hand-off is dropped without a word exactly when, whatever else went on, the step in which its
  startRun asked about the slot found it held. */
  lemma SwallowedIff(run: Run, h: HandoffId)
    requires Possible(run)
    ensures h in Last(run).handoffs && Last(run).handoffs[h] == Gone(Swallowed) <==> SwallowedIn(run, h)
  {
    FateIff(run, h, Swallowed);
    GivenSwallowed(run, h);
  }

  /** What can become of a hand-off once it is taken. */
  ghost predicate OnItsWay(s: State, h: HandoffId) {
    && h in s.handoffs
    && match s.handoffs[h]
       case Gone(f) => f.Started? || f.Swallowed? || f.Failed?
       case With(a) => a in s.actors && s.actors[a].Starting()
       case Parked(_) => false
  }

  /** What ends the journey of a taken hand-off. */
  lemma WayFates(s: State, e: Event, h: HandoffId)
    requires PlaceInv(s) && Enabled(s, e) && OnItsWay(s, h) && FateAt(s, e, h).Some?
    ensures var f := FateAt(s, e, h).value; f.Started? || f.Swallowed? || f.Failed?
  {}

  lemma WayEnds(s: State, t: State, h: HandoffId, given: Option<Fate>)
    requires OnItsWay(s, h) && FateKept(s, t, h, given) && h in t.handoffs && t.handoffs[h].Gone?
    requires given.Some? ==> given.value.Started? || given.value.Swallowed? || given.value.Failed?
    ensures OnItsWay(t, h)
  {
    assert HasFate(t, h, t.handoffs[h].fate);
  }

  lemma WayGoesOn(s: State, e: Event, h: HandoffId)
    requires IdsInv(s) && PlaceInv(s) && Enabled(s, e) && OnItsWay(s, h)
    ensures OnItsWay(Apply(s, e), h)
  {
    var t := Apply(s, e);
    StepMoves(s, e);
    PlaceKept(s, t, e.a);
    if t.handoffs[h].Gone? {
      StepFates(s, e, h);
      if FateAt(s, e, h).Some? { WayFates(s, e, h); }
      WayEnds(s, t, h, FateAt(s, e, h));
    }
  }

  lemma OnlyTakesTake(s: State, e: Event)
    requires Enabled(s, e) && Apply(s, e).taken != s.taken
    ensures e.Act? && s.actors[e.a].Take? && s.parked.Some? && Apply(s, e).taken == s.taken + [s.parked.value]
  {
    if e.Act? && (s.actors[e.a].Claim? || s.actors[e.a].Get? || s.actors[e.a].Create?) {
      ClaimingTakesNothing(s, e.a, e.next, e.ok);
    } else if e.Act? && (s.actors[e.a].Probe? || s.actors[e.a].Replace?) {
      AskingTakesNothing(s, e.a, e.next, e.ok);
    } else if e.Act? && (s.actors[e.a].Fence? || s.actors[e.a].Release?) {
      FreeingTakesNothing(s, e.a, e.next, e.ok);
    } else if e.Act? && !s.actors[e.a].Take? {
      OthersTakeNothing(s, e.a, e.next, e.ok);
    }
  }

  lemma ClaimingTakesNothing(s: State, a: ActorId, next: int, ok: bool)
    requires Enabled(s, Act(a, next, ok)) && (s.actors[a].Claim? || s.actors[a].Get? || s.actors[a].Create?)
    ensures Step(s, a, next, ok).taken == s.taken
  {}

  lemma AskingTakesNothing(s: State, a: ActorId, next: int, ok: bool)
    requires Enabled(s, Act(a, next, ok)) && (s.actors[a].Probe? || s.actors[a].Replace?)
    ensures Step(s, a, next, ok).taken == s.taken
  {}

  lemma FreeingTakesNothing(s: State, a: ActorId, next: int, ok: bool)
    requires Enabled(s, Act(a, next, ok)) && (s.actors[a].Fence? || s.actors[a].Release?)
    ensures Step(s, a, next, ok).taken == s.taken
  {}

  lemma OthersTakeNothing(s: State, a: ActorId, next: int, ok: bool)
    requires Enabled(s, Act(a, next, ok))
    requires s.actors[a].Park? || s.actors[a].Check? || s.actors[a].Watch? || s.actors[a].Done?
    ensures Step(s, a, next, ok).taken == s.taken
  {}

  lemma {:induction false} TakenAreOnTheirWay(run: Run, h: HandoffId)
    requires Possible(run) && h in Last(run).taken
    ensures OnItsWay(Last(run), h)
  {
    var s := Last(run.before);
    RunKeepsInv(run.before);
    if h in s.taken {
      TakenAreOnTheirWay(run.before, h);
      WayGoesOn(s, run.e, h);
    } else {
      OnlyTakesTake(s, run.e);
    }
  }

  // ------------------------------------------------------------ main results

  lemma FailedIff(run: Run, h: HandoffId)
    requires Possible(run)
    ensures HasFate(Last(run), h, Failed) <==> FailedIn(run, h)
  {
    FateIff(run, h, Failed);
    GivenFailed(run, h);
  }

  /** When every actor is through, a taken hand-off has started its run, whatever raced with it,
  exactly when no step swallowed it and no store call failed it. */
  lemma TakenStartsIff(run: Run, h: HandoffId)
    requires Possible(run) && (forall a <- Last(run).actors :: Last(run).actors[a] == Done) && h in Last(run).taken
    ensures var s := Last(run);
            && h in s.handoffs && s.handoffs[h].Gone?
            && (s.handoffs[h].fate.Started? <==> !SwallowedIn(run, h) && !FailedIn(run, h))
  {
    TakenAreOnTheirWay(run, h);
    SwallowedIff(run, h);
    FailedIff(run, h);
  }

  /** Every store call of the run went through. */
  ghost predicate CallsGoThrough(run: Run) { run.Then? ==> CallsGoThrough(run.before) && (run.e.Act? ==> run.e.ok) }

  lemma {:induction false} NoneFails(run: Run, h: HandoffId)
    requires Possible(run) && CallsGoThrough(run)
    ensures !FailedIn(run, h)
  {
    if run.Then? { NoneFails(run.before, h); }
  }

  /** So with every call going through it is only lost in that race. */
  lemma TakenStartsUnlessSwallowed(run: Run, h: HandoffId)
    requires Possible(run) && CallsGoThrough(run)
    requires (forall a <- Last(run).actors :: Last(run).actors[a] == Done) && h in Last(run).taken
    ensures var s := Last(run);
            && h in s.handoffs && s.handoffs[h].Gone?
            && (s.handoffs[h].fate.Started? <==> !SwallowedIn(run, h))
  {
    TakenStartsIff(run, h);
    NoneFails(run, h);
  }

  // ------------------------------------------------------------ a run that shows the limit

  lemma FreeWithOneParked() returns (run: Run)
    ensures Possible(run) && Scene(Last(run), None, Some(100), map[1 := Done, 2 := Done, 3 := Take], 2)
    ensures Last(run).rows.Keys == {1}
  {
    run := ParkedBehindRunOne();
    run := Next(run, Finish(3, 1, Finished));
    run := Next(run, Act(3, 9, true));
  }

  /** Run 1 has ended and its teardown has taken hand-off 100, with the slot free. */
  lemma TakenWithSlotFree() returns (run: Run)
    ensures Possible(run) && var s := Last(run);
      && s.shared && s.slot == None && s.parked == None && s.taken == [100] && s.handoffs == map[100 := With(3)]
      && s.actors == map[1 := Done, 2 := Done, 3 := Claim(5, Some(100))] && s.rows.Keys == {1}
      && (forall r <- s.used :: r != 4 && r != 9)
  {
    run := FreeWithOneParked();
    run := Next(run, Act(3, 5, true));
  }

  lemma ClaimedByRunFour() returns (run: Run)
    ensures Possible(run) && var s := Last(run);
      && s.shared && s.slot == Some(4) && s.taken == [100] && s.handoffs == map[100 := With(3)]
      && s.actors == map[1 := Done, 2 := Done, 3 := Claim(5, Some(100)), 4 := Create(4, None)]
      && s.rows.Keys == {1} && 9 !in s.used
  {
    run := TakenWithSlotFree();
    run := Next(run, Invoke(4, 4));
    run := Next(run, Act(4, 9, true));
  }

  /** Run 4 claims the slot before the hand-off does. */
  lemma OvertakenByRunFour() returns (run: Run)
    ensures Possible(run) && var s := Last(run);
      && s.shared && s.slot == Some(4) && s.taken == [100] && s.handoffs == map[100 := With(3)]
      && s.actors == map[1 := Done, 2 := Done, 3 := Claim(5, Some(100)), 4 := Done]
      && s.rows.Keys == {1, 4} && s.rows[4] == Live && 9 !in s.used
  {
    run := ClaimedByRunFour();
    run := Next(run, Act(4, 9, true));
  }

  /** A slot that is free when the hand-off is taken saves nothing. */
  lemma FreeSlotIsNotEnough() returns (run: Run)
    ensures Possible(run) && var s := Last(run);
      && (forall a <- s.actors :: s.actors[a] == Done) && s.taken == [100]
      && 100 in s.handoffs && s.handoffs[100] == Gone(Swallowed)
  {
    run := OvertakenByRunFour();
    run := Next(run, Act(3, 9, true));
    run := Next(run, Act(3, 9, true));
    run := Next(run, Act(3, 9, true));
  }
}
