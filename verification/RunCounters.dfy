/** What becomes of a run's counters under every interleaving: whether each post and each charge ever
made is in the stored row. */
module RunCounters {
  import opened Common
  import opened RunRows
  import opened RunLedger
  import opened RunEndings
  import RunReplay

  datatype Counters = Counters(posts: int, spend: Spend) {
    function Plus(o: Counters): Counters { Counters(posts + o.posts, spend.Plus(o.spend)) }
  }

  const NONE := Counters(0, RunReplay.ZERO)

  function Of(row: Run): Counters { Counters(row.posts, RunReplay.Totals(row)) }

  /** What a step is there to add: a post, the charge of a batch, the usage a run ends with. */
  function Due(t: Terms, s: State, e: Step): Counters {
    match e
    case Post => if s.row.state.Terminal() then NONE else Counters(1, RunReplay.ZERO)
    case Act(a, _, _) => if a in s.actors then DueOf(t, s.row, s.actors[a]) else NONE
    case _ => NONE
  }

  function DueOf(t: Terms, row: Run, pc: Pc): Counters {
    match pc
    case Counting(copy, batch, now) =>
      if row.runnerID == t.runnerID && !row.state.Terminal() then Counters(0, RunLedger.CostAbove(batch, copy.lastRunnerSeq)) else NONE
    case Ending(copy, _, _, own) => if row.state == copy.state then Counters(0, own) else NONE
    case _ => NONE
  }

  /** A whole-row write that goes through with a copy whose counters are not the stored ones. */
  predicate StaleRewrite(s: State, e: Step) {
    && e.Act? && e.a in s.actors && !s.actors[e.a].Done? && !s.actors[e.a].Counting?
    && var pc := s.actors[e.a];
       && s.row.state == Expected(pc) && !SameCounters(pc.copy, s.row)
       && (pc.Archiving? ==> e.ok && !pc.copy.archived)
  }

  lemma ChargeIsDue(t: Terms, s: State, a: ActorId, copy: Run, batch: seq<Event>, now: int)
    requires a in s.actors && s.actors[a] == Counting(copy, batch, now)
    ensures Of(CountingNext(t, s, a, copy, batch, now).row) == Of(s.row).Plus(DueOf(t, s.row, s.actors[a]))
  {}

  ghost predicate OwnIsUsage(s: State) { forall a <- s.actors | s.actors[a].Ending? :: s.actors[a].own.turns == 0 }

  lemma {:induction false} EndingsAddUsage(t: Terms, h: History)
    requires Possible(t, h)
    ensures OwnIsUsage(Last(t, h))
  {
    if h.Then? {
      EndingsAddUsage(t, h.before);
      var s := Last(t, h.before);
      match h.e
      case Post =>
      case Read(a, job) =>
      case Unstored(a, ok) =>
      case Act(a, now, ok) => assert s.actors[a].Done? ==> s.actors[a := Done] == s.actors;
    }
  }

  /** A step adds what it is there to add, and loses nothing, exactly when it is no such write. */
  lemma StepCountsIff(t: Terms, s: State, e: Step)
    requires OwnIsUsage(s) && Enabled(t, s, e)
    ensures Of(Apply(t, s, e).row) == Of(s.row).Plus(Due(t, s, e)) <==> !StaleRewrite(s, e)
  {
    if e.Act? {
      match s.actors[e.a]
      case Counting(copy, batch, now) => ChargeIsDue(t, s, e.a, copy, batch, now);
      case Ending(copy, final, reason, own) =>
      case Limiting(copy, which) =>
      case Archiving(copy) =>
      case Writing(copy) =>
      case Claiming(copy, lease) =>
      case Rebasing(copy) =>
      case Done =>
    }
  }

  function Created(h: History): Run { if h.Then? then Created(h.before) else h.row }

  /** Everything the steps so far were there to add. */
  ghost function AllDue(t: Terms, h: History): Counters
    requires Possible(t, h)
  {
    if h.Then? then AllDue(t, h.before).Plus(Due(t, Last(t, h.before), h.e)) else NONE
  }

  /** At every moment so far the row showed each post and each charge made by then. */
  ghost predicate NothingLost(t: Terms, h: History)
    requires Possible(t, h)
  {
    Of(Last(t, h).row) == Of(Created(h)).Plus(AllDue(t, h)) && (h.Then? ==> NothingLost(t, h.before))
  }

  ghost predicate NoStaleRewrite(t: Terms, h: History)
    requires Possible(t, h)
  {
    h.Then? ==> NoStaleRewrite(t, h.before) && !StaleRewrite(Last(t, h.before), h.e)
  }

  /** However requests race, no increment is ever lost exactly when no whole-row write goes through
  with counters that have moved since its copy was read. */
  lemma {:induction false} NothingLostIff(t: Terms, h: History)
    requires Possible(t, h)
    ensures NothingLost(t, h) <==> NoStaleRewrite(t, h)
  {
    if h.Then? {
      NothingLostIff(t, h.before);
      EndingsAddUsage(t, h.before);
      StepCountsIff(t, Last(t, h.before), h.e);
    }
  }

  /** The posts made on a run that had not ended. */
  ghost function PostsMade(t: Terms, h: History): nat
    requires Possible(t, h)
  {
    if h.Then? then PostsMade(t, h.before) + if h.e.Post? && !Last(t, h.before).row.state.Terminal() then 1 else 0 else 0
  }

  lemma {:induction false} PostsAreDue(t: Terms, h: History)
    requires Possible(t, h)
    ensures AllDue(t, h).posts == PostsMade(t, h)
  {
    if h.Then? { PostsAreDue(t, h.before); }
  }

  /** As long as nothing is lost the row shows one more for each post made while the run was live. */
  lemma PostsAreShown(t: Terms, h: History)
    requires Possible(t, h) && NoStaleRewrite(t, h)
    ensures Last(t, h).row.posts == Created(h).posts + PostsMade(t, h)
  {
    NothingLostIff(t, h);
    PostsAreDue(t, h);
  }
}
