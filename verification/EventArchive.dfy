/** Moving an ended run's timeline from the table into one archive object: list, store, mark the
run, then delete the rows. Any of these can fail, events can still arrive, and a run whose ending
was contended is archived more than once. */
module EventArchive {
  import opened Common

  type EventId = nat
  type ActorId = int

  /** Where an archiver or a reader stands. Pruning has read which rows to delete; Fetching has
  read the run and knows whether it said archived. */
  datatype Pc =
    | Storing(evts: set<EventId>)
    | Marking
    | Querying
    | Pruning(keys: set<EventId>)
    | Fetching(marked: bool)
    | Done(shown: set<EventId>)

  /** everything: every event ever appended. hot: the rows still in the table. */
  datatype State = State(
    everything: set<EventId>, hot: set<EventId>, blob: Option<set<EventId>>, marked: bool, actors: map<ActorId, Pc>)

  /** Append: an event is recorded. Archive: archiveEvents lists the rows. Read: a timeline is asked
  for. Act: an actor's next store call, which fails when ok is false; key is the row it deletes. */
  datatype Event = Append(e: EventId) | Archive(a: ActorId) | Read(a: ActorId) | Act(a: ActorId, key: EventId, ok: bool)

  ghost predicate Enabled(s: State, e: Event) {
    match e
    case Append(_) => true
    case Archive(a) => a !in s.actors
    case Read(a) => a !in s.actors
    case Act(a, key, _) => a in s.actors && (s.actors[a].Pruning? && s.actors[a].keys != {} ==> key in s.actors[a].keys)
  }

  function Goto(s: State, a: ActorId, pc: Pc): State { s.(actors := s.actors[a := pc]) }

  /** What a timeline read in one step would show. */
  function Readable(s: State): set<EventId> { if s.marked && s.blob.Some? then s.blob.value else s.hot }

  function Next(s: State, a: ActorId, key: EventId, ok: bool): State
    requires a in s.actors
  {
    match s.actors[a]
    case Storing(evts) => Goto(s.(blob := if ok then Some(evts) else s.blob), a, if ok then Marking else Done({}))
    case Marking => Goto(s.(marked := s.marked || ok), a, if ok then Querying else Done({}))
    case Querying => Goto(s, a, if ok then Pruning(s.hot) else Done({}))
    case Pruning(keys) =>
      Goto(s.(hot := if ok && keys != {} then s.hot - {key} else s.hot), a,
           if ok && keys != {} then Pruning(keys - {key}) else Done({}))
    case Fetching(marked) => Goto(s, a, Done(if marked && s.blob.Some? then s.blob.value else s.hot))
    case Done(_) => s
  }

  function Apply(s: State, e: Event): State
    requires Enabled(s, e)
  {
    match e
    case Append(id) => if id in s.everything then s else s.(everything := s.everything + {id}, hot := s.hot + {id})
    case Archive(a) => Goto(s, a, if s.hot == {} then Done({}) else Storing(s.hot))
    case Read(a) => Goto(s, a, Fetching(s.marked))
    case Act(a, key, ok) => Next(s, a, key, ok)
  }

  datatype History = Fresh | Then(before: History, e: Event)

  ghost predicate Possible(h: History)
    decreases h, 0
  {
    h.Then? ==> Possible(h.before) && Enabled(Last(h.before), h.e)
  }

  ghost function Last(h: History): State
    requires Possible(h)
    decreases h, 1
  {
    match h
    case Fresh => State({}, {}, None, false, map[])
    case Then(before, e) => Apply(Last(before), e)
  }

  /** Somebody has listed the rows to archive them. */
  predicate Archived(h: History) { h.Then? && (h.e.Archive? || Archived(h.before)) }

  /** Nothing is recorded once somebody has listed the rows, and nobody lists them half deleted. */
  ghost predicate Settled(h: History)
    requires Possible(h)
  {
    h.Then? ==>
      && Settled(h.before)
      && (h.e.Append? && Archived(h.before) ==> h.e.e in Last(h.before).everything)
      && (h.e.Archive? ==> Last(h.before).hot == Last(h.before).everything || Last(h.before).hot == {})
  }

  ghost predicate PcOk(s: State, pc: Pc) {
    && (pc.Storing? ==> pc.evts == s.everything)
    && (pc.Marking? ==> s.blob.Some?)
    && (pc.Querying? || pc.Pruning? ==> s.marked)
    && (pc.Fetching? && pc.marked ==> s.marked)
  }

  ghost predicate Inv(s: State, archived: bool) {
    && (forall a <- s.actors :: PcOk(s, s.actors[a]))
    && (forall a <- s.actors | !archived :: s.actors[a].Fetching? || s.actors[a].Done?)
    && (!archived ==> s.blob == None)
    && s.hot <= s.everything
    && (s.blob.Some? ==> s.blob.value == s.everything)
    && (if s.marked then s.blob.Some? else s.hot == s.everything)
  }

  lemma StepKeepsInv(h: History)
    requires h.Then? && Possible(h) && Settled(h) && Inv(Last(h.before), Archived(h.before))
    ensures Inv(Last(h), Archived(h))
  {
    var s, t := Last(h.before), Last(h);
    match h.e
    case Append(e) =>
    case Archive(a) => assert s.hot != {} ==> s.hot == s.everything;
    case Read(a) =>
    case Act(a, key, ok) => assert PcOk(s, s.actors[a]);
  }

  lemma {:induction false} HistoryKeepsInv(h: History)
    requires Possible(h) && Settled(h)
    ensures Inv(Last(h), Archived(h))
  {
    if h.Then? {
      HistoryKeepsInv(h.before);
      StepKeepsInv(h);
    }
  }

  // ------------------------------------------------------------ what costs an event

  /** The one source a read finds has every event. */
  predicate Whole(s: State) { Readable(s) == s.everything }

  /** A new event for a run already marked, a part stored over what a marked run's readers are shown,
  or a run marked while what is stored is not everything. */
  predicate Harms(s: State, e: Event) {
    match e
    case Append(id) => s.marked && id !in s.everything
    case Act(a, _, ok) =>
      && ok && a in s.actors
      && (if s.actors[a].Storing? then s.marked && s.actors[a].evts != s.everything
          else s.actors[a].Marking? && !s.marked && s.blob != Some(s.everything))
    case _ => false
  }

  /** What holds of every history, settled or not: a marked run has its object, and rows are only
  deleted of marked runs. */
  ghost predicate MarkInv(s: State) {
    && (s.marked ==> s.blob.Some?)
    && (forall a <- s.actors ::
          && (s.actors[a].Marking? ==> s.blob.Some?)
          && (s.actors[a].Querying? || s.actors[a].Pruning? ==> s.marked))
  }

  lemma {:induction false} MarksHold(h: History)
    requires Possible(h)
    ensures MarkInv(Last(h))
  {
    if h.Then? {
      MarksHold(h.before);
      var s := Last(h.before);
      if h.e.Act? {
        match s.actors[h.e.a]
        case Storing(_) =>
        case Marking =>
        case Querying =>
        case Pruning(_) =>
        case Fetching(_) =>
        case Done(_) =>
      }
    }
  }

  /** A whole timeline stays whole exactly through the steps that do no harm. */
  lemma StaysWholeIff(h: History)
    requires h.Then? && Possible(h) && Whole(Last(h.before))
    ensures Whole(Last(h)) <==> !Harms(Last(h.before), h.e)
  {
    MarksHold(h.before);
    var s := Last(h.before);
    if h.e.Act? {
      match s.actors[h.e.a]
      case Storing(_) =>
      case Marking =>
      case Querying =>
      case Pruning(_) =>
      case Fetching(_) =>
      case Done(_) =>
    }
  }

  ghost predicate WholeThroughout(h: History)
    requires Possible(h)
  {
    Whole(Last(h)) && (h.Then? ==> WholeThroughout(h.before))
  }

  ghost predicate Unharmed(h: History)
    requires Possible(h)
  {
    h.Then? ==> Unharmed(h.before) && !Harms(Last(h.before), h.e)
  }

  /** So a timeline is whole all along exactly when no step of anybody's ever did one of the three. */
  lemma {:induction false} WholeThroughoutIff(h: History)
    requires Possible(h)
    ensures WholeThroughout(h) <==> Unharmed(h)
  {
    if h.Then? {
      WholeThroughoutIff(h.before);
      if Whole(Last(h.before)) { StaysWholeIff(h); }
    }
  }

  // ------------------------------------------------------------ main results

  /** Then no step, whatever fails and however many archivers there are, loses an event: the one
  source a read finds always has them all. */
  lemma TimelineStaysWhole(h: History)
    requires Possible(h) && Settled(h)
    ensures Readable(Last(h)) == Last(h).everything
  {
    HistoryKeepsInv(h);
  }

  /** A read takes two steps: it shows everything exactly when the run it read said archived, or no
  row has been deleted yet. */
  lemma ReaderSeesAllIff(h: History, a: ActorId, key: EventId, ok: bool)
    requires Possible(h) && Settled(h) && a in Last(h).actors && Last(h).actors[a].Fetching?
    ensures var s := Last(h);
            Next(s, a, key, ok).actors[a] == Done(s.everything) <==> s.actors[a].marked || s.hot == s.everything
  {
    HistoryKeepsInv(h);
    assert PcOk(Last(h), Last(h).actors[a]);
  }

  // ------------------------------------------------------------ an archiver alone

  lemma Longer(h: History, e: Event) returns (longer: History)
    requires Possible(h) && Enabled(Last(h), e)
    ensures longer == Then(h, e) && Possible(longer) && Last(longer) == Apply(Last(h), e)
  {
    longer := Then(h, e);
  }

  /** Since h only a has done anything, and all its store calls went through. */
  ghost predicate OnlyBy(later: History, h: History, a: ActorId) {
    later == h || (later.Then? && (later.e == Archive(a) || (later.e.Act? && later.e.a == a && later.e.ok)) && OnlyBy(later.before, h, a))
  }

  lemma OnceMore(h: History, from: History, a: ActorId, key: EventId) returns (later: History)
    requires Possible(h) && OnlyBy(h, from, a) && Enabled(Last(h), Act(a, key, true))
    ensures Possible(later) && OnlyBy(later, from, a) && Last(later) == Next(Last(h), a, key, true)
  {
    later := Longer(h, Act(a, key, true));
  }

  lemma {:induction false} PruneAlone(h: History, from: History, a: ActorId) returns (later: History)
    requires Possible(h) && OnlyBy(h, from, a) && a in Last(h).actors && Last(h).actors[a] == Pruning(Last(h).hot)
    ensures Possible(later) && OnlyBy(later, from, a) && var s, t := Last(h), Last(later);
      && t.hot == {} && t.blob == s.blob && t.marked == s.marked && t.everything == s.everything
      && t.actors == s.actors[a := Done({})]
    decreases |Last(h).hot|
  {
    if key :| key in Last(h).hot {
      later := OnceMore(h, from, a, key);
      later := PruneAlone(later, from, a);
    } else {
      assert Last(h).hot == {};
      later := OnceMore(h, from, a, 0);
    }
  }

  /** An archiver that finds rows and is left alone, with every store call going through, can do it all:
  the rows it found are the object, the run is marked, and no row is left. */
  lemma ArchiveAlone(h: History, a: ActorId) returns (later: History)
    requires Possible(h) && a !in Last(h).actors && Last(h).hot != {}
    ensures Possible(later) && OnlyBy(later, h, a) && var s, t := Last(h), Last(later);
      && t.hot == {} && t.blob == Some(s.hot) && t.marked && t.everything == s.everything && t.actors == s.actors[a := Done({})]
  {
    later := Longer(h, Archive(a));
    later := OnceMore(later, h, a, 0);
    later := OnceMore(later, h, a, 0);
    later := OnceMore(later, h, a, 0);
    later := PruneAlone(later, h, a);
  }

  // ------------------------------------------------------------ runs that show the limits

  /** One archiver has listed the rows, stored them and marked the run. */
  lemma Marked(events: seq<EventId>) returns (h: History)
    requires |events| == 2 && events[0] != events[1]
    ensures Possible(h) && var s := Last(h);
            && s.everything == s.hot == {events[0], events[1]} && s.blob == Some(s.everything) && s.marked
            && s.actors == map[1 := Querying]
  {
    h := Longer(Fresh, Append(events[0]));
    h := Longer(h, Append(events[1]));
    h := Longer(h, Archive(1));
    h := Longer(h, Act(1, 0, true));
    h := Longer(h, Act(1, 0, true));
  }

  /** An event that arrives before the rows are deleted goes with them. */
  lemma LateEventIsLost(events: seq<EventId>, late: EventId) returns (h: History)
    requires |events| == 2 && events[0] != events[1] && late !in events
    ensures Possible(h) && late in Last(h).everything && late !in Readable(Last(h)) && late !in Last(h).hot
  {
    h := Marked(events);
    h := Longer(h, Append(late));
    h := Longer(h, Act(1, 0, true));
    h := Longer(h, Act(1, late, true));
  }

  /** A second archiver that lists the rows half deleted stores that half over the whole. */
  lemma SecondArchiverLosesHalf(events: seq<EventId>) returns (h: History)
    requires |events| == 2 && events[0] != events[1]
    ensures Possible(h) && Last(h).everything == {events[0], events[1]} && Readable(Last(h)) == {events[1]}
  {
    h := Marked(events);
    h := Longer(h, Act(1, 0, true));
    h := Longer(h, Act(1, events[0], true));
    assert Last(h).hot == {events[1]};
    h := Longer(h, Archive(2));
    h := Longer(h, Act(2, 0, true));
  }
}
