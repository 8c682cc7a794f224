/** Parked claim polls of one process and the wakes that reach them, step by step. A wake is two
steps: it takes the owner's generation of waiters out of the map under the lock, and closes their
channel after it. */
module WakeProtocol {
  import opened Common

  type Gen = nat
  type TicketId = nat
  type WakerId = nat

  /** The waiters of one owner that share a channel, and how many the map's entry counts. */
  datatype Waiters = Waiters(owner: string, waiting: int)

  /** A call of waiter: what its release function remembers. */
  datatype Ticket = Ticket(owner: string, gen: Gen, released: bool)

  /** A call of wakeLocal: what it took, whom it found waiting, and whether it is through. */
  datatype Waker = Waker(owner: string, gen: Option<Gen>, found: set<TicketId>, through: bool) {
    predicate Holds(g: Gen) { gen == Some(g) && !through }
  }

  /** takers: who last took a generation out of the map. closes: the channels closed so far, as
  often as they were. */
  datatype State = State(
    entries: map<string, Gen>, gens: map<Gen, Waiters>, tickets: map<TicketId, Ticket>,
    wakers: map<WakerId, Waker>, takers: map<Gen, WakerId>, closes: multiset<Gen>)

  const INIT := State(map[], map[], map[], map[], map[], multiset{})

  /** name names the generation that is opened if the owner has none. */
  datatype Event =
    | Wait(id: TicketId, owner: string, name: Gen)
    | Release(id: TicketId)
    | Take(w: WakerId, owner: string)
    | Close(w: WakerId)

  ghost predicate Enabled(s: State, e: Event) {
    match e
    case Wait(id, owner, name) => id !in s.tickets && (owner !in s.entries ==> name !in s.gens)
    case Release(id) => id in s.tickets && !s.tickets[id].released
    case Take(w, _) => w !in s.wakers
    case Close(w) => w in s.wakers && s.wakers[w].gen.Some? && !s.wakers[w].through
  }

  predicate Current(s: State, owner: string, g: Gen) { owner in s.entries && s.entries[owner] == g }

  /** The tickets of an owner that are not released yet. */
  function Parked(tickets: map<TicketId, Ticket>, owner: string): set<TicketId> {
    set id | id in tickets && tickets[id].owner == owner && !tickets[id].released
  }

  function WaitNext(s: State, id: TicketId, owner: string, name: Gen): State {
    var g := if owner in s.entries then s.entries[owner] else name;
    var waiting := if owner in s.entries && g in s.gens then s.gens[g].waiting + 1 else 1;
    s.(entries := s.entries[owner := g], gens := s.gens[g := Waiters(owner, waiting)],
       tickets := s.tickets[id := Ticket(owner, g, false)])
  }

  /** One that was woken meanwhile leaves the map as it is, even if its owner has new waiters. */
  function ReleaseNext(s: State, id: TicketId): State
    requires id in s.tickets
  {
    var t := s.tickets[id];
    var u := s.(tickets := s.tickets[id := t.(released := true)]);
    if !Current(s, t.owner, t.gen) || t.gen !in s.gens then u
    else
      var waiting := s.gens[t.gen].waiting - 1;
      u.(gens := s.gens[t.gen := Waiters(s.gens[t.gen].owner, waiting)],
         entries := if waiting <= 0 then s.entries - {t.owner} else s.entries)
  }

  function TakeNext(s: State, w: WakerId, owner: string): State {
    var gen := if owner in s.entries then Some(s.entries[owner]) else None;
    s.(entries := s.entries - {owner}, takers := if gen.Some? then s.takers[gen.value := w] else s.takers,
       wakers := s.wakers[w := Waker(owner, gen, Parked(s.tickets, owner), gen == None)])
  }

  function Apply(s: State, e: Event): State
    requires Enabled(s, e)
  {
    match e
    case Wait(id, owner, name) => WaitNext(s, id, owner, name)
    case Release(id) => ReleaseNext(s, id)
    case Take(w, owner) => TakeNext(s, w, owner)
    case Close(w) =>
      s.(wakers := s.wakers[w := s.wakers[w].(through := true)], closes := s.closes + multiset{s.wakers[w].gen.value})
  }

  /** One interleaving of polls and wakes, newest step last. */
  datatype History = Empty | Then(before: History, e: Event)

  ghost predicate Possible(h: History)
    decreases h, 0
  {
    h.Then? ==> Possible(h.before) && Enabled(Last(h.before), h.e)
  }

  ghost function Last(h: History): State
    requires Possible(h)
    decreases h, 1
  {
    if h.Empty? then INIT else Apply(Last(h.before), h.e)
  }

  // ------------------------------------------------------------ counting waiters

  function Unreleased(tickets: map<TicketId, Ticket>, g: Gen): set<TicketId> {
    set id | id in tickets && tickets[id].gen == g && !tickets[id].released
  }

  lemma OneMoreTicket(tickets: map<TicketId, Ticket>, id: TicketId, t: Ticket, g: Gen)
    requires id !in tickets && !t.released
    ensures |Unreleased(tickets[id := t], g)| == |Unreleased(tickets, g)| + if g == t.gen then 1 else 0
  {
    assert Unreleased(tickets[id := t], g) == Unreleased(tickets, g) + if g == t.gen then {id} else {};
  }

  lemma OneReleased(tickets: map<TicketId, Ticket>, id: TicketId, g: Gen)
    requires id in tickets && !tickets[id].released
    ensures |Unreleased(tickets[id := tickets[id].(released := true)], g)|
              == |Unreleased(tickets, g)| - if g == tickets[id].gen then 1 else 0
  {
    var after := tickets[id := tickets[id].(released := true)];
    assert id in Unreleased(tickets, tickets[id].gen);
    assert Unreleased(after, g) == Unreleased(tickets, g) - if g == tickets[id].gen then {id} else {};
  }

  lemma NobodyYet(tickets: map<TicketId, Ticket>, g: Gen)
    requires forall id <- tickets :: tickets[id].gen != g
    ensures |Unreleased(tickets, g)| == 0
  {
    assert forall id :: id !in Unreleased(tickets, g);
  }

  lemma OneOf(ids: set<TicketId>) returns (id: TicketId)
    requires ids != {}
    ensures id in ids
  {
    id :| id in ids;
  }

  lemma SomebodyWaits(tickets: map<TicketId, Ticket>, g: Gen) returns (id: TicketId)
    requires |Unreleased(tickets, g)| > 0
    ensures id in tickets && tickets[id].gen == g && !tickets[id].released
  {
    id := OneOf(Unreleased(tickets, g));
  }

  // ------------------------------------------------------------ the invariant

  /** An owner's entry is a generation nobody has taken out, and its count is exactly its waiters. */
  ghost predicate EntriesInv(s: State) {
    forall o <- s.entries ::
      && s.entries[o] in s.gens && s.gens[s.entries[o]].owner == o && s.entries[o] !in s.takers
      && s.gens[s.entries[o]].waiting == |Unreleased(s.tickets, s.entries[o])| > 0
  }

  /** A generation is taken out once, and closed once by whoever took it. */
  ghost predicate WakersInv(s: State) {
    && (forall w <- s.wakers | s.wakers[w].gen.Some? ::
          s.wakers[w].gen.value in s.takers && s.takers[s.wakers[w].gen.value] == w)
    && (forall g <- s.takers ::
          && g in s.gens && s.takers[g] in s.wakers && s.wakers[s.takers[g]].gen == Some(g)
          && s.closes[g] == if s.wakers[s.takers[g]].through then 1 else 0)
    && (forall g <- s.closes :: g in s.takers)
  }

  /** A waiter not released is in its owner's entry or was taken out of it, and whoever a wake found
  waiting is not in it any more. */
  ghost predicate TicketsInv(s: State) {
    && (forall id <- s.tickets ::
          var t := s.tickets[id];
          && t.gen in s.gens && s.gens[t.gen].owner == t.owner
          && (t.released || Current(s, t.owner, t.gen) || t.gen in s.takers))
    && (forall w <- s.wakers, id <- s.wakers[w].found ::
          id in s.tickets && (s.tickets[id].released || s.tickets[id].gen in s.takers))
  }

  ghost predicate Inv(s: State) { EntriesInv(s) && WakersInv(s) && TicketsInv(s) }

  lemma WaitKeepsInv(s: State, id: TicketId, owner: string, name: Gen)
    requires Inv(s) && Enabled(s, Wait(id, owner, name))
    ensures Inv(WaitNext(s, id, owner, name))
  {
    var t := WaitNext(s, id, owner, name);
    var g := t.entries[owner];
    forall o | o in t.entries
      ensures && t.entries[o] in t.gens && t.gens[t.entries[o]].owner == o && t.entries[o] !in t.takers
              && t.gens[t.entries[o]].waiting == |Unreleased(t.tickets, t.entries[o])| > 0
    {
      OneMoreTicket(s.tickets, id, t.tickets[id], t.entries[o]);
      if o == owner && owner !in s.entries { NobodyYet(s.tickets, name); }
    }
  }

  lemma ReleaseKeepsInv(s: State, id: TicketId)
    requires Inv(s) && Enabled(s, Release(id))
    ensures Inv(ReleaseNext(s, id))
  {
    var t := ReleaseNext(s, id);
    forall o | o in t.entries
      ensures && t.entries[o] in t.gens && t.gens[t.entries[o]].owner == o && t.entries[o] !in t.takers
              && t.gens[t.entries[o]].waiting == |Unreleased(t.tickets, t.entries[o])| > 0
    {
      OneReleased(s.tickets, id, t.entries[o]);
    }
    ReleaseKeepsTickets(s, id);
  }

  /** A poll that still waits is in its entry still: the entry goes only with the last one. */
  lemma StillParked(s: State, id: TicketId, k: TicketId)
    requires Inv(s) && Enabled(s, Release(id)) && k != id && k in s.tickets && !s.tickets[k].released
    requires Current(s, s.tickets[k].owner, s.tickets[k].gen)
    ensures var t := ReleaseNext(s, id); Current(t, s.tickets[k].owner, s.tickets[k].gen)
  {
    var t, gone := ReleaseNext(s, id), s.tickets[id];
    if s.tickets[k].owner == gone.owner && Current(s, gone.owner, gone.gen) {
      OneReleased(s.tickets, id, gone.gen);
      assert k in Unreleased(t.tickets, gone.gen);
    }
  }

  lemma ReleaseTouches(s: State, id: TicketId)
    requires TicketsInv(s) && Enabled(s, Release(id))
    ensures var t := ReleaseNext(s, id);
            && t.wakers == s.wakers && t.takers == s.takers && t.tickets == s.tickets[id := s.tickets[id].(released := true)]
            && forall g <- s.gens :: g in t.gens && t.gens[g].owner == s.gens[g].owner
  {
  }

  lemma ReleaseKeepsTickets(s: State, id: TicketId)
    requires Inv(s) && Enabled(s, Release(id))
    ensures TicketsInv(ReleaseNext(s, id))
  {
    var t := ReleaseNext(s, id);
    ReleaseTouches(s, id);
    forall k | k in t.tickets && !t.tickets[k].released
      ensures Current(t, t.tickets[k].owner, t.tickets[k].gen) || t.tickets[k].gen in t.takers
    {
      if Current(s, s.tickets[k].owner, s.tickets[k].gen) { StillParked(s, id, k); }
    }
  }

  lemma TakeKeepsWakers(s: State, w: WakerId, owner: string)
    requires EntriesInv(s) && WakersInv(s) && Enabled(s, Take(w, owner))
    ensures WakersInv(TakeNext(s, w, owner))
  {
    if owner in s.entries { assert s.entries[owner] !in s.closes; }
  }

  lemma TakeKeepsTickets(s: State, w: WakerId, owner: string)
    requires TicketsInv(s) && Enabled(s, Take(w, owner))
    ensures TicketsInv(TakeNext(s, w, owner))
  {
    var t := TakeNext(s, w, owner);
    forall id | id in t.tickets && !t.tickets[id].released
      ensures Current(t, t.tickets[id].owner, t.tickets[id].gen) || t.tickets[id].gen in t.takers
    {
    }
    forall v, id | v in t.wakers && id in t.wakers[v].found
      ensures id in t.tickets && (t.tickets[id].released || t.tickets[id].gen in t.takers)
    {
      if v == w { assert id in Parked(s.tickets, owner); }
    }
  }

  lemma TakeKeepsInv(s: State, w: WakerId, owner: string)
    requires Inv(s) && Enabled(s, Take(w, owner))
    ensures Inv(TakeNext(s, w, owner))
  {
    TakeKeepsWakers(s, w, owner);
    TakeKeepsTickets(s, w, owner);
    TakeKeepsEntries(s, w, owner);
  }

  lemma TakeKeepsEntries(s: State, w: WakerId, owner: string)
    requires EntriesInv(s) && Enabled(s, Take(w, owner))
    ensures EntriesInv(TakeNext(s, w, owner))
  {
    var t := TakeNext(s, w, owner);
    forall o | o in t.entries ensures o in s.entries && t.entries[o] == s.entries[o] && t.entries[o] !in t.takers {
      assert owner in s.entries ==> s.gens[s.entries[owner]].owner != s.gens[s.entries[o]].owner;
    }
  }

  lemma CloseKeepsInv(s: State, w: WakerId)
    requires Inv(s) && Enabled(s, Close(w))
    ensures Inv(Apply(s, Close(w)))
  {}

  lemma StepKeepsInv(s: State, e: Event)
    requires Inv(s) && Enabled(s, e)
    ensures Inv(Apply(s, e))
  {
    match e
    case Wait(id, owner, name) => WaitKeepsInv(s, id, owner, name);
    case Release(id) => ReleaseKeepsInv(s, id);
    case Take(w, owner) => TakeKeepsInv(s, w, owner);
    case Close(w) => CloseKeepsInv(s, w);
  }

  lemma {:induction false} HistoryKeepsInv(h: History)
    requires Possible(h)
    ensures Inv(Last(h))
  {
    if h.Then? {
      HistoryKeepsInv(h.before);
      StepKeepsInv(Last(h.before), h.e);
    }
  }

  // ------------------------------------------------------------ what the map's code relies on

  /** What a step may change of the map and its generations, and what it finds there. */
  datatype View = View(entries: map<string, Gen>, gens: map<Gen, Waiters>, closes: multiset<Gen>)

  function ViewOf(s: State): View { View(s.entries, s.gens, s.closes) }

  function Joined(v: View, owner: string, g: Gen): View
    requires g in v.gens
  {
    v.(gens := v.gens[g := v.gens[g].(waiting := v.gens[g].waiting + 1)])
  }

  function Opened(v: View, owner: string, g: Gen): View {
    v.(entries := v.entries[owner := g], gens := v.gens[g := Waiters(owner, 1)])
  }

  function Left(v: View, owner: string, g: Gen): View
    requires g in v.gens
  {
    v.(gens := v.gens[g := v.gens[g].(waiting := v.gens[g].waiting - 1)],
       entries := if v.gens[g].waiting <= 1 then v.entries - {owner} else v.entries)
  }

  lemma JoinChanges(h: History, id: TicketId, owner: string, name: Gen)
    requires Possible(h) && Enabled(Last(h), Wait(id, owner, name)) && owner in Last(h).entries
    ensures var v, u := ViewOf(Last(h)), ViewOf(Last(Then(h, Wait(id, owner, name))));
            v.entries[owner] in v.gens && v.closes[v.entries[owner]] == 0 && u == Joined(v, owner, v.entries[owner])
  {
    HistoryKeepsInv(h);
    JoinChangesState(Last(h), id, owner, name);
  }

  lemma JoinChangesState(s: State, id: TicketId, owner: string, name: Gen)
    requires Inv(s) && Enabled(s, Wait(id, owner, name)) && owner in s.entries
    ensures var v, u := ViewOf(s), ViewOf(WaitNext(s, id, owner, name));
            v.entries[owner] in v.gens && v.closes[v.entries[owner]] == 0 && u == Joined(v, owner, v.entries[owner])
  {
    assert s.entries[owner] !in s.closes;
    assert s.entries[owner := s.entries[owner]] == s.entries;
  }

  lemma OpenChanges(h: History, id: TicketId, owner: string, name: Gen)
    requires Possible(h) && Enabled(Last(h), Wait(id, owner, name)) && owner !in Last(h).entries
    ensures var v, u := ViewOf(Last(h)), ViewOf(Last(Then(h, Wait(id, owner, name))));
            v.closes[name] == 0 && u == Opened(v, owner, name)
  {
    HistoryKeepsInv(h);
  }

  lemma ReleaseChanges(h: History, id: TicketId)
    requires Possible(h) && Enabled(Last(h), Release(id))
    ensures var v, u := ViewOf(Last(h)), ViewOf(Last(Then(h, Release(id))));
            var owner, g := Last(h).tickets[id].owner, Last(h).tickets[id].gen;
            if Current(Last(h), owner, g) then g in v.gens && u == Left(v, owner, g) else u == v
  {
    HistoryKeepsInv(h);
  }

  /** What a wake holds is there still, and open, whatever went on since it was taken out. */
  lemma HeldIsOpen(h: History, w: WakerId)
    requires Possible(h) && Enabled(Last(h), Close(w))
    ensures var s := Last(h); var g := s.wakers[w].gen.value;
            g in s.gens && g in s.takers && s.takers[g] == w && s.closes[g] == 0
  {
    HistoryKeepsInv(h);
  }

  // ------------------------------------------------------------ main results

  /** No channel is ever closed twice, however wakes, polls and releases interleave: what a wake
  holds is still open, is nobody else's, and nobody can join it any more. */
  lemma ClosedOnce(h: History)
    requires Possible(h)
    ensures var s := Last(h);
            && (forall g :: s.closes[g] <= 1)
            && (forall w <- s.wakers, g | s.wakers[w].Holds(g) ::
                  && s.closes[g] == 0
                  && (forall o :: !Current(s, o, g))
                  && (forall v <- s.wakers | v != w :: s.wakers[v].gen != Some(g)))
  {
    HistoryKeepsInv(h);
    var s := Last(h);
    forall g ensures s.closes[g] <= 1 {
      if g in s.closes { assert g in s.takers; }
    }
    forall w, g, o | w in s.wakers && s.wakers[w].Holds(g) ensures !Current(s, o, g) {
      assert g in s.takers;
    }
  }

  /** A wake reaches everybody it found waiting for its owner, itself or through the wake that was
  there before it: whoever still waits has seen the channel closed exactly when no other wake is
  still between its two steps with it. */
  lemma WakeReachesAll(h: History, w: WakerId, id: TicketId)
    requires Possible(h) && w in Last(h).wakers && Last(h).wakers[w].through && id in Last(h).wakers[w].found
    ensures var s := Last(h);
            id in s.tickets && (!s.tickets[id].released ==>
              (s.closes[s.tickets[id].gen] == 1
               <==> !exists v <- s.wakers :: s.wakers[v].Holds(s.tickets[id].gen)))
  {
    HistoryKeepsInv(h);
    var s := Last(h);
    if !s.tickets[id].released { ClosedUnlessHeld(s, s.tickets[id].gen); }
  }

  lemma ClosedUnlessHeld(s: State, g: Gen)
    requires WakersInv(s) && g in s.takers
    ensures s.closes[g] == 1 <==> !exists v <- s.wakers :: s.wakers[v].Holds(g)
  {
    var v := s.takers[g];
    assert v in s.wakers && (s.wakers[v].Holds(g) <==> s.closes[g] != 1);
    assert forall u <- s.wakers | s.wakers[u].Holds(g) :: u == v;
  }

  /** An owner has an entry exactly when somebody waits for it whom no wake has taken out; so the map
  keeps nothing for owners nobody polls for. */
  lemma EntryIffWaiting(h: History, owner: string)
    requires Possible(h)
    ensures var s := Last(h);
            owner in s.entries
            <==> exists id <- s.tickets :: s.tickets[id].owner == owner && !s.tickets[id].released && s.tickets[id].gen !in s.takers
  {
    HistoryKeepsInv(h);
    var s := Last(h);
    if owner in s.entries {
      var id := SomebodyWaits(s.tickets, s.entries[owner]);
    }
  }

  lemma Longer(h: History, e: Event) returns (longer: History)
    requires Possible(h) && Enabled(Last(h), e)
    ensures longer == Then(h, e) && Possible(longer) && Last(longer) == Apply(Last(h), e)
  {
    longer := Then(h, e);
  }

  /** A wake can return before the poll it found is signalled: another has taken the channel out and
  not closed it yet. */
  lemma SecondWakeOvertakes() returns (h: History)
    ensures Possible(h) && var s := Last(h);
            && 2 in s.wakers && s.wakers[2].through && 1 in s.wakers[2].found
            && 1 in s.tickets && !s.tickets[1].released && s.closes[s.tickets[1].gen] == 0
  {
    h := Longer(Empty, Wait(1, "o", 1));
    h := Longer(h, Take(1, "o"));
    h := Longer(h, Take(2, "o"));
  }
}
