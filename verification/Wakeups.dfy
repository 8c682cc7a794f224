/** The map of parked claim polls of one process, and the critical sections that work on it. Each
method is one step of the wake protocol on real generations, so any sequence of calls is one of
its interleavings, and what is proved of those holds of the map. */
module Wakeups {
  import opened Common
  import W = WakeProtocol

  /** One generation of an owner's waiters: they share a channel and a count. */
  class Generation {
    var waiting: int
    var closed: bool
    ghost const name: W.Gen

    constructor (ghost name: W.Gen)
      ensures waiting == 0 && !closed && this.name == name
    {
      waiting, closed, this.name := 0, false, name;
    }
  }

  /** objects: the generations opened so far, by name. The methods are told the past, so that what
  they do can be said of it. */
  class Claims {
    var wakeups: map<string, Generation>
    ghost var objects: map<W.Gen, Generation>

    ghost predicate MapShows(v: W.View)
      reads `wakeups, `objects
    {
      && (forall o :: o in wakeups <==> o in v.entries)
      && forall o <- wakeups :: v.entries[o] in objects && wakeups[o] == objects[v.entries[o]]
    }

    ghost predicate ObjectsShow(v: W.View)
      reads `objects, objects.Values
    {
      && (forall g :: g in objects <==> g in v.gens)
      && forall g <- objects ::
           && objects[g].name == g && objects[g].waiting == v.gens[g].waiting
           && (objects[g].closed <==> v.closes[g] > 0)
    }

    ghost predicate Shows(v: W.View)
      reads `wakeups, `objects, objects.Values
    {
      MapShows(v) && ObjectsShow(v)
    }

    /** The map shows the entries the past left, and each generation its count and its channel. */
    ghost predicate After(past: W.History)
      reads `wakeups, `objects, objects.Values
    {
      W.Possible(past) && Shows(W.ViewOf(W.Last(past)))
    }

    constructor ()
      ensures After(W.Empty)
    {
      wakeups, objects := map[], map[];
    }

    /** One more in a generation that is there. */
    method Join(owner: string, gen: Generation, ghost v: W.View)
      requires Shows(v) && owner in wakeups && wakeups[owner] == gen && v.entries[owner] in v.gens
      modifies gen`waiting
      ensures Shows(W.Joined(v, owner, v.entries[owner]))
    {
      gen.waiting := gen.waiting + 1;
    }

    /** The first of a new one. */
    method Open(owner: string, ghost name: W.Gen, ghost v: W.View) returns (gen: Generation)
      requires Shows(v) && owner !in wakeups && name !in v.gens && v.closes[name] == 0
      modifies `wakeups, `objects
      ensures Shows(W.Opened(v, owner, name)) && fresh(gen) && !gen.closed
      ensures wakeups == old(wakeups)[owner := gen] && objects == old(objects)[name := gen]
    {
      gen := new Generation(name);
      gen.waiting := gen.waiting + 1;
      wakeups, objects := wakeups[owner := gen], objects[name := gen];
    }

    /** Parks one more poll under a new ticket; name is for the generation it may have to open. */
    method Wait(owner: string, ghost past: W.History, ghost id: W.TicketId, ghost name: W.Gen) returns (gen: Generation)
      requires After(past) && W.Enabled(W.Last(past), W.Wait(id, owner, name))
      modifies `wakeups, `objects, if owner in wakeups then {wakeups[owner]} else {}
      ensures After(W.Then(past, W.Wait(id, owner, name))) && !gen.closed
      ensures wakeups == old(wakeups)[owner := gen]
      ensures owner in old(wakeups) ==> objects == old(objects)
      ensures owner !in old(wakeups) ==> fresh(gen) && objects == old(objects)[name := gen]
    {
      if owner in wakeups {
        W.JoinChanges(past, id, owner, name);
        gen := wakeups[owner];
        Join(owner, gen, W.ViewOf(W.Last(past)));
      } else {
        W.OpenChanges(past, id, owner, name);
        gen := Open(owner, name, W.ViewOf(W.Last(past)));
      }
    }

    /** One fewer in a generation nobody has woken. */
    method Leave(owner: string, gen: Generation, ghost v: W.View)
      requires Shows(v) && owner in wakeups && wakeups[owner] == gen && gen.name in v.gens
      modifies `wakeups, gen`waiting
      ensures Shows(W.Left(v, owner, gen.name))
    {
      gen.waiting := gen.waiting - 1;
      if gen.waiting <= 0 { wakeups := wakeups - {owner}; }
    }

    /** A poll stops waiting. One that was woken meanwhile leaves the map as it is, even when its
    owner has a new generation of waiters. */
    method Release(owner: string, gen: Generation, ghost past: W.History, ghost id: W.TicketId)
      requires After(past) && W.Enabled(W.Last(past), W.Release(id)) && W.Last(past).tickets[id].owner == owner
      requires W.Last(past).tickets[id].gen in objects && objects[W.Last(past).tickets[id].gen] == gen
      modifies `wakeups, gen`waiting
      ensures After(W.Then(past, W.Release(id)))
      ensures !(owner in old(wakeups) && old(wakeups)[owner] == gen) ==> wakeups == old(wakeups)
    {
      W.ReleaseChanges(past, id);
      if owner in wakeups && wakeups[owner] == gen {
        Leave(owner, gen, W.ViewOf(W.Last(past)));
      }
    }

    /** The first half of a wake, under the lock. */
    method TakeForWake(owner: string, ghost past: W.History, ghost w: W.WakerId) returns (gen: Option<Generation>)
      requires After(past) && W.Enabled(W.Last(past), W.Take(w, owner))
      modifies `wakeups
      ensures var after := W.Then(past, W.Take(w, owner));
              After(after) && W.Last(after).wakers[w].gen.Some? == gen.Some?
              && (gen.Some? ==> W.Last(after).wakers[w].gen.value in objects && objects[W.Last(after).wakers[w].gen.value] == gen.value)
    {
      gen := if owner in wakeups then Some(wakeups[owner]) else None;
      wakeups := wakeups - {owner};
    }

    /** The second half, outside the lock, any number of other steps later: what this wake took is
    there still, and open. */
    method CloseForWake(gen: Generation, ghost past: W.History, ghost w: W.WakerId)
      requires After(past) && W.Enabled(W.Last(past), W.Close(w))
      requires W.Last(past).wakers[w].gen.value in objects && objects[W.Last(past).wakers[w].gen.value] == gen
      modifies gen`closed
      ensures After(W.Then(past, W.Close(w))) && old(!gen.closed) && gen.closed
    {
      W.HeldIsOpen(past, w);
      gen.closed := true;
    }
  }
}
