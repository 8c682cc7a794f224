/** The two turn coordinators, each proved to be the same table of slots and parked hand-offs:
localTurns over the process's own maps, and RedisTurnCoordinator over Redis strings and sets. */
module TurnCoordinator {
  import opened Common
  import opened TurnKeys

  /** A coding-task binding; its coding task may be nil. */
  datatype TaskBind = TaskBind(task: Option<string>, prompt: string)

  datatype Turn = Turn(
    agentID: string, invokerID: string, msg: string, parentType: string, round: int,
    untrusted: bool, bind: Option<TaskBind>)

  /** A parked hand-off as stored in Redis. */
  datatype Wire = Wire(
    agentID: string, invokerID: string, msg: string, parentType: string, round: int,
    untrusted: bool, task: Option<string>, prompt: string)

  function ToWire(t: Turn): Wire {
    Wire(t.agentID, t.invokerID, t.msg, t.parentType, t.round, t.untrusted,
         if t.bind.Some? then t.bind.value.task else None, if t.bind.Some? then t.bind.value.prompt else "")
  }

  function FromWire(w: Wire): Turn {
    Turn(w.agentID, w.invokerID, w.msg, w.parentType, w.round, w.untrusted,
         if w.task.Some? then Some(TaskBind(w.task, w.prompt)) else None)
  }

  predicate Storable(t: Turn) { t.bind.Some? ==> t.bind.value.task.Some? }

  /** Parking in Redis loses nothing, unless the binding names no task. */
  lemma WireRoundTrip(t: Turn)
    ensures FromWire(ToWire(t)) == t <==> Storable(t)
  {}

  // ------------------------------------------------------------ the specification

  datatype Turns = Turns(slots: map<string, string>, parks: map<string, Turn>) {
    function Holder(key: string): string { if key in slots then slots[key] else "" }

    function Claim(key: string, runID: string): Turns {
      if key in slots then this else this.(slots := slots[key := runID])
    }

    function Replace(key: string, deadRunID: string, runID: string): Turns {
      if key in slots && slots[key] == deadRunID then this.(slots := slots[key := runID]) else this
    }

    function Release(key: string, runID: string): Turns {
      if key in slots && slots[key] == runID then this.(slots := slots - {key}) else this
    }

    function Park(key: string, turn: Turn): Turns {
      if key in parks then this else this.(parks := parks[key := turn])
    }

    function Parked(key: string): Option<Turn> { if key in parks then Some(parks[key]) else None }

    function Take(key: string): Turns { this.(parks := parks - {key}) }

    function Drop(prefix: string): Turns {
      this.(parks := map k | k in parks && !(prefix <= k) :: parks[k])
    }
  }

  /** A call on one key leaves every other key's slot and hand-off alone. */
  lemma OtherKeysStay(t: Turns, key: string, other: string, run: string, dead: string, turn: Turn)
    requires key != other
    ensures forall u | u in {t.Claim(key, run), t.Replace(key, dead, run), t.Release(key, run), t.Park(key, turn), t.Take(key)} ::
              u.Holder(other) == t.Holder(other) && u.Parked(other) == t.Parked(other)
  {}

  /** Dropping a thread's hand-offs drops those of its own turns, and nobody else's. */
  lemma DropTakesOneThread(
    t: Turns, parent: string, thread: string, parent': string, thread': string, agent: string, invoker: string)
    requires IdSafe(parent) && IdSafe(thread) && IdSafe(parent') && IdSafe(thread')
    ensures var key, u := TurnKey(parent', thread', agent, invoker), t.Drop(TurnKeyPrefix(parent, thread));
      && u.slots == t.slots
      && u.Parked(key) == if parent == parent' && thread == thread' then None else t.Parked(key)
  {
    PrefixExact(TurnKey(parent', thread', agent, invoker), parent, thread);
    PrefixOfKey(parent', thread', agent, invoker);
    assert TurnKeyPrefix(parent, thread) == parent + "#" + (thread + "#" + "");
    assert TurnKeyPrefix(parent', thread') == parent' + "#" + (thread' + "#" + "");
    CutUnique(parent, thread + "#" + "", parent', thread' + "#" + "");
    CutUnique(thread, "", thread', "");
  }

  // ------------------------------------------------------------ in process

  class LocalTurns {
    var threadActive: map<string, string>
    var deferredTurns: map<string, Turn>

    ghost function Contents(): Turns
      reads this
    {
      Turns(threadActive, deferredTurns)
    }

    constructor ()
      ensures Contents() == Turns(map[], map[])
    {
      threadActive, deferredTurns := map[], map[];
    }

    method ClaimTurn(key: string, runID: string) returns (holder: string, taken: bool)
      modifies this
      ensures Contents() == old(Contents()).Claim(key, runID)
      ensures holder == Contents().Holder(key) && (taken <==> holder == runID)
    {
      if key !in threadActive {
        threadActive := threadActive[key := runID];
        return runID, true;
      }
      holder := threadActive[key];
      taken := holder == runID;
    }

    method ReplaceTurn(key: string, deadRunID: string, runID: string) returns (won: bool)
      modifies this
      ensures Contents() == old(Contents()).Replace(key, deadRunID, runID)
      ensures won <==> key in old(threadActive) && old(threadActive)[key] == deadRunID
    {
      won := key in threadActive && threadActive[key] == deadRunID;
      if won { threadActive := threadActive[key := runID]; }
    }

    method ReleaseTurn(key: string, runID: string)
      modifies this
      ensures Contents() == old(Contents()).Release(key, runID)
    {
      if key in threadActive && threadActive[key] == runID { threadActive := threadActive - {key}; }
    }

    method TurnHolder(key: string) returns (holder: string)
      ensures holder == Contents().Holder(key)
    {
      holder := if key in threadActive then threadActive[key] else "";
    }

    method ParkTurn(key: string, turn: Turn) returns (parked: bool)
      modifies this
      ensures Contents() == old(Contents()).Park(key, turn)
      ensures parked <==> old(Contents()).Parked(key) == None
    {
      parked := key !in deferredTurns;
      if parked { deferredTurns := deferredTurns[key := turn]; }
    }

    method TakeTurn(key: string) returns (turn: Option<Turn>)
      modifies this
      ensures Contents() == old(Contents()).Take(key) && turn == old(Contents()).Parked(key)
    {
      turn := if key in deferredTurns then Some(deferredTurns[key]) else None;
      deferredTurns := deferredTurns - {key};
    }

    /** The map is walked in no particular order. */
    method DropTurns(prefix: string)
      modifies this
      ensures Contents() == old(Contents()).Drop(prefix)
    {
      var todo := deferredTurns.Keys;
      while todo != {}
        invariant threadActive == old(threadActive) && todo <= old(deferredTurns).Keys
        invariant forall k :: k in deferredTurns <==> k in old(deferredTurns) && (k in todo || !(prefix <= k))
        invariant forall k <- deferredTurns :: deferredTurns[k] == old(deferredTurns)[k]
      {
        var k :| k in todo;
        todo := todo - {k};
        if prefix <= k { deferredTurns := deferredTurns - {k}; }
      }
      assert deferredTurns == old(Contents()).Drop(prefix).parks;
    }
  }

  // ------------------------------------------------------------ Redis

  datatype Value = RunID(id: string) | Body(wire: Wire)

  class RedisTurns {
    var strings: map<RedisKey, Value>
    var sets: map<RedisKey, set<string>>
    ghost var turns: Turns

    ghost predicate SlotsMatch()
      reads this
    {
      && (forall k :: Slot(k) in strings <==> k in turns.slots)
      && (forall k <- turns.slots :: strings[Slot(k)] == RunID(turns.slots[k]))
    }

    ghost predicate ParksMatch()
      reads this
    {
      && (forall k :: Park(k) in strings <==> k in turns.parks)
      && (forall k <- turns.parks :: strings[Park(k)].Body? && FromWire(strings[Park(k)].wire) == turns.parks[k])
    }

    ghost predicate Indexed(prefix: string, key: string)
      reads `sets
    {
      ParkIndex(prefix) in sets && key in sets[ParkIndex(prefix)]
    }

    /** Each thread's index holds exactly the keys parked in it. */
    ghost predicate IndexMatches()
      reads this
    {
      forall p, k :: Indexed(p, k) <==> k in turns.parks && TurnPrefixOf(k) == p
    }

    /** What the Redis keys say is exactly the table. */
    ghost predicate Valid()
      reads this
    {
      SlotsMatch() && ParksMatch() && IndexMatches()
    }

    constructor ()
      ensures Valid() && turns == Turns(map[], map[])
    {
      strings, sets, turns := map[], map[], Turns(map[], map[]);
    }

    /** SETNX, the first of the two commands a claim is made of. */
    method TrySlot(key: string, runID: string) returns (ok: bool)
      requires Valid()
      modifies this
      ensures Valid() && turns == old(turns).Claim(key, runID)
      ensures ok <==> key !in old(turns).slots
    {
      turns := turns.Claim(key, runID);
      ok := Slot(key) !in strings;
      if ok { strings := strings[Slot(key) := RunID(runID)]; }
    }

    /** GET, the second one, which may come any time later: a slot that is gone by then counts as
    taken, though it is not set. */
    method AskHolder(key: string, runID: string) returns (holder: string, taken: bool)
      requires Valid()
      ensures holder == (if key in turns.slots then turns.slots[key] else runID)
      ensures taken <==> key !in turns.slots || turns.slots[key] == runID
    {
      if Slot(key) !in strings { return runID, true; }
      holder := strings[Slot(key)].id;
      taken := holder == runID;
    }

    /** With nothing in between the two make one claim. */
    method ClaimTurn(key: string, runID: string) returns (holder: string, taken: bool)
      requires Valid()
      modifies this
      ensures Valid() && turns == old(turns).Claim(key, runID)
      ensures holder == turns.Holder(key) && (taken <==> holder == runID)
    {
      var ok := TrySlot(key, runID);
      if ok { return runID, true; }
      holder, taken := AskHolder(key, runID);
    }

    method ReplaceTurn(key: string, deadRunID: string, runID: string) returns (won: bool)
      requires Valid()
      modifies this
      ensures Valid() && turns == old(turns).Replace(key, deadRunID, runID)
      ensures won <==> key in old(turns).slots && old(turns).slots[key] == deadRunID
    {
      turns := turns.Replace(key, deadRunID, runID);
      won := Slot(key) in strings && strings[Slot(key)] == RunID(deadRunID);
      if won { strings := strings[Slot(key) := RunID(runID)]; }
    }

    method ReleaseTurn(key: string, runID: string)
      requires Valid()
      modifies this
      ensures Valid() && turns == old(turns).Release(key, runID)
    {
      turns := turns.Release(key, runID);
      if Slot(key) in strings && strings[Slot(key)] == RunID(runID) {
        strings := strings - {Slot(key)};
      }
    }

    method TurnHolder(key: string) returns (holder: string)
      requires Valid()
      ensures holder == turns.Holder(key)
    {
      holder := if Slot(key) in strings then strings[Slot(key)].id else "";
    }

    /** SADD to the thread's index. */
    method IndexKey(key: string)
      modifies `sets
      ensures forall p, k :: Indexed(p, k) <==> old(Indexed(p, k)) || (p == TurnPrefixOf(key) && k == key)
    {
      var p := ParkIndex(TurnPrefixOf(key));
      sets := sets[p := (if p in sets then sets[p] else {}) + {key}];
    }

    /** SREM from it. */
    method UnindexKey(key: string)
      modifies `sets
      ensures forall p, k :: Indexed(p, k) <==> old(Indexed(p, k)) && !(p == TurnPrefixOf(key) && k == key)
    {
      var p := ParkIndex(TurnPrefixOf(key));
      if p in sets { sets := sets[p := sets[p] - {key}]; }
    }

    /** What is parked is what the stored form gives back: a binding without a task is lost. */
    method ParkTurn(key: string, turn: Turn) returns (parked: bool)
      requires Valid()
      modifies this
      ensures Valid() && turns == old(turns).Park(key, FromWire(ToWire(turn)))
      ensures Storable(turn) ==> turns == old(turns).Park(key, turn)
      ensures parked <==> old(turns).Parked(key) == None
    {
      WireRoundTrip(turn);
      parked := Park(key) !in strings;
      if !parked { return; }
      turns := turns.Park(key, FromWire(ToWire(turn)));
      strings := strings[Park(key) := Body(ToWire(turn))];
      IndexKey(key);
    }

    method TakeTurn(key: string) returns (turn: Option<Turn>)
      requires Valid()
      modifies this
      ensures Valid() && turns == old(turns).Take(key) && turn == old(turns).Parked(key)
    {
      if Park(key) !in strings { return None; }
      turn := Some(FromWire(strings[Park(key)].wire));
      turns := turns.Take(key);
      strings := strings - {Park(key)};
      UnindexKey(key);
    }

    /** SMEMBERS of a thread's index. */
    method IndexedKeys(prefix: string) returns (keys: set<string>)
      ensures forall k :: k in keys <==> Indexed(prefix, k)
    {
      keys := if ParkIndex(prefix) in sets then sets[ParkIndex(prefix)] else {};
    }

    /** DEL of it. */
    method DropIndex(prefix: string)
      modifies `sets
      ensures forall p, k :: Indexed(p, k) <==> old(Indexed(p, k)) && p != prefix
    {
      sets := sets - {ParkIndex(prefix)};
    }

    /** Deletes what the thread's index lists, and so exactly what starts with the prefix. */
    method DropTurns(parent: string, thread: string)
      requires Valid() && IdSafe(parent) && IdSafe(thread)
      modifies this
      ensures Valid() && turns == old(turns).Drop(TurnKeyPrefix(parent, thread))
    {
      var prefix := TurnKeyPrefix(parent, thread);
      var keys := IndexedKeys(prefix);
      forall k | k in turns.parks
        ensures prefix <= k <==> k in keys
      {
        PrefixExact(k, parent, thread);
      }
      turns := turns.Drop(prefix);
      strings := strings - (set k | k in keys :: Park(k));
      DropIndex(prefix);
    }
  }
}
