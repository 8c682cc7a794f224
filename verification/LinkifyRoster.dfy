/** When mention markup does not depend on the order in which maps are walked and equal names are
sorted, and exactly when it does. */
module LinkifyRoster {
  import opened Common
  import opened Linkify

  /** The first entry a name would be added from. */
  function FirstOf(names: seq<Target>, key: string): (r: Option<Target>)
    ensures r.Some? ==> r.value in names && r.value.name != "" && Fold(r.value.name) == key
    ensures r.None? ==> forall t <- names :: t.name == "" || Fold(t.name) != key
  {
    if names == [] then None
    else if names[0].name != "" && Fold(names[0].name) == key then Some(names[0])
    else FirstOf(names[1..], key)
  }

  lemma {:induction false} FirstOfJoined(a: seq<Target>, b: seq<Target>, key: string)
    ensures FirstOf(a + b, key) == if FirstOf(a, key).Some? then FirstOf(a, key) else FirstOf(b, key)
  {
    if a == [] {
      assert a + b == b;
    } else {
      assert (a + b)[1..] == a[1..] + b;
      FirstOfJoined(a[1..], b, key);
    }
  }

  /** The roster has, for each name ever added, the entry it was first added from. */
  lemma {:induction false} RosterIsFirsts(names: seq<Target>, t: Target)
    ensures t in AddNames([], names) <==> t.name != "" && FirstOf(names, Fold(t.name)) == Some(t)
    ensures OneTargetPerName(AddNames([], names))
    ensures Known(AddNames([], names), Fold(t.name)) <==> t.name != "" && FirstOf(names, Fold(t.name)).Some?
  {
    if names != [] {
      var init, last := names[..|names| - 1], names[|names| - 1];
      assert names == init + [last];
      RosterIsFirsts(init, t);
      RosterIsFirsts(init, last);
      FirstOfJoined(init, [last], Fold(t.name));
      FirstOfJoined(init, [last], Fold(last.name));
      OneMoreName(AddNames([], init), last, t);
    }
  }

  lemma OneMoreName(ts: seq<Target>, last: Target, t: Target)
    requires OneTargetPerName(ts)
    ensures OneTargetPerName(AddName(ts, last))
    ensures t in AddName(ts, last) <==> t in ts || (t == last && last.name != "" && !Known(ts, Fold(last.name)))
    ensures Known(AddName(ts, last), Fold(t.name)) <==> Known(ts, Fold(t.name)) || (last.name != "" && Fold(last.name) == Fold(t.name))
  {
    var after := AddName(ts, last);
    if after != ts {
      assert after[|ts|] == last;
      assert forall i | 0 <= i < |ts| :: after[i] == ts[i];
    }
  }

  function RosterOf(agents: seq<Agent>, us: seq<User>, keys: seq<string>): seq<Target> {
    AddNames([], AllNames(agents, us, keys))
  }

  // ------------------------------------------------------------ the same people in another order

  ghost predicate EachOnce(us: seq<User>) { forall i, j | 0 <= i < j < |us| :: us[i].id != us[j].id }

  ghost predicate SamePeople(us: seq<User>, vs: seq<User>) {
    EachOnce(us) && EachOnce(vs) && forall u :: u in us <==> u in vs
  }

  /** No two participants share a full name, unless an agent has it anyway. */
  ghost predicate NoClash(agents: seq<Agent>, us: seq<User>) {
    forall i, j | 0 <= i < j < |us| ::
      FullName(us[i]).name != "" && Fold(FullName(us[i]).name) == Fold(FullName(us[j]).name) ==>
        FirstOf(AgentNames(agents), Fold(FullName(us[i]).name)).Some?
  }

  lemma {:induction false} WhoGoesByMember(us: seq<User>, key: string, u: User)
    ensures u in WhoGoesBy(us, key) <==> u in us && GoesBy(u, key)
  {
    if us != [] {
      assert us == us[..|us| - 1] + [us[|us| - 1]];
      WhoGoesByMember(us[..|us| - 1], key, u);
    }
  }

  lemma {:induction false} WhoGoesByOnce(us: seq<User>, key: string)
    requires EachOnce(us)
    ensures EachOnce(WhoGoesBy(us, key))
  {
    if us != [] {
      var init, last := us[..|us| - 1], us[|us| - 1];
      var rest := WhoGoesBy(init, key);
      WhoGoesByOnce(init, key);
      forall i | 0 <= i < |rest| ensures rest[i].id != last.id {
        WhoGoesByMember(init, key, rest[i]);
        assert rest[i] in init;
      }
    }
  }

  lemma SameGoers(us: seq<User>, vs: seq<User>, key: string, u: User)
    requires SamePeople(us, vs)
    ensures u in WhoGoesBy(us, key) <==> u in WhoGoesBy(vs, key)
  {
    WhoGoesByMember(us, key, u);
    WhoGoesByMember(vs, key, u);
  }

  lemma JustOne(us: seq<User>, u: User)
    requires EachOnce(us) && us != [] && forall i | 0 <= i < |us| :: us[i] == u
    ensures us == [u]
  {
    assert |us| > 1 ==> us[0].id != us[1].id;
  }

  lemma OnlyOneAlike(us: seq<User>, vs: seq<User>, key: string)
    requires SamePeople(us, vs) && |WhoGoesBy(us, key)| == 1
    ensures WhoGoesBy(vs, key) == WhoGoesBy(us, key)
  {
    var a, b := WhoGoesBy(us, key), WhoGoesBy(vs, key);
    SameGoers(us, vs, key, a[0]);
    forall i | 0 <= i < |b| ensures b[i] == a[0] {
      SameGoers(us, vs, key, b[i]);
    }
    WhoGoesByOnce(vs, key);
    JustOne(b, a[0]);
  }

  /** Which short names are offered, apart from their order. */
  lemma {:induction false} ShortNamesMembers(us: seq<User>, keys: seq<string>)
    ensures forall t :: t in ShortNames(us, keys) <==>
              exists k <- keys :: |WhoGoesBy(us, k)| == 1 && t == ShortNameOf(WhoGoesBy(us, k)[0])
  {
    if keys != [] {
      var init, last := keys[..|keys| - 1], keys[|keys| - 1];
      assert keys == init + [last];
      ShortNamesMembers(us, init);
      forall t ensures t in ShortNames(us, keys) <==>
                  exists k <- keys :: |WhoGoesBy(us, k)| == 1 && t == ShortNameOf(WhoGoesBy(us, k)[0])
      {
        if t in ShortNames(us, init) {
          var k :| k in init && |WhoGoesBy(us, k)| == 1 && t == ShortNameOf(WhoGoesBy(us, k)[0]);
          assert k in keys;
        }
        assert forall k :: k in keys <==> k in init || k == last;
      }
    }
  }

  /** Short names are made of whole words, so there is nothing to trim. */
  ghost predicate Trimmed(us: seq<User>) { forall u <- us :: Trim(u.shortName) == u.shortName }

  lemma ShortNamesAlike(us: seq<User>, vs: seq<User>, keys: seq<string>, others: seq<string>)
    requires SamePeople(us, vs) && Visits(keys, us) && Visits(others, vs)
    ensures forall t :: t in ShortNames(us, keys) ==> t in ShortNames(vs, others)
  {
    ShortNamesMembers(us, keys);
    ShortNamesMembers(vs, others);
    forall t | t in ShortNames(us, keys) ensures t in ShortNames(vs, others) {
      var k :| k in keys && |WhoGoesBy(us, k)| == 1 && t == ShortNameOf(WhoGoesBy(us, k)[0]);
      OnlyOneAlike(us, vs, k);
      WhoGoesByMember(vs, k, WhoGoesBy(vs, k)[0]);
      assert k in others;
    }
  }

  /** Two short names offered under one key would be two people going by it. */
  lemma ShortNamesDiffer(us: seq<User>, keys: seq<string>, s: Target, t: Target)
    requires Trimmed(us) && s in ShortNames(us, keys) && t in ShortNames(us, keys) && Fold(s.name) == Fold(t.name)
    ensures s == t
  {
    ShortNamesMembers(us, keys);
    var k :| k in keys && |WhoGoesBy(us, k)| == 1 && s == ShortNameOf(WhoGoesBy(us, k)[0]);
    var l :| l in keys && |WhoGoesBy(us, l)| == 1 && t == ShortNameOf(WhoGoesBy(us, l)[0]);
    WhoGoesByMember(us, k, WhoGoesBy(us, k)[0]);
    WhoGoesByMember(us, l, WhoGoesBy(us, l)[0]);
  }

  lemma FirstFullNameAlike(agents: seq<Agent>, us: seq<User>, vs: seq<User>, key: string)
    requires SamePeople(us, vs) && NoClash(agents, us) && FirstOf(AgentNames(agents), key).None?
    ensures FirstOf(FullNames(us), key) == FirstOf(FullNames(vs), key)
  {
    var a, b := FirstOf(FullNames(us), key), FirstOf(FullNames(vs), key);
    if a.Some? {
      var i :| 0 <= i < |us| && FullNames(us)[i] == a.value;
      assert us[i] in vs;
      var k :| 0 <= k < |vs| && vs[k] == us[i];
      assert FullNames(vs)[k] == a.value;
    }
    if b.Some? {
      var j :| 0 <= j < |vs| && FullNames(vs)[j] == b.value;
      assert vs[j] in us;
      var k :| 0 <= k < |us| && us[k] == vs[j];
      assert FullNames(us)[k] == b.value;
      var i :| 0 <= i < |us| && FullNames(us)[i] == a.value;
      assert i == k;
    }
  }

  lemma FirstShortNameAlike(us: seq<User>, vs: seq<User>, keys: seq<string>, others: seq<string>, key: string)
    requires SamePeople(us, vs) && Trimmed(us) && Visits(keys, us) && Visits(others, vs)
    ensures FirstOf(ShortNames(us, keys), key) == FirstOf(ShortNames(vs, others), key)
  {
    var a, b := FirstOf(ShortNames(us, keys), key), FirstOf(ShortNames(vs, others), key);
    ShortNamesAlike(us, vs, keys, others);
    ShortNamesAlike(vs, us, others, keys);
    if a.Some? && b.Some? {
      ShortNamesDiffer(us, keys, a.value, b.value);
    }
  }

  /** Agents come first and in order, so only the participants' order could matter; it does not. */
  lemma RosterDoesNotDependOnOrder(agents: seq<Agent>, us: seq<User>, vs: seq<User>, keys: seq<string>, others: seq<string>)
    requires SamePeople(us, vs) && Trimmed(us) && Visits(keys, us) && Visits(others, vs) && NoClash(agents, us)
    ensures SameTargets(RosterOf(agents, us, keys), RosterOf(agents, vs, others))
    ensures OneTargetPerName(RosterOf(agents, us, keys))
  {
    RosterIsFirsts(AllNames(agents, us, keys), Target("", "", ""));
    forall t ensures t in RosterOf(agents, us, keys) <==> t in RosterOf(agents, vs, others) {
      var key := Fold(t.name);
      RosterIsFirsts(AllNames(agents, us, keys), t);
      RosterIsFirsts(AllNames(agents, vs, others), t);
      FirstOfJoined(AgentNames(agents), FullNames(us), key);
      FirstOfJoined(AgentNames(agents), FullNames(vs), key);
      FirstOfJoined(AgentNames(agents) + FullNames(us), ShortNames(us, keys), key);
      FirstOfJoined(AgentNames(agents) + FullNames(vs), ShortNames(vs, others), key);
      if FirstOf(AgentNames(agents), key).None? { FirstFullNameAlike(agents, us, vs, key); }
      FirstShortNameAlike(us, vs, keys, others, key);
    }
  }

  /** Whatever order participants, short names and equally long names come in, a post is rewritten
  the same way, as long as no two participants share a name. */
  lemma {:induction false} LinkifyIsDeterministic(
    body: string, agents: seq<Agent>, us: seq<User>, vs: seq<User>, keys: seq<string>, others: seq<string>,
    sorted: seq<Target>, resorted: seq<Target>)
    requires SamePeople(us, vs) && Trimmed(us) && Visits(keys, us) && Visits(others, vs) && NoClash(agents, us)
    requires LongestFirst(sorted) && multiset(sorted) == multiset(RosterOf(agents, us, keys))
    requires LongestFirst(resorted) && multiset(resorted) == multiset(RosterOf(agents, vs, others))
    ensures Rendered(Pieces(body, 0, sorted)) == Rendered(Pieces(body, 0, resorted))
  {
    RosterDoesNotDependOnOrder(agents, us, vs, keys, others);
    var a, b := RosterOf(agents, us, keys), RosterOf(agents, vs, others);
    forall t ensures t in sorted <==> t in resorted {
      assert t in sorted <==> t in multiset(sorted);
      assert t in a <==> t in multiset(a);
      assert t in resorted <==> t in multiset(resorted);
      assert t in b <==> t in multiset(b);
    }
    SortingKeepsNamesApart(a, sorted);
    PiecesDoNotDependOnOrder(body, sorted, resorted);
  }

  lemma SortingKeepsNamesApart(ts: seq<Target>, sorted: seq<Target>)
    requires OneTargetPerName(ts) && multiset(ts) == multiset(sorted)
    ensures OneTargetPerName(sorted)
  {
    forall i, j | 0 <= i < j < |sorted| ensures Fold(sorted[i].name) != Fold(sorted[j].name) {
      if Fold(sorted[i].name) == Fold(sorted[j].name) {
        assert sorted[i] in multiset(sorted) && sorted[j] in multiset(sorted);
        var k :| 0 <= k < |ts| && ts[k] == sorted[i];
        var l :| 0 <= l < |ts| && ts[l] == sorted[j];
        assert k == l;
        TwiceInOne(sorted, i, j);
        OnlyOnceInOther(ts, k);
      }
    }
  }

  lemma TwiceInOne(ts: seq<Target>, i: nat, j: nat)
    requires i < j < |ts| && ts[i] == ts[j]
    ensures multiset(ts)[ts[i]] >= 2
  {
    assert ts == ts[..j] + [ts[j]] + ts[j + 1..];
    assert ts[..j][i] == ts[i];
    assert multiset(ts[..j])[ts[i]] >= 1;
  }

  lemma OnlyOnceInOther(ts: seq<Target>, k: nat)
    requires k < |ts| && OneTargetPerName(ts)
    ensures multiset(ts)[ts[k]] == 1
  {
    assert ts == ts[..k] + [ts[k]] + ts[k + 1..];
    assert forall i | 0 <= i < k :: ts[..k][i] == ts[i] != ts[k];
    var after := ts[k + 1..];
    forall i | 0 <= i < |after| ensures after[i] != ts[k] {
      assert after[i] == ts[k + 1 + i];
    }
    assert ts[k] !in ts[..k] && ts[k] !in ts[k + 1..];
  }

  // ------------------------------------------------------------ and exactly when it matters

  function MovedToFront(us: seq<User>, j: nat): seq<User>
    requires j < |us|
  {
    [us[j]] + us[..j] + us[j + 1..]
  }

  lemma MovedAreSamePeople(us: seq<User>, j: nat)
    requires j < |us| && EachOnce(us)
    ensures SamePeople(us, MovedToFront(us, j))
  {
    var vs := MovedToFront(us, j);
    forall u ensures u in us <==> u in vs {
      assert us == us[..j] + [us[j]] + us[j + 1..];
    }
  }

  /** Of two participants who share a name, the roster has at most one; j is one it has not. */
  lemma FirstClash(agents: seq<Agent>, us: seq<User>) returns (t: Target, j: nat)
    requires EachOnce(us) && !NoClash(agents, us)
    ensures j < |us| && t.name != "" && Fold(t.name) == Fold(FullName(us[j]).name) && FullName(us[j]).name != ""
    ensures t.id != us[j].id && FirstOf(FullNames(us), Fold(t.name)) == Some(t)
    ensures FirstOf(AgentNames(agents), Fold(t.name)).None?
  {
    var a, b :| 0 <= a < b < |us| && FullName(us[a]).name != "" && Fold(FullName(us[a]).name) == Fold(FullName(us[b]).name)
                && FirstOf(AgentNames(agents), Fold(FullName(us[a]).name)).None?;
    assert FullNames(us)[a] == FullName(us[a]);
    t := FirstOf(FullNames(us), Fold(FullName(us[a]).name)).value;
    j := if t.id == us[a].id then b else a;
    assert |Fold(FullName(us[b]).name)| == |Fold(FullName(us[a]).name)| > 0;
  }

  /** Order matters exactly when two participants share a name no agent has: bringing one of them
  to the front then changes whom the name stands for. */
  lemma RosterIsOrderFreeIff(agents: seq<Agent>, us: seq<User>, keys: seq<string>)
    requires EachOnce(us) && Trimmed(us) && Visits(keys, us)
    ensures NoClash(agents, us) <==>
              forall j | 0 <= j < |us| :: SameTargets(RosterOf(agents, us, keys), RosterOf(agents, MovedToFront(us, j), keys))
  {
    forall j | 0 <= j < |us| && NoClash(agents, us)
      ensures SameTargets(RosterOf(agents, us, keys), RosterOf(agents, MovedToFront(us, j), keys))
    {
      MovedAreSamePeople(us, j);
      RosterDoesNotDependOnOrder(agents, us, MovedToFront(us, j), keys, keys);
    }
    if !NoClash(agents, us) {
      var t, j := FirstClash(agents, us);
      ClashShows(agents, us, keys, t, j);
    }
  }

  lemma ClashShows(agents: seq<Agent>, us: seq<User>, keys: seq<string>, t: Target, j: nat)
    requires j < |us| && t.name != "" && Fold(t.name) == Fold(FullName(us[j]).name) && FullName(us[j]).name != ""
    requires t.id != us[j].id && FirstOf(FullNames(us), Fold(t.name)) == Some(t)
    requires FirstOf(AgentNames(agents), Fold(t.name)).None?
    ensures !SameTargets(RosterOf(agents, us, keys), RosterOf(agents, MovedToFront(us, j), keys))
  {
    var vs, key := MovedToFront(us, j), Fold(t.name);
    FirstOfJoined(AgentNames(agents), FullNames(us), key);
    FirstOfJoined(AgentNames(agents) + FullNames(us), ShortNames(us, keys), key);
    FirstOfJoined(AgentNames(agents), FullNames(vs), key);
    FirstOfJoined(AgentNames(agents) + FullNames(vs), ShortNames(vs, keys), key);
    assert FullNames(vs)[0] == FullName(us[j]);
    RosterIsFirsts(AllNames(agents, us, keys), t);
    RosterIsFirsts(AllNames(agents, vs, keys), t);
  }
}
