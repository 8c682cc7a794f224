/** What a post with mentions put in reads, character by character, and whose names the roster has. */
module LinkifyText {
  import opened Common
  import opened Linkify
  import opened LinkifyRoster

  // ------------------------------------------------------------ letters and words

  predicate SameLetter(c: char, d: char) {
    || c == d
    || ('A' <= c <= 'Z' && d as int == c as int + 32)
    || ('a' <= c <= 'z' && d as int == c as int - 32)
  }

  predicate SameButCase(s: string, t: string) { |s| == |t| && forall i | 0 <= i < |s| :: SameLetter(s[i], t[i]) }

  /** Folding forgets the case of letters and nothing else. */
  lemma {:induction false} FoldIff(s: string, t: string)
    ensures Fold(s) == Fold(t) <==> SameButCase(s, t)
  {
    if |s| == |t| && s != "" {
      FoldIff(s[1..], t[1..]);
      assert Fold(s) == Fold(t) <==> SameLetter(s[0], t[0]) && Fold(s[1..]) == Fold(t[1..]) by {
        assert Fold(s)[0] == FoldChar(s[0]) && Fold(t)[0] == FoldChar(t[0]);
        assert Fold(s)[1..] == Fold(s[1..]) && Fold(t)[1..] == Fold(t[1..]);
      }
      assert SameButCase(s, t) <==> SameLetter(s[0], t[0]) && SameButCase(s[1..], t[1..]) by {
        if SameLetter(s[0], t[0]) && SameButCase(s[1..], t[1..]) {
          assert forall i | 1 <= i < |s| :: s[i] == s[1..][i - 1] && t[i] == t[1..][i - 1];
        }
      }
    }
  }

  predicate Wordy(c: char) { 'a' <= c <= 'z' || 'A' <= c <= 'Z' || '0' <= c <= '9' || c == '_' }

  /** An "@" that could begin a mention: no word, no "[" and no "|" right before it. */
  predicate Begins(body: string, at: nat)
    requires at < |body|
  {
    body[at] == '@' && (at == 0 || (!Wordy(body[at - 1]) && body[at - 1] !in "[|"))
  }

  /** The name stands behind the "@", in whatever case, and the word ends with it. */
  predicate NameStands(body: string, at: nat, name: string) {
    var end := at + 1 + |name|;
    end <= |body| && SameButCase(body[at + 1..end], name) && (end < |body| ==> !Wordy(body[end]))
  }

  ghost predicate LongestThatStands(body: string, at: nat, ts: seq<Target>, t: Target) {
    t in ts && NameStands(body, at, t.name) && forall u <- ts | NameStands(body, at, u.name) :: |u.name| <= |t.name|
  }

  ghost predicate MentionStands(body: string, at: nat, ts: seq<Target>)
    requires at < |body|
  {
    Begins(body, at) && exists t <- ts :: NameStands(body, at, t.name)
  }

  /** The markup of a mention, and what follows it. */
  function Marked(t: Target, rest: string): string { "@[" + t.id + "|" + t.disp + "]" + rest }

  /** out is what the body reads from at on: at each "@" that begins a mention the longest name there
  gives way to the markup of its owner, and every other character is kept. */
  ghost predicate Reads(body: string, at: nat, ts: seq<Target>, out: string)
    requires at <= |body|
    decreases |body| - at
  {
    if at == |body| then out == ""
    else if MentionStands(body, at, ts) then
      exists t, rest :: LongestThatStands(body, at, ts, t) && Reads(body, at + 1 + |t.name|, ts, rest) && out == Marked(t, rest)
    else exists rest :: Reads(body, at + 1, ts, rest) && out == [body[at]] + rest
  }

  lemma MatchesIff(body: string, at: nat, t: Target)
    ensures Matches(body, at, t) <==> NameStands(body, at, t.name)
  {
    if at + 1 + |t.name| <= |body| { FoldIff(body[at + 1..at + 1 + |t.name|], t.name); }
  }

  lemma MatchesAlike(body: string, at: nat, ts: seq<Target>)
    ensures forall t <- ts :: Matches(body, at, t) <==> NameStands(body, at, t.name)
  {
    forall t | t in ts ensures Matches(body, at, t) <==> NameStands(body, at, t.name) { MatchesIff(body, at, t); }
  }

  lemma PieceReads(body: string, at: nat, ts: seq<Target>)
    requires at < |body| && LongestFirst(ts)
    ensures var p := PieceAt(body, at, ts);
      if MentionStands(body, at, ts) then p.Mention? && LongestThatStands(body, at, ts, p.t) && NextAt(at, p) == at + 1 + |p.t.name|
      else p == Byte(body[at])
  {
    PieceIsRight(body, at, ts);
    MatchesAlike(body, at, ts);
  }

  lemma MentionReads(body: string, at: nat, ts: seq<Target>, t: Target, rest: string)
    requires at < |body| && MentionStands(body, at, ts) && LongestThatStands(body, at, ts, t)
    requires Reads(body, at + 1 + |t.name|, ts, rest)
    ensures Reads(body, at, ts, Marked(t, rest))
  {}

  lemma CharacterReads(body: string, at: nat, ts: seq<Target>, rest: string)
    requires at < |body| && !MentionStands(body, at, ts)
    requires Reads(body, at + 1, ts, rest)
    ensures Reads(body, at, ts, [body[at]] + rest)
  {}

  lemma PieceThenRest(body: string, at: nat, ts: seq<Target>, p: Piece, rest: string)
    requires at < |body| && LongestFirst(ts) && p == PieceAt(body, at, ts) && Reads(body, NextAt(at, p), ts, rest)
    ensures Reads(body, at, ts, if p.Byte? then [p.c] + rest else Marked(p.t, rest))
  {
    PieceReads(body, at, ts);
    if MentionStands(body, at, ts) {
      MentionReads(body, at, ts, p.t, rest);
    } else {
      CharacterReads(body, at, ts, rest);
    }
  }

  lemma RenderedStep(body: string, at: nat, ts: seq<Target>)
    requires at < |body|
    ensures var p := PieceAt(body, at, ts);
            var rest := Rendered(Pieces(body, NextAt(at, p), ts));
            Rendered(Pieces(body, at, ts)) == if p.Byte? then [p.c] + rest else Marked(p.t, rest)
  {
    var p := PieceAt(body, at, ts);
    assert Pieces(body, at, ts)[1..] == Pieces(body, NextAt(at, p), ts);
  }

  /** The pieces put together read so. */
  lemma {:induction false} RenderedReads(body: string, at: nat, ts: seq<Target>)
    requires at <= |body| && LongestFirst(ts)
    ensures Reads(body, at, ts, Rendered(Pieces(body, at, ts)))
    decreases |body| - at
  {
    if at < |body| {
      var p := PieceAt(body, at, ts);
      RenderedReads(body, NextAt(at, p), ts);
      PieceThenRest(body, at, ts, p, Rendered(Pieces(body, NextAt(at, p), ts)));
      RenderedStep(body, at, ts);
    }
  }

  // ------------------------------------------------------------ whose names the roster has

  predicate IsAgents(agents: seq<Agent>, t: Target) {
    exists a <- agents :: t.id == a.id && t.disp == a.disp && (t.name == Trim(a.slug) || t.name == Trim(a.disp))
  }

  predicate IsFull(us: seq<User>, t: Target) { exists u <- us :: t.id == u.id && t.disp == u.disp && t.name == Trim(u.disp) }

  /** u has a short name that is neither the full name nor a mere prefix of names, and nobody else of
  the participants goes by it. */
  ghost predicate AloneGoesBy(us: seq<User>, u: User) {
    && u in us && HasShortName(u)
    && forall v <- us | HasShortName(v) && SameButCase(v.shortName, u.shortName) :: v == u
  }

  ghost predicate IsShort(us: seq<User>, t: Target) {
    exists u <- us :: AloneGoesBy(us, u) && t.id == u.id && t.disp == u.disp && t.name == Trim(u.shortName)
  }

  lemma {:induction false} AgentNamesAre(agents: seq<Agent>, t: Target)
    ensures t in AgentNames(agents) <==> IsAgents(agents, t)
  {
    if agents != [] {
      var init, a := agents[..|agents| - 1], agents[|agents| - 1];
      AgentNamesAre(init, t);
      assert agents == init + [a];
      assert t in AgentNames(agents) <==>
          t in AgentNames(init) || t == Target(Trim(a.slug), a.id, a.disp) || t == Target(Trim(a.disp), a.id, a.disp);
    }
  }

  lemma FullNamesAre(us: seq<User>, t: Target)
    ensures t in FullNames(us) <==> IsFull(us, t)
  {
    if u :| u in us && t.id == u.id && t.disp == u.disp && t.name == Trim(u.disp) {
      var i :| 0 <= i < |us| && us[i] == u;
      assert FullNames(us)[i] == t;
    }
    if t in FullNames(us) {
      var i :| 0 <= i < |us| && FullNames(us)[i] == t;
      assert us[i] in us;
    }
  }

  lemma AloneIff(us: seq<User>, u: User)
    requires EachOnce(us) && u in us && HasShortName(u)
    ensures WhoGoesBy(us, Fold(u.shortName)) == [u] <==> AloneGoesBy(us, u)
  {
    var key := Fold(u.shortName);
    var who := WhoGoesBy(us, key);
    WhoGoesByMember(us, key, u);
    WhoGoesByOnce(us, key);
    forall v | v in us && HasShortName(v) ensures SameButCase(v.shortName, u.shortName) <==> v in who {
      FoldIff(v.shortName, u.shortName);
      WhoGoesByMember(us, key, v);
    }
    if AloneGoesBy(us, u) {
      forall i | 0 <= i < |who| ensures who[i] == u {
        WhoGoesByMember(us, key, who[i]);
        assert SameButCase(who[i].shortName, u.shortName);
      }
      JustOne(who, u);
    }
  }

  lemma ShortNamesAre(us: seq<User>, keys: seq<string>, t: Target)
    requires EachOnce(us) && Visits(keys, us)
    ensures t in ShortNames(us, keys) <==> IsShort(us, t)
  {
    ShortNamesMembers(us, keys);
    if t in ShortNames(us, keys) {
      var k :| k in keys && |WhoGoesBy(us, k)| == 1 && t == ShortNameOf(WhoGoesBy(us, k)[0]);
      var u := WhoGoesBy(us, k)[0];
      WhoGoesByMember(us, k, u);
      assert WhoGoesBy(us, k) == [u];
      AloneIff(us, u);
    }
    if u :| u in us && AloneGoesBy(us, u) && t.id == u.id && t.disp == u.disp && t.name == Trim(u.shortName) {
      AloneIff(us, u);
      assert Fold(u.shortName) in keys;
    }
  }

  /** Whose names are offered. */
  ghost predicate Offered(agents: seq<Agent>, us: seq<User>, t: Target) {
    t.name != "" && (IsAgents(agents, t) || IsFull(us, t) || IsShort(us, t))
  }

  /** The roster has names of agents and participants only, each with its owner; every name offered is
  there, in some case, once; and the agents' names go first, then the full ones. */
  lemma RosterHasOwners(agents: seq<Agent>, us: seq<User>, keys: seq<string>, t: Target)
    requires EachOnce(us) && Visits(keys, us)
    ensures var roster := RosterOf(agents, us, keys);
      && OneTargetPerName(roster) && (t in roster ==> Offered(agents, us, t))
      && (Offered(agents, us, t) ==> exists r <- roster ::
            && SameButCase(r.name, t.name)
            && (IsAgents(agents, t) ==> IsAgents(agents, r))
            && (IsFull(us, t) ==> IsAgents(agents, r) || IsFull(us, r)))
  {
    var a, f, s := AgentNames(agents), FullNames(us), ShortNames(us, keys);
    var names := AllNames(agents, us, keys);
    RosterIsFirsts(names, t);
    AgentNamesAre(agents, t);
    FullNamesAre(us, t);
    ShortNamesAre(us, keys, t);
    assert t in names <==> t in a || t in f || t in s;
    if Offered(agents, us, t) {
      var key := Fold(t.name);
      FirstOfJoined(a + f, s, key);
      FirstOfJoined(a, f, key);
      var r := FirstOf(names, key).value;
      RosterIsFirsts(names, r);
      FoldIff(r.name, t.name);
      AgentNamesAre(agents, r);
      FullNamesAre(us, r);
    }
  }
}
