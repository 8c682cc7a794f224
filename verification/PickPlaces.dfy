/** Where the picks of a message stand, in which order they are found, and what stripping leaves of the
text, character by character. */
module PickPlaces {
  import opened Common
  import opened PickTokens

  // ------------------------------------------------------------ where a pick stands

  predicate SlugLetter(c: char) { 'a' <= c <= 'z' || '0' <= c <= '9' }

  /** A slash at the start of a word, with a letter or a digit behind it. */
  lemma PickAtIff(s: string, atStart: bool, i: nat)
    ensures PickAt(s, atStart, i) <==> && i + 1 < |s| && s[i] == '/' && SlugLetter(s[i + 1])
                                       && if i == 0 then atStart else s[i - 1] in " \t\n\U{0C}\r"
  {}

  /** Its slug runs from there to the first character that is no letter, no digit and no dash. */
  lemma SlugRuns(s: string, i: nat) returns (end: nat)
    requires i + 1 < |s| && SlugLetter(s[i + 1])
    ensures i + 1 < end <= |s| && SlugAt(s, i) == s[i + 1..end]
    ensures (forall j | i + 1 <= j < end :: SlugLetter(s[j]) || s[j] == '-') && (end < |s| ==> !SlugLetter(s[end]) && s[end] != '-')
  {
    end := SlugEnd(s, i + 1);
    forall j | i + 1 <= j < end ensures SlugLetter(s[j]) || s[j] == '-' {
      SlugCharsOnly(s[i + 1..], j - i - 1);
    }
  }

  function PicksAt(s: string, atStart: bool): set<nat> { set i: nat | i < |s| && PickAt(s, atStart, i) }

  /** The picks of a text are the one at its head, if there is one, and those of what follows. */
  lemma PicksSplit(s: string, atStart: bool)
    requires s != ""
    ensures var next := After(s, atStart);
            forall i :: i in PicksAt(s, atStart) <==> AtHead(s, atStart, i) || (i >= next && i - next in PicksAt(s[next..], false))
  {
    var next := After(s, atStart);
    forall i: nat ensures i in PicksAt(s, atStart) <==> AtHead(s, atStart, i) || (i >= next && i - next in PicksAt(s[next..], false)) {
      if i in PicksAt(s, atStart) && !AtHead(s, atStart, i) { LaterPick(s, atStart, i); }
    }
  }

  /** There are picks at these places, with these slugs. */
  ghost predicate Slugged(s: string, atStart: bool, at: seq<nat>, slugs: seq<string>) {
    |at| == |slugs| && forall k | 0 <= k < |at| :: PickAt(s, atStart, at[k]) && slugs[k] == SlugAt(s, at[k])
  }

  ghost predicate Found(s: string, atStart: bool, at: seq<nat>, slugs: seq<string>) {
    InOrder(at, PicksAt(s, atStart)) && Slugged(s, atStart, at, slugs)
  }

  lemma LaterSlugs(s: string, next: nat, at: seq<nat>, slugs: seq<string>, atStart: bool)
    requires 0 < next <= |s| && Slugged(s[next..], false, at, slugs)
    ensures Slugged(s, atStart, Shifted(at, next), slugs)
  {
    forall k | 0 <= k < |at|
      ensures PickAt(s, atStart, at[k] + next) && SlugAt(s, at[k] + next) == SlugAt(s[next..], at[k])
    {
      SlugAtShifts(s, next, at[k]);
    }
  }

  lemma FoundBehindOther(s: string, atStart: bool, at: seq<nat>, slugs: seq<string>)
    requires s != "" && PickHere(s, atStart).None? && Found(s[1..], false, at, slugs)
    ensures Found(s, atStart, Shifted(at, 1), slugs)
  {
    PicksSplit(s, atStart);
    InOrderShifted(at, PicksAt(s[1..], false), PicksAt(s, atStart), 1);
    LaterSlugs(s, 1, at, slugs, atStart);
  }

  lemma PicksBehindPick(s: string, atStart: bool, at: seq<nat>)
    requires s != "" && PickHere(s, atStart).Some? && InOrder(at, PicksAt(s[After(s, atStart)..], false))
    ensures InOrder([PickHere(s, atStart).value] + Shifted(at, After(s, atStart)), PicksAt(s, atStart))
  {
    var k, next := PickHere(s, atStart).value, After(s, atStart);
    var later := set i: nat | i in PicksAt(s, atStart) && i >= next;
    PicksSplit(s, atStart);
    InOrderShifted(at, PicksAt(s[next..], false), later, next);
    InOrderFirst(Shifted(at, next), later, k);
    assert later + {k} == PicksAt(s, atStart);
  }

  lemma SlugFirst(s: string, atStart: bool, k: nat, at: seq<nat>, slugs: seq<string>)
    requires PickAt(s, atStart, k) && Slugged(s, atStart, at, slugs)
    ensures Slugged(s, atStart, [k] + at, [SlugAt(s, k)] + slugs)
  {}

  lemma FoundBehindPick(s: string, atStart: bool, at: seq<nat>, slugs: seq<string>)
    requires s != "" && PickHere(s, atStart).Some? && Found(s[After(s, atStart)..], false, at, slugs)
    ensures var k := PickHere(s, atStart).value;
            Found(s, atStart, [k] + Shifted(at, After(s, atStart)), [SlugAt(s, k)] + slugs)
  {
    var k, next := PickHere(s, atStart).value, After(s, atStart);
    PicksBehindPick(s, atStart, at);
    LaterSlugs(s, next, at, slugs, atStart);
    SlugFirst(s, atStart, k, Shifted(at, next), slugs);
  }

  /** The picks are found from left to right, each once. */
  lemma {:induction false} SlugsInOrder(s: string, atStart: bool) returns (at: seq<nat>)
    ensures Found(s, atStart, at, Slugs(s, atStart))
    decreases |s|
  {
    at := [];
    if s != "" {
      var next := After(s, atStart);
      at := SlugsInOrder(s[next..], false);
      if PickHere(s, atStart).Some? {
        FoundBehindPick(s, atStart, at, Slugs(s[next..], false));
        at := [PickHere(s, atStart).value] + Shifted(at, next);
      } else {
        FoundBehindOther(s, atStart, at, Slugs(s[1..], false));
        at := Shifted(at, 1);
      }
    }
  }

  // ------------------------------------------------------------ without repeats

  function FirstsAt(ss: seq<string>): set<nat> { set i: nat | i < |ss| && ss[i] !in ss[..i] }

  /** Each text once, where it first appears. */
  lemma {:induction false} DistinctKeepsFirsts(ss: seq<string>) returns (at: seq<nat>)
    ensures InOrder(at, FirstsAt(ss)) && |at| == |Distinct(ss)|
    ensures forall k | 0 <= k < |at| :: at[k] < |ss| && Distinct(ss)[k] == ss[at[k]]
  {
    at := [];
    if ss != [] {
      var init, last := ss[..|ss| - 1], ss[|ss| - 1];
      at := DistinctKeepsFirsts(init);
      DistinctHasAll(init, last);
      assert forall i | 0 <= i < |init| :: ss[..i] == init[..i];
      if last !in init {
        OneMoreInOrder(at, FirstsAt(init), |init|);
        at := at + [|init|];
        assert FirstsAt(ss) == FirstsAt(init) + {|init|};
      } else {
        assert FirstsAt(ss) == FirstsAt(init);
      }
    }
  }

  // ------------------------------------------------------------ what stripping leaves

  /** The slash of a pick to strip. */
  predicate IsSlash(s: string, atStart: bool, keep: set<string>, i: nat) { PickAt(s, atStart, i) && SlugAt(s, i) in keep }

  /** The first n characters without those slashes. */
  function Unslashed(s: string, atStart: bool, keep: set<string>, n: nat): string
    requires n <= |s|
  {
    if n == 0 then ""
    else Unslashed(s, atStart, keep, n - 1) + if IsSlash(s, atStart, keep, n - 1) then "" else [s[n - 1]]
  }

  lemma LaterPickIff(s: string, atStart: bool, next: nat, i: nat)
    requires s != "" && next == After(s, atStart) && i < |s| - next
    ensures PickAt(s[next..], false, i) <==> PickAt(s, atStart, next + i)
  {
    PicksSplit(s, atStart);
    assert next + i in PicksAt(s, atStart) <==> i in PicksAt(s[next..], false);
  }

  lemma LaterSlash(s: string, atStart: bool, keep: set<string>, next: nat, i: nat)
    requires s != "" && next == After(s, atStart) && i < |s| - next
    ensures IsSlash(s[next..], false, keep, i) <==> IsSlash(s, atStart, keep, next + i)
  {
    LaterPickIff(s, atStart, next, i);
    if PickAt(s[next..], false, i) { SlugAtShifts(s, next, i); }
  }

  lemma HeadSlash(s: string, atStart: bool, keep: set<string>, i: nat)
    requires s != "" && i < After(s, atStart)
    ensures IsSlash(s, atStart, keep, i) <==> AtHead(s, atStart, i) && SlugAt(s, i) in keep
  {
    PicksSplit(s, atStart);
    assert i in PicksAt(s, atStart) <==> AtHead(s, atStart, i);
  }

  lemma {:induction false} UnslashedSplit(s: string, atStart: bool, keep: set<string>, next: nat, n: nat)
    requires s != "" && next == After(s, atStart) && n <= |s| - next
    ensures Unslashed(s, atStart, keep, next + n) == Unslashed(s, atStart, keep, next) + Unslashed(s[next..], false, keep, n)
  {
    if n > 0 {
      UnslashedSplit(s, atStart, keep, next, n - 1);
      LaterSlash(s, atStart, keep, next, n - 1);
      var last := if IsSlash(s, atStart, keep, next + n - 1) then "" else [s[next + n - 1]];
      Appended(Unslashed(s, atStart, keep, next), Unslashed(s[next..], false, keep, n - 1), last);
    }
  }

  lemma {:induction false} NoneBetween(s: string, atStart: bool, keep: set<string>, from: nat, to: nat)
    requires from <= to <= |s| && forall i | from <= i < to :: !IsSlash(s, atStart, keep, i)
    ensures Unslashed(s, atStart, keep, to) == Unslashed(s, atStart, keep, from) + s[from..to]
  {
    if from < to {
      NoneBetween(s, atStart, keep, from, to - 1);
      Appended(Unslashed(s, atStart, keep, from), s[from..to - 1], [s[to - 1]]);
      assert s[from..to] == s[from..to - 1] + [s[to - 1]];
    }
  }

  /** Up to where the text goes on after its head. */
  lemma HeadUnslashed(s: string, atStart: bool, keep: set<string>)
    requires s != ""
    ensures var k, next := PickHere(s, atStart), After(s, atStart);
            Unslashed(s, atStart, keep, next)
              == if k.Some? && SlugAt(s, k.value) in keep then s[..k.value] + s[k.value + 1..next] else s[..next]
  {
    var k, next := PickHere(s, atStart), After(s, atStart);
    forall i | 0 <= i < next ensures IsSlash(s, atStart, keep, i) <==> AtHead(s, atStart, i) && SlugAt(s, i) in keep {
      HeadSlash(s, atStart, keep, i);
    }
    if k.Some? && SlugAt(s, k.value) in keep {
      NoneBetween(s, atStart, keep, 0, k.value);
      NoneBetween(s, atStart, keep, k.value + 1, next);
      assert IsSlash(s, atStart, keep, k.value);
    } else {
      NoneBetween(s, atStart, keep, 0, next);
    }
  }

  lemma HeadIs(s: string, atStart: bool, keep: set<string>)
    requires s != ""
    ensures var next := After(s, atStart);
            Stripped(s, atStart, keep) == Unslashed(s, atStart, keep, next) + Stripped(s[next..], false, keep)
  {
    var k, next := PickHere(s, atStart), After(s, atStart);
    HeadUnslashed(s, atStart, keep);
    assert s[..1] == [s[0]];
    Passed(s, atStart, keep, Unslashed(s, atStart, keep, next), next);
  }

  /** Stripping takes the slash of each pick to strip out of the text, and nothing else. */
  lemma {:induction false} StrippedIs(s: string, atStart: bool, keep: set<string>)
    ensures Stripped(s, atStart, keep) == Unslashed(s, atStart, keep, |s|)
    decreases |s|
  {
    if s != "" {
      var next := After(s, atStart);
      StrippedIs(s[next..], false, keep);
      HeadIs(s, atStart, keep);
      UnslashedSplit(s, atStart, keep, next, |s| - next);
    }
  }
}
