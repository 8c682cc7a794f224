/** "/slug" picks in a message: found at the start of a word, parsed without repeats, and stripped
of their slash. */
module PickTokens {
  import opened Common

  /** White space as the pattern reads it. */
  predicate IsBlank(c: char) { c == ' ' || c == '\t' || c == '\n' || c == '\U{0C}' || c == '\r' }

  predicate IsSlugStart(c: char) { 'a' <= c <= 'z' || '0' <= c <= '9' }

  predicate IsSlugChar(c: char) { IsSlugStart(c) || c == '-' }

  /** How many slug characters s begins with. */
  function SlugLength(s: string): (n: nat)
    ensures n <= |s| && (n < |s| ==> !IsSlugChar(s[n]))
  {
    if s == "" || !IsSlugChar(s[0]) then 0 else 1 + SlugLength(s[1..])
  }

  /** Whether a pick begins right here, and how many characters stand before its slash. */
  function PickHere(s: string, atStart: bool): (k: Option<nat>)
    ensures k.Some? ==> k.value <= 1 && k.value + 2 <= |s| && IsSlugStart(s[k.value + 1])
  {
    if atStart && |s| >= 2 && s[0] == '/' && IsSlugStart(s[1]) then Some(0)
    else if |s| >= 3 && IsBlank(s[0]) && s[1] == '/' && IsSlugStart(s[2]) then Some(1)
    else None
  }

  /** Where the slug that begins at from ends. */
  function SlugEnd(s: string, from: nat): (end: nat)
    requires from < |s| && IsSlugStart(s[from])
    ensures from < end <= |s|
  {
    assert s[from..][0] == s[from];
    from + SlugLength(s[from..])
  }

  /** Every match of the pattern, leftmost first. */
  function Slugs(s: string, atStart: bool): seq<string>
    decreases |s|
  {
    if s == "" then []
    else
      var k := PickHere(s, atStart);
      if k.None? then Slugs(s[1..], false)
      else
        var end := SlugEnd(s, k.value + 1);
        [s[k.value + 1..end]] + Slugs(s[end..], false)
  }

  /** Every match whose slug is in keep loses its slash; all else stays. */
  function Stripped(s: string, atStart: bool, keep: set<string>): string
    decreases |s|
  {
    if s == "" then ""
    else
      var k := PickHere(s, atStart);
      if k.None? then [s[0]] + Stripped(s[1..], false, keep)
      else
        var end := SlugEnd(s, k.value + 1);
        var slug, rest := s[k.value + 1..end], Stripped(s[end..], false, keep);
        if slug in keep then s[..k.value] + (slug + rest) else s[..k.value] + ("/" + (slug + rest))
  }

  function Without(ss: seq<string>, drop: set<string>): seq<string> {
    if ss == [] then []
    else
      var rest := Without(ss[..|ss| - 1], drop);
      if ss[|ss| - 1] in drop then rest else rest + [ss[|ss| - 1]]
  }

  function Distinct(ss: seq<string>): seq<string> {
    if ss == [] then []
    else
      var rest := Distinct(ss[..|ss| - 1]);
      if ss[|ss| - 1] in rest then rest else rest + [ss[|ss| - 1]]
  }

  lemma {:induction false} DistinctHasAll(ss: seq<string>, x: string)
    ensures x in Distinct(ss) <==> x in ss
  {
    if ss != [] {
      assert ss == ss[..|ss| - 1] + [ss[|ss| - 1]];
      DistinctHasAll(ss[..|ss| - 1], x);
    }
  }

  function Parsed(body: string): seq<string> { Distinct(Slugs(body, true)) }

  method ParseConnectorTokens(body: string) returns (out: seq<string>)
    ensures out == Parsed(body)
  {
    var matches := Slugs(body, true);
    var seen: set<string> := {};
    out := [];
    for i := 0 to |matches|
      invariant out == Distinct(matches[..i]) && forall x :: x in seen <==> x in out
    {
      assert matches[..i + 1][..i] == matches[..i];
      if matches[i] !in seen {
        seen := seen + {matches[i]};
        out := out + [matches[i]];
      }
    }
    assert matches[..|matches|] == matches;
  }

  function ToSet(ss: seq<string>): set<string> { set s | s in ss }

  method StripConnectorTokens(body: string, slugs: seq<string>) returns (out: string)
    ensures out == Stripped(body, true, ToSet(slugs))
  {
    if |slugs| == 0 {
      assert ToSet(slugs) == {};
      NothingToStrip(body, true);
      return body;
    }
    var keep := ToSet(slugs);
    out := "";
    var rest, atStart := body, true;
    while rest != ""
      invariant out + Stripped(rest, atStart, keep) == Stripped(body, true, keep)
      decreases |rest|
    {
      var k := PickHere(rest, atStart);
      var text, next := [rest[0]], 1;
      if k.Some? {
        next := SlugEnd(rest, k.value + 1);
        var slug := rest[k.value + 1..next];
        text := if slug in keep then rest[..k.value] + slug else rest[..next];
      }
      Passed(rest, atStart, keep, text, next);
      Appended(out, text, Stripped(rest[next..], false, keep));
      out, rest, atStart := out + text, rest[next..], false;
    }
  }

  // ------------------------------------------------------------ what stripping leaves

  predicate IsSlug(s: string) { s != "" && IsSlugStart(s[0]) && SlugLength(s) == |s| }

  predicate IsLead(s: string) { s == "" || (|s| == 1 && IsBlank(s[0])) }

  /** Nothing here would make a slug in front of it longer. */
  predicate EndsSlug(s: string) { s != "" ==> !IsSlugChar(s[0]) }

  lemma {:induction false} SlugThenRest(slug: string, rest: string)
    requires SlugLength(slug) == |slug| && EndsSlug(rest)
    ensures SlugLength(slug + rest) == |slug|
  {
    if slug == "" {
      assert slug + rest == rest;
    } else {
      assert (slug + rest)[1..] == slug[1..] + rest;
      SlugThenRest(slug[1..], rest);
    }
  }

  lemma {:induction false} SlugTaken(s: string)
    ensures SlugLength(s[..SlugLength(s)]) == SlugLength(s)
  {
    if s != "" && IsSlugChar(s[0]) {
      SlugTaken(s[1..]);
      assert s[..SlugLength(s)][1..] == s[1..][..SlugLength(s[1..])];
    }
  }

  /** A text that begins with a pick, in its parts; they are what both functions see. */
  lemma PickParts(s: string, atStart: bool) returns (lead: string, slug: string, rest: string)
    requires s != "" && PickHere(s, atStart).Some?
    ensures s == lead + ("/" + (slug + rest)) && |rest| < |s|
    ensures IsLead(lead) && IsSlug(slug) && EndsSlug(rest) && (atStart || lead != "")
  {
    var k := PickHere(s, atStart).value;
    var tail := s[k + 1..];
    var n := SlugLength(tail);
    SlugTaken(tail);
    lead, slug, rest := s[..k], tail[..n], tail[n..];
  }

  lemma PickIsSeen(s: string, lead: string, slug: string, rest: string, atStart: bool)
    requires s == lead + ("/" + (slug + rest))
    requires IsLead(lead) && IsSlug(slug) && EndsSlug(rest) && (atStart || lead != "")
    ensures PickHere(s, atStart) == Some(|lead|) && SlugEnd(s, |lead| + 1) == |lead| + 1 + |slug|
    ensures s[..|lead|] == lead && s[|lead| + 1..|lead| + 1 + |slug|] == slug && s[|lead| + 1 + |slug|..] == rest
  {
    assert s[|lead| + 1..] == slug + rest;
    assert lead != "" ==> s[0] == lead[0];
    assert s[|lead|] == '/' && s[|lead| + 1] == slug[0];
    SlugThenRest(slug, rest);
  }

  /** What both functions make of it. */
  lemma PickIsRead(s: string, lead: string, slug: string, rest: string, atStart: bool, keep: set<string>)
    requires s == lead + ("/" + (slug + rest))
    requires IsLead(lead) && IsSlug(slug) && EndsSlug(rest) && (atStart || lead != "")
    ensures Slugs(s, atStart) == [slug] + Slugs(rest, false)
    ensures Stripped(s, atStart, keep) == if slug in keep then lead + (slug + Stripped(rest, false, keep))
                                          else lead + ("/" + (slug + Stripped(rest, false, keep)))
  {
    PickIsSeen(s, lead, slug, rest, atStart);
  }

  lemma {:induction false} NothingToStrip(s: string, atStart: bool)
    ensures Stripped(s, atStart, {}) == s
    decreases |s|
  {
    if s != "" {
      if PickHere(s, atStart).None? {
        NothingToStrip(s[1..], false);
      } else {
        var lead, slug, rest := PickParts(s, atStart);
        PickIsRead(s, lead, slug, rest, atStart, {});
        NothingToStrip(rest, false);
      }
    }
  }

  /** What goes out for the text up to next. */
  lemma Passed(s: string, atStart: bool, keep: set<string>, text: string, next: nat)
    requires s != "" && next <= |s|
    requires var k := PickHere(s, atStart);
             if k.None? then text == [s[0]] && next == 1
             else next == SlugEnd(s, k.value + 1)
                  && text == if s[k.value + 1..next] in keep then s[..k.value] + s[k.value + 1..next] else s[..next]
    ensures Stripped(s, atStart, keep) == text + Stripped(s[next..], false, keep)
  {
    if PickHere(s, atStart).Some? {
      var lead, slug, rest := PickParts(s, atStart);
      PickIsSeen(s, lead, slug, rest, atStart);
      PickIsRead(s, lead, slug, rest, atStart, keep);
      PickPassed(s, lead, slug, rest, Stripped(rest, false, keep));
    }
  }

  lemma PickPassed(s: string, lead: string, slug: string, rest: string, after: string)
    requires s == lead + ("/" + (slug + rest))
    ensures lead + (slug + after) == (lead + slug) + after
    ensures lead + ("/" + (slug + after)) == s[..|lead| + 1 + |slug|] + after
  {
    assert s[..|lead| + 1 + |slug|] == lead + ("/" + slug);
  }

  /** A character that begins no pick still begins none. */
  lemma StillNoPick(s: string, atStart: bool, keep: set<string>)
    requires s != "" && PickHere(s, atStart).None?
    ensures PickHere([s[0]] + Stripped(s[1..], false, keep), atStart).None?
  {
    if |s| >= 2 && s[1] == '/' {
      assert s[1..][1..] == s[2..];
      assert Stripped(s[1..], false, keep) == "/" + Stripped(s[2..], false, keep);
    }
  }

  /** A word made of slug characters holds no pick. */
  lemma {:induction false} WordIsPassed(word: string, rest: string, atStart: bool, keep: set<string>)
    requires word != "" && SlugLength(word) == |word|
    ensures Slugs(word + rest, atStart) == Slugs(rest, false)
    ensures Stripped(word + rest, atStart, keep) == word + Stripped(rest, false, keep)
    decreases |word|
  {
    var s := word + rest;
    assert s[0] == word[0] && PickHere(s, atStart).None?;
    if |word| == 1 {
      assert s[1..] == rest;
    } else {
      assert s[1..] == word[1..] + rest && word == [word[0]] + word[1..];
      WordIsPassed(word[1..], rest, false, keep);
      Appended([word[0]], word[1..], Stripped(rest, false, keep));
    }
  }

  /** Nor does the blank in front of it start one. */
  lemma LeadAndWordArePassed(lead: string, word: string, rest: string, atStart: bool, keep: set<string>)
    requires IsLead(lead) && IsSlug(word)
    ensures Slugs(lead + (word + rest), atStart) == Slugs(rest, false)
    ensures Stripped(lead + (word + rest), atStart, keep) == lead + (word + Stripped(rest, false, keep))
  {
    var s := lead + (word + rest);
    if lead == "" {
      assert s == word + rest;
      WordIsPassed(word, rest, atStart, keep);
    } else {
      assert s[1] == word[0] && s[1..] == word + rest;
      WordIsPassed(word, rest, false, keep);
    }
  }

  lemma {:induction false} WithoutFirst(s: string, ss: seq<string>, drop: set<string>)
    ensures Without([s] + ss, drop) == (if s in drop then [] else [s]) + Without(ss, drop)
  {
    var all := [s] + ss;
    if ss == [] {
      assert all[..0] == [];
    } else {
      assert all[..|all| - 1] == [s] + ss[..|ss| - 1];
      WithoutFirst(s, ss[..|ss| - 1], drop);
    }
  }

  /** Exactly the stripped picks are gone from the text; the others are found as before. */
  lemma {:induction false} StrippedSlugsAreGone(s: string, atStart: bool, keep: set<string>)
    ensures Slugs(Stripped(s, atStart, keep), atStart) == Without(Slugs(s, atStart), keep)
    decreases |s|
  {
    if s != "" {
      if PickHere(s, atStart).None? {
        StillNoPick(s, atStart, keep);
        StrippedSlugsAreGone(s[1..], false, keep);
        assert ([s[0]] + Stripped(s[1..], false, keep))[1..] == Stripped(s[1..], false, keep);
      } else {
        var lead, slug, rest := PickParts(s, atStart);
        StrippedSlugsAreGone(rest, false, keep);
        PickStripped(s, lead, slug, rest, atStart, keep);
        PickIsRead(s, lead, slug, rest, atStart, keep);
        WithoutFirst(slug, Slugs(rest, false), keep);
      }
    }
  }

  /** What is found where a pick was, after stripping. */
  lemma PickStripped(s: string, lead: string, slug: string, rest: string, atStart: bool, keep: set<string>)
    requires s == lead + ("/" + (slug + rest))
    requires IsLead(lead) && IsSlug(slug) && EndsSlug(rest) && (atStart || lead != "")
    ensures Slugs(Stripped(s, atStart, keep), atStart)
              == (if slug in keep then [] else [slug]) + Slugs(Stripped(rest, false, keep), false)
  {
    var t := Stripped(rest, false, keep);
    PickIsRead(s, lead, slug, rest, atStart, keep);
    if slug in keep {
      LeadAndWordArePassed(lead, slug, t, atStart, keep);
    } else {
      PickIsRead(lead + ("/" + (slug + t)), lead, slug, t, atStart, keep);
    }
  }

  lemma {:induction false} DistinctThenWithout(ss: seq<string>, drop: set<string>)
    ensures Distinct(Without(ss, drop)) == Without(Distinct(ss), drop)
  {
    if ss != [] {
      var init, last := ss[..|ss| - 1], ss[|ss| - 1];
      DistinctThenWithout(init, drop);
      if last !in drop {
        var kept := Without(init, drop);
        assert (kept + [last])[..|kept|] == kept;
        WithoutKeeps(Distinct(init), drop, last);
      }
      if last !in Distinct(init) {
        assert (Distinct(init) + [last])[..|Distinct(init)|] == Distinct(init);
      }
    }
  }

  lemma {:induction false} WithoutKeeps(ss: seq<string>, drop: set<string>, x: string)
    ensures x in Without(ss, drop) <==> x in ss && x !in drop
  {
    if ss != [] {
      assert ss == ss[..|ss| - 1] + [ss[|ss| - 1]];
      WithoutKeeps(ss[..|ss| - 1], drop, x);
    }
  }

  // ------------------------------------------------------------ what counts as a pick

  /** A slash at the start of a word, with a slug behind it. */
  predicate PickAt(s: string, atStart: bool, i: int) {
    && 0 <= i < |s| - 1 && s[i] == '/' && IsSlugStart(s[i + 1])
    && (if i == 0 then atStart else IsBlank(s[i - 1]))
  }

  function SlugAt(s: string, i: nat): string
    requires i + 1 < |s| && IsSlugStart(s[i + 1])
  {
    s[i + 1..SlugEnd(s, i + 1)]
  }

  lemma SlugAtShifts(s: string, k: nat, i: nat)
    requires k + i + 1 < |s| && IsSlugStart(s[k + i + 1])
    ensures SlugAt(s, k + i) == SlugAt(s[k..], i)
  {
    assert s[k..][i + 1..] == s[k + i + 1..];
  }

  /** Nothing inside a slug, nor right behind it, begins another pick. */
  lemma NoPickInside(s: string, from: nat, end: nat, i: nat)
    requires from < end <= |s| && from < i <= end && SlugLength(s[from..]) == end - from
    ensures !PickAt(s, false, i)
  {
    SlugCharsOnly(s[from..], i - from - 1);
    if i < end { SlugCharsOnly(s[from..], i - from); }
  }

  lemma {:induction false} SlugCharsOnly(s: string, i: nat)
    requires i < SlugLength(s)
    ensures IsSlugChar(s[i])
  {
    if i > 0 { SlugCharsOnly(s[1..], i - 1); }
  }

  /** Where the text goes on after its first character, or after the pick at its head. */
  function After(s: string, atStart: bool): (next: nat)
    requires s != ""
    ensures 0 < next <= |s|
  {
    var k := PickHere(s, atStart);
    if k.None? then 1 else SlugEnd(s, k.value + 1)
  }

  predicate AtHead(s: string, atStart: bool, i: int) { PickHere(s, atStart).Some? && PickHere(s, atStart).value == i }

  /** A pick that is not at the head is a pick of what follows. */
  lemma LaterPick(s: string, atStart: bool, i: int)
    requires s != "" && PickAt(s, atStart, i) && !AtHead(s, atStart, i)
    ensures var next := After(s, atStart);
            i > next && PickAt(s[next..], false, i - next) && SlugAt(s[next..], i - next) == SlugAt(s, i)
  {
    var k, next := PickHere(s, atStart), After(s, atStart);
    if k.Some? {
      assert i > k.value + 1;
      if i <= next { NoPickInside(s, k.value + 1, next, i); }
    }
    SlugAtShifts(s, next, i - next);
  }

  /** A slug stands somewhere at the start of a word. */
  ghost predicate Stands(s: string, atStart: bool, slug: string) {
    exists i :: PickAt(s, atStart, i) && SlugAt(s, i) == slug
  }

  lemma StandsFurtherOn(s: string, atStart: bool, slug: string)
    requires s != "" && Stands(s[After(s, atStart)..], false, slug)
    ensures Stands(s, atStart, slug)
  {
    var next := After(s, atStart);
    var i :| PickAt(s[next..], false, i) && SlugAt(s[next..], i) == slug;
    SlugAtShifts(s, next, i);
    assert PickAt(s, atStart, next + i);
  }

  lemma HeadThenRest(s: string, atStart: bool, slug: string)
    requires s != ""
    ensures slug in Slugs(s, atStart) <==>
              || (PickHere(s, atStart).Some? && slug == SlugAt(s, PickHere(s, atStart).value))
              || slug in Slugs(s[After(s, atStart)..], false)
  {
  }

  lemma {:induction false} SlugStands(s: string, atStart: bool, slug: string)
    requires slug in Slugs(s, atStart)
    ensures Stands(s, atStart, slug)
    decreases |s|
  {
    HeadThenRest(s, atStart, slug);
    if slug in Slugs(s[After(s, atStart)..], false) {
      SlugStands(s[After(s, atStart)..], false, slug);
      StandsFurtherOn(s, atStart, slug);
    }
  }

  lemma {:induction false} PickIsSlug(s: string, atStart: bool, i: nat)
    requires PickAt(s, atStart, i)
    ensures SlugAt(s, i) in Slugs(s, atStart)
    decreases |s|
  {
    HeadThenRest(s, atStart, SlugAt(s, i));
    if !AtHead(s, atStart, i) {
      LaterPick(s, atStart, i);
      PickIsSlug(s[After(s, atStart)..], false, i - After(s, atStart));
    }
  }

  /** What is found is exactly what stands at the start of a word. */
  lemma SlugsAreThePicks(s: string, atStart: bool, slug: string)
    ensures slug in Slugs(s, atStart) <==> Stands(s, atStart, slug)
  {
    if slug in Slugs(s, atStart) { SlugStands(s, atStart, slug); }
    if Stands(s, atStart, slug) {
      var i :| PickAt(s, atStart, i) && SlugAt(s, i) == slug;
      PickIsSlug(s, atStart, i);
    }
  }

  // ------------------------------------------------------------ main results

  /** Parsing what stripping leaves gives the picks that were not stripped, in their order. */
  lemma ParseAfterStrip(body: string, keep: set<string>)
    ensures Parsed(Stripped(body, true, keep)) == Without(Parsed(body), keep)
  {
    StrippedSlugsAreGone(body, true, keep);
    DistinctThenWithout(Slugs(body, true), keep);
  }

  /** Stripping in two goes is stripping at once; stripping again changes nothing. */
  lemma {:induction false} StripTwice(s: string, atStart: bool, first: set<string>, second: set<string>)
    ensures Stripped(Stripped(s, atStart, first), atStart, second) == Stripped(s, atStart, first + second)
    decreases |s|
  {
    if s != "" {
      if PickHere(s, atStart).None? {
        StillNoPick(s, atStart, first);
        StripTwice(s[1..], false, first, second);
        assert ([s[0]] + Stripped(s[1..], false, first))[1..] == Stripped(s[1..], false, first);
      } else {
        var lead, slug, rest := PickParts(s, atStart);
        StripTwice(rest, false, first, second);
        PickStrippedAgain(s, lead, slug, rest, atStart, first, second);
        PickIsRead(s, lead, slug, rest, atStart, first + second);
      }
    }
  }

  lemma PickStrippedAgain(
    s: string, lead: string, slug: string, rest: string, atStart: bool, first: set<string>, second: set<string>)
    requires s == lead + ("/" + (slug + rest))
    requires IsLead(lead) && IsSlug(slug) && EndsSlug(rest) && (atStart || lead != "")
    ensures var t := Stripped(Stripped(rest, false, first), false, second);
            Stripped(Stripped(s, atStart, first), atStart, second)
              == if slug in first || slug in second then lead + (slug + t) else lead + ("/" + (slug + t))
  {
    var t := Stripped(rest, false, first);
    PickIsRead(s, lead, slug, rest, atStart, first);
    if slug in first {
      LeadAndWordArePassed(lead, slug, t, atStart, second);
    } else {
      PickIsRead(lead + ("/" + (slug + t)), lead, slug, t, atStart, second);
    }
  }

  lemma StripIsIdempotent(body: string, keep: set<string>)
    ensures Stripped(Stripped(body, true, keep), true, keep) == Stripped(body, true, keep)
  {
    StripTwice(body, true, keep, keep);
    assert keep + keep == keep;
  }
}
