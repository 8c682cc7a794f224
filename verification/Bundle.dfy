/** The context document of a run: layers charged against one budget, mandatory ones whatever it
takes, optional ones whole or not at all, and the newest messages with what is left. A text is the
sequence of its bytes, a character each. */
module Bundle {
  import opened Common

  const BUDGET := 96_000
  const SKILL_INDEX_MAX := 2_000
  const PROJECTS_MAX := 4_000

  function Concat(ss: seq<string>): string { if ss == [] then "" else Concat(ss[..|ss| - 1]) + ss[|ss| - 1] }

  function Total(ss: seq<string>): nat { if ss == [] then 0 else Total(ss[..|ss| - 1]) + |ss[|ss| - 1]| }

  lemma {:induction false} TotalJoined(a: seq<string>, b: seq<string>)
    ensures Total(a + b) == Total(a) + Total(b)
  {
    if b == [] {
      assert a + b == a;
    } else {
      assert (a + b)[..|a + b| - 1] == a + b[..|b| - 1];
      TotalJoined(a, b[..|b| - 1]);
    }
  }

  lemma TotalOfOne(s: string)
    ensures Total([s]) == |s|
  {
    assert [s][..0] == [];
  }

  lemma {:induction false} ConcatLength(ss: seq<string>)
    ensures |Concat(ss)| == Total(ss)
  {
    if ss != [] { ConcatLength(ss[..|ss| - 1]); }
  }

  lemma OneLineMore(lines: seq<string>, k: nat)
    requires k < |lines|
    ensures Total(lines[k..]) == |lines[k]| + Total(lines[k + 1..])
  {
    assert lines[k..] == [lines[k]] + lines[k + 1..];
    TotalJoined([lines[k]], lines[k + 1..]);
    TotalOfOne(lines[k]);
  }

  // ------------------------------------------------------------ older lines, clipped

  const VERBATIM := 12
  const CLIPPED := 160
  const ELLIPSIS: string := ['\U{E2}', '\U{80}', '\U{A6}']

  /** A byte that goes on with the rune begun before it. */
  predicate GoesOn(c: char) { '\U{80}' <= c <= '\U{BF}' }

  function Runes(s: string): nat { if s == "" then 0 else Runes(s[..|s| - 1]) + if GoesOn(s[|s| - 1]) then 0 else 1 }

  /** How many bytes the first n runes take. */
  function RunesEnd(s: string, n: nat): (k: nat)
    ensures k <= |s| && Runes(s[..k]) <= n
    ensures k < |s| ==> !GoesOn(s[k]) && Runes(s[..k]) == n
  {
    if s == "" then 0
    else
      var init, k := s[..|s| - 1], RunesEnd(s[..|s| - 1], n);
      assert k < |init| ==> s[..k] == init[..k];
      if k < |init| then k
      else if !GoesOn(s[|s| - 1]) && Runes(init) == n then (assert s[..k] == init; k)
      else (assert init[..k] == init && s[..|s|] == s; |s|)
  }

  /** A text longer than max bytes is cut after its first max runes, if it has more. */
  function ClipText(s: string, max: nat): string {
    if |s| <= max || RunesEnd(s, max) == |s| then s else s[..RunesEnd(s, max)] + ELLIPSIS
  }

  function TrimNewlines(s: string): string { if s != "" && s[|s| - 1] == '\n' then TrimNewlines(s[..|s| - 1]) else s }

  function Headline(line: string): string {
    var text := TrimNewlines(line);
    if |text| > CLIPPED then ClipText(text, CLIPPED) + "\n" else line
  }

  /** All but the newest lines are clipped to a headline. */
  function Compressed(lines: seq<string>): (r: seq<string>)
    ensures |r| == |lines| && (forall i | |lines| - 12 <= i < |lines| && 0 <= i :: r[i] == lines[i])
    ensures forall i | 0 <= i < |lines| - 12 :: r[i] == Headline(lines[i])
  {
    seq(|lines|, i requires 0 <= i < |lines| => if i < |lines| - VERBATIM then Headline(lines[i]) else lines[i])
  }

  lemma {:induction false} TrimmedIsFront(s: string)
    ensures TrimNewlines(s) <= s && |TrimNewlines(s)| <= |s|
  {
    if s != "" && s[|s| - 1] == '\n' { TrimmedIsFront(s[..|s| - 1]); }
  }

  lemma {:induction false} RunesJoined(a: string, b: string)
    ensures Runes(a + b) == Runes(a) + Runes(b)
  {
    if b == "" {
      assert a + b == a;
    } else {
      assert (a + b)[..|a + b| - 1] == a + b[..|b| - 1];
      RunesJoined(a, b[..|b| - 1]);
    }
  }

  /** A headline begins as its line does, for up to the first hundred and sixty runes, breaks no
  rune, has at most two runes more, and a line that fits is kept as it is. It may come out longer
  than its line, by two bytes at most if the line ends in a line break. */
  lemma HeadlineKeepsFront(line: string)
    ensures var k := RunesEnd(TrimNewlines(line), CLIPPED);
            && k <= |line| && k <= |Headline(line)| && Headline(line)[..k] == line[..k]
            && (Headline(line) != line ==> Runes(Headline(line)) <= CLIPPED + 2)
            && (Runes(TrimNewlines(line)) <= CLIPPED ==> TrimNewlines(Headline(line)) == TrimNewlines(line))
            && |Headline(line)| <= |line| + 3
            && (TrimNewlines(line) != line ==> |Headline(line)| <= |line| + 2)
  {
    var text := TrimNewlines(line);
    var k := RunesEnd(text, CLIPPED);
    TrimmedIsFront(line);
    assert text[..k] == line[..k];
    if |text| > CLIPPED {
      ClippedRunes(text);
      RunesJoined(ClipText(text, CLIPPED), "\n");
      assert "\n"[..0] == "" && Runes("\n") == 1;
      assert Headline(line)[..k] == text[..k];
      assert (text + "\n")[..|text|] == text;
    }
    if Runes(text) <= CLIPPED { FewRunes(text); }
  }

  lemma EllipsisIsOneRune()
    ensures Runes(ELLIPSIS) == 1
  {
    var first, two := ELLIPSIS[..1], ELLIPSIS[..2];
    assert first[..0] == "" && two[..1] == first;
    assert Runes(first) == 1 && Runes(two) == 1;
  }

  lemma ClippedRunes(s: string)
    requires |s| > CLIPPED
    ensures Runes(ClipText(s, CLIPPED)) <= CLIPPED + 1
  {
    var k := RunesEnd(s, CLIPPED);
    if k == |s| {
      assert s[..k] == s;
    } else {
      RunesJoined(s[..k], ELLIPSIS);
      EllipsisIsOneRune();
    }
  }

  lemma FewRunes(s: string)
    requires Runes(s) <= CLIPPED
    ensures RunesEnd(s, CLIPPED) == |s|
  {
  }

  // ------------------------------------------------------------ whole lines, as far as they fit

  /** The lines kept when each is taken if it still fits. */
  function Fitting(lines: seq<string>, budget: int): seq<string> {
    if lines == [] then []
    else if |lines[0]| > budget then Fitting(lines[1..], budget)
    else [lines[0]] + Fitting(lines[1..], budget - |lines[0]|)
  }

  /** Together they fit, and everything is kept when everything fits. */
  lemma {:induction false} FittingFits(lines: seq<string>, budget: int)
    ensures var kept := Fitting(lines, budget);
            && |kept| <= |lines| && (Total(kept) == 0 || Total(kept) <= budget)
            && (Total(lines) <= budget && budget >= 0 ==> kept == lines)
  {
    if lines != [] {
      OneLineMore(lines, 0);
      FittingFits(lines[1..], budget);
      FittingFits(lines[1..], budget - |lines[0]|);
      FrontTotal(lines[0], Fitting(lines[1..], budget - |lines[0]|));
      assert lines == [lines[0]] + lines[1..];
    }
  }

  lemma FrontTotal(s: string, ss: seq<string>)
    ensures Total([s] + ss) == |s| + Total(ss)
  {
    TotalJoined([s], ss);
    TotalOfOne(s);
  }

  /** The optional layers that fit, each whole. */
  function Taken(layers: seq<string>, budget: int): seq<string> {
    if layers == [] then []
    else if layers[0] == "" || |layers[0]| > budget then Taken(layers[1..], budget)
    else [layers[0]] + Taken(layers[1..], budget - |layers[0]|)
  }

  /** Where the longest run of newest lines that fits begins. */
  function KeepFrom(lines: seq<string>, budget: int): (k: nat)
    ensures k <= |lines|
  {
    if lines == [] then 0
    else
      var last := lines[|lines| - 1];
      if |last| > budget then |lines| else KeepFrom(lines[..|lines| - 1], budget - |last|)
  }

  predicate SuffixFits(lines: seq<string>, k: nat, budget: int)
    requires k <= |lines|
  {
    k == |lines| || Total(lines[k..]) <= budget
  }

  lemma {:induction false} TotalOfSuffix(lines: seq<string>, k: nat)
    requires k < |lines|
    ensures Total(lines[k..]) == Total(lines[..|lines| - 1][k..]) + |lines[|lines| - 1]|
  {
    assert lines[k..] == lines[..|lines| - 1][k..] + [lines[|lines| - 1]];
  }

  /** It fits, and nothing longer does: what is kept is exactly the longest newest part that fits. */
  lemma {:induction false} KeepsLongestSuffix(lines: seq<string>, budget: int)
    ensures forall k | 0 <= k <= |lines| :: SuffixFits(lines, k, budget) <==> k >= KeepFrom(lines, budget)
  {
    if lines != [] {
      var init, last := lines[..|lines| - 1], lines[|lines| - 1];
      KeepsLongestSuffix(init, budget - |last|);
      forall k | 0 <= k <= |lines| ensures SuffixFits(lines, k, budget) <==> k >= KeepFrom(lines, budget) {
        if k < |lines| {
          TotalOfSuffix(lines, k);
          assert k == |init| ==> init[k..] == [];
          assert SuffixFits(init, k, budget - |last|) <==> k >= KeepFrom(init, budget - |last|);
        }
      }
    }
  }

  method FirstKept(lines: seq<string>, budget: int) returns (dropped: nat, remaining: int)
    ensures dropped == KeepFrom(lines, budget) && remaining == budget - Total(lines[dropped..])
    ensures dropped < |lines| ==> remaining >= 0
  {
    dropped, remaining := |lines|, budget;
    assert lines[..|lines|] == lines && lines[|lines|..] == [];
    while dropped > 0
      invariant 0 <= dropped <= |lines| && remaining == budget - Total(lines[dropped..])
      invariant KeepFrom(lines, budget) == KeepFrom(lines[..dropped], remaining)
      invariant dropped < |lines| ==> remaining >= 0
    {
      var last := lines[dropped - 1];
      assert lines[..dropped][dropped - 1] == last && lines[..dropped][..dropped - 1] == lines[..dropped - 1];
      if |last| > remaining { return; }
      OneLineMore(lines, dropped - 1);
      dropped, remaining := dropped - 1, remaining - |last|;
    }
  }

  // ------------------------------------------------------------ shared context

  datatype Shared = Shared(pinned: seq<string>, digests: seq<string>, others: seq<string>)

  function Share(pinned: seq<string>, digests: seq<string>, others: seq<string>, budget: int): Shared {
    var p := Fitting(pinned, budget);
    var d := Fitting(digests, budget - Total(p));
    Shared(p, d, Fitting(others, budget - Total(p) - Total(d)))
  }

  function ShareTotal(s: Shared): nat { Total(s.pinned) + Total(s.digests) + Total(s.others) }

  function SharedBlocks(s: Shared, heads: (string, string)): seq<string> {
    (if s.pinned + s.others == [] then [] else [heads.0] + s.pinned + s.others)
    + (if s.digests == [] then [] else [heads.1] + s.digests)
  }

  method RenderShared(s: Shared, heads: (string, string)) returns (blocks: seq<string>)
    ensures blocks == SharedBlocks(s, heads)
  {
    blocks := [];
    if |s.pinned| + |s.others| > 0 { blocks := blocks + ([heads.0] + s.pinned + s.others); }
    if |s.digests| > 0 { blocks := blocks + ([heads.1] + s.digests); }
    assert s.pinned + s.others == [] <==> |s.pinned| + |s.others| == 0;
  }

  lemma ShareFits(pinned: seq<string>, digests: seq<string>, others: seq<string>, budget: int)
    ensures var s := Share(pinned, digests, others, budget); ShareTotal(s) > 0 ==> ShareTotal(s) <= budget
  {
    var s := Share(pinned, digests, others, budget);
    FittingFits(pinned, budget);
    FittingFits(digests, budget - Total(s.pinned));
    FittingFits(others, budget - Total(s.pinned) - Total(s.digests));
  }

  lemma StaysInBudget(pinned: seq<string>, digests: seq<string>, others: seq<string>, budget: int, mandatory: nat)
    requires BUDGET - budget <= Max(BUDGET, mandatory)
    ensures BUDGET - (budget - ShareTotal(Share(pinned, digests, others, budget))) <= Max(BUDGET, mandatory)
  {
    ShareFits(pinned, digests, others, budget);
  }

  lemma SharedBlocksTotal(s: Shared, heads: (string, string))
    ensures ShareTotal(s) <= Total(SharedBlocks(s, heads)) <= ShareTotal(s) + |heads.0| + |heads.1|
  {
    TotalOfOne(heads.0);
    TotalOfOne(heads.1);
    TotalJoined([heads.0], s.pinned);
    TotalJoined([heads.0] + s.pinned, s.others);
    TotalJoined(s.pinned, s.others);
    TotalJoined([heads.1], s.digests);
    TotalJoined(if s.pinned + s.others == [] then [] else [heads.0] + s.pinned + s.others,
                if s.digests == [] then [] else [heads.1] + s.digests);
  }

  // ------------------------------------------------------------ the builder

  /** uncharged: the length of the fixed headings, which are added without charge. mandatory: the
  length of the layers that are never trimmed. */
  class BundleBuilder {
    var budget: int
    var sections: seq<string>
    ghost var uncharged: nat
    ghost var mandatory: nat

    /** n characters are charged but not added yet. */
    ghost predicate Owes(n: int)
      reads this
    {
      Total(sections) + n == BUDGET - budget + uncharged
    }

    /** No more is charged than the budget, or than the mandatory layers if they are longer. */
    ghost predicate Capped()
      reads this
    {
      BUDGET - budget <= Max(BUDGET, mandatory)
    }

    ghost predicate Valid()
      reads this
    {
      Owes(0)
    }

    constructor ()
      ensures Valid() && sections == [] && budget == BUDGET && uncharged == 0 && mandatory == 0
    {
      budget, sections := BUDGET, [];
      uncharged, mandatory := 0, 0;
    }

    /** Charged even into the negative. */
    method Must(s: string)
      requires Valid()
      modifies this
      ensures Valid() && uncharged == old(uncharged)
      ensures mandatory == old(mandatory) + |s| && budget == old(budget) - |s|
      ensures sections == if s == "" then old(sections) else old(sections) + [s]
    {
      if s == "" { return; }
      TotalJoined(sections, [s]);
      TotalOfOne(s);
      budget := budget - |s|;
      sections := sections + [s];
      mandatory := mandatory + |s|;
    }

    method Take(s: string) returns (took: bool)
      requires Valid()
      modifies this
      ensures Valid() && uncharged == old(uncharged) && mandatory == old(mandatory) && (old(Capped()) ==> Capped())
      ensures took <==> s != "" && |s| <= old(budget)
      ensures sections == if took then old(sections) + [s] else old(sections)
      ensures budget == if took then old(budget) - |s| else old(budget)
    {
      if s == "" || |s| > budget { return false; }
      TotalJoined(sections, [s]);
      TotalOfOne(s);
      budget := budget - |s|;
      sections := sections + [s];
      return true;
    }

    /** Adds what was charged before, with its headings. */
    method Append(block: seq<string>, ghost charged: nat, ghost free: nat)
      requires Owes(charged) && Total(block) == charged + free
      modifies this`sections, this`uncharged
      ensures Valid() && sections == old(sections) + block && uncharged == old(uncharged) + free
    {
      TotalJoined(sections, block);
      sections := sections + block;
      uncharged := uncharged + free;
    }

    /** Charged here, added by the caller. */
    method TakeLines(lines: seq<string>) returns (kept: seq<string>, dropped: nat)
      modifies this`budget
      ensures kept == Fitting(lines, old(budget)) && budget == old(budget) - Total(kept)
      ensures |kept| + dropped == |lines|
    {
      kept, dropped := [], 0;
      for i := 0 to |lines|
        invariant kept + Fitting(lines[i..], budget) == Fitting(lines, old(budget)) && budget == old(budget) - Total(kept)
        invariant |kept| + dropped == i
      {
        assert lines[i..][1..] == lines[i + 1..];
        if |lines[i]| > budget {
          dropped := dropped + 1;
        } else {
          TotalJoined(kept, [lines[i]]);
          TotalOfOne(lines[i]);
          assert kept + ([lines[i]] + Fitting(lines[i + 1..], budget - |lines[i]|))
                 == kept + [lines[i]] + Fitting(lines[i + 1..], budget - |lines[i]|);
          budget := budget - |lines[i]|;
          kept := kept + [lines[i]];
        }
      }
      assert kept + [] == kept;
    }

    /** Pinned items, then digests, then the other items are charged. */
    method ChargeShared(pinned: seq<string>, digests: seq<string>, others: seq<string>) returns (s: Shared)
      requires Valid()
      modifies this`budget
      ensures s == Share(pinned, digests, others, old(budget))
      ensures budget == old(budget) - ShareTotal(s) && Owes(ShareTotal(s)) && (old(Capped()) ==> Capped())
    {
      ghost var start := budget;
      var p, pinnedDropped := TakeLines(pinned);
      var d, digestsDropped := TakeLines(digests);
      var o, othersDropped := TakeLines(others);
      s := Shared(p, d, o);
      if old(Capped()) { StaysInBudget(pinned, digests, others, start, mandatory); }
    }

    method SharedContext(pinned: seq<string>, digests: seq<string>, others: seq<string>, heads: (string, string))
      requires Valid()
      modifies this
      ensures Valid() && mandatory == old(mandatory) && (old(Capped()) ==> Capped())
      ensures uncharged <= old(uncharged) + |heads.0| + |heads.1|
      ensures var s := Share(pinned, digests, others, old(budget));
              budget == old(budget) - ShareTotal(s) && sections == old(sections) + SharedBlocks(s, heads)
    {
      var s := ChargeShared(pinned, digests, others);
      var blocks := RenderShared(s, heads);
      SharedBlocksTotal(s, heads);
      Append(blocks, ShareTotal(s), Total(blocks) - ShareTotal(s));
    }

    /** clipText for every line but the newest dozen. */
    static method Compress(thread: seq<string>) returns (lines: seq<string>)
      ensures lines == Compressed(thread)
    {
      lines := thread;
      var cut := |thread| - VERBATIM;
      var i := 0;
      while i < cut
        invariant 0 <= i <= Max(cut, 0) && |lines| == |thread|
        invariant forall j | 0 <= j < |lines| :: lines[j] == if j < i then Headline(thread[j]) else thread[j]
      {
        var line := TrimNewlines(lines[i]);
        if |line| > CLIPPED { lines := lines[i := ClipText(line, CLIPPED) + "\n"]; }
        i := i + 1;
      }
    }

    /** Older lines are clipped; then the newest that fit are kept, oldest first. */
    method ThreadWindow(thread: seq<string>, head: string) returns (kept: nat, dropped: nat)
      requires Valid()
      modifies this
      ensures Valid() && mandatory == old(mandatory) && uncharged == old(uncharged) + |head| && (old(Capped()) ==> Capped())
      ensures dropped == KeepFrom(Compressed(thread), old(budget)) && kept + dropped == |thread|
      ensures sections == old(sections) + ([head] + Compressed(thread)[dropped..])
      ensures budget == old(budget) - Total(Compressed(thread)[dropped..])
    {
      var remaining;
      var lines := Compress(thread);
      dropped, remaining := FirstKept(lines, budget);
      kept := |lines| - dropped;
      TotalOfOne(head);
      TotalJoined([head], lines[dropped..]);
      ghost var charged := Total(lines[dropped..]);
      budget := remaining;
      Append([head] + lines[dropped..], charged, |head|);
    }

    method Document() returns (doc: string)
      ensures doc == Concat(sections)
    {
      doc := "";
      for i := 0 to |sections|
        invariant doc == Concat(sections[..i])
      {
        assert sections[..i + 1][..i] == sections[..i];
        doc := doc + sections[i];
      }
      assert sections[..|sections|] == sections;
    }
  }

  /** The index of skills: lines up to the first one that does not fit. */
  function IndexLength(lines: seq<string>): (k: nat)
    ensures k <= |lines| && Total(lines[..k]) <= SKILL_INDEX_MAX
    ensures k < |lines| ==> Total(lines[..k + 1]) > SKILL_INDEX_MAX
  {
    IndexFrom(lines, 0)
  }

  function IndexFrom(lines: seq<string>, from: nat): (k: nat)
    requires from <= |lines| && Total(lines[..from]) <= SKILL_INDEX_MAX
    ensures from <= k <= |lines| && Total(lines[..k]) <= SKILL_INDEX_MAX
    ensures k < |lines| ==> Total(lines[..k + 1]) > SKILL_INDEX_MAX
    decreases |lines| - from
  {
    if from == |lines| then from
    else
      assert lines[..from + 1][..from] == lines[..from];
      if Total(lines[..from]) + |lines[from]| > SKILL_INDEX_MAX then from else IndexFrom(lines, from + 1)
  }

  method SkillIndex(lines: seq<string>) returns (index: string, n: nat)
    ensures n == IndexLength(lines) && index == Concat(lines[..n])
  {
    index, n := "", 0;
    while n < |lines| && |index| + |lines[n]| <= SKILL_INDEX_MAX
      invariant 0 <= n <= |lines| && index == Concat(lines[..n]) && |index| == Total(lines[..n]) <= SKILL_INDEX_MAX
      invariant IndexLength(lines) == IndexFrom(lines, n)
    {
      assert lines[..n + 1][..n] == lines[..n];
      index := index + lines[n];
      n := n + 1;
    }
  }

  // ------------------------------------------------------------ the whole bundle

  /** What the layers of one run hold; an empty text is a layer the run does not have. optional:
  design references, attached skills, the skill index and connectors, in that order. */
  datatype Layers = Layers(
    mandatory: seq<string>, optional: seq<string>, projects: string, pinned: seq<string>, digests: seq<string>, others: seq<string>,
    standalone: bool, thread: seq<string>, heads: (string, string), threadHead: string)

  function Nonempty(ss: seq<string>): seq<string> {
    if ss == [] then []
    else
      var rest := Nonempty(ss[..|ss| - 1]);
      if ss[|ss| - 1] == "" then rest else rest + [ss[|ss| - 1]]
  }

  function Headings(l: Layers): nat { |l.heads.0| + |l.heads.1| + (if l.standalone then 0 else |l.threadHead|) }

  function ThreadBlock(l: Layers, budget: int): seq<string> {
    if l.standalone then []
    else var lines := Compressed(l.thread); [l.threadHead] + lines[KeepFrom(lines, budget)..]
  }

  /** The projects come last of the optional layers, and not at all if there are too many. */
  function Optional(l: Layers): seq<string> { l.optional + if |l.projects| <= PROJECTS_MAX then [l.projects] else [] }

  function TakenOf(l: Layers): seq<string> { Taken(Optional(l), BUDGET - Total(l.mandatory)) }

  function LeftForShared(l: Layers): int { BUDGET - Total(l.mandatory) - Total(TakenOf(l)) }

  function SharedOf(l: Layers): Shared { Share(l.pinned, l.digests, l.others, LeftForShared(l)) }

  function LeftForThread(l: Layers): int { LeftForShared(l) - ShareTotal(SharedOf(l)) }

  /** The sections of the document, in order. */
  function Assembled(l: Layers): seq<string> {
    Nonempty(l.mandatory) + TakenOf(l) + SharedBlocks(SharedOf(l), l.heads) + ThreadBlock(l, LeftForThread(l))
  }

  method PutMandatory(b: BundleBuilder, layers: seq<string>)
    requires b.Valid() && b.sections == [] && b.budget == BUDGET && b.uncharged == b.mandatory == 0
    modifies b
    ensures b.Valid() && b.uncharged == 0 && b.mandatory == BUDGET - b.budget == Total(layers) && b.sections == Nonempty(layers)
  {
    for i := 0 to |layers|
      invariant b.Valid() && b.uncharged == 0
      invariant b.mandatory == BUDGET - b.budget == Total(layers[..i]) && b.sections == Nonempty(layers[..i])
    {
      assert layers[..i + 1][..i] == layers[..i];
      b.Must(layers[i]);
    }
    assert layers[..|layers|] == layers;
  }

  lemma TakenNext(taken: seq<string>, layers: seq<string>, i: nat, budget: int)
    requires i < |layers|
    ensures taken + Taken(layers[i..], budget)
              == if layers[i] == "" || |layers[i]| > budget then taken + Taken(layers[i + 1..], budget)
                 else taken + [layers[i]] + Taken(layers[i + 1..], budget - |layers[i]|)
    ensures Total(taken + [layers[i]]) == Total(taken) + |layers[i]|
  {
    assert layers[i..][1..] == layers[i + 1..];
    TotalJoined(taken, [layers[i]]);
    TotalOfOne(layers[i]);
  }

  method PutOptional(b: BundleBuilder, layers: seq<string>)
    requires b.Valid()
    modifies b
    ensures b.Valid() && b.uncharged == old(b.uncharged) && b.mandatory == old(b.mandatory) && (old(b.Capped()) ==> b.Capped())
    ensures b.budget == old(b.budget) - Total(Taken(layers, old(b.budget)))
    ensures b.sections == old(b.sections) + Taken(layers, old(b.budget))
  {
    ghost var taken: seq<string> := [];
    for i := 0 to |layers|
      invariant b.Valid() && b.uncharged == old(b.uncharged) && b.mandatory == old(b.mandatory)
      invariant old(b.Capped()) ==> b.Capped()
      invariant b.budget == old(b.budget) - Total(taken) && b.sections == old(b.sections) + taken
      invariant taken + Taken(layers[i..], b.budget) == Taken(layers, old(b.budget))
    {
      TakenNext(taken, layers, i, b.budget);
      var took := b.Take(layers[i]);
      if took { taken := taken + [layers[i]]; }
    }
    assert taken + [] == taken;
  }

  method AddThread(b: BundleBuilder, l: Layers)
    requires b.Valid()
    modifies b
    ensures b.Valid() && b.mandatory == old(b.mandatory) && (old(b.Capped()) ==> b.Capped())
    ensures b.uncharged == old(b.uncharged) + if l.standalone then 0 else |l.threadHead|
    ensures b.sections == old(b.sections) + ThreadBlock(l, old(b.budget))
  {
    if !l.standalone {
      var kept, dropped := b.ThreadWindow(l.thread, l.threadHead);
    }
  }

  method AddLayers(b: BundleBuilder, l: Layers)
    requires b.Valid() && b.sections == [] && b.budget == BUDGET && b.uncharged == b.mandatory == 0
    modifies b
    ensures b.Valid() && b.Capped() && b.mandatory == Total(l.mandatory) && b.uncharged == 0
    ensures b.sections == Nonempty(l.mandatory) + TakenOf(l) && b.budget == LeftForShared(l)
  {
    PutMandatory(b, l.mandatory);
    PutOptional(b, Optional(l));
  }

  method AddShared(b: BundleBuilder, l: Layers)
    requires b.Valid() && b.budget == LeftForShared(l)
    modifies b
    ensures b.Valid() && b.mandatory == old(b.mandatory) && (old(b.Capped()) ==> b.Capped())
    ensures b.uncharged <= old(b.uncharged) + |l.heads.0| + |l.heads.1|
    ensures b.sections == old(b.sections) + SharedBlocks(SharedOf(l), l.heads) && b.budget == LeftForThread(l)
  {
    b.SharedContext(l.pinned, l.digests, l.others, l.heads);
  }

  /** Never longer than the budget, or than its mandatory layers if they are longer, plus the fixed
  headings. */
  method BuildBundle(l: Layers) returns (doc: string)
    ensures doc == Concat(Assembled(l))
    ensures |doc| <= Max(BUDGET, Total(l.mandatory)) + Headings(l)
  {
    var b := new BundleBuilder();
    AddLayers(b, l);
    AddShared(b, l);
    AddThread(b, l);
    doc := b.Document();
    ConcatLength(b.sections);
  }
}
