/** What a context document holds: which lines and layers are taken, what is left of a clipped line,
and the order everything comes in. */
module BundleContents {
  import opened Common
  import opened Bundle

  // ------------------------------------------------------------ clipped lines

  lemma {:induction false} NewlinesOff(line: string) returns (tail: string)
    ensures line == TrimNewlines(line) + tail && forall c <- tail :: c == '\n'
    ensures TrimNewlines(line) != "" ==> TrimNewlines(line)[|TrimNewlines(line)| - 1] != '\n'
  {
    tail := "";
    if line != "" && line[|line| - 1] == '\n' {
      var init := line[..|line| - 1];
      var rest := NewlinesOff(init);
      tail := rest + ['\n'];
      assert line == init + ['\n'] == TrimNewlines(init) + rest + ['\n'] == TrimNewlines(line) + tail;
    }
  }

  /** A long line is its first hundred and sixty runes and an ellipsis; a line of no more runes keeps
  all its text. */
  lemma HeadlineIs(line: string) returns (k: nat)
    ensures k <= |line| && (k < |TrimNewlines(line)| ==> k < |line| && Runes(line[..k]) == 160 && !GoesOn(line[k]))
    ensures Runes(TrimNewlines(line)) <= 160 ==> Headline(line) == line || Headline(line) == TrimNewlines(line) + "\n"
    ensures Runes(TrimNewlines(line)) > 160 ==> k < |TrimNewlines(line)| && Headline(line) == line[..k] + "\U{E2}\U{80}\U{A6}" + "\n"
  {
    var text := TrimNewlines(line);
    TrimmedIsFront(line);
    k := RunesEnd(text, 160);
    assert text[..k] == line[..k];
    if Runes(text) <= 160 {
      FewRunes(text);
    } else {
      assert text[..|text|] == text;
      RunesAreShort(text);
    }
  }

  lemma {:induction false} RunesAreShort(s: string)
    ensures Runes(s) <= |s|
  {
    if s != "" { RunesAreShort(s[..|s| - 1]); }
  }

  // ------------------------------------------------------------ what is taken

  lemma FittingFirst(line: string, rest: seq<string>, budget: int)
    ensures Fitting([line] + rest, budget)
         == if |line| > budget then Fitting(rest, budget) else [line] + Fitting(rest, budget - |line|)
  {
    assert ([line] + rest)[1..] == rest;
  }

  lemma {:induction false} FittingJoined(a: seq<string>, b: seq<string>, budget: int)
    ensures Fitting(a + b, budget) == Fitting(a, budget) + Fitting(b, budget - Total(Fitting(a, budget)))
  {
    if a == [] {
      assert a + b == b;
    } else {
      var line, rest := a[0], a[1..];
      assert a == [line] + rest && a + b == [line] + (rest + b);
      FittingFirst(line, rest, budget);
      FittingFirst(line, rest + b, budget);
      if |line| > budget {
        FittingJoined(rest, b, budget);
      } else {
        FittingJoined(rest, b, budget - |line|);
        FrontTotal(line, Fitting(rest, budget - |line|));
      }
    }
  }

  /** Where the lines stand that fit into what those taken before them leave. */
  function FittingAt(lines: seq<string>, budget: int): set<nat> {
    set i: nat | i < |lines| && Total(Fitting(lines[..i], budget)) + |lines[i]| <= budget
  }

  /** Each line is taken, in order, exactly when it fits into what the ones taken before it leave. */
  lemma {:induction false} FittingIsGreedy(lines: seq<string>, budget: int) returns (at: seq<nat>)
    ensures InOrder(at, FittingAt(lines, budget)) && |at| == |Fitting(lines, budget)|
    ensures forall k | 0 <= k < |at| :: at[k] < |lines| && Fitting(lines, budget)[k] == lines[at[k]]
  {
    at := [];
    if lines != [] {
      var init, last := lines[..|lines| - 1], lines[|lines| - 1];
      at := FittingIsGreedy(init, budget);
      assert lines == init + [last];
      FittingJoined(init, [last], budget);
      LastFits(lines, budget);
      if Total(Fitting(init, budget)) + |last| <= budget {
        OneMoreInOrder(at, FittingAt(init, budget), |init|);
        at := at + [|init|];
      }
    }
  }

  lemma LastFits(lines: seq<string>, budget: int)
    requires lines != []
    ensures var init, last := lines[..|lines| - 1], lines[|lines| - 1];
            FittingAt(lines, budget) == FittingAt(init, budget) + if Total(Fitting(init, budget)) + |last| <= budget then {|init|} else {}
  {
    var init := lines[..|lines| - 1];
    assert forall i | 0 <= i < |init| :: lines[..i] == init[..i];
  }

  /** The optional layers taken are those that fit, of those there are. */
  lemma {:induction false} TakenAreFitting(layers: seq<string>, budget: int)
    ensures Taken(layers, budget) == Fitting(Nonempty(layers), budget)
  {
    if layers != [] {
      var rest := Nonempty(layers[1..]);
      NonemptyFirst(layers[0], layers[1..]);
      assert layers == [layers[0]] + layers[1..] && [] + rest == rest && ([layers[0]] + rest)[1..] == rest;
      TakenAreFitting(layers[1..], budget);
      TakenAreFitting(layers[1..], budget - |layers[0]|);
    }
  }

  lemma {:induction false} NonemptyFirst(s: string, rest: seq<string>)
    ensures Nonempty([s] + rest) == (if s == "" then [] else [s]) + Nonempty(rest)
  {
    var all := [s] + rest;
    if rest == [] {
      assert all[..0] == [];
    } else {
      assert all[..|all| - 1] == [s] + rest[..|rest| - 1];
      NonemptyFirst(s, rest[..|rest| - 1]);
    }
  }

  function NonemptyAt(ss: seq<string>): set<nat> { set i: nat | i < |ss| && ss[i] != "" }

  /** The texts that are not empty, in order. */
  lemma {:induction false} NonemptyInOrder(ss: seq<string>) returns (at: seq<nat>)
    ensures InOrder(at, NonemptyAt(ss)) && |at| == |Nonempty(ss)|
    ensures forall k | 0 <= k < |at| :: at[k] < |ss| && Nonempty(ss)[k] == ss[at[k]]
  {
    at := [];
    if ss != [] {
      var init := ss[..|ss| - 1];
      at := NonemptyInOrder(init);
      if ss[|init|] != "" {
        OneMoreInOrder(at, NonemptyAt(init), |init|);
        at := at + [|init|];
        assert NonemptyAt(ss) == NonemptyAt(init) + {|init|};
      } else {
        assert NonemptyAt(ss) == NonemptyAt(init);
      }
    }
  }

  lemma FittingAfter(a: seq<string>, b: seq<string>, budget: int, kept: seq<string>, left: int)
    requires Fitting(a, budget) == kept && left == budget - Total(kept)
    ensures Fitting(a + b, budget) == kept + Fitting(b, left)
  {
    FittingJoined(a, b, budget);
  }

  lemma ThreeInOne(a: seq<string>, b: seq<string>, c: seq<string>, budget: int, p: seq<string>, d: seq<string>, o: seq<string>)
    requires Fitting(a, budget) == p && Fitting(b, budget - Total(p)) == d && Fitting(c, budget - Total(p) - Total(d)) == o
    ensures Fitting(a + b + c, budget) == p + d + o
  {
    FittingAfter(a, b, budget, p, budget - Total(p));
    TotalJoined(p, d);
    FittingAfter(a + b, c, budget, p + d, budget - Total(p) - Total(d));
  }

  /** Pinned items are charged first, then digests, then the other items, as one list of lines. */
  lemma ShareIsOneList(pinned: seq<string>, digests: seq<string>, others: seq<string>, budget: int)
    ensures var s := Share(pinned, digests, others, budget);
            Fitting(pinned + digests + others, budget) == s.pinned + s.digests + s.others
  {
    var s := Share(pinned, digests, others, budget);
    ThreeInOne(pinned, digests, others, budget, s.pinned, s.digests, s.others);
  }

  // ------------------------------------------------------------ the order of things

  /** The document is its sections one after another. */
  lemma {:induction false} SectionsInOrder(a: seq<string>, b: seq<string>)
    ensures Concat(a + b) == Concat(a) + Concat(b) && (|a| == 1 ==> Concat(a) == a[0])
  {
    assert |a| == 1 ==> a[..0] == [];
    if b == [] {
      assert a + b == a;
    } else {
      var init, last := b[..|b| - 1], b[|b| - 1];
      assert (a + b)[..|a + b| - 1] == a + init;
      SectionsInOrder(a, init);
      Appended(Concat(a), Concat(init), last);
    }
  }

  /** The items come under one heading, pinned ones first, the digests under another; a heading with
  nothing under it is left out. */
  lemma SharedBlocksRead(s: Shared, heads: (string, string))
    ensures var items, blocks := s.pinned + s.others, SharedBlocks(s, heads);
      && (items == [] && s.digests == [] ==> blocks == [])
      && (items != [] && s.digests == [] ==> blocks == [heads.0] + items)
      && (items == [] && s.digests != [] ==> blocks == [heads.1] + s.digests)
      && (items != [] && s.digests != [] ==> blocks == [heads.0] + items + [heads.1] + s.digests)
  {
    assert [heads.0] + s.pinned + s.others == [heads.0] + (s.pinned + s.others);
    assert [heads.0] + s.pinned + s.others + [] == [heads.0] + s.pinned + s.others;
    assert [heads.0] + (s.pinned + s.others) + ([heads.1] + s.digests) == [heads.0] + (s.pinned + s.others) + [heads.1] + s.digests;
  }

  /** The length of everything a document could hold, headings aside. */
  function Everything(l: Layers): nat {
    Total(l.mandatory) + Total(Nonempty(Optional(l))) + Total(l.pinned) + Total(l.digests) + Total(l.others)
    + if l.standalone then 0 else Total(l.thread)
  }

  lemma AllFit(lines: seq<string>, budget: int)
    requires Total(lines) <= budget
    ensures Fitting(lines, budget) == lines
  {
    FittingFits(lines, budget);
  }

  lemma PinnedFit(pinned: seq<string>, digests: seq<string>, others: seq<string>, budget: int)
    requires Total(pinned) <= budget
    ensures Share(pinned, digests, others, budget).pinned == pinned
  {
    AllFit(pinned, budget);
  }

  lemma DigestsFit(pinned: seq<string>, digests: seq<string>, others: seq<string>, budget: int)
    requires var left := budget - Total(Share(pinned, digests, others, budget).pinned); Total(digests) <= left
    ensures Share(pinned, digests, others, budget).digests == digests
  {
    AllFit(digests, budget - Total(Share(pinned, digests, others, budget).pinned));
  }

  lemma OthersFit(pinned: seq<string>, digests: seq<string>, others: seq<string>, budget: int)
    requires var s := Share(pinned, digests, others, budget); Total(others) <= budget - Total(s.pinned) - Total(s.digests)
    ensures Share(pinned, digests, others, budget).others == others
  {
    var s := Share(pinned, digests, others, budget);
    AllFit(others, budget - Total(s.pinned) - Total(s.digests));
  }

  lemma AllShared(pinned: seq<string>, digests: seq<string>, others: seq<string>, budget: int)
    requires Total(pinned) + Total(digests) + Total(others) <= budget
    ensures Share(pinned, digests, others, budget) == Shared(pinned, digests, others)
  {
    PinnedFit(pinned, digests, others, budget);
    DigestsFit(pinned, digests, others, budget);
    OthersFit(pinned, digests, others, budget);
  }

  lemma ThreadFits(l: Layers, budget: int)
    requires !l.standalone && |l.thread| <= 12 && Total(l.thread) <= budget
    ensures ThreadBlock(l, budget) == [l.threadHead] + l.thread
  {
    var lines := Compressed(l.thread);
    assert lines == l.thread && lines[0..] == lines;
    KeepsLongestSuffix(lines, budget);
    assert SuffixFits(lines, 0, budget);
  }

  /** When there is room for everything and the thread is short, everything is there: the mandatory
  layers, the optional ones, the projects unless they are too many, the shared context, the thread. */
  lemma EverythingFits(l: Layers)
    requires Everything(l) <= BUDGET && |l.thread| <= 12
    ensures Assembled(l) == Nonempty(l.mandatory) + Nonempty(Optional(l))
                            + SharedBlocks(Shared(l.pinned, l.digests, l.others), l.heads)
                            + (if l.standalone then [] else [l.threadHead] + l.thread)
    ensures Nonempty(Optional(l)) == Nonempty(l.optional) + if l.projects == "" || |l.projects| > 4000 then [] else [l.projects]
  {
    var budget := BUDGET - Total(l.mandatory);
    TakenAreFitting(Optional(l), budget);
    AllFit(Nonempty(Optional(l)), budget);
    AllShared(l.pinned, l.digests, l.others, LeftForShared(l));
    if !l.standalone { ThreadFits(l, LeftForThread(l)); }
    assert l.optional + [] == l.optional;
    assert (l.optional + [l.projects])[..|l.optional|] == l.optional;
    assert Nonempty(l.optional) + [] == Nonempty(l.optional);
  }
}
