/** What the stylesheet condenser does to the texts it lists: white space collapsed, long values cut,
arguments unquoted; and what each kind of declaration is listed as. */
module ThemeText {
  import opened Common
  import opened Texts
  import opened ThemeCSS

  // ------------------------------------------------------------ white space

  /** Where the characters other than white space stand. */
  function SolidAt(s: string): set<nat> { set i: nat | i < |s| && !White(s[i]) }

  /** One character after another, or one space between them, as there was white space between them. */
  predicate Follows(s: string, i: nat, j: nat, c: string, x: nat, y: nat) {
    && i < j < |s| && x < y < |c|
    && if j == i + 1 then y == x + 1 else y == x + 2 && c[x + 1] == ' '
  }

  ghost predicate SameLetters(s: string, p: seq<nat>, c: string, q: seq<nat>) {
    |p| == |q| && forall k | 0 <= k < |p| :: p[k] < |s| && q[k] < |c| && s[p[k]] == c[q[k]]
  }

  ghost predicate SameGaps(s: string, p: seq<nat>, c: string, q: seq<nat>)
    requires |p| == |q|
  {
    forall k | 0 < k < |p| :: Follows(s, p[k - 1], p[k], c, q[k - 1], q[k])
  }

  /** The kth character of s that is no white space, at p[k], is the kth of c, at q[k]; c begins and
  ends with one, and between two neighbours it has what Follows says. */
  ghost predicate Aligned(s: string, p: seq<nat>, c: string, q: seq<nat>) {
    && InOrder(p, SolidAt(s)) && SameLetters(s, p, c, q) && SameGaps(s, p, c, q)
    && if |p| == 0 then c == "" else q[0] == 0 && q[|q| - 1] == |c| - 1
  }

  /** One word more at the front. */
  lemma WordFirst(word: string, words: seq<string>)
    ensures Join([word] + words, " ") == if words == [] then word else word + (" " + Join(words, " "))
  {
    if words != [] { JoinedParts([word], words, " "); }
  }

  lemma LetterFirst(c: char, word: string, rest: seq<string>)
    ensures Join([[c] + word] + rest, " ") == [c] + Join([word] + rest, " ")
  {
    WordFirst([c] + word, rest);
    WordFirst(word, rest);
    Appended([c], word, " " + Join(rest, " "));
  }

  lemma WordGrows(s: string)
    requires |s| > 1 && !IsSpace(s[0]) && !IsSpace(s[1])
    ensures Words(s[1..]) != [] && Words(s) == [[s[0]] + Words(s[1..])[0]] + Words(s[1..])[1..]
  {
    var rest := s[1..];
    var n := WordLength(rest);
    assert WordLength(s) == n + 1 && s[n + 1..] == rest[n..] && s[..n + 1] == [s[0]] + rest[..n];
    assert Words(rest) == [rest[..n]] + Words(rest[n..]);
  }

  lemma WordOfOne(s: string)
    requires s != "" && !IsSpace(s[0]) && (|s| == 1 || IsSpace(s[1]))
    ensures Words(s) == [[s[0]]] + Words(s[1..])
  {
    assert WordLength(s) == 1 && s[..1] == [s[0]];
  }

  /** Collapsing one character more at the front. */
  lemma CollapsedStep(s: string)
    requires s != ""
    ensures IsSpace(s[0]) ==> Collapsed(s) == Collapsed(s[1..])
    ensures !IsSpace(s[0]) && |s| > 1 && !IsSpace(s[1]) ==> Collapsed(s) == [s[0]] + Collapsed(s[1..])
    ensures !IsSpace(s[0]) && (|s| == 1 || IsSpace(s[1])) ==>
              Collapsed(s) == if Words(s[1..]) == [] then [s[0]] else [s[0]] + (" " + Collapsed(s[1..]))
  {
    if !IsSpace(s[0]) {
      if |s| > 1 && !IsSpace(s[1]) {
        WordGrows(s);
        var words := Words(s[1..]);
        LetterFirst(s[0], words[0], words[1..]);
        assert [words[0]] + words[1..] == words;
      } else {
        WordOfOne(s);
        WordFirst([s[0]], Words(s[1..]));
      }
    }
  }

  lemma {:induction false} WordsAreSolid(s: string)
    ensures Words(s) == [] <==> Collapsed(s) == ""
    ensures forall w <- Words(s) :: w != ""
    decreases |s|
  {
    if s != "" {
      if IsSpace(s[0]) {
        WordsAreSolid(s[1..]);
      } else {
        WordsAreSolid(s[WordLength(s)..]);
        WordFirst(s[..WordLength(s)], Words(s[WordLength(s)..]));
      }
    }
  }

  lemma SolidOneMore(s: string)
    requires s != ""
    ensures forall i :: i in SolidAt(s) <==> (i == 0 && !White(s[0])) || (i >= 1 && i - 1 in SolidAt(s[1..]))
  {
    assert forall i: nat | 0 < i < |s| :: s[i] == s[1..][i - 1];
  }

  /** Nothing moves when white space is dropped in front. */
  lemma AlignedBehindWhite(s: string, p: seq<nat>, c: string, q: seq<nat>)
    requires s != "" && White(s[0]) && Aligned(s[1..], p, c, q)
    ensures Aligned(s, Shifted(p, 1), c, q)
  {
    SolidOneMore(s);
    InOrderShifted(p, SolidAt(s[1..]), SolidAt(s), 1);
    forall k | 0 < k < |p| ensures Follows(s, p[k - 1] + 1, p[k] + 1, c, q[k - 1], q[k]) {
      assert Follows(s[1..], p[k - 1], p[k], c, q[k - 1], q[k]);
    }
  }

  lemma SolidFirst(s: string, p: seq<nat>)
    requires s != "" && !White(s[0]) && InOrder(p, SolidAt(s[1..]))
    ensures InOrder([0] + Shifted(p, 1), SolidAt(s))
  {
    SolidOneMore(s);
    var later := set i: nat | i in SolidAt(s) && i > 0;
    InOrderShifted(p, SolidAt(s[1..]), later, 1);
    InOrderFirst(Shifted(p, 1), later, 0);
    assert later + {0} == SolidAt(s);
  }

  lemma LettersFirst(s: string, p: seq<nat>, c: string, q: seq<nat>, gap: string)
    requires s != "" && SameLetters(s[1..], p, c, q)
    ensures SameLetters(s, [0] + Shifted(p, 1), [s[0]] + (gap + c), [0] + Shifted(q, 1 + |gap|))
  {
    var r, d, q' := [0] + Shifted(p, 1), [s[0]] + (gap + c), [0] + Shifted(q, 1 + |gap|);
    forall k | 0 <= k < |r| ensures r[k] < |s| && q'[k] < |d| && s[r[k]] == d[q'[k]] {
      if k > 0 {
        assert r[k] == p[k - 1] + 1 && q'[k] == q[k - 1] + 1 + |gap|;
        assert d[q'[k]] == c[q[k - 1]] && s[r[k]] == s[1..][p[k - 1]];
      }
    }
  }

  lemma FollowsFurtherOn(s: string, i: nat, j: nat, c: string, x: nat, y: nat, front: string)
    requires s != "" && Follows(s[1..], i, j, c, x, y)
    ensures Follows(s, i + 1, j + 1, front + c, x + |front|, y + |front|)
  {}

  lemma GapsFirst(s: string, p: seq<nat>, c: string, q: seq<nat>, gap: string)
    requires s != "" && SameLetters(s[1..], p, c, q) && SameGaps(s[1..], p, c, q)
    requires gap == (if p == [] || p[0] == 0 then "" else " ") && (q != [] ==> q[0] == 0)
    ensures SameGaps(s, [0] + Shifted(p, 1), [s[0]] + (gap + c), [0] + Shifted(q, 1 + |gap|))
  {
    var r, d, q' := [0] + Shifted(p, 1), [s[0]] + (gap + c), [0] + Shifted(q, 1 + |gap|);
    assert d == [s[0]] + gap + c;
    forall k | 0 < k < |r| ensures Follows(s, r[k - 1], r[k], d, q'[k - 1], q'[k]) {
      assert r[k] == p[k - 1] + 1 && q'[k] == q[k - 1] + 1 + |gap|;
      if k > 1 {
        assert r[k - 1] == p[k - 2] + 1 && q'[k - 1] == q[k - 2] + 1 + |gap|;
        FollowsFurtherOn(s, p[k - 2], p[k - 1], c, q[k - 2], q[k - 1], [s[0]] + gap);
      }
    }
  }

  lemma AlignedBehindSolid(s: string, p: seq<nat>, c: string, q: seq<nat>, gap: string)
    requires s != "" && !White(s[0]) && Aligned(s[1..], p, c, q)
    requires gap == if p == [] || p[0] == 0 then "" else " "
    ensures Aligned(s, [0] + Shifted(p, 1), [s[0]] + (gap + c), [0] + Shifted(q, 1 + |gap|))
  {
    SolidFirst(s, p);
    LettersFirst(s, p, c, q, gap);
    GapsFirst(s, p, c, q, gap);
  }

  lemma FirstGap(s: string, p: seq<nat>)
    requires s != "" && !White(s[0]) && InOrder(p, SolidAt(s[1..])) && (p == [] <==> Words(s[1..]) == [])
    ensures Collapsed(s) == [s[0]] + ((if p == [] || p[0] == 0 then "" else " ") + Collapsed(s[1..]))
  {
    CollapsedStep(s);
    WordsAreSolid(s[1..]);
    WhiteIsSpace(s[0]);
    if |s| > 1 {
      WhiteIsSpace(s[1]);
      assert s[1..][0] == s[1];
      assert 0 in p <==> !White(s[1]);
    }
    if p != [] {
      assert p[0] in p;
      assert 0 in p <==> p[0] == 0;
    }
    assert "" + Collapsed(s[1..]) == Collapsed(s[1..]);
  }

  /** White space collapsed: the other characters stay, in order, none in front of the first or after
  the last, and one space between two of them exactly where there was white space between them. */
  lemma {:induction false} CollapsedKeepsText(s: string) returns (p: seq<nat>, q: seq<nat>)
    ensures Aligned(s, p, Collapsed(s), q)
    decreases |s|
  {
    if s == "" {
      p, q := [], [];
    } else {
      var rest := s[1..];
      p, q := CollapsedKeepsText(rest);
      CollapsedStep(s);
      WhiteIsSpace(s[0]);
      if White(s[0]) {
        AlignedBehindWhite(s, p, Collapsed(rest), q);
        p := Shifted(p, 1);
      } else {
        WordsAreSolid(rest);
        assert p == [] <==> Collapsed(rest) == "";
        FirstGap(s, p);
        var gap := if p == [] || p[0] == 0 then "" else " ";
        AlignedBehindSolid(s, p, Collapsed(rest), q, gap);
        p, q := [0] + Shifted(p, 1), [0] + Shifted(q, 1 + |gap|);
      }
    }
  }

  // ------------------------------------------------------------ arguments and aliases

  /** An address or a name that has nothing around it. */
  predicate Bare(t: string) {
    t != "" && !White(t[0]) && !White(t[|t| - 1]) && t[0] !in "\"'" && t[|t| - 1] !in "\"')" && !("url(" <= t)
  }

  lemma TrimOfTight(s: string)
    requires s != "" && !White(s[0]) && !White(s[|s| - 1])
    ensures Trim(" " + s) == s
  {
    WhiteIsSpace(s[0]);
    WhiteIsSpace(s[|s| - 1]);
    assert TrimLeft(s) == s && (" " + s)[0] == ' ' && (" " + s)[1..] == s;
  }

  lemma UnquotedOnce(t: string, quote: char)
    requires Bare(t) && quote in "\"'"
    ensures Unquoted(t) == t && Unquoted([quote] + t + [quote]) == t
  {
    var s := [quote] + t + [quote];
    assert s[1..] == t + [quote] && (t + [quote])[..|t|] == t && (t + [quote])[0] == t[0];
  }

  /** An argument is read without its quotes, and without url( ) around it. */
  lemma ArgumentIsBare(at: string, t: string, quote: char)
    requires Bare(t) && quote in "\"'"
    ensures CSSArg(at + " " + ([quote] + t + [quote]), at) == t
  {
    var quoted := [quote] + t + [quote];
    UnquotedOnce(t, quote);
    assert !("url(" <= quoted) by { assert quoted[0] != 'u'; }
    ArgumentRest(at, quoted);
  }

  lemma AddressIsBare(at: string, arg: string, t: string)
    requires Unquoted(arg) == t
    ensures CSSArg(at + " " + ("url(" + arg + ")"), at) == t
  {
    var wrapped := "url(" + arg + ")";
    ArgumentRest(at, wrapped);
    UrlTakenOff(arg);
  }

  lemma ArgumentRest(at: string, arg: string)
    requires arg != "" && !White(arg[0]) && !White(arg[|arg| - 1])
    ensures at <= at + " " + arg && Trim((at + " " + arg)[|at|..]) == arg
  {
    assert (at + " " + arg)[|at|..] == " " + arg;
    TrimOfTight(arg);
  }

  lemma UrlTakenOff(arg: string)
    ensures var s := "url(" + arg + ")"; s[..|s| - 1] == "url(" + arg && s[..|s| - 1][4..] == arg && "url(" <= s[..|s| - 1]
  {}

  lemma TightStays(s: string)
    requires s != "" && !White(s[0]) && !White(s[|s| - 1])
    ensures Trim(s) == s
  {
    WhiteIsSpace(s[0]);
    WhiteIsSpace(s[|s| - 1]);
  }

  lemma StatementMeans(at: string, arg: string, t: string)
    requires arg != "" && !White(arg[|arg| - 1]) && CSSArg(at + " " + arg, at) == t
    ensures at == "@import" ==> Meaning([], at + " " + arg) == Some(Import(t))
    ensures at == "@plugin" ==> Meaning([], at + " " + arg) == Some(Plugin(t))
  {
    var stmt := at + " " + arg;
    if at == "@import" || at == "@plugin" {
      assert at <= stmt && stmt[0] == '@' && stmt[|stmt| - 1] == arg[|arg| - 1];
      assert stmt[1] == at[1];
      TightStays(stmt);
    }
  }

  /** At the top of a stylesheet an import and a plugin are listed by what they name, without the
  quotes around it. */
  lemma TopLevelMeans(t: string, quote: char)
    requires Bare(t) && quote in "\"'"
    ensures var quoted := [quote] + t + [quote];
            Meaning([], "@import " + quoted) == Some(Import(t)) && Meaning([], "@plugin " + quoted) == Some(Plugin(t))
  {
    ArgumentIsBare("@import", t, quote);
    ArgumentIsBare("@plugin", t, quote);
    assert "@import" + " " == "@import " && "@plugin" + " " == "@plugin ";
    StatementMeans("@import", [quote] + t + [quote], t);
    StatementMeans("@plugin", [quote] + t + [quote], t);
  }

  /** So is an import of an address in url( ), quoted or not. */
  lemma AddressMeans(t: string, quote: char)
    requires Bare(t) && quote in "\"'"
    ensures var quoted := [quote] + t + [quote];
            && Meaning([], "@import " + ("url(" + t + ")")) == Some(Import(t))
            && Meaning([], "@import " + ("url(" + quoted + ")")) == Some(Import(t))
  {
    var quoted := [quote] + t + [quote];
    UnquotedOnce(t, quote);
    AddressIsBare("@import", t, t);
    AddressIsBare("@import", quoted, t);
    assert "@import" + " " == "@import ";
    StatementMeans("@import", "url(" + t + ")", t);
    StatementMeans("@import", "url(" + quoted + ")", t);
  }

  predicate NameChar(c: char) { 'a' <= c <= 'z' || 'A' <= c <= 'Z' || '0' <= c <= '9' || c == '_' || c == '-' }

  lemma AliasOf(name: string)
    ensures IsAlias("var(--" + name + ")") <==> name != "" && forall i | 0 <= i < |name| :: NameChar(name[i])
  {
    var v := "var(--" + name + ")";
    assert |v| == |name| + 7 && v[|v| - 1] == ')' && v[..6] == "var(--" && forall i | 0 <= i < |name| :: v[i + 6] == name[i];
    if IsAlias(v) {
      forall i | 0 <= i < |name| ensures NameChar(name[i]) { assert v[i + 6] == name[i]; }
    }
    if name != "" && forall i | 0 <= i < |name| :: NameChar(name[i]) {
      forall i | 6 <= i < |v| - 1 ensures NameChar(v[i]) { assert v[i] == name[i - 6]; }
    }
  }

  /** An alias is var(--name), the name of letters, digits, underscores and dashes, and not empty. */
  lemma AliasIff(v: string)
    ensures IsAlias(v) <==> exists name: string ::
              v == "var(--" + name + ")" && name != "" && forall i | 0 <= i < |name| :: NameChar(name[i])
  {
    if IsAlias(v) {
      var name := v[6..|v| - 1];
      assert v == "var(--" + name + ")";
      AliasOf(name);
    }
    if name: string :| v == "var(--" + name + ")" && name != "" && forall i | 0 <= i < |name| :: NameChar(name[i]) { AliasOf(name); }
  }

  // ------------------------------------------------------------ comments that are never closed

  lemma {:induction false} NeverClosed(s: string)
    requires forall i | 0 <= i < |s| :: !Closes(s[i..])
    ensures AfterClose(s) == None
  {
    if s != "" {
      assert s[0..] == s;
      forall i | 0 <= i < |s| - 1 ensures !Closes(s[1..][i..]) { assert s[1..][i..] == s[i + 1..]; }
      NeverClosed(s[1..]);
    }
  }

  /** What looks like a comment and is never closed stays. */
  lemma {:induction false} UnclosedStays(s: string)
    requires forall i | 0 <= i < |s| :: !Closes(s[i..])
    ensures Strip(s) == s
  {
    if s != "" {
      forall i | 0 <= i < |s| - 1 ensures !Closes(s[1..][i..]) { assert s[1..][i..] == s[i + 1..]; }
      if Opens(s) {
        forall i | 0 <= i < |s| - 2 ensures !Closes(s[2..][i..]) { assert s[2..][i..] == s[i + 2..]; }
        NeverClosed(s[2..]);
      }
      UnclosedStays(s[1..]);
    }
  }

  // ------------------------------------------------------------ what is grouped

  function NewPathsAt(fs: seq<Finding>): set<nat> {
    set i: nat | i < |fs| && fs[i].Property? && forall j | 0 <= j < i && fs[j].Property? :: fs[j].path != fs[i].path
  }

  lemma {:induction false} PathIsSeen(fs: seq<Finding>, path: string)
    ensures path in PathsSeen(fs) <==> exists j | 0 <= j < |fs| && fs[j].Property? :: fs[j].path == path
  {
    if fs != [] {
      var init := fs[..|fs| - 1];
      PathIsSeen(init, path);
      if j :| 0 <= j < |fs| && fs[j].Property? && fs[j].path == path { assert j < |init| ==> init[j] == fs[j]; }
    }
  }

  /** The paths of the groups are those of the properties, in the order they first appear. */
  lemma {:induction false} PathsInOrder(fs: seq<Finding>) returns (at: seq<nat>)
    ensures InOrder(at, NewPathsAt(fs)) && |at| == |PathsSeen(fs)|
    ensures forall k | 0 <= k < |at| :: at[k] < |fs| && fs[at[k]].Property? && PathsSeen(fs)[k] == fs[at[k]].path
  {
    at := [];
    if fs != [] {
      var init, last := fs[..|fs| - 1], fs[|fs| - 1];
      at := PathsInOrder(init);
      assert forall i | 0 <= i < |init| :: init[i] == fs[i];
      if last.Property? { PathIsSeen(init, last.path); }
      if last.Property? && last.path !in PathsSeen(init) {
        OneMoreInOrder(at, NewPathsAt(init), |init|);
        at := at + [|init|];
        assert NewPathsAt(fs) == NewPathsAt(init) + {|init|};
      } else {
        assert NewPathsAt(fs) == NewPathsAt(init);
      }
    }
  }

  function UnderAt(fs: seq<Finding>, path: string): set<nat> {
    set i: nat | i < |fs| && fs[i].Property? && fs[i].path == path
  }

  /** The variables of a group are the properties found under its path, in order. */
  lemma {:induction false} VarsInOrder(fs: seq<Finding>, path: string) returns (at: seq<nat>)
    ensures InOrder(at, UnderAt(fs, path)) && |at| == |VarsUnder(fs, path)|
    ensures forall k | 0 <= k < |at| :: at[k] < |fs| && fs[at[k]].Property? && VarsUnder(fs, path)[k] == fs[at[k]].text
  {
    at := [];
    if fs != [] {
      var init, last := fs[..|fs| - 1], fs[|fs| - 1];
      at := VarsInOrder(init, path);
      if last.Property? && last.path == path {
        OneMoreInOrder(at, UnderAt(init, path), |init|);
        at := at + [|init|];
        assert UnderAt(fs, path) == UnderAt(init, path) + {|init|};
      } else {
        assert UnderAt(fs, path) == UnderAt(init, path);
      }
    }
  }

  // ------------------------------------------------------------ the lines of the summary

  /** A line as it is written; the last one, which counts what is left out, is written past the limit. */
  function Written(l: Line): string {
    match l
    case Imports(text) => "Imports: " + text + "\n"
    case Fonts(text) => "Fonts: " + text + "\n"
    case Head(path) => path + "\n"
    case Var(text) => "  " + text + "\n"
    case More(_) => ""
  }

  function WrittenAll(lines: seq<Line>): string {
    if lines == [] then "" else WrittenAll(lines[..|lines| - 1]) + Written(lines[|lines| - 1])
  }

  /** The limit is on what has been written. */
  lemma {:induction false} LengthIsWritten(lines: seq<Line>)
    ensures Length(lines) == |WrittenAll(lines)|
  {
    if lines != [] { LengthIsWritten(lines[..|lines| - 1]); }
  }

  /** A group is its path and then its variables, each on a line of its own, and the groups come in
  order. */
  lemma {:induction false} GroupsAreListed(a: seq<Group>, b: seq<Group>)
    ensures AllLines(a + b) == AllLines(a) + AllLines(b)
  {
    if b == [] {
      assert a + b == a;
    } else {
      var init, g := b[..|b| - 1], b[|b| - 1];
      assert (a + b)[..|a + b| - 1] == a + init;
      GroupsAreListed(a, init);
      OneMoreListed(AllLines(a), AllLines(init), [Head(g.path)] + VarLines(g.vars));
    }
  }

  lemma OneMoreListed(a: seq<Line>, b: seq<Line>, c: seq<Line>)
    ensures a + b + c == a + (b + c)
  {}

  lemma OneGroupIsListed(g: Group)
    ensures var lines := AllLines([g]);
      && |lines| == 1 + |g.vars| && lines[0] == Head(g.path) && forall i | 0 <= i < |g.vars| :: lines[i + 1] == Var(g.vars[i])
  {
    assert [g][..0] == [];
  }

  /** What a theme imports and plugs in comes on one line in front, its fonts on another. */
  lemma PreambleLists(t: Theme)
    ensures Preamble(t.(imports := [], plugins := [], fonts := [])) == []
    ensures t.fonts != [] ==> Preamble(t) == Preamble(t.(fonts := [])) + [Fonts(Join(t.fonts, "; "))]
    ensures t.imports != [] && t.plugins == t.fonts == [] ==> Preamble(t) == [Imports(Join(t.imports, ", "))]
    ensures t.plugins != [] && t.fonts == [] ==>
              Preamble(t) == [Imports(Join(t.imports, ", ") + " \U{00B7} plugins: " + Join(t.plugins, ", "))]
  {
    assert Join(t.imports, ", ") + "" == Join(t.imports, ", ");
    assert Preamble(t.(fonts := [])) + [] == Preamble(t.(fonts := []));
    assert Join(t.imports, ", ") + (" \U{00B7} plugins: " + Join(t.plugins, ", "))
        == Join(t.imports, ", ") + " \U{00B7} plugins: " + Join(t.plugins, ", ");
  }
}
