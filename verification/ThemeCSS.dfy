/** The stylesheet condenser: one pass over the characters with a stack of open blocks, and a
summary cut off at a length limit. */
module ThemeCSS {
  import opened Common

  const MAX_CHARS := 7000
  const MAX_VALUE := 160
  const ARROW := " \U{203A} "

  // ------------------------------------------------------------ comments

  predicate Opens(s: string) { |s| >= 2 && s[0] == '/' && s[1] == '*' }

  predicate Closes(s: string) { |s| >= 2 && s[0] == '*' && s[1] == '/' }

  /** What follows the first comment end in s. */
  function AfterClose(s: string): (r: Option<string>)
    ensures r.Some? ==> |r.value| < |s|
  {
    if Closes(s) then Some(s[2..]) else if s == "" then None else AfterClose(s[1..])
  }

  /** Comments are removed; one that is never closed is no comment. */
  function Strip(s: string): string
    decreases |s|
  {
    if s == "" then ""
    else if Opens(s) && AfterClose(s[2..]).Some? then Strip(AfterClose(s[2..]).value)
    else [s[0]] + Strip(s[1..])
  }

  ghost predicate Uncommented(s: string) { forall i | 0 <= i < |s| :: !Opens(s[i..]) }

  lemma {:induction false} NothingToStrip(s: string)
    requires Uncommented(s)
    ensures Strip(s) == s
  {
    if s != "" {
      assert s[0..] == s;
      forall i | 0 <= i < |s[1..]| ensures !Opens(s[1..][i..]) { assert s[1..][i..] == s[i + 1..]; }
      NothingToStrip(s[1..]);
    }
  }

  lemma {:induction false} ClosesAt(body: string, after: string)
    requires forall i | 0 <= i < |body| :: !Closes((body + "*/" + after)[i..])
    ensures AfterClose(body + "*/" + after) == Some(after)
  {
    var s := body + "*/" + after;
    if body == "" {
      assert s[2..] == after;
    } else {
      assert s[1..] == body[1..] + "*/" + after;
      assert s[0..] == s;
      forall i | 0 <= i < |body[1..]| ensures !Closes(s[1..][i..]) { assert s[1..][i..] == s[i + 1..]; }
      ClosesAt(body[1..], after);
    }
  }

  /** A comment drops out of the text around it, wherever it stands. */
  lemma {:induction false} CommentDropsOut(before: string, body: string, after: string)
    requires forall i | 0 <= i < |before| :: !Opens((before + "/*" + body + "*/" + after)[i..])
    requires forall i | 0 <= i < |body| :: !Closes((body + "*/" + after)[i..])
    ensures Strip(before + "/*" + body + "*/" + after) == before + Strip(after)
  {
    var s := before + "/*" + body + "*/" + after;
    if before == "" {
      assert s[2..] == body + "*/" + after;
      ClosesAt(body, after);
    } else {
      assert s[0..] == s;
      assert s[1..] == before[1..] + "/*" + body + "*/" + after;
      forall i | 0 <= i < |before[1..]| ensures !Opens(s[1..][i..]) { assert s[1..][i..] == s[i + 1..]; }
      CommentDropsOut(before[1..], body, after);
    }
  }

  // ------------------------------------------------------------ small text helpers

  function WordLength(s: string): (n: nat)
    ensures n <= |s| && (s != "" && !IsSpace(s[0]) ==> n > 0)
  {
    if s == "" || IsSpace(s[0]) then 0 else 1 + WordLength(s[1..])
  }

  function Words(s: string): seq<string>
    decreases |s|
  {
    if s == "" then []
    else if IsSpace(s[0]) then Words(s[1..])
    else [s[..WordLength(s)]] + Words(s[WordLength(s)..])
  }

  function Collapsed(s: string): string { Join(Words(s), " ") }

  function CutAtColon(s: string): Option<(string, string)> {
    if s == "" then None
    else if s[0] == ':' then Some(("", s[1..]))
    else
      var rest := CutAtColon(s[1..]);
      if rest.None? then None else Some(([s[0]] + rest.value.0, rest.value.1))
  }

  function CSSValue(v: string): (r: string)
    ensures |Collapsed(v)| <= 160 ==> r == Collapsed(v)
    ensures |Collapsed(v)| > 160 ==> |r| == 161 && r[..160] == Collapsed(v)[..160] && r[160] == '\U{2026}'
  {
    if |Collapsed(v)| > MAX_VALUE then Collapsed(v)[..MAX_VALUE] + "\U{2026}" else Collapsed(v)
  }

  predicate IsWord(c: char) { 'a' <= c <= 'z' || 'A' <= c <= 'Z' || '0' <= c <= '9' || c == '_' }

  /** var(--name), and nothing else. */
  predicate IsAlias(v: string) {
    && |v| > 7 && "var(--" <= v && v[|v| - 1] == ')'
    && forall i | 6 <= i < |v| - 1 :: IsWord(v[i]) || v[i] == '-'
  }

  function Unquoted(s: string): string {
    if s != "" && (s[0] == '"' || s[0] == '\'' || s[0] == ' ') then Unquoted(s[1..])
    else if s != "" && (s[|s| - 1] == '"' || s[|s| - 1] == '\'' || s[|s| - 1] == ' ') then Unquoted(s[..|s| - 1])
    else s
  }

  function CSSArg(stmt: string, at: string): string
    requires at <= stmt
  {
    var arg := Trim(stmt[|at|..]);
    var open := if arg != "" && arg[|arg| - 1] == ')' then arg[..|arg| - 1] else arg;
    Unquoted(if "url(" <= open then open[4..] else open)
  }

  predicate SetsPageFont(selector: string) {
    selector == "html" || selector == "body" || selector == ":root" || selector == "*" || selector == "@font-face"
  }

  // ------------------------------------------------------------ what one declaration means

  datatype Finding =
    | Import(arg: string)
    | Plugin(arg: string)
    | Font(text: string)
    | Property(path: string, text: string)

  /** A declaration inside the blocks open around it, outermost first. */
  function Meaning(stack: seq<string>, raw: string): Option<Finding> {
    var d := Trim(raw);
    if d == "" then None
    else if stack == [] then
      if "@import" <= d then Some(Import(CSSArg(d, "@import")))
      else if "@plugin" <= d then Some(Plugin(CSSArg(d, "@plugin")))
      else None
    else
      var parts := CutAtColon(d);
      if parts.None? then None
      else
        var name, value := Trim(parts.value.0), CSSValue(parts.value.1);
        if "--" <= name then
          if "@theme" <= stack[0] && IsAlias(value) then None
          else Some(Property(Join(stack, ARROW), name + ": " + value))
        else if name == "font-family" && SetsPageFont(stack[|stack| - 1]) then
          Some(Font(stack[|stack| - 1] + " \U{2192} " + value))
        else None
  }

  lemma {:induction false} TrimLeftThenColon(name: string, value: string)
    ensures TrimLeft(name + ":" + value) == TrimLeft(name) + ":" + value
  {
    if name != "" && IsSpace(name[0]) {
      assert (name + ":" + value)[1..] == name[1..] + ":" + value;
      TrimLeftThenColon(name[1..], value);
    } else if name == "" {
      assert (name + ":" + value)[0] == ':';
    } else {
      assert (name + ":" + value)[0] == name[0];
    }
  }

  lemma {:induction false} ColonThenTrimRight(name: string, value: string)
    ensures TrimRight(name + ":" + value) == name + ":" + TrimRight(value)
  {
    var s := name + ":" + value;
    if value != "" && IsSpace(value[|value| - 1]) {
      assert s[..|s| - 1] == name + ":" + value[..|value| - 1] && s[|s| - 1] == value[|value| - 1];
      ColonThenTrimRight(name, value[..|value| - 1]);
    } else if value == "" {
      assert s[|s| - 1] == ':';
    } else {
      assert s[|s| - 1] == value[|value| - 1];
    }
  }

  lemma {:induction false} CutIsAtFirstColon(name: string, value: string)
    requires forall i | 0 <= i < |name| :: name[i] != ':'
    ensures CutAtColon(name + ":" + value) == Some((name, value))
  {
    var s := name + ":" + value;
    if name == "" {
      assert s[0] == ':' && s[1..] == value;
    } else {
      assert s[0] == name[0] && s[1..] == name[1..] + ":" + value;
      CutIsAtFirstColon(name[1..], value);
      assert name == [name[0]] + name[1..];
    }
  }

  lemma {:induction false} TrimLeftTwice(s: string)
    ensures TrimLeft(TrimLeft(s)) == TrimLeft(s)
    ensures |TrimLeft(s)| <= |s| && forall i | 0 <= i < |TrimLeft(s)| :: TrimLeft(s)[i] in s
  {
    if s != "" && IsSpace(s[0]) { TrimLeftTwice(s[1..]); }
  }

  lemma {:induction false} BlankHasNoWords(s: string)
    requires forall i | 0 <= i < |s| :: IsSpace(s[i])
    ensures Words(s) == []
  {
    if s != "" { BlankHasNoWords(s[1..]); }
  }

  lemma {:induction false} WordLengthBeforeSpace(s: string, c: char)
    requires IsSpace(c)
    ensures WordLength(s + [c]) == WordLength(s)
  {
    if s == "" {
      assert (s + [c])[0] == c;
    } else {
      assert (s + [c])[0] == s[0] && (s + [c])[1..] == s[1..] + [c];
      if !IsSpace(s[0]) { WordLengthBeforeSpace(s[1..], c); }
    }
  }

  lemma {:induction false} WordsBeforeSpace(s: string, c: char)
    requires IsSpace(c)
    ensures Words(s + [c]) == Words(s)
    decreases |s|
  {
    var t := s + [c];
    if s == "" {
      assert t[1..] == "";
    } else if IsSpace(s[0]) {
      assert t[1..] == s[1..] + [c];
      WordsBeforeSpace(s[1..], c);
    } else {
      var n := WordLength(s);
      WordLengthBeforeSpace(s, c);
      assert t[..n] == s[..n] && t[n..] == s[n..] + [c];
      WordsBeforeSpace(s[n..], c);
    }
  }

  lemma {:induction false} WordsOfTrimmed(s: string)
    ensures Words(TrimRight(s)) == Words(s)
  {
    if s != "" && IsSpace(s[|s| - 1]) {
      WordsOfTrimmed(s[..|s| - 1]);
      WordsBeforeSpace(s[..|s| - 1], s[|s| - 1]);
      assert s == s[..|s| - 1] + [s[|s| - 1]];
    }
  }

  /** A declaration is its name and its value, whatever white space stands around them. */
  lemma DeclarationIsCut(name: string, value: string)
    requires forall i | 0 <= i < |name| :: name[i] != ':'
    ensures var d := Trim(name + ":" + value); d != "" && CutAtColon(d) == Some((TrimLeft(name), TrimRight(value)))
    ensures Trim(TrimLeft(name)) == Trim(name) && Collapsed(TrimRight(value)) == Collapsed(value)
  {
    var left := TrimLeft(name);
    TrimLeftThenColon(name, value);
    ColonThenTrimRight(left, value);
    TrimLeftTwice(name);
    forall i | 0 <= i < |left| ensures left[i] != ':' { assert left[i] in name; }
    CutIsAtFirstColon(left, TrimRight(value));
    WordsOfTrimmed(value);
    assert Trim(name + ":" + value) == left + ":" + TrimRight(value);
  }

  /** A custom property is what a declaration inside a block means exactly when its name, white space
  aside, begins with two dashes and it is no alias inside a theme block; then it is listed under the
  blocks around it as name and value, the value with single spaces and cut when it is long. */
  lemma PropertyIff(stack: seq<string>, name: string, value: string)
    requires forall i | 0 <= i < |name| :: name[i] != ':'
    ensures var m := Meaning(stack, name + ":" + value);
            && (m.Some? && m.value.Property? <==>
                  stack != [] && "--" <= Trim(name) && !("@theme" <= stack[0] && IsAlias(CSSValue(value))))
            && (m.Some? && m.value.Property? ==>
                  m.value.path == Join(stack, " \U{203A} ") && m.value.text == Trim(name) + ": " + CSSValue(value))
  {
    DeclarationIsCut(name, value);
  }

  /** A font family is listed, with its block, exactly when it is set for the page as a whole; and
  nothing else in a block is listed. */
  lemma FontIff(stack: seq<string>, name: string, value: string)
    requires stack != [] && forall i | 0 <= i < |name| :: name[i] != ':'
    ensures var m, top := Meaning(stack, name + ":" + value), stack[|stack| - 1];
            && (m.Some? && m.value.Font? <==>
                  Trim(name) == "font-family" && top in ["html", "body", ":root", "*", "@font-face"])
            && (m.Some? && m.value.Font? ==> m.value.text == top + " \U{2192} " + CSSValue(value))
            && (m.Some? ==> m.value.Font? || m.value.Property?)
  {
    DeclarationIsCut(name, value);
    assert Trim(name) == "font-family" ==> Trim(name)[0] == 'f';
    var scopes, top := ["html", "body", ":root", "*", "@font-face"], stack[|stack| - 1];
    assert top in scopes <==> top == scopes[0] || top == scopes[1] || top == scopes[2] || top == scopes[3] || top == scopes[4];
  }

  // ------------------------------------------------------------ the scan

  datatype Group = Group(path: string, vars: seq<string>)

  datatype Theme = Theme(imports: seq<string>, plugins: seq<string>, fonts: seq<string>, groups: seq<Group>, count: nat)

  const NOTHING := Theme([], [], [], [], 0)

  function FindGroup(groups: seq<Group>, path: string): (i: Option<nat>)
    ensures i.Some? ==> i.value < |groups| && groups[i.value].path == path
    ensures i.Some? ==> forall j | 0 <= j < i.value :: groups[j].path != path
    ensures i.None? ==> forall j | 0 <= j < |groups| :: groups[j].path != path
  {
    if groups == [] then None
    else if groups[0].path == path then Some(0)
    else
      var rest := FindGroup(groups[1..], path);
      assert forall j | 1 <= j < |groups| :: groups[j] == groups[1..][j - 1];
      if rest.Some? then Some(rest.value + 1) else None
  }

  function AddVar(groups: seq<Group>, path: string, text: string): seq<Group> {
    var i := FindGroup(groups, path);
    if i.Some? then groups[i.value := groups[i.value].(vars := groups[i.value].vars + [text])]
    else groups + [Group(path, [text])]
  }

  function Add(t: Theme, f: Option<Finding>): Theme {
    if f.None? then t
    else match f.value
      case Import(arg) => t.(imports := t.imports + [arg])
      case Plugin(arg) => t.(plugins := t.plugins + [arg])
      case Font(text) => t.(fonts := t.fonts + [text])
      case Property(path, text) => t.(groups := AddVar(t.groups, path, text), count := t.count + 1)
  }

  datatype Scanner = Scanner(theme: Theme, stack: seq<string>, buf: string)

  const START := Scanner(NOTHING, [], "")

  function Eat(s: Scanner, c: char): Scanner {
    if c == '{' then Scanner(s.theme, s.stack + [Collapsed(s.buf)], "")
    else if c == ';' then Scanner(Add(s.theme, Meaning(s.stack, s.buf)), s.stack, "")
    else if c == '}' then
      Scanner(Add(s.theme, Meaning(s.stack, s.buf)), if s.stack == [] then [] else s.stack[..|s.stack| - 1], "")
    else s.(buf := s.buf + [c])
  }

  function Scan(s: Scanner, css: string): Scanner
    decreases css
  {
    if css == "" then s else Scan(Eat(s, css[0]), css[1..])
  }

  lemma {:induction false} ScanOneMore(s: Scanner, css: string, c: char)
    ensures Scan(s, css + [c]) == Eat(Scan(s, css), c)
    decreases css
  {
    if css == "" {
      assert (css + [c])[1..] == "";
    } else {
      assert (css + [c])[1..] == css[1..] + [c];
      ScanOneMore(Eat(s, css[0]), css[1..], c);
    }
  }

  lemma {:induction false} ScanJoined(s: Scanner, a: string, b: string)
    ensures Scan(s, a + b) == Scan(Scan(s, a), b)
    decreases a
  {
    if a == "" {
      assert a + b == b;
    } else {
      assert (a + b)[1..] == a[1..] + b;
      ScanJoined(Eat(s, a[0]), a[1..], b);
    }
  }

  /** Where byPath says each group is. */
  ghost predicate Indexed(groups: seq<Group>, byPath: map<string, nat>) {
    && (forall p <- byPath :: byPath[p] < |groups| && groups[byPath[p]].path == p)
    && (forall i | 0 <= i < |groups| :: groups[i].path in byPath && byPath[groups[i].path] == i)
  }

  /** The pass over the stylesheet: no stray brace ever pops an empty stack. */
  method ScanTheme(source: string) returns (theme: Theme)
    ensures theme == Scan(START, Strip(source)).theme
  {
    var css := Strip(source);
    var imports, plugins, fonts: seq<string>, groups: seq<Group>, count := [], [], [], [], 0;
    var byPath: map<string, nat>, stack: seq<string>, buf := map[], [], "";
    for i := 0 to |css|
      invariant Indexed(groups, byPath)
      invariant Scan(START, css[..i]) == Scanner(Theme(imports, plugins, fonts, groups, count), stack, buf)
    {
      var c := css[i];
      assert css[..i + 1] == css[..i] + [c];
      ScanOneMore(START, css[..i], c);
      if c == '{' {
        stack := stack + [Collapsed(buf)];
        buf := "";
      } else if c == ';' || c == '}' {
        var f := Meaning(stack, buf);
        if f.Some? {
          match f.value {
            case Import(arg) => imports := imports + [arg];
            case Plugin(arg) => plugins := plugins + [arg];
            case Font(text) => fonts := fonts + [text];
            case Property(path, text) => groups, byPath := Declare(groups, byPath, path, text); count := count + 1;
          }
        }
        buf := "";
        if c == '}' && |stack| > 0 { stack := stack[..|stack| - 1]; }
      } else {
        buf := buf + [c];
      }
    }
    assert css[..|css|] == css;
    theme := Theme(imports, plugins, fonts, groups, count);
  }

  method Declare(groups: seq<Group>, byPath: map<string, nat>, path: string, text: string)
    returns (grown: seq<Group>, index: map<string, nat>)
    requires Indexed(groups, byPath)
    ensures grown == AddVar(groups, path, text) && Indexed(grown, index)
  {
    grown, index := groups, byPath;
    assert path in byPath ==> FindGroup(groups, path) == Some(byPath[path]);
    assert path !in byPath ==> FindGroup(groups, path) == None;
    if path !in index {
      index := index[path := |grown|];
      grown := grown + [Group(path, [])];
    }
    var at := index[path];
    grown := grown[at := grown[at].(vars := grown[at].vars + [text])];
    assert [] + [text] == [text];
    assert path !in byPath ==> grown == groups + [Group(path, [text])] == AddVar(groups, path, text);
  }

  // ------------------------------------------------------------ printed stylesheets

  /** A stylesheet as a tree; tail is a last declaration without its semicolon. */
  datatype Sheet =
    | End
    | Decl(text: string, rest: Sheet)
    | Block(selector: string, body: Sheet, tail: string, rest: Sheet)

  predicate Plain(s: string) { forall i | 0 <= i < |s| :: s[i] != '{' && s[i] != '}' && s[i] != ';' }

  predicate Printable(t: Sheet) {
    match t
    case End => true
    case Decl(text, rest) => Plain(text) && Printable(rest)
    case Block(selector, body, tail, rest) => Plain(selector) && Printable(body) && Plain(tail) && Printable(rest)
  }

  function Print(t: Sheet): string {
    match t
    case End => ""
    case Decl(text, rest) => text + ";" + Print(rest)
    case Block(selector, body, tail, rest) => selector + "{" + Print(body) + tail + "}" + Print(rest)
  }

  function OneOrNone(f: Option<Finding>): seq<Finding> { if f.Some? then [f.value] else [] }

  /** What the declarations of a tree mean, in document order, each under the blocks around it. */
  function Findings(t: Sheet, stack: seq<string>): seq<Finding> {
    match t
    case End => []
    case Decl(text, rest) => OneOrNone(Meaning(stack, text)) + Findings(rest, stack)
    case Block(selector, body, tail, rest) =>
      var inner := stack + [Collapsed(selector)];
      Findings(body, inner) + OneOrNone(Meaning(inner, tail)) + Findings(rest, stack)
  }

  function AddAll(t: Theme, fs: seq<Finding>): Theme {
    if fs == [] then t else Add(AddAll(t, fs[..|fs| - 1]), Some(fs[|fs| - 1]))
  }

  lemma {:induction false} AddAllJoined(t: Theme, a: seq<Finding>, b: seq<Finding>)
    ensures AddAll(t, a + b) == AddAll(AddAll(t, a), b)
  {
    if b == [] {
      assert a + b == a;
    } else {
      assert (a + b)[..|a + b| - 1] == a + b[..|b| - 1];
      AddAllJoined(t, a, b[..|b| - 1]);
    }
  }

  lemma {:induction false} PlainIsBuffered(s: Scanner, text: string)
    requires Plain(text)
    ensures Scan(s, text) == s.(buf := s.buf + text)
    decreases text
  {
    if text == "" {
      assert s.buf + text == s.buf;
    } else {
      PlainIsBuffered(Eat(s, text[0]), text[1..]);
      assert s.buf + [text[0]] + text[1..] == s.buf + text;
    }
  }

  /** text and one mark after it. */
  lemma TextThenMark(s: Scanner, text: string, mark: char)
    requires Plain(text) && s.buf == ""
    ensures Scan(s, text + [mark]) == Eat(s.(buf := text), mark)
  {
    PlainIsBuffered(s, text);
    ScanOneMore(s, text, mark);
    assert "" + text == text;
  }

  /** The stack machine reads a printed tree back: it finds what the tree says, and is where it was. */
  lemma {:induction false} ScanReadsTree(t: Sheet, theme: Theme, stack: seq<string>)
    requires Printable(t)
    ensures Scan(Scanner(theme, stack, ""), Print(t)) == Scanner(AddAll(theme, Findings(t, stack)), stack, "")
    decreases t, 1
  {
    var s := Scanner(theme, stack, "");
    match t
    case End =>
    case Decl(text, rest) =>
      var f := OneOrNone(Meaning(stack, text));
      TextThenMark(s, text, ';');
      ScanJoined(s, text + ";", Print(rest));
      ScanReadsTree(rest, AddAll(theme, f), stack);
      AddAllJoined(theme, f, Findings(rest, stack));
    case Block(selector, body, tail, rest) =>
      BlockIsRead(t, theme, stack);
      var inner := stack + [Collapsed(selector)];
      var found := Findings(body, inner) + OneOrNone(Meaning(inner, tail));
      ScanJoined(s, selector + "{" + Print(body) + tail + "}", Print(rest));
      assert Print(t) == selector + "{" + Print(body) + tail + "}" + Print(rest);
      ScanReadsTree(rest, AddAll(theme, found), stack);
      AddAllJoined(theme, found, Findings(rest, stack));
  }

  lemma {:induction false} BlockIsRead(t: Sheet, theme: Theme, stack: seq<string>)
    requires Printable(t) && t.Block?
    ensures var inner := stack + [Collapsed(t.selector)];
            Scan(Scanner(theme, stack, ""), t.selector + "{" + Print(t.body) + t.tail + "}")
              == Scanner(AddAll(theme, Findings(t.body, inner) + OneOrNone(Meaning(inner, t.tail))), stack, "")
    decreases t, 0
  {
    var s, inner := Scanner(theme, stack, ""), stack + [Collapsed(t.selector)];
    var in', tail := Findings(t.body, inner), OneOrNone(Meaning(inner, t.tail));
    TextThenMark(s, t.selector, '{');
    ScanReadsTree(t.body, theme, inner);
    TextThenMark(Scanner(AddAll(theme, in'), inner, ""), t.tail, '}');
    ScanJoined(s, t.selector + "{", Print(t.body));
    ScanJoined(s, t.selector + "{" + Print(t.body), t.tail + "}");
    assert t.selector + "{" + Print(t.body) + (t.tail + "}") == t.selector + "{" + Print(t.body) + t.tail + "}";
    AddAllJoined(theme, in', tail);
    assert inner[..|inner| - 1] == stack;
  }

  // ------------------------------------------------------------ what the groups say

  /** The distinct paths of the properties found, in the order of their first appearance. */
  function PathsSeen(fs: seq<Finding>): seq<string> {
    if fs == [] then []
    else
      var last, rest := fs[|fs| - 1], PathsSeen(fs[..|fs| - 1]);
      if last.Property? && last.path !in rest then rest + [last.path] else rest
  }

  /** The properties found under one path, in order. */
  function VarsUnder(fs: seq<Finding>, path: string): seq<string> {
    if fs == [] then []
    else
      var last, rest := fs[|fs| - 1], VarsUnder(fs[..|fs| - 1], path);
      if last.Property? && last.path == path then rest + [last.text] else rest
  }

  function Properties(fs: seq<Finding>): nat {
    if fs == [] then 0 else Properties(fs[..|fs| - 1]) + (if fs[|fs| - 1].Property? then 1 else 0)
  }

  function VarCount(groups: seq<Group>): nat {
    if groups == [] then 0 else VarCount(groups[..|groups| - 1]) + |groups[|groups| - 1].vars|
  }

  lemma {:induction false} VarCountAfterAdd(groups: seq<Group>, text: string, i: nat)
    requires i < |groups|
    ensures VarCount(groups[i := groups[i].(vars := groups[i].vars + [text])]) == VarCount(groups) + 1
  {
    var after, init := groups[i := groups[i].(vars := groups[i].vars + [text])], groups[..|groups| - 1];
    if i < |groups| - 1 {
      assert after[..|after| - 1] == init[i := groups[i].(vars := groups[i].vars + [text])];
      VarCountAfterAdd(init, text, i);
    } else {
      assert after[..|after| - 1] == init;
    }
  }

  lemma AddVarCounts(groups: seq<Group>, path: string, text: string)
    ensures VarCount(AddVar(groups, path, text)) == VarCount(groups) + 1
  {
    var i := FindGroup(groups, path);
    if i.Some? {
      VarCountAfterAdd(groups, text, i.value);
    } else {
      assert (groups + [Group(path, [text])])[..|groups|] == groups;
    }
  }

  ghost predicate GroupedLike(groups: seq<Group>, fs: seq<Finding>) {
    && |groups| == |PathsSeen(fs)|
    && (forall i | 0 <= i < |groups| :: groups[i].path == PathsSeen(fs)[i] && groups[i].vars == VarsUnder(fs, groups[i].path))
    && (forall i, j | 0 <= i < j < |groups| :: groups[i].path != groups[j].path)
  }

  lemma {:induction false} UnseenHasNoVars(fs: seq<Finding>, path: string)
    requires path !in PathsSeen(fs)
    ensures VarsUnder(fs, path) == []
  {
    if fs != [] { UnseenHasNoVars(fs[..|fs| - 1], path); }
  }

  /** Adding one property keeps the grouping what the findings say it is. */
  lemma OneMoreGrouped(groups: seq<Group>, fs: seq<Finding>, path: string, text: string)
    requires GroupedLike(groups, fs)
    ensures GroupedLike(AddVar(groups, path, text), fs + [Property(path, text)])
  {
    var all := fs + [Property(path, text)];
    assert all[..|all| - 1] == fs;
    var i := FindGroup(groups, path);
    if i.Some? {
      assert path in PathsSeen(fs);
    } else {
      assert path !in PathsSeen(fs);
      UnseenHasNoVars(fs, path);
    }
  }

  /** The groups are the properties by path: paths in the order they first appear, each with
  exactly its own properties in order, and the count is theirs. */
  lemma {:induction false} GroupsAreByPath(fs: seq<Finding>)
    ensures var t := AddAll(NOTHING, fs);
            GroupedLike(t.groups, fs) && t.count == Properties(fs) == VarCount(t.groups)
  {
    if fs != [] {
      var init, last := fs[..|fs| - 1], fs[|fs| - 1];
      GroupsAreByPath(init);
      if last.Property? {
        assert fs == init + [last];
        OneMoreGrouped(AddAll(NOTHING, init).groups, init, last.path, last.text);
        AddVarCounts(AddAll(NOTHING, init).groups, last.path, last.text);
      }
    }
  }

  // ------------------------------------------------------------ main results

  /** Reading a printed stylesheet recovers exactly its custom properties, grouped by the blocks
  around them, and leaves no block open. */
  lemma PrintedSheetIsRecovered(t: Sheet)
    requires Printable(t) && Uncommented(Print(t))
    ensures var s, fs := Scan(START, Strip(Print(t))), Findings(t, []);
            && s.stack == [] && s.buf == ""
            && GroupedLike(s.theme.groups, fs) && s.theme.count == Properties(fs) == VarCount(s.theme.groups)
  {
    NothingToStrip(Print(t));
    ScanReadsTree(t, NOTHING, []);
    GroupsAreByPath(Findings(t, []));
  }

  /** Closing braces with nothing to close change nothing. */
  lemma {:induction false} StrayClosersAreIgnored(closers: string, theme: Theme, css: string)
    requires forall i | 0 <= i < |closers| :: closers[i] == '}'
    ensures Scan(Scanner(theme, [], ""), closers + css) == Scan(Scanner(theme, [], ""), css)
  {
    if closers == "" {
      assert closers + css == css;
    } else {
      assert (closers + css)[1..] == closers[1..] + css;
      assert Meaning([], "") == None;
      StrayClosersAreIgnored(closers[1..], theme, css);
    }
  }

  // ------------------------------------------------------------ the summary

  datatype Line = Imports(text: string) | Fonts(text: string) | Head(path: string) | Var(text: string) | More(n: int)

  function LineLength(l: Line): nat {
    match l
    case Imports(text) => |"Imports: "| + |text| + 1
    case Fonts(text) => |"Fonts: "| + |text| + 1
    case Head(path) => |path| + 1
    case Var(text) => |text| + 3
    case More(_) => 0
  }

  function Length(lines: seq<Line>): nat {
    if lines == [] then 0 else Length(lines[..|lines| - 1]) + LineLength(lines[|lines| - 1])
  }

  function Preamble(t: Theme): seq<Line> {
    (if t.imports == [] && t.plugins == [] then []
     else [Imports(Join(t.imports, ", ") + (if t.plugins == [] then "" else " \U{00B7} plugins: " + Join(t.plugins, ", ")))])
    + (if t.fonts == [] then [] else [Fonts(Join(t.fonts, "; "))])
  }

  function VarLines(vars: seq<string>): (r: seq<Line>)
    ensures |r| == |vars| && forall i | 0 <= i < |vars| :: r[i] == Var(vars[i])
  {
    if vars == [] then [] else VarLines(vars[..|vars| - 1]) + [Var(vars[|vars| - 1])]
  }

  /** Every group and variable, as the summary would list them without a limit. */
  function AllLines(groups: seq<Group>): seq<Line> {
    if groups == [] then []
    else
      var g := groups[|groups| - 1];
      AllLines(groups[..|groups| - 1]) + ([Head(g.path)] + VarLines(g.vars))
  }

  function VarsIn(lines: seq<Line>): nat {
    if lines == [] then 0 else VarsIn(lines[..|lines| - 1]) + (if lines[|lines| - 1].Var? then 1 else 0)
  }

  lemma {:induction false} VarsInJoined(a: seq<Line>, b: seq<Line>)
    ensures VarsIn(a + b) == VarsIn(a) + VarsIn(b)
  {
    if b == [] {
      assert a + b == a;
    } else {
      assert (a + b)[..|a + b| - 1] == a + b[..|b| - 1];
      VarsInJoined(a, b[..|b| - 1]);
    }
  }

  lemma {:induction false} VarsInVarLines(vars: seq<string>)
    ensures VarsIn(VarLines(vars)) == |vars|
  {
    if vars != [] {
      VarsInVarLines(vars[..|vars| - 1]);
      assert VarLines(vars)[..|vars| - 1] == VarLines(vars[..|vars| - 1]);
    }
  }

  lemma {:induction false} VarsInAllLines(groups: seq<Group>)
    ensures VarsIn(AllLines(groups)) == VarCount(groups)
  {
    if groups != [] {
      var g := groups[|groups| - 1];
      VarsInAllLines(groups[..|groups| - 1]);
      VarsInJoined(AllLines(groups[..|groups| - 1]), [Head(g.path)] + VarLines(g.vars));
      VarsInJoined([Head(g.path)], VarLines(g.vars));
      VarsInVarLines(g.vars);
      assert [Head(g.path)][..0] == [];
    }
  }

  lemma {:induction false} EarlierGroupsComeFirst(groups: seq<Group>, k: nat)
    requires k <= |groups|
    ensures AllLines(groups[..k]) <= AllLines(groups)
  {
    if k == |groups| {
      assert groups[..k] == groups;
    } else {
      EarlierGroupsComeFirst(groups[..|groups| - 1], k);
      assert groups[..|groups| - 1][..k] == groups[..k];
    }
  }

  /** Every line starts within the limit. */
  ghost predicate StartInLimit(preamble: seq<Line>, lines: seq<Line>) {
    forall k | 0 <= k < |lines| :: Length(preamble + lines[..k]) <= MAX_CHARS
  }

  /** The lines are the first of all, and stop before the first one that would start past the limit. */
  ghost predicate CutAtLimit(preamble: seq<Line>, lines: seq<Line>, all: seq<Line>) {
    && lines <= all && StartInLimit(preamble, lines)
    && (|lines| < |all| ==> Length(preamble + lines) > MAX_CHARS)
  }

  lemma OneMoreLine(preamble: seq<Line>, lines: seq<Line>, l: Line)
    requires StartInLimit(preamble, lines) && Length(preamble + lines) <= MAX_CHARS
    ensures StartInLimit(preamble, lines + [l])
    ensures VarsIn(lines + [l]) == VarsIn(lines) + (if l.Var? then 1 else 0)
  {
    assert (lines + [l])[..|lines|] == lines;
    forall k | 0 <= k < |lines| ensures (lines + [l])[..k] == lines[..k] {}
  }

  lemma ShownIsWithinCount(t: Theme, lines: seq<Line>)
    requires t.count == VarCount(t.groups) && lines <= AllLines(t.groups)
    ensures VarsIn(lines) <= t.count
  {
    var rest := AllLines(t.groups)[|lines|..];
    VarsInAllLines(t.groups);
    VarsInJoined(lines, rest);
    assert lines + rest == AllLines(t.groups);
  }

  /** The groups and variables listed, and how many variables they show. Shown and more make up
  the count. */
  method ListGroups(t: Theme) returns (lines: seq<Line>, shown: nat)
    requires t.count == VarCount(t.groups)
    ensures CutAtLimit(Preamble(t), lines, AllLines(t.groups))
    ensures shown == VarsIn(lines) <= t.count
  {
    var preamble := Preamble(t);
    lines, shown := [], 0;
    var g := 0;
    while g < |t.groups| && Length(preamble + lines) <= MAX_CHARS
      invariant 0 <= g <= |t.groups| && shown == VarsIn(lines) && lines <= AllLines(t.groups)
      invariant StartInLimit(preamble, lines)
      invariant Length(preamble + lines) <= MAX_CHARS ==> lines == AllLines(t.groups[..g])
      decreases |t.groups| - g
    {
      lines, shown := ListOneGroup(t, preamble, lines, shown, g);
      g := g + 1;
    }
    assert t.groups[..|t.groups|] == t.groups;
    ShownIsWithinCount(t, lines);
  }

  lemma ListedSoFar(groups: seq<Group>, g: nat, lines: seq<Line>, k: nat)
    requires g < |groups| && k <= |groups[g].vars| + 1
    requires lines == AllLines(groups[..g]) + ([Head(groups[g].path)] + VarLines(groups[g].vars))[..k]
    ensures lines <= AllLines(groups)
    ensures k == |groups[g].vars| + 1 ==> lines == AllLines(groups[..g + 1])
  {
    var listed := [Head(groups[g].path)] + VarLines(groups[g].vars);
    assert groups[..g + 1][..g] == groups[..g] && listed[..|listed|] == listed;
    assert AllLines(groups[..g + 1]) == AllLines(groups[..g]) + listed;
    assert lines == AllLines(groups[..g + 1])[..|lines|];
    EarlierGroupsComeFirst(groups, g + 1);
  }

  lemma NextListed(before: seq<Line>, listed: seq<Line>, k: nat)
    requires k < |listed|
    ensures before + listed[..k] + [listed[k]] == before + listed[..k + 1]
  {
    assert listed[..k + 1] == listed[..k] + [listed[k]];
  }

  method ListOneGroup(t: Theme, preamble: seq<Line>, before: seq<Line>, sofar: nat, g: nat) returns (lines: seq<Line>, shown: nat)
    requires g < |t.groups| && Length(preamble + before) <= MAX_CHARS
    requires before == AllLines(t.groups[..g]) && sofar == VarsIn(before)
    requires StartInLimit(preamble, before)
    ensures shown == VarsIn(lines) && lines <= AllLines(t.groups)
    ensures StartInLimit(preamble, lines)
    ensures Length(preamble + lines) <= MAX_CHARS ==> lines == AllLines(t.groups[..g + 1])
  {
    var group := t.groups[g];
    var vars := group.vars;
    OneMoreLine(preamble, before, Head(group.path));
    lines, shown := before + [Head(group.path)], sofar;
    ghost var listed := [Head(group.path)] + VarLines(vars);
    var v := 0;
    while v < |vars| && Length(preamble + lines) <= MAX_CHARS
      invariant 0 <= v <= |vars| && shown == VarsIn(lines)
      invariant lines == before + listed[..v + 1] && StartInLimit(preamble, lines)
      decreases |vars| - v
    {
      OneMoreLine(preamble, lines, Var(vars[v]));
      NextListed(before, listed, v + 1);
      lines, shown := lines + [Var(vars[v])], shown + 1;
      v := v + 1;
    }
    ListedSoFar(t.groups, g, lines, v + 1);
  }

  /** The whole condenser: its preamble, the listing cut at the limit, and how many were left out. */
  method CondenseThemeCSS(css: string) returns (summary: seq<Line>, count: nat)
    ensures var t := Scan(START, Strip(css)).theme;
            && count == t.count
            && exists lines :: CutAtLimit(Preamble(t), lines, AllLines(t.groups)) && VarsIn(lines) <= count
                 && summary == Preamble(t) + lines + (if VarsIn(lines) < count then [More(count - VarsIn(lines))] else [])
  {
    var t := ScanTheme(css);
    CountIsVarCount(START, Strip(css));
    var lines, shown := ListGroups(t);
    summary := Preamble(t) + lines;
    if shown < t.count { summary := summary + [More(t.count - shown)]; }
    assert summary == Preamble(t) + lines + (if VarsIn(lines) < t.count then [More(t.count - VarsIn(lines))] else []);
    count := t.count;
  }

  lemma {:induction false} CountIsVarCount(s: Scanner, css: string)
    requires s.theme.count == VarCount(s.theme.groups)
    ensures Scan(s, css).theme.count == VarCount(Scan(s, css).theme.groups)
    decreases css
  {
    if css != "" {
      var f := Meaning(s.stack, s.buf);
      if (css[0] == ';' || css[0] == '}') && f.Some? && f.value.Property? {
        AddVarCounts(s.theme.groups, f.value.path, f.value.text);
      }
      CountIsVarCount(Eat(s, css[0]), css[1..]);
    }
  }
}
