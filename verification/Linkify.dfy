/** Plain "@name" in an agent's post becomes mention markup: the roster of names, and the scan that
puts the longest one in. Text is ASCII, byte for byte. */
module Linkify {
  import opened Common

  /** prefix: the name this person goes by is no more than a name prefix. */
  datatype User = User(id: string, disp: string, shortName: string, prefix: bool)

  datatype Agent = Agent(id: string, slug: string, disp: string)

  datatype Target = Target(name: string, id: string, disp: string)

  function FoldChar(c: char): char { if 'A' <= c <= 'Z' then c - 'A' + 'a' else c }

  function Fold(s: string): (r: string)
    ensures |r| == |s|
  {
    if s == "" then "" else [FoldChar(s[0])] + Fold(s[1..])
  }

  // ------------------------------------------------------------ the roster

  predicate Known(ts: seq<Target>, key: string) { exists i | 0 <= i < |ts| :: Fold(ts[i].name) == key }

  function AddName(ts: seq<Target>, t: Target): seq<Target> {
    if t.name == "" || Known(ts, Fold(t.name)) then ts else ts + [t]
  }

  function AddNames(ts: seq<Target>, names: seq<Target>): seq<Target> {
    if names == [] then ts else AddName(AddNames(ts, names[..|names| - 1]), names[|names| - 1])
  }

  function AgentNames(agents: seq<Agent>): seq<Target> {
    if agents == [] then []
    else
      var a := agents[|agents| - 1];
      AgentNames(agents[..|agents| - 1]) + [Target(Trim(a.slug), a.id, a.disp), Target(Trim(a.disp), a.id, a.disp)]
  }

  function FullName(u: User): Target { Target(Trim(u.disp), u.id, u.disp) }

  function FullNames(us: seq<User>): (r: seq<Target>)
    ensures |r| == |us| && forall i | 0 <= i < |us| :: r[i] == FullName(us[i])
  {
    if us == [] then [] else FullNames(us[..|us| - 1]) + [FullName(us[|us| - 1])]
  }

  predicate HasShortName(u: User) { Fold(u.shortName) != Fold(Trim(u.disp)) && !u.prefix }

  predicate GoesBy(u: User, key: string) { HasShortName(u) && Fold(u.shortName) == key }

  function WhoGoesBy(us: seq<User>, key: string): seq<User> {
    if us == [] then []
    else
      var rest := WhoGoesBy(us[..|us| - 1], key);
      if GoesBy(us[|us| - 1], key) then rest + [us[|us| - 1]] else rest
  }

  function ShortNameOf(u: User): Target { Target(Trim(u.shortName), u.id, u.disp) }

  /** The short names only one participant goes by, in the order the keys are visited. */
  function ShortNames(us: seq<User>, keys: seq<string>): seq<Target> {
    if keys == [] then []
    else
      var rest, who := ShortNames(us, keys[..|keys| - 1]), WhoGoesBy(us, keys[|keys| - 1]);
      if |who| == 1 then rest + [ShortNameOf(who[0])] else rest
  }

  function AllNames(agents: seq<Agent>, us: seq<User>, keys: seq<string>): seq<Target> {
    AgentNames(agents) + FullNames(us) + ShortNames(us, keys)
  }

  /** Every short name is visited, and visited once. */
  ghost predicate Visits(keys: seq<string>, us: seq<User>) {
    && (forall i, j | 0 <= i < j < |keys| :: keys[i] != keys[j])
    && (forall u <- us | HasShortName(u) :: Fold(u.shortName) in keys)
  }

  class Roster {
    var targets: seq<Target>
    var seen: set<string>

    ghost predicate Valid()
      reads this
    {
      forall key :: key in seen <==> Known(targets, key)
    }

    constructor ()
      ensures Valid() && targets == []
    {
      targets, seen := [], {};
    }

    method Add(name: string, id: string, disp: string)
      requires Valid()
      modifies this
      ensures Valid() && targets == AddName(old(targets), Target(Trim(name), id, disp))
    {
      var t := Target(Trim(name), id, disp);
      if t.name == "" { return; }
      var key := Fold(t.name);
      if key in seen { return; }
      seen := seen + {key};
      targets := targets + [t];
      assert targets[|targets| - 1] == t;
      assert forall k :: Known(old(targets), k) ==> Known(targets, k) by {
        assert forall i | 0 <= i < |old(targets)| :: targets[i] == old(targets)[i];
      }
    }
  }

  method AddAgents(r: Roster, agents: seq<Agent>)
    requires r.Valid() && r.targets == []
    modifies r
    ensures r.Valid() && r.targets == AddNames([], AgentNames(agents))
  {
    for i := 0 to |agents|
      invariant r.Valid() && r.targets == AddNames([], AgentNames(agents[..i]))
    {
      var a := agents[i];
      assert agents[..i + 1][..i] == agents[..i];
      r.Add(a.slug, a.id, a.disp);
      r.Add(a.disp, a.id, a.disp);
      var slug, disp := Target(Trim(a.slug), a.id, a.disp), Target(Trim(a.disp), a.id, a.disp);
      assert AgentNames(agents[..i + 1]) == AgentNames(agents[..i]) + [slug] + [disp];
    }
    assert agents[..|agents|] == agents;
  }

  method AddFullNames(r: Roster, us: seq<User>, ghost names: seq<Target>)
    requires r.Valid() && r.targets == AddNames([], names)
    modifies r
    ensures r.Valid() && r.targets == AddNames([], names + FullNames(us))
  {
    assert names + FullNames(us[..0]) == names;
    for i := 0 to |us|
      invariant r.Valid() && r.targets == AddNames([], names + FullNames(us[..i]))
    {
      r.Add(us[i].disp, us[i].id, us[i].disp);
      assert us[..i + 1][..i] == us[..i];
      assert names + FullNames(us[..i]) + [FullName(us[i])] == names + FullNames(us[..i + 1]);
    }
    assert us[..|us|] == us;
  }

  method AddShortNames(r: Roster, us: seq<User>, keys: seq<string>, ghost names: seq<Target>)
    requires r.Valid() && r.targets == AddNames([], names)
    modifies r
    ensures r.Valid() && r.targets == AddNames([], names + ShortNames(us, keys))
  {
    assert names + ShortNames(us, keys[..0]) == names;
    for i := 0 to |keys|
      invariant r.Valid() && r.targets == AddNames([], names + ShortNames(us, keys[..i]))
    {
      var who := WhoGoesBy(us, keys[i]);
      assert keys[..i + 1][..i] == keys[..i];
      if |who| == 1 {
        r.Add(who[0].shortName, who[0].id, who[0].disp);
        assert names + ShortNames(us, keys[..i]) + [ShortNameOf(who[0])] == names + ShortNames(us, keys[..i + 1]);
      }
    }
    assert keys[..|keys|] == keys;
  }

  /** keys is the order in which the map of short names happens to be visited. */
  method BuildRoster(agents: seq<Agent>, us: seq<User>, keys: seq<string>) returns (r: Roster)
    ensures fresh(r) && r.Valid() && r.targets == AddNames([], AllNames(agents, us, keys))
  {
    r := new Roster();
    AddAgents(r, agents);
    AddFullNames(r, us, AgentNames(agents));
    AddShortNames(r, us, keys, AgentNames(agents) + FullNames(us));
  }

  // ------------------------------------------------------------ the scan

  predicate IsWordByte(c: char) { c == '_' || '0' <= c <= '9' || 'a' <= c <= 'z' || 'A' <= c <= 'Z' }

  predicate StartBoundary(body: string, at: nat)
    requires at < |body|
  {
    at == 0 || (!IsWordByte(body[at - 1]) && body[at - 1] != '[' && body[at - 1] != '|')
  }

  predicate StartsMention(body: string, at: nat)
    requires at < |body|
  {
    body[at] == '@' && StartBoundary(body, at)
  }

  /** A name stands right after at, and no word character follows it. */
  predicate Matches(body: string, at: nat, t: Target) {
    var end := at + 1 + |t.name|;
    && end <= |body|
    && Fold(body[at + 1..end]) == Fold(t.name)
    && (end < |body| ==> !IsWordByte(body[end]))
  }

  function FirstMatch(body: string, at: nat, ts: seq<Target>): (r: Option<Target>)
    ensures r.Some? ==> Matches(body, at, r.value)
  {
    if ts == [] then None else if Matches(body, at, ts[0]) then Some(ts[0]) else FirstMatch(body, at, ts[1..])
  }

  lemma {:induction false} FirstMatchFinds(body: string, at: nat, ts: seq<Target>)
    ensures var r := FirstMatch(body, at, ts);
            if r.Some? then r.value in ts else forall t <- ts :: !Matches(body, at, t)
  {
    if ts != [] && !Matches(body, at, ts[0]) { FirstMatchFinds(body, at, ts[1..]); }
  }

  datatype Piece = Byte(c: char) | Mention(t: Target, text: string)

  function MentionAt(body: string, at: nat, ts: seq<Target>): Option<Target>
    requires at < |body|
  {
    if StartsMention(body, at) then FirstMatch(body, at, ts) else None
  }

  function PieceAt(body: string, at: nat, ts: seq<Target>): (p: Piece)
    requires at < |body|
    ensures at < NextAt(at, p) <= |body|
  {
    var t := MentionAt(body, at, ts);
    if t.None? then Byte(body[at]) else Mention(t.value, body[at..at + 1 + |t.value.name|])
  }

  function NextAt(at: nat, p: Piece): nat { at + if p.Byte? then 1 else |p.text| }

  /** The body cut into bytes that stay and mentions that are put in. */
  function Pieces(body: string, at: nat, ts: seq<Target>): seq<Piece>
    requires at <= |body|
    decreases |body| - at
  {
    if at == |body| then []
    else
      var p := PieceAt(body, at, ts);
      [p] + Pieces(body, NextAt(at, p), ts)
  }

  function Markup(t: Target): string { "@[" + t.id + "|" + t.disp + "]" }

  function TextOf(p: Piece): string { if p.Byte? then [p.c] else Markup(p.t) }

  function Rendered(ps: seq<Piece>): string { if ps == [] then "" else TextOf(ps[0]) + Rendered(ps[1..]) }

  ghost predicate LongestFirst(ts: seq<Target>) {
    forall i, j | 0 <= i < j < |ts| :: |ts[i].name| >= |ts[j].name|
  }

  /** sorted is whatever order the sort leaves names of equal length in. */
  method LinkifyMentions(body: string, sorted: seq<Target>) returns (out: string)
    ensures out == Rendered(Pieces(body, 0, sorted))
  {
    out := "";
    var i := 0;
    while i < |body|
      invariant 0 <= i <= |body|
      invariant out + Rendered(Pieces(body, i, sorted)) == Rendered(Pieces(body, 0, sorted))
      decreases |body| - i
    {
      var text, next := PutPiece(body, i, sorted);
      Appended(out, text, Rendered(Pieces(body, next, sorted)));
      out, i := out + text, next;
    }
  }

  /** What goes out for the byte at at, and where the scan goes on. */
  method PutPiece(body: string, at: nat, ts: seq<Target>) returns (text: string, next: nat)
    requires at < |body|
    ensures text == TextOf(PieceAt(body, at, ts)) && next == NextAt(at, PieceAt(body, at, ts))
  {
    if body[at] != '@' || !StartBoundary(body, at) { return [body[at]], at + 1; }
    var t := FindMatch(body, at, ts);
    if t.None? { return [body[at]], at + 1; }
    return Markup(t.value), at + 1 + |t.value.name|;
  }

  method FindMatch(body: string, at: nat, ts: seq<Target>) returns (t: Option<Target>)
    requires at < |body|
    ensures t == FirstMatch(body, at, ts)
  {
    var k := 0;
    while k < |ts|
      invariant 0 <= k <= |ts| && FirstMatch(body, at, ts) == FirstMatch(body, at, ts[k..])
    {
      var end := at + 1 + |ts[k].name|;
      if end > |body| || Fold(body[at + 1..end]) != Fold(ts[k].name) {
      } else if end < |body| && IsWordByte(body[end]) {
      } else {
        return Some(ts[k]);
      }
      assert ts[k..][1..] == ts[k + 1..];
      k := k + 1;
    }
    return None;
  }

  // ------------------------------------------------------------ which name goes in

  ghost predicate OneTargetPerName(ts: seq<Target>) {
    forall i, j | 0 <= i < j < |ts| :: Fold(ts[i].name) != Fold(ts[j].name)
  }

  /** The longest name of the roster that stands here. */
  ghost predicate IsLongest(body: string, at: nat, ts: seq<Target>, t: Target) {
    t in ts && Matches(body, at, t) && forall u <- ts | Matches(body, at, u) :: |u.name| <= |t.name|
  }

  lemma {:induction false} FirstIsLongest(body: string, at: nat, ts: seq<Target>)
    requires LongestFirst(ts) && FirstMatch(body, at, ts).Some?
    ensures IsLongest(body, at, ts, FirstMatch(body, at, ts).value)
  {
    FirstMatchFinds(body, at, ts);
    if !Matches(body, at, ts[0]) {
      assert forall i | 1 <= i < |ts| :: ts[i] == ts[1..][i - 1];
      FirstIsLongest(body, at, ts[1..]);
    }
  }

  lemma LongestIsUnique(body: string, at: nat, ts: seq<Target>, t: Target, u: Target)
    requires OneTargetPerName(ts) && IsLongest(body, at, ts, t) && IsLongest(body, at, ts, u)
    ensures t == u
  {
    var i :| 0 <= i < |ts| && ts[i] == t;
    var j :| 0 <= j < |ts| && ts[j] == u;
    assert Fold(ts[i].name) == Fold(ts[j].name);
  }

  ghost predicate SameTargets(ts: seq<Target>, us: seq<Target>) { forall t :: t in ts <==> t in us }

  lemma FirstMatchAlike(body: string, at: nat, ts: seq<Target>, us: seq<Target>)
    requires SameTargets(ts, us) && LongestFirst(ts) && LongestFirst(us) && OneTargetPerName(ts)
    ensures FirstMatch(body, at, ts) == FirstMatch(body, at, us)
  {
    var t, u := FirstMatch(body, at, ts), FirstMatch(body, at, us);
    FirstMatchFinds(body, at, ts);
    FirstMatchFinds(body, at, us);
    assert t.Some? ==> t.value in us;
    assert u.Some? ==> u.value in ts;
    if t.Some? && u.Some? {
      FirstIsLongest(body, at, ts);
      FirstIsLongest(body, at, us);
      LongestIsUnique(body, at, ts, t.value, u.value);
    }
  }

  lemma {:induction false} SamePiecesFrom(body: string, at: nat, ts: seq<Target>, us: seq<Target>)
    requires at <= |body| && forall i | 0 <= i < |body| :: PieceAt(body, i, ts) == PieceAt(body, i, us)
    ensures Pieces(body, at, ts) == Pieces(body, at, us)
    decreases |body| - at
  {
    if at < |body| { SamePiecesFrom(body, NextAt(at, PieceAt(body, at, ts)), ts, us); }
  }

  /** Two sorted listings of one roster cut every body alike. */
  lemma PiecesDoNotDependOnOrder(body: string, ts: seq<Target>, us: seq<Target>)
    requires SameTargets(ts, us) && LongestFirst(ts) && LongestFirst(us) && OneTargetPerName(ts)
    ensures Pieces(body, 0, ts) == Pieces(body, 0, us)
  {
    forall i | 0 <= i < |body| ensures PieceAt(body, i, ts) == PieceAt(body, i, us) {
      FirstMatchAlike(body, i, ts, us);
    }
    SamePiecesFrom(body, 0, ts, us);
  }

  function Replaced(p: Piece): string { if p.Byte? then [p.c] else p.text }

  function Original(ps: seq<Piece>): string { if ps == [] then "" else Replaced(ps[0]) + Original(ps[1..]) }

  /** Nothing of the body is lost or moved: the bytes kept and the names replaced are the body. */
  lemma {:induction false} PiecesCoverBody(body: string, at: nat, ts: seq<Target>)
    requires at <= |body|
    ensures Original(Pieces(body, at, ts)) == body[at..]
    decreases |body| - at
  {
    if at < |body| {
      PiecesCoverBody(body, NextAt(at, PieceAt(body, at, ts)), ts);
    }
  }

  /** A mention put in is the longest name that stands at a boundary "@"; a byte kept is no such "@",
  or has no name of the roster behind it. */
  ghost predicate RightHere(body: string, at: nat, ts: seq<Target>, p: Piece)
    requires at < |body|
  {
    match p
    case Byte(c) => c == body[at] && !(StartsMention(body, at) && exists t <- ts :: Matches(body, at, t))
    case Mention(t, text) => StartsMention(body, at) && IsLongest(body, at, ts, t) && text == body[at..at + 1 + |t.name|]
  }

  ghost predicate CutRight(body: string, at: nat, ts: seq<Target>, ps: seq<Piece>)
    requires at <= |body|
    decreases |ps|
  {
    if ps == [] then at == |body|
    else at < |body| && RightHere(body, at, ts, ps[0]) && CutRight(body, NextAt(at, ps[0]), ts, ps[1..])
  }

  lemma PieceIsRight(body: string, at: nat, ts: seq<Target>)
    requires at < |body| && LongestFirst(ts)
    ensures RightHere(body, at, ts, PieceAt(body, at, ts))
  {
    FirstMatchFinds(body, at, ts);
    if FirstMatch(body, at, ts).Some? { FirstIsLongest(body, at, ts); }
  }

  /** The longest names go in, and only there. */
  lemma {:induction false} LongestNamesGoIn(body: string, at: nat, ts: seq<Target>)
    requires at <= |body| && LongestFirst(ts)
    ensures CutRight(body, at, ts, Pieces(body, at, ts))
    decreases |body| - at
  {
    if at < |body| {
      var p := PieceAt(body, at, ts);
      PieceIsRight(body, at, ts);
      LongestNamesGoIn(body, NextAt(at, p), ts);
      assert Pieces(body, at, ts)[1..] == Pieces(body, NextAt(at, p), ts);
    }
  }

  lemma OnlyOneRightHere(body: string, at: nat, ts: seq<Target>, p: Piece, q: Piece)
    requires at < |body| && OneTargetPerName(ts) && RightHere(body, at, ts, p) && RightHere(body, at, ts, q)
    ensures p == q
  {
    if p.Mention? && q.Mention? { LongestIsUnique(body, at, ts, p.t, q.t); }
  }

  /** And that leaves no choice: it is the only way to cut the body so. */
  lemma {:induction false} OnlyOneWayToCut(body: string, at: nat, ts: seq<Target>, ps: seq<Piece>, qs: seq<Piece>)
    requires at <= |body| && OneTargetPerName(ts) && CutRight(body, at, ts, ps) && CutRight(body, at, ts, qs)
    ensures ps == qs
    decreases |ps|
  {
    if ps != [] {
      OnlyOneRightHere(body, at, ts, ps[0], qs[0]);
      OnlyOneWayToCut(body, NextAt(at, ps[0]), ts, ps[1..], qs[1..]);
      assert ps == [ps[0]] + ps[1..] && qs == [qs[0]] + qs[1..];
    }
  }
}
