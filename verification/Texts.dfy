/** What trimming and joining leave, whatever way they are computed. */
module Texts {
  import opened Common

  predicate White(c: char) { c in " \t\n\U{0B}\U{0C}\r" }

  lemma WhiteIsSpace(c: char)
    ensures White(c) <==> IsSpace(c)
  {}

  predicate BlankIn(s: string, from: nat, to: nat) { forall i | from <= i < to && i < |s| :: White(s[i]) }

  lemma {:induction false} LeftTrimmed(s: string) returns (from: nat)
    ensures from <= |s| && TrimLeft(s) == s[from..] && BlankIn(s, 0, from) && (from < |s| ==> !White(s[from]))
  {
    from := 0;
    if s != "" {
      WhiteIsSpace(s[0]);
      if IsSpace(s[0]) {
        from := LeftTrimmed(s[1..]);
        assert forall i | 1 <= i < |s| :: s[i] == s[1..][i - 1];
        from := from + 1;
      }
    }
  }

  lemma {:induction false} RightTrimmed(s: string) returns (to: nat)
    ensures to <= |s| && TrimRight(s) == s[..to] && BlankIn(s, to, |s|) && (to > 0 ==> !White(s[to - 1]))
  {
    to := |s|;
    if s != "" {
      WhiteIsSpace(s[|s| - 1]);
      if IsSpace(s[|s| - 1]) {
        to := RightTrimmed(s[..|s| - 1]);
      }
    }
  }

  /** Trimming takes white space off both ends, all of it, and nothing else. */
  lemma Trimmed(s: string) returns (from: nat, to: nat)
    ensures from <= to <= |s| && Trim(s) == s[from..to] && BlankIn(s, 0, from) && BlankIn(s, to, |s|)
    ensures from < to ==> !White(s[from]) && !White(s[to - 1])
  {
    from := LeftTrimmed(s);
    var core := s[from..];
    var n := RightTrimmed(core);
    to := from + n;
    assert forall i | from <= i < |s| :: s[i] == core[i - from];
  }

  /** The parts in order, one separator between any two neighbours. */
  lemma {:induction false} JoinedParts(a: seq<string>, b: seq<string>, sep: string)
    requires a != [] && b != []
    ensures Join(a + b, sep) == Join(a, sep) + sep + Join(b, sep) && (|a| == 1 ==> Join(a, sep) == a[0])
  {
    assert (a + b)[1..] == a[1..] + b;
    if |a| > 1 { JoinedParts(a[1..], b, sep); }
  }
}
