/** Small shared definitions: an optional value, the outcome of a call that can be refused, and a
few operations on text and numbers. */
module Common {
  datatype Option<+T> = None | Some(value: T)

  datatype Result<+T, +E> = Ok(value: T) | Err(error: E)

  predicate IsSpace(c: char) { c == ' ' || ('\t' <= c <= '\r') }

  function TrimLeft(s: string): string { if s != "" && IsSpace(s[0]) then TrimLeft(s[1..]) else s }

  function TrimRight(s: string): string { if s != "" && IsSpace(s[|s| - 1]) then TrimRight(s[..|s| - 1]) else s }

  /** Without its leading and trailing white space, within ASCII. */
  function Trim(s: string): string { TrimRight(TrimLeft(s)) }

  function Join(ss: seq<string>, sep: string): string {
    if ss == [] then "" else if |ss| == 1 then ss[0] else ss[0] + sep + Join(ss[1..], sep)
  }

  lemma Appended(a: string, b: string, c: string)
    ensures a + b + c == a + (b + c)
  {
  }

  function Max(a: int, b: int): int { if a >= b then a else b }

  function Min(a: int, b: int): int { if a <= b then a else b }

  function Sum(xs: seq<int>): int { if xs == [] then 0 else Sum(xs[..|xs| - 1]) + xs[|xs| - 1] }

  /** at lists the chosen positions, each once, from left to right. */
  ghost predicate InOrder(at: seq<nat>, chosen: set<nat>) {
    (forall j, k | 0 <= j < k < |at| :: at[j] < at[k]) && (forall i :: i in at <==> i in chosen)
  }

  lemma OneMoreInOrder(at: seq<nat>, chosen: set<nat>, i: nat)
    requires InOrder(at, chosen) && forall j <- chosen :: j < i
    ensures InOrder(at + [i], chosen + {i})
  {
    assert forall k | 0 <= k < |at| :: at[k] in at;
    assert forall j :: j in at + [i] <==> j in at || j == i;
  }

  function Shifted(at: seq<nat>, d: nat): (r: seq<nat>)
    ensures |r| == |at| && forall k | 0 <= k < |at| :: r[k] == at[k] + d
  {
    seq(|at|, k requires 0 <= k < |at| => at[k] + d)
  }

  lemma InOrderShifted(at: seq<nat>, chosen: set<nat>, more: set<nat>, d: nat)
    requires InOrder(at, chosen) && forall i :: i in more <==> i >= d && i - d in chosen
    ensures InOrder(Shifted(at, d), more)
  {
    var r := Shifted(at, d);
    forall i ensures i in r <==> i in more {
      if i in r {
        var k :| 0 <= k < |r| && r[k] == i;
        assert at[k] in at;
      }
      if i in more {
        var k :| 0 <= k < |at| && at[k] == i - d;
        assert r[k] == i;
      }
    }
  }

  lemma InOrderFirst(at: seq<nat>, chosen: set<nat>, first: nat)
    requires InOrder(at, chosen) && forall i <- chosen :: first < i
    ensures InOrder([first] + at, chosen + {first})
  {
    var r := [first] + at;
    assert forall k | 0 <= k < |at| :: at[k] in at;
    forall i ensures i in r <==> i in chosen + {first} {
      assert i in r <==> i == first || i in at;
    }
  }

  /** There is always another number. */
  lemma {:induction false} FreshNumber(used: set<int>) returns (n: int)
    ensures forall m <- used :: m < n
  {
    if m :| m in used {
      var above := FreshNumber(used - {m});
      n := if m < above then above else m + 1;
      forall k | k in used ensures k < n {
        if k != m { assert k in used - {m}; }
      }
    } else {
      n := 0;
    }
  }

  /** Times and durations are counted in nanoseconds. */
  const SECOND := 1_000_000_000
}
