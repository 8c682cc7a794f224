/** When a denied action stays denied for good, whatever calls are still under way and whatever is
asked and answered afterwards. */
module ApprovalRefusals {
  import opened Common
  import opened Approvals
  import opened ApprovalRaces

  /** A card that can still be answered with yes, or was and is not spent. */
  predicate Open(c: Card) { c.state == Pending || c.UnspentYes() }

  predicate DeniedAmong(rest: seq<Card>, p: Purpose) {
    exists i | 0 <= i < |rest| :: rest[i].purpose == p && rest[i].state == Denied
  }

  /** A survey that will not come to see the denial: its listing was made before. */
  predicate Blind(pc: Pc, p: Purpose) {
    pc.Surveying? && pc.p == p && !pc.denied && !pc.pending && !DeniedAmong(pc.rest, p)
  }

  predicate AboutToRaise(cards: Cards, pc: Pc, p: Purpose) {
    pc.Raising? && pc.card.purpose == p && pc.card.id !in cards
  }

  /** No card of p is open, and no call still under way will raise one. */
  ghost predicate Sealed(s: State, p: Purpose) {
    && (forall id <- s.cards | s.cards[id].purpose == p :: !Open(s.cards[id]))
    && (forall a <- s.actors :: !AboutToRaise(s.cards, s.actors[a], p) && !Blind(s.actors[a], p))
  }

  ghost predicate Continues(later: History, h: History) {
    later == h || (later.Then? && Continues(later.before, h))
  }

  lemma {:induction false} ContinuesOn(latest: History, later: History, h: History)
    requires Continues(latest, later) && Continues(later, h)
    ensures Continues(latest, h)
  {
    if latest != later { ContinuesOn(latest.before, later, h); }
  }

  function Granted(s: State, p: Purpose): seq<int> { GrantsFor(s.grants, For(p)) }

  // ------------------------------------------------------------ sealed for good

  /** What one step of a sealed state may do: no new open card of p, no new way to one, no grant. */
  ghost predicate StaysSealed(s: State, t: State, a: ActorId, p: Purpose) {
    && (forall id <- t.cards | t.cards[id].purpose == p :: !Open(t.cards[id]))
    && a in t.actors && t.actors == s.actors[a := t.actors[a]]
    && !AboutToRaise(t.cards, t.actors[a], p) && !Blind(t.actors[a], p)
    && (forall id <- s.cards :: id in t.cards && (s.cards[id].state == Denied ==> t.cards[id].state == Denied && t.cards[id].purpose == s.cards[id].purpose))
    && (t.grants == s.grants || (|t.grants| > 0 && t.grants[..|t.grants| - 1] == s.grants && t.grants[|t.grants| - 1].use != For(p)))
  }

  lemma SurveyStaysSealed(run: RunInfo, s: State, a: ActorId, p: Purpose, now: int, id: int)
    requires CardsInv(run, s) && Sealed(s, p) && p.Action? && a in s.actors && s.actors[a].Surveying?
    ensures StaysSealed(s, Next(run, s, a, now, id), a, p)
  {
    var pc := s.actors[a];
    if pc.rest != [] {
      var c, tail := pc.rest[0], pc.rest[1..];
      assert CopyOf(s.cards, c);
      assert forall i | 1 <= i < |pc.rest| :: pc.rest[i] == tail[i - 1];
      assert DeniedAmong(pc.rest, p) ==> DeniedAmong(tail, p) || (c.purpose == p && c.state == Denied);
    }
  }

  lemma SpendStaysSealed(run: RunInfo, s: State, a: ActorId, p: Purpose, now: int, id: int)
    requires CardsInv(run, s) && Sealed(s, p) && p.Action? && a in s.actors && (s.actors[a].Spending? || s.actors[a].Trying?)
    ensures StaysSealed(s, Next(run, s, a, now, id), a, p)
  {
    match s.actors[a]
    case Spending(copy, u) => assert CopyOf(s.cards, copy) && Suits(u, copy);
    case Trying(rest) => if rest != [] { assert CopyOf(s.cards, rest[0]); }
  }

  lemma RaiseStaysSealed(run: RunInfo, s: State, a: ActorId, p: Purpose, now: int, id: int)
    requires CardsInv(run, s) && Sealed(s, p) && p.Action? && a in s.actors && (s.actors[a].Raising? || s.actors[a].Looking?)
    ensures StaysSealed(s, Next(run, s, a, now, id), a, p)
  {}

  lemma StepStaysSealed(run: RunInfo, s: State, e: Event, p: Purpose)
    requires CardsInv(run, s) && Sealed(s, p) && HasNo(s.cards, p) && p.Action? && Enabled(s, e)
    ensures StaysSealed(s, Apply(run, s, e), e.a, p)
  {
    if e.Act? {
      match s.actors[e.a]
      case Surveying(_, _, _, _) => SurveyStaysSealed(run, s, e.a, p, e.now, e.id);
      case Spending(_, _) => SpendStaysSealed(run, s, e.a, p, e.now, e.id);
      case Trying(_) => SpendStaysSealed(run, s, e.a, p, e.now, e.id);
      case Raising(_) => RaiseStaysSealed(run, s, e.a, p, e.now, e.id);
      case Looking(_, _) => RaiseStaysSealed(run, s, e.a, p, e.now, e.id);
      case _ =>
    }
  }

  lemma {:induction false} SealedForGood(run: RunInfo, h: History, later: History, p: Purpose)
    requires Possible(run, h) && p.Action? && HasNo(Last(run, h).cards, p) && Sealed(Last(run, h), p)
    requires Possible(run, later) && Continues(later, h)
    ensures var s, t := Last(run, h), Last(run, later);
            Sealed(t, p) && HasNo(t.cards, p) && Granted(t, p) == Granted(s, p)
  {
    if later != h {
      SealedForGood(run, h, later.before, p);
      HistoryKeepsInv(run, later.before);
      StepStaysSealed(run, Last(run, later.before), later.e, p);
    }
  }

  // ------------------------------------------------------------ a grant is still to be had

  /** A later history with one grant for p more. */
  ghost predicate GrantedLater(run: RunInfo, h: History, later: History, p: Purpose) {
    && Possible(run, h) && Possible(run, later) && Continues(later, h)
    && |Granted(Last(run, later), p)| > |Granted(Last(run, h), p)|
  }

  lemma {:induction false} SomeListing(cards: Cards) returns (list: seq<Card>)
    requires forall id <- cards :: cards[id].id == id
    ensures Lists(list, cards)
    decreases |cards|
  {
    if id :| id in cards {
      list := ListingFrom(cards, id);
    } else {
      list := [];
    }
  }

  lemma OneCardMore(cards: Cards, first: int, rest: seq<Card>)
    requires first in cards && cards[first].id == first && Lists(rest, cards - {first})
    ensures Lists([cards[first]] + rest, cards)
  {
    var list := [cards[first]] + rest;
    forall id | id in cards ensures cards[id] in list {
      if id != first {
        assert (cards - {first})[id] in rest;
        assert cards[id] in rest;
      }
    }
  }

  /** Any card may come first. */
  lemma {:induction false} ListingFrom(cards: Cards, first: int) returns (list: seq<Card>)
    requires first in cards && forall id <- cards :: cards[id].id == id
    ensures Lists(list, cards) && list != [] && list[0] == cards[first]
    decreases |cards|, 0
  {
    var others := cards - {first};
    assert cards.Keys == others.Keys + {first};
    var rest := SomeListing(others);
    list := [cards[first]] + rest;
    OneCardMore(cards, first, rest);
  }

  /** An unspent yes is there for the next call. */
  lemma YesIsSpent(run: RunInfo, h: History, p: Purpose, id: int) returns (later: History)
    requires Possible(run, h) && p != NoPurpose
    requires var s := Last(run, h); id in s.cards && s.cards[id].purpose == p && s.cards[id].UnspentYes()
    ensures GrantedLater(run, h, later, p)
  {
    HistoryKeepsInv(run, h);
    var s := Last(run, h);
    var a := FreshNumber(s.actors.Keys);
    var list := ListingFrom(s.cards, id);
    later := Longer(run, h, Begin(a, 0, Authorize(p, list)));
    later := Longer(run, later, Act(a, 0, 0));
    assert Last(run, later).grants == s.grants + [Grant(For(p), id)];
    assert Last(run, later).grants[..|s.grants|] == s.grants;
  }

  /** A pending card takes a yes within its time. */
  lemma PendingIsGranted(run: RunInfo, h: History, p: Purpose, id: int) returns (later: History)
    requires Possible(run, h) && p.Action?
    requires var s := Last(run, h); id in s.cards && s.cards[id].purpose == p && s.cards[id].state == Pending
    ensures GrantedLater(run, h, later, p)
  {
    HistoryKeepsInv(run, h);
    var s := Last(run, h);
    var a := FreshNumber(s.actors.Keys);
    var c := s.cards[id];
    var k := Longer(run, h, Begin(a, c.deadline, Decide(id, run.invoker, Decision(true, "", ""))));
    k := Longer(run, k, Act(a, c.deadline, 0));
    later := YesIsSpent(run, k, p, id);
    ContinuesOn(later, k, h);
  }

  lemma RaisedIsGranted(run: RunInfo, h: History, p: Purpose, a: ActorId) returns (later: History)
    requires Possible(run, h) && p.Action?
    requires var s := Last(run, h); a in s.actors && AboutToRaise(s.cards, s.actors[a], p)
    ensures GrantedLater(run, h, later, p)
  {
    HistoryKeepsInv(run, h);
    var card := Last(run, h).actors[a].card;
    assert PcOk(run, Last(run, h).cards, Last(run, h).actors[a]);
    var k := Longer(run, h, Act(a, 0, 0));
    later := PendingIsGranted(run, k, p, card.id);
    ContinuesOn(later, k, h);
  }

  /** In time, an action's card can always be raised. */
  lemma InTime(run: RunInfo, p: Purpose, id: int) returns (now: int)
    ensures var r := NewCard(run, ActionRequest(p, "act"), now, id);
            r.Ok? && r.value.id == id && r.value.purpose == p
  {
    now := run.deadline - APPROVAL_MAX_WAIT - ROOM_TO_ACT;
    SummaryStays(p);
  }

  /** A survey that has missed the denial spends a yes or ends with a card of its own. */
  lemma {:induction false} BlindIsGranted(run: RunInfo, h: History, p: Purpose, a: ActorId) returns (later: History)
    requires Possible(run, h) && p.Action?
    requires var s := Last(run, h); a in s.actors && Blind(s.actors[a], p)
    ensures GrantedLater(run, h, later, p)
    decreases |Last(run, h).actors[a].rest|
  {
    var s := Last(run, h);
    var rest := s.actors[a].rest;
    if rest == [] {
      var id := FreshNumber(s.cards.Keys);
      var now := InTime(run, p, id);
      var k := Longer(run, h, Act(a, now, id));
      later := RaisedIsGranted(run, k, p, a);
      ContinuesOn(later, k, h);
    } else {
      var k := Longer(run, h, Act(a, rest[0].deadline + 1, 0));
      if Last(run, k).actors[a].Done? {
        later := k;
        assert Last(run, k).grants[..|s.grants|] == s.grants;
      } else {
        assert forall i | 0 <= i < |rest[1..]| :: rest[1..][i] == rest[i + 1];
        later := BlindIsGranted(run, k, p, a);
        ContinuesOn(later, k, h);
      }
    }
  }

  lemma UnsealedIsGranted(run: RunInfo, h: History, p: Purpose) returns (later: History)
    requires Possible(run, h) && p.Action? && !Sealed(Last(run, h), p)
    ensures GrantedLater(run, h, later, p)
  {
    var s := Last(run, h);
    if id :| id in s.cards && s.cards[id].purpose == p && s.cards[id].UnspentYes() {
      later := YesIsSpent(run, h, p, id);
    } else if id :| id in s.cards && s.cards[id].purpose == p && s.cards[id].state == Pending {
      later := PendingIsGranted(run, h, p, id);
    } else if a :| a in s.actors && AboutToRaise(s.cards, s.actors[a], p) {
      later := RaisedIsGranted(run, h, p, a);
    } else {
      var a :| a in s.actors && Blind(s.actors[a], p);
      later := BlindIsGranted(run, h, p, a);
    }
  }

  // ------------------------------------------------------------ main result

  /** However the run goes on from here, no call goes ahead with p any more. */
  ghost predicate Final(run: RunInfo, h: History, p: Purpose)
    requires Possible(run, h)
  {
    forall later ::
      Possible(run, later) && Continues(later, h) ==> Granted(Last(run, later), p) == Granted(Last(run, h), p)
  }

  /** Once an action was denied no call ever goes ahead with it again, in whatever way the run goes
  on, exactly when no card for it is open, nobody is about to put one, and every survey of it still
  under way has seen the denial, will come to it, or waits for a card. */
  lemma RefusalIsFinalIff(run: RunInfo, h: History, p: Purpose)
    requires Possible(run, h) && p.Action? && HasNo(Last(run, h).cards, p)
    ensures Sealed(Last(run, h), p) <==> Final(run, h, p)
  {
    if Sealed(Last(run, h), p) {
      forall later | Possible(run, later) && Continues(later, h) ensures Granted(Last(run, later), p) == Granted(Last(run, h), p) {
        SealedForGood(run, h, later, p);
      }
    } else {
      var later := UnsealedIsGranted(run, h, p);
      assert Possible(run, later) && Continues(later, h) && Granted(Last(run, later), p) != Granted(Last(run, h), p);
    }
  }

  // ------------------------------------------------------------ a run that shows the limit

  /** Two calls found no card. The first has put its own, and the invoker has denied it. */
  lemma OneStillRaising(run: RunInfo, p: Purpose, no: Card) returns (h: History)
    requires p.Action? && run.deadline >= APPROVAL_MAX_WAIT + ROOM_TO_ACT
    requires no == SettledCard(CardFor(run, p, 10), Denied, run.invoker, "", "")
    ensures Possible(run, h) && Scene(Last(run, h), map[10 := no], {1, 2, 3})
    ensures Last(run, h).actors[2] == Raising(CardFor(run, p, 11))
  {
    CardIsRaised(run, p, 10);
    CardIsRaised(run, p, 11);
    h := Longer(run, Empty, Begin(1, 0, Authorize(p, [])));
    h := Longer(run, h, Begin(2, 0, Authorize(p, [])));
    h := Longer(run, h, Act(1, 0, 10));
    h := Longer(run, h, Act(2, 0, 11));
    h := Longer(run, h, Act(1, 0, 0));
    assert Last(run, h).cards == map[10 := CardFor(run, p, 10)];
    h := Answered(run, h, 3, 10, false);
    assert Last(run, h).cards == map[10 := no];
  }

  /** A third call is refused, with no card open. */
  lemma RefusedWithNoneOpen(run: RunInfo, p: Purpose, no: Card) returns (h: History)
    requires p.Action? && run.deadline >= APPROVAL_MAX_WAIT + ROOM_TO_ACT
    requires no == SettledCard(CardFor(run, p, 10), Denied, run.invoker, "", "")
    ensures Possible(run, h) && Scene(Last(run, h), map[10 := no], {1, 2, 3, 4})
    ensures Last(run, h).actors[2] == Raising(CardFor(run, p, 11)) && Last(run, h).actors[4] == Done(Refusal)
  {
    h := OneStillRaising(run, p, no);
    h := Longer(run, h, Begin(4, 0, Authorize(p, [no])));
    h := Longer(run, h, Act(4, 0, 0));
    h := Longer(run, h, Act(4, 0, 0));
  }

  /** That no card is open is not enough: the second card was on its way when the call was refused,
  takes a yes, and the next call goes ahead. */
  lemma RaisedAfterRefusal(run: RunInfo, p: Purpose) returns (h: History)
    requires p.Action? && run.deadline >= APPROVAL_MAX_WAIT + ROOM_TO_ACT
    ensures Possible(run, h) && var s := Last(run, h);
            4 in s.actors && s.actors[4] == Done(Refusal) && 6 in s.actors && s.actors[6] == Done(Yes)
  {
    var no := SettledCard(CardFor(run, p, 10), Denied, run.invoker, "", "");
    var yes := SettledCard(CardFor(run, p, 11), Approved, run.invoker, "", "");
    h := RefusedWithNoneOpen(run, p, no);
    h := Longer(run, h, Act(2, 0, 0));
    assert Last(run, h).cards == map[10 := no, 11 := CardFor(run, p, 11)];
    h := Answered(run, h, 5, 11, true);
    assert Last(run, h).cards == map[10 := no, 11 := yes];
    h := PastDenied(run, h, 6, p, no, yes);
    h := Longer(run, h, Act(6, 0, 0));
  }
}
