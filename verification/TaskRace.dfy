/** Tasks created at once in one channel. A creator looks for an active task, writes its own row,
looks again, and takes its row back if an older one is there. Ids are ordered by creation, but a
smaller id may well be written later. */
module TaskRace {
  type Id = int

  /** Checked: the first look found nothing. Written: the row is stored. Losing: an older row was
  seen, the own row is about to go. Kept and Retracted: how it ended. */
  datatype Pc = Checked | Written | Losing | Kept | Retracted

  /** rows: the active tasks a listing shows. wrote and scanned: when a creator's row was stored and
  its second look taken. left: when a kept task stopped being active. gone: when a row was taken
  back. blind: creators whose second look failed. */
  datatype State = State(
    now: nat, rows: set<Id>, pcs: map<Id, Pc>, wrote: map<Id, nat>, scanned: map<Id, nat>, left: map<Id, nat>,
    gone: map<Id, nat>, blind: set<Id>)

  /** Leave: a task opens its merge requests or is closed. ok: the store call went through. */
  datatype Event = Look(id: Id) | Write(id: Id) | Scan(id: Id, ok: bool) | Delete(id: Id, ok: bool) | Leave(id: Id)

  const INIT := State(0, {}, map[], map[], map[], map[], map[], {})

  ghost predicate At(s: State, id: Id, pc: Pc) { id in s.pcs && s.pcs[id] == pc }

  ghost predicate Enabled(s: State, e: Event) {
    match e
    case Look(id) => id !in s.pcs && s.rows == {}
    case Write(id) => At(s, id, Checked)
    case Scan(id, _) => At(s, id, Written)
    case Delete(id, _) => At(s, id, Losing)
    case Leave(id) => At(s, id, Kept) && id in s.rows
  }

  predicate Older(s: State, id: Id) { exists t <- s.rows :: t < id }

  /** A row of the second look's listing; shipped tasks do not compete. */
  datatype Listed = Listed(id: Id, shipped: bool)

  ghost predicate Shows(listing: seq<Listed>, rows: set<Id>) {
    forall id :: id in rows <==> exists i | 0 <= i < |listing| :: listing[i] == Listed(id, false)
  }

  /** The second look: whether some older task is there to yield to. */
  method SettleTaskRace(listing: seq<Listed>, id: Id, ghost s: State) returns (lost: bool)
    requires Shows(listing, s.rows)
    ensures lost <==> Older(s, id)
  {
    for i := 0 to |listing|
      invariant forall j | 0 <= j < i :: !(listing[j].id < id && !listing[j].shipped)
    {
      var t := listing[i];
      if t.id == id || t.shipped { continue; }
      if t.id < id {
        assert listing[i] == Listed(t.id, false);
        return true;
      }
    }
    return false;
  }

  function Apply(s: State, e: Event): State {
    var t := s.(now := s.now + 1);
    match e
    case Look(id) => t.(pcs := s.pcs[id := Checked])
    case Write(id) => t.(pcs := s.pcs[id := Written], rows := s.rows + {id}, wrote := s.wrote[id := s.now])
    case Scan(id, ok) =>
      t.(pcs := s.pcs[id := if ok && Older(s, id) then Losing else Kept],
         scanned := s.scanned[id := s.now], blind := if ok then s.blind else s.blind + {id})
    case Delete(id, ok) =>
      t.(pcs := s.pcs[id := Retracted], rows := if ok then s.rows - {id} else s.rows,
         gone := if ok then s.gone[id := s.now] else s.gone)
    case Leave(id) => t.(rows := s.rows - {id}, left := s.left[id := s.now])
  }

  datatype History = Nobody | Then(before: History, e: Event)

  ghost predicate Possible(h: History)
    decreases h, 0
  {
    h.Then? ==> Possible(h.before) && Enabled(Last(h.before), h.e)
  }

  ghost function Last(h: History): State
    requires Possible(h)
    decreases h, 1
  {
    if h.Nobody? then INIT else Apply(Last(h.before), h.e)
  }

  // ------------------------------------------------------------ the invariant

  predicate Stored(pc: Pc) { pc != Checked }

  predicate Judged(pc: Pc) { pc != Checked && pc != Written }

  ghost predicate ClockInv(s: State) {
    && (forall a <- s.wrote :: s.wrote[a] < s.now && a in s.pcs && Stored(s.pcs[a]))
    && (forall a <- s.pcs | Stored(s.pcs[a]) :: a in s.wrote)
    && (forall a <- s.scanned :: s.scanned[a] < s.now && a in s.pcs && Judged(s.pcs[a]))
    && (forall a <- s.pcs | Judged(s.pcs[a]) :: a in s.scanned)
    && (forall a <- s.left :: s.left[a] < s.now && a in s.wrote && s.pcs[a] == Kept)
    && (forall a <- s.gone :: s.gone[a] < s.now && a in s.wrote && s.pcs[a] == Retracted)
    && (forall a <- s.blind :: a in s.scanned)
  }

  /** Whether a's row was there to be listed at some moment. */
  predicate PresentAt(s: State, a: Id, time: nat) {
    && a in s.wrote && s.wrote[a] < time
    && !(a in s.left && s.left[a] < time) && !(a in s.gone && s.gone[a] < time)
  }

  /** A stored row goes only by being retracted or by leaving. */
  ghost predicate RowsInv(s: State) { forall a :: a in s.rows <==> PresentAt(s, a, s.now) }

  /** When b looked again an older row was there. */
  ghost predicate Preceded(s: State, b: Id)
    requires b in s.scanned
  {
    exists a <- s.wrote :: a < b && PresentAt(s, a, s.scanned[b])
  }

  ghost predicate VerdictInv(s: State) {
    forall b <- s.scanned :: At(s, b, Losing) || At(s, b, Retracted) <==> b !in s.blind && Preceded(s, b)
  }

  ghost predicate Inv(s: State) { ClockInv(s) && RowsInv(s) && VerdictInv(s) }

  lemma LookKeepsClocks(s: State, id: Id)
    requires ClockInv(s) && Enabled(s, Look(id))
    ensures ClockInv(Apply(s, Look(id)))
  {}

  lemma WriteKeepsClocks(s: State, id: Id)
    requires ClockInv(s) && Enabled(s, Write(id))
    ensures ClockInv(Apply(s, Write(id)))
  {}

  lemma ScanKeepsClocks(s: State, id: Id, ok: bool)
    requires ClockInv(s) && Enabled(s, Scan(id, ok))
    ensures ClockInv(Apply(s, Scan(id, ok)))
  {}

  lemma DeleteKeepsClocks(s: State, id: Id, ok: bool)
    requires ClockInv(s) && Enabled(s, Delete(id, ok))
    ensures ClockInv(Apply(s, Delete(id, ok)))
  {}

  lemma LeaveKeepsClocks(s: State, id: Id)
    requires ClockInv(s) && Enabled(s, Leave(id))
    ensures ClockInv(Apply(s, Leave(id)))
  {}

  lemma ClocksKept(s: State, e: Event)
    requires ClockInv(s) && Enabled(s, e)
    ensures ClockInv(Apply(s, e))
  {
    match e
    case Look(id) => LookKeepsClocks(s, id);
    case Write(id) => WriteKeepsClocks(s, id);
    case Scan(id, ok) => ScanKeepsClocks(s, id, ok);
    case Delete(id, ok) => DeleteKeepsClocks(s, id, ok);
    case Leave(id) => LeaveKeepsClocks(s, id);
  }

  lemma PrecededIsSettled(s: State, e: Event, b: Id)
    requires ClockInv(s) && RowsInv(s) && Enabled(s, e) && b in s.scanned && !(e.Scan? && e.id == b)
    ensures b in Apply(s, e).scanned && (Preceded(Apply(s, e), b) <==> Preceded(s, b))
  {
    var t := Apply(s, e);
    if Preceded(s, b) {
      var a :| a in s.wrote && a < b && PresentAt(s, a, s.scanned[b]);
      assert a in t.wrote && PresentAt(t, a, t.scanned[b]);
    }
    if Preceded(t, b) {
      var a :| a in t.wrote && a < b && PresentAt(t, a, t.scanned[b]);
      assert PresentAt(s, a, s.scanned[b]);
    }
  }

  lemma ScanSeesOlder(s: State, id: Id, ok: bool)
    requires ClockInv(s) && RowsInv(s) && At(s, id, Written)
    ensures Preceded(Apply(s, Scan(id, ok)), id) <==> Older(s, id)
  {
    var t := Apply(s, Scan(id, ok));
    if Older(s, id) {
      var a :| a in s.rows && a < id;
      assert a in t.wrote && PresentAt(t, a, t.scanned[id]);
    }
    if Preceded(t, id) {
      var a :| a in t.wrote && a < id && PresentAt(t, a, t.scanned[id]);
      assert PresentAt(s, a, s.now);
      assert a in s.rows;
    }
  }

  lemma VerdictsKept(s: State, e: Event)
    requires Inv(s) && Enabled(s, e)
    ensures VerdictInv(Apply(s, e))
  {
    var t := Apply(s, e);
    forall b | b in t.scanned ensures At(t, b, Losing) || At(t, b, Retracted) <==> b !in t.blind && Preceded(t, b) {
      if e.Scan? && e.id == b {
        ScanSeesOlder(s, b, e.ok);
      } else {
        assert b in s.scanned;
        PrecededIsSettled(s, e, b);
      }
    }
  }

  lemma {:induction false} HistoryKeepsInv(h: History)
    requires Possible(h)
    ensures Inv(Last(h))
  {
    if h.Then? {
      HistoryKeepsInv(h.before);
      ClocksKept(Last(h.before), h.e);
      VerdictsKept(Last(h.before), h.e);
    }
  }

  // ------------------------------------------------------------ main results

  /** The smallest id ever stored is never taken back, so a race always leaves somebody. */
  lemma SmallestNeverRetracts(h: History, a: Id)
    requires Possible(h) && a in Last(h).wrote && forall b <- Last(h).wrote :: a <= b
    ensures At(Last(h), a, Written) || At(Last(h), a, Kept)
  {
    HistoryKeepsInv(h);
  }

  /** However many race: a creator that has looked again stays exactly when it could not look, or no
  older row was there to be seen at that moment. */
  lemma StaysIffNoOlderSeen(h: History, b: Id)
    requires Possible(h) && b in Last(h).pcs && Judged(Last(h).pcs[b])
    ensures var s := Last(h);
            b in s.scanned && (s.pcs[b] == Kept <==> b in s.blind || !Preceded(s, b))
  {
    HistoryKeepsInv(h);
  }

  /** So two tasks both stay only if the later one looked before the earlier one's row was stored,
  or after it had left, or could not look at all. */
  lemma BothStayOnlyIfUnseen(h: History, a: Id, b: Id)
    requires Possible(h) && a < b && At(Last(h), a, Kept) && At(Last(h), b, Kept)
    ensures var s := Last(h);
            && a in s.wrote && b in s.scanned
            && (b in s.blind || s.scanned[b] <= s.wrote[a] || (a in s.left && s.left[a] < s.scanned[b]))
  {
    HistoryKeepsInv(h);
    StaysIffNoOlderSeen(h, b);
    var s := Last(h);
    assert a in s.wrote && a !in s.gone;
    assert b !in s.blind ==> !PresentAt(s, a, s.scanned[b]);
  }

  /** Two racers alone, with no look failing and neither task left yet, both stay exactly when the
  later one looked before the earlier one's row was stored. */
  lemma TwoRacersBothStayIff(h: History, a: Id, b: Id)
    requires Possible(h) && a < b && Last(h).pcs.Keys == {a, b} && Judged(Last(h).pcs[a]) && Judged(Last(h).pcs[b])
    requires Last(h).blind == {} && Last(h).left == map[]
    ensures var s := Last(h);
            && b in s.scanned && a in s.wrote
            && (s.pcs[a] == Kept && s.pcs[b] == Kept <==> s.scanned[b] <= s.wrote[a])
  {
    HistoryKeepsInv(h);
    StaysIffNoOlderSeen(h, a);
    StaysIffNoOlderSeen(h, b);
    var s := Last(h);
    assert forall c <- s.wrote :: c in s.pcs.Keys;
    assert s.pcs[a] == Kept && a !in s.gone;
    assert Preceded(s, b) <==> PresentAt(s, a, s.scanned[b]);
  }

  /** When every row was stored before anybody looked again, all calls went through and no task has
  left yet, exactly the smallest id remains. */
  lemma WritesBeforeScansLeaveSmallest(h: History, least: Id)
    requires Possible(h) && var s := Last(h);
             && least in s.wrote && (forall b <- s.wrote :: least <= b)
             && (forall a <- s.pcs :: s.pcs[a] == Kept || s.pcs[a] == Retracted)
             && (forall a <- s.wrote, b <- s.scanned :: s.wrote[a] < s.scanned[b])
             && s.blind == {} && s.left == map[] && (forall a <- s.pcs | s.pcs[a] == Retracted :: a in s.gone)
    ensures Last(h).rows == {least}
  {
    HistoryKeepsInv(h);
    var s := Last(h);
    SmallestNeverRetracts(h, least);
    forall b | b in s.rows ensures b == least {
      assert PresentAt(s, b, s.now);
      assert s.pcs[b] == Kept;
      if b != least { assert PresentAt(s, least, s.scanned[b]); }
    }
    assert PresentAt(s, least, s.now);
  }

  // ------------------------------------------------------------ a run that shows the limit

  lemma Longer(h: History, e: Event) returns (longer: History)
    requires Possible(h) && Enabled(Last(h), e)
    ensures longer == Then(h, e) && Possible(longer) && Last(longer) == Apply(Last(h), e)
  {
    longer := Then(h, e);
  }

  /** The older id may be stored late: both tasks then stay active. */
  lemma TwoActiveTasks() returns (h: History)
    ensures Possible(h) && Last(h).rows == {1, 2} && At(Last(h), 1, Kept) && At(Last(h), 2, Kept)
  {
    h := Longer(Nobody, Look(1));
    h := Longer(h, Look(2));
    h := Longer(h, Write(2));
    h := Longer(h, Scan(2, true));
    h := Longer(h, Write(1));
    h := Longer(h, Scan(1, true));
  }
}
