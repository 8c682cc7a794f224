/** A coding task's row, and every call that rewrites it from a copy. */
module CodingTasks {
  import opened Common

  datatype TaskState =
    | Created | WorkspaceReady | InProgress | AwaitingTest | MRCreated | Done | SetupFailed | Abandoned
  {
    predicate Terminal() { Done? || Abandoned? }
  }

  function Exits(from: TaskState): set<TaskState> {
    match from
    case Created => {WorkspaceReady, InProgress, SetupFailed, Abandoned}
    case WorkspaceReady => {InProgress, SetupFailed, AwaitingTest, Abandoned}
    case SetupFailed => {WorkspaceReady, InProgress, Abandoned}
    case InProgress => {AwaitingTest, SetupFailed, Abandoned}
    case AwaitingTest => {InProgress, MRCreated, Abandoned}
    case MRCreated => {InProgress, Done, Abandoned}
    case _ => {}
  }

  predicate CanTransition(from: TaskState, to: TaskState) { from == to || to in Exits(from) }

  datatype Repo = Repo(path: string, branch: string, base: string, dir: string, mrURL: string, changed: bool)

  datatype Task = Task(
    state: TaskState, signedOff: bool, repos: seq<Repo>, plan: string, steering: string,
    requester: string, runnerID: string, runnerOwner: string, runIDs: seq<string>)

  /** A trimmed text and whether its own parser took it: an absolute web address, a branch name. */
  datatype Checked = Checked(text: string, ok: bool)

  datatype RepoUpdate = RepoUpdate(
    path: string, branch: Checked, base: Checked, dir: string, mrURL: Checked, changed: Option<bool>)

  datatype Error = Validation | Transition | NotRequester | NotReady | Stale | NoChange

  // ------------------------------------------------------------ the reported repos

  function PatchedRepo(r: Repo, u: RepoUpdate): Repo {
    r.(branch := if u.branch.text != "" && u.branch.ok then u.branch.text else r.branch,
       base := if u.base.text != "" && u.base.ok then u.base.text else r.base,
       dir := if u.dir != "" then u.dir else r.dir,
       mrURL := if u.mrURL.text != "" then u.mrURL.text else r.mrURL,
       changed := if u.changed.Some? then u.changed.value else r.changed)
  }

  /** The first repo at a path, if there is one. */
  function FindRepo(repos: seq<Repo>, path: string): (i: Option<nat>)
    ensures i.Some? ==> i.value < |repos| && repos[i.value].path == path && forall j | 0 <= j < i.value :: repos[j].path != path
    ensures i.None? ==> forall r <- repos :: r.path != path
  {
    if repos == [] then None
    else if repos[0].path == path then Some(0)
    else
      var rest := FindRepo(repos[1..], path);
      if rest.Some? then Some(rest.value + 1) else None
  }

  function Patched(repos: seq<Repo>, u: RepoUpdate): seq<Repo> {
    var i := FindRepo(repos, u.path);
    if i.Some? then repos[i.value := PatchedRepo(repos[i.value], u)] else repos
  }

  function PatchedBy(repos: seq<Repo>, us: seq<RepoUpdate>): seq<Repo> {
    if us == [] then repos else Patched(PatchedBy(repos, us[..|us| - 1]), us[|us| - 1])
  }

  predicate BadURL(u: RepoUpdate) { u.mrURL.text != "" && !u.mrURL.ok }

  /** Some repo has its merge request. */
  predicate HasMR(repos: seq<Repo>) { exists i | 0 <= i < |repos| :: repos[i].mrURL != "" }

  /** A report may add and change merge requests, but takes none away and adds no repo. */
  lemma {:induction false} PatchKeepsRepos(repos: seq<Repo>, us: seq<RepoUpdate>)
    ensures var after := PatchedBy(repos, us);
            && |after| == |repos|
            && forall i | 0 <= i < |repos| ::
                 after[i].path == repos[i].path && (repos[i].mrURL != "" ==> after[i].mrURL != "")
  {
    if us != [] { PatchKeepsRepos(repos, us[..|us| - 1]); }
  }

  // ------------------------------------------------------------ one call on one copy

  /** Every writer of the row. toState is absent in a report that only carries repo facts. Sign is
  the task card's button, Approve a granted approval card of the merge-request tool. */
  datatype Edit =
    | Report(updates: seq<RepoUpdate>, toState: Option<TaskState>)
    | Plan(plan: string)
    | Sign(caller: string)
    | Approve
    | Steer(caller: string, mode: string)
    | Close(caller: string, to: TaskState)
    | Supersede
    | Pin(runID: string, runner: string, owner: string)

  function Reported(t: Task, updates: seq<RepoUpdate>, to: Option<TaskState>): Result<Task, Error> {
    var repos := PatchedBy(t.repos, updates);
    if exists i | 0 <= i < |updates| :: BadURL(updates[i]) then Err(Validation)
    else if to.Some? && !CanTransition(t.state, to.value) then Err(Transition)
    else if to == Some(MRCreated) && (!t.signedOff || !HasMR(repos)) then Err(Transition)
    else Ok(t.(repos := repos, state := if to.Some? then to.value else t.state))
  }

  predicate Signs(e: Edit) { e.Sign? || e.Approve? }

  function LastFifty(ids: seq<string>): (r: seq<string>)
    ensures |r| == Min(50, |ids|) && r == ids[|ids| - |r|..]
  {
    if |ids| > 50 then ids[|ids| - 50..] else ids
  }

  function Pinned(t: Task, runID: string, runner: string, owner: string): Result<Task, Error> {
    var ids := if runID in t.runIDs then t.runIDs else LastFifty(t.runIDs + [runID]);
    if t.runnerID == runner && t.runnerOwner == owner && runID in t.runIDs then Err(NoChange)
    else Ok(t.(runnerID := runner, runnerOwner := owner, runIDs := ids))
  }

  function Edited(t: Task, e: Edit): Result<Task, Error> {
    match e
    case Report(updates, to) => Reported(t, updates, to)
    case Plan(plan) => Ok(t.(plan := plan))
    case Sign(caller) =>
      if caller != t.requester then Err(NotRequester)
      else if t.state != AwaitingTest then Err(NotReady)
      else if t.signedOff then Err(NoChange)
      else Ok(t.(signedOff := true))
    case Approve =>
      if t.state != AwaitingTest && t.state != MRCreated then Err(NotReady)
      else if t.signedOff then Err(NoChange)
      else Ok(t.(signedOff := true))
    case Steer(caller, mode) =>
      if caller != t.requester then Err(NotRequester) else if t.steering == mode then Err(NoChange) else Ok(t.(steering := mode))
    case Close(caller, to) =>
      if !to.Terminal() then Err(Validation)
      else if caller != t.requester then Err(NotRequester)
      else if t.state.Terminal() then Err(NoChange)
      else if !CanTransition(t.state, to) then Err(Transition)
      else Ok(t.(state := to))
    case Supersede => if t.state == MRCreated then Ok(t.(state := Done)) else Err(NotReady)
    case Pin(runID, runner, owner) => Pinned(t, runID, runner, owner)
  }

  /** The outcome of an edit made on a copy: refused by its own checks, beaten by a writer that
  moved the state, or stored over whatever else has changed in the row. */
  ghost predicate WrittenBack(before: Task, after: Task, read: Task, e: Edit, r: Result<Task, Error>) {
    var w := Edited(read, e);
    if w.Err? then r == w && after == before
    else if before.state != read.state then r == Err(Stale) && after == before
    else r == w && after == w.value
  }

  /** What the merge-request tool answers. Failed: the sign-off could not be stored. */
  datatype MRStatus = NotReadyYet | Approved | Ask | Denied | Failed(error: Error)

  class TaskService {
    var row: Task

    constructor (row: Task)
      ensures this.row == row
    {
      this.row := row;
    }

    /** The whole row is replaced; only the state is compared. */
    method UpdateTask(copy: Task, expectState: TaskState) returns (stale: bool)
      modifies this
      ensures stale <==> old(row).state != expectState
      ensures row == if stale then old(row) else copy
    {
      stale := row.state != expectState;
      if !stale { row := copy; }
    }

    static method ApplyUpdates(read: Task, updates: seq<RepoUpdate>) returns (t: Task)
      ensures t == read.(repos := PatchedBy(read.repos, updates))
    {
      t := read;
      for i := 0 to |updates|
        invariant t == read.(repos := PatchedBy(read.repos, updates[..i]))
      {
        var u := updates[i];
        assert updates[..i + 1][..i] == updates[..i];
        var at := FindRepo(t.repos, u.path);
        if at.None? { continue; }
        var repo := t.repos[at.value];
        if u.branch.text != "" && u.branch.ok { repo := repo.(branch := u.branch.text); }
        if u.base.text != "" && u.base.ok { repo := repo.(base := u.base.text); }
        if u.dir != "" { repo := repo.(dir := u.dir); }
        if u.mrURL.text != "" { repo := repo.(mrURL := u.mrURL.text); }
        if u.changed.Some? { repo := repo.(changed := u.changed.value); }
        t := t.(repos := t.repos[at.value := repo]);
      }
      assert updates[..|updates|] == updates;
    }

    /** A report is refused as a whole or applied as a whole, to the row as it was read. */
    method Report(read: Task, updates: seq<RepoUpdate>, to: Option<TaskState>) returns (r: Result<Task, Error>)
      modifies this
      ensures WrittenBack(old(row), row, read, Edit.Report(updates, to), r)
    {
      var prev := read.state;
      for i := 0 to |updates|
        invariant forall j | 0 <= j < i :: !BadURL(updates[j])
      {
        if updates[i].mrURL.text != "" && !updates[i].mrURL.ok { return Err(Validation); }
      }
      var t := ApplyUpdates(read, updates);
      if to.Some? {
        if !CanTransition(prev, to.value) { return Err(Transition); }
        if to.value == MRCreated && (!t.signedOff || !HasMR(t.repos)) { return Err(Transition); }
        t := t.(state := to.value);
      }
      var stale := UpdateTask(t, prev);
      return if stale then Err(Stale) else Ok(t);
    }

    /** signOff: the row it is given, with the stamp. */
    method Stamp(t: Task) returns (r: Result<Task, Error>)
      modifies this
      ensures r == if old(row).state == t.state then Ok(t.(signedOff := true)) else Err(Stale)
      ensures row == if r.Ok? then r.value else old(row)
    {
      var stale := UpdateTask(t.(signedOff := true), t.state);
      return if stale then Err(Stale) else Ok(t.(signedOff := true));
    }

    /** The button on the task card. One that was pressed before changes nothing in the row. */
    method SignOff(read: Task, caller: string) returns (r: Result<Task, Error>)
      modifies this
      ensures WrittenBack(old(row), row, read, Sign(caller), r)
    {
      if caller != read.requester { return Err(NotRequester); }
      if read.state != AwaitingTest { return Err(NotReady); }
      if read.signedOff { return Err(NoChange); }
      r := Stamp(read);
    }

    /** The gate before a push. granted is what the approval the call names comes to, if it names one
    that the server raised. It is approved only over a sign-off, there already or stored now. */
    method RequestMR(read: Task, granted: Option<bool>) returns (status: MRStatus)
      modifies this
      ensures status == Approved <==> (&& (read.state == AwaitingTest || read.state == MRCreated)
                                       && (read.signedOff || (granted == Some(true) && old(row).state == read.state)))
      ensures status == Approved && !read.signedOff ==> WrittenBack(old(row), row, read, Approve, Ok(row)) && row.signedOff
      ensures status != Approved || read.signedOff ==> row == old(row)
      ensures status == NotReadyYet <==> read.state != AwaitingTest && read.state != MRCreated
      ensures status == Denied ==> granted == Some(false)
    {
      if read.state != AwaitingTest && read.state != MRCreated { return NotReadyYet; }
      if read.signedOff { return Approved; }
      if granted.None? { return Ask; }
      if !granted.value { return Denied; }
      var r := Stamp(read);
      return if r.Ok? then Approved else Failed(r.error);
    }

    method Close(read: Task, caller: string, to: TaskState) returns (r: Result<Task, Error>)
      modifies this
      ensures WrittenBack(old(row), row, read, Edit.Close(caller, to), r)
    {
      if to != Done && to != Abandoned { return Err(Validation); }
      if caller != read.requester { return Err(NotRequester); }
      if read.state.Terminal() { return Err(NoChange); }
      if !CanTransition(read.state, to) { return Err(Transition); }
      var stale := UpdateTask(read.(state := to), read.state);
      return if stale then Err(Stale) else Ok(read.(state := to));
    }

    /** A run's claim is noted in the row, with the last fifty runs. */
    method PinTaskRun(read: Task, runID: string, runner: string, owner: string) returns (r: Result<Task, Error>)
      modifies this
      ensures WrittenBack(old(row), row, read, Pin(runID, runner, owner), r)
    {
      var t, changed := read, false;
      if t.runnerID != runner || t.runnerOwner != owner {
        t := t.(runnerID := runner, runnerOwner := owner);
        changed := true;
      }
      var seen, i := false, 0;
      while i < |t.runIDs| && !seen
        invariant 0 <= i <= |t.runIDs| && (seen <==> runID in t.runIDs[..i])
        decreases |t.runIDs| - i
      {
        seen := t.runIDs[i] == runID;
        i := i + 1;
      }
      if !seen {
        var ids := t.runIDs + [runID];
        if |ids| > 50 { ids := ids[|ids| - 50..]; }
        t := t.(runIDs := ids);
        changed := true;
      }
      if !changed { return Err(NoChange); }
      var stale := UpdateTask(t, t.state);
      return if stale then Err(Stale) else Ok(t);
    }
  }

  // ------------------------------------------------------------ writers racing on one row

  type ActorId = int

  /** Each actor holds the copy it read and the edit it will write. */
  datatype Writer = Writer(copy: Task, edit: Edit)

  datatype State = State(row: Task, writers: map<ActorId, Writer>)

  datatype Event = Read(a: ActorId, edit: Edit) | Write(a: ActorId)

  ghost predicate Enabled(s: State, e: Event) {
    if e.Read? then e.a !in s.writers else e.a in s.writers
  }

  predicate Commits(row: Task, w: Writer) { row.state == w.copy.state && Edited(w.copy, w.edit).Ok? }

  function Apply(s: State, e: Event): State
    requires Enabled(s, e)
  {
    match e
    case Read(a, edit) => s.(writers := s.writers[a := Writer(s.row, edit)])
    case Write(a) =>
      var w := s.writers[a];
      State(if Commits(s.row, w) then Edited(w.copy, w.edit).value else s.row, s.writers - {a})
  }

  datatype History = New(row: Task) | Then(before: History, e: Event)

  /** A task begins created, with nobody's sign-off. */
  ghost predicate Possible(h: History)
    decreases h, 0
  {
    match h
    case New(row) => row.state == Created && !row.signedOff
    case Then(before, e) => Possible(before) && Enabled(Last(before), e)
  }

  ghost function Last(h: History): State
    requires Possible(h)
    decreases h, 1
  {
    match h
    case New(row) => State(row, map[])
    case Then(before, e) => Apply(Last(before), e)
  }

  /** The gate: merge requests stand only on a sign-off and an address to show for it. */
  predicate Gated(t: Task) { t.state == MRCreated ==> t.signedOff && HasMR(t.repos) }

  ghost predicate Inv(s: State) {
    Gated(s.row) && forall a <- s.writers :: Gated(s.writers[a].copy)
  }

  /** Whatever a call makes of a gated copy is gated, and follows an edge of the lifecycle. */
  lemma EditKeepsGate(t: Task, e: Edit)
    requires Gated(t) && Edited(t, e).Ok?
    ensures Gated(Edited(t, e).value) && CanTransition(t.state, Edited(t, e).value.state)
    ensures Edited(t, e).value.state == MRCreated != t.state ==> t.state == AwaitingTest && e.Report?
  {
    if e.Report? {
      var after := PatchedBy(t.repos, e.updates);
      PatchKeepsRepos(t.repos, e.updates);
      if HasMR(t.repos) {
        var i :| 0 <= i < |t.repos| && t.repos[i].mrURL != "";
        assert after[i].mrURL != "";
      }
    }
  }

  lemma {:induction false} HistoryKeepsInv(h: History)
    requires Possible(h)
    ensures Inv(Last(h))
  {
    if h.Then? {
      HistoryKeepsInv(h.before);
      var s := Last(h.before);
      if h.e.Write? && Commits(s.row, s.writers[h.e.a]) {
        EditKeepsGate(s.writers[h.e.a].copy, s.writers[h.e.a].edit);
      }
    }
  }

  /** However stale the copies and however often states come round again: every stored row in
  mr_created has a sign-off and a merge request. */
  lemma GateHolds(h: History)
    requires Possible(h)
    ensures Last(h).row.state == MRCreated ==> Last(h).row.signedOff && HasMR(Last(h).row.repos)
  {
    HistoryKeepsInv(h);
  }

  /** A sign-off is lost exactly when a call commits that read the row before it was given. */
  lemma SignOffLostIff(h: History, a: ActorId)
    requires Possible(h) && a in Last(h).writers && Last(h).row.signedOff
    ensures var s, w := Last(h), Last(h).writers[a];
            !Last(Then(h, Write(a))).row.signedOff <==> Commits(s.row, w) && !w.copy.signedOff && !Signs(w.edit)
  {
    var s, w := Last(h), Last(h).writers[a];
    assert Last(Then(h, Write(a))) == Apply(s, Write(a));
  }

  ghost predicate Continues(later: History, h: History) {
    later == h || (later.Then? && Continues(later.before, h))
  }

  /** From h on, at every moment up to later, the row shows a sign-off. */
  ghost predicate SignedSince(later: History, h: History)
    requires Possible(later) && Possible(h) && Continues(later, h)
  {
    Last(later).row.signedOff && (later != h ==> SignedSince(later.before, h))
  }

  /** The step stores a copy that was read before the sign-off, in a call that gives none. */
  ghost predicate TakesBack(s: State, e: Event) {
    e.Write? && e.a in s.writers && Commits(s.row, s.writers[e.a])
    && !s.writers[e.a].copy.signedOff && !Signs(s.writers[e.a].edit)
  }

  ghost predicate NoneTakesBack(later: History, h: History)
    requires Possible(later) && Possible(h) && Continues(later, h)
  {
    later != h ==> NoneTakesBack(later.before, h) && !TakesBack(Last(later.before), later.e)
  }

  /** A sign-off stands exactly as long as no such call goes through. */
  lemma {:induction false} SignOffStandsIff(later: History, h: History)
    requires Possible(later) && Possible(h) && Continues(later, h) && Last(h).row.signedOff
    ensures SignedSince(later, h) <==> NoneTakesBack(later, h)
  {
    if later != h {
      SignOffStandsIff(later.before, h);
      if Last(later.before).row.signedOff && later.e.Write? { SignOffLostIff(later.before, later.e.a); }
    }
  }

  /** Whoever still holds a copy without the sign-off is about to give one. */
  ghost predicate AllSawIt(s: State) {
    s.row.signedOff && forall a <- s.writers :: s.writers[a].copy.signedOff || Signs(s.writers[a].edit)
  }

  /** So once every call that read the row before is through, the sign-off is final: no later call,
  whatever it is and however they race, takes it back. */
  lemma {:induction false} SignOffIsFinal(later: History, h: History)
    requires Possible(later) && Possible(h) && Continues(later, h) && AllSawIt(Last(h))
    ensures AllSawIt(Last(later))
  {
    if later != h {
      SignOffIsFinal(later.before, h);
      var s := Last(later.before);
      if later.e.Write? { SignOffLostIff(later.before, later.e.a); }
      assert Last(later) == Apply(s, later.e);
    }
  }

  // ------------------------------------------------------------ a run that shows the limit

  lemma Longer(h: History, e: Event) returns (longer: History)
    requires Possible(h) && Enabled(Last(h), e)
    ensures longer == Then(h, e) && Possible(longer) && Last(longer) == Apply(Last(h), e)
  {
    longer := Then(h, e);
  }

  lemma Committed(h: History, a: ActorId, edit: Edit) returns (longer: History)
    requires Possible(h) && a !in Last(h).writers && Edited(Last(h).row, edit).Ok?
    ensures Possible(longer) && Last(longer) == Last(h).(row := Edited(Last(h).row, edit).value)
  {
    longer := Longer(h, Read(a, edit));
    longer := Longer(longer, Write(a));
    assert Last(longer).writers == Last(h).writers;
  }

  lemma AwaitingUser() returns (h: History)
    ensures Possible(h) && Last(h).writers == map[]
    ensures Last(h).row == Task(AwaitingTest, false, [], "", "requester", "ann", "", "", [])
  {
    h := New(Task(Created, false, [], "", "requester", "ann", "", "", []));
    h := Committed(h, 1, Report([], Some(InProgress)));
    h := Committed(h, 1, Report([], Some(AwaitingTest)));
  }

  /** A runner that claims a run had read the row just before the requester signed off: pinning
  the workspace takes the sign-off back, and the merge request then reported is refused. */
  lemma PinTakesSignOffBack() returns (h: History)
    ensures Possible(h) && h.Then? && var s, t := Last(h.before), Last(h);
            && s.row.signedOff && !t.row.signedOff && t.row.state == AwaitingTest
            && Edited(t.row, Report([], Some(MRCreated))) == Err(Transition)
  {
    h := AwaitingUser();
    h := Longer(h, Read(2, Pin("run", "laptop", "ann")));
    h := Committed(h, 1, Sign("ann"));
    h := Longer(h, Write(2));
  }
}
