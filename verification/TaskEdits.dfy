/** What each call does to a coding task, field by field: which report a repo's facts come from, which
states lead to which, and which fields are whose to change. */
module TaskEdits {
  import opened Common
  import opened CodingTasks

  // ------------------------------------------------------------ the reported repos

  /** The value is the last one said, or the one before if none is. */
  ghost predicate LastSaid<T(!new)>(after: T, before: T, said: seq<Option<T>>) {
    || (after == before && forall k | 0 <= k < |said| :: said[k] == None)
    || (exists j | 0 <= j < |said| :: said[j] == Some(after) && forall k | j < k < |said| :: said[k] == None)
  }

  lemma OneMoreSaid<T(!new)>(now: T, before: T, said: seq<Option<T>>, next: Option<T>)
    requires LastSaid(now, before, said)
    ensures LastSaid(if next.Some? then next.value else now, before, said + [next])
  {
    var more := said + [next];
    if next.Some? {
      assert more[|said|] == Some(next.value);
    } else if j :| 0 <= j < |said| && said[j] == Some(now) && forall k | j < k < |said| :: said[k] == None {
      assert more[j] == Some(now);
    }
  }

  /** What the updates say of one fact about the repo at a path. */
  function Said<T>(us: seq<RepoUpdate>, path: string, fact: RepoUpdate -> Option<T>): seq<Option<T>> {
    seq(|us|, k requires 0 <= k < |us| => if us[k].path == path then fact(us[k]) else None)
  }

  lemma SaidByOneMore<T>(us: seq<RepoUpdate>, path: string, fact: RepoUpdate -> Option<T>)
    requires us != []
    ensures var last := us[|us| - 1];
            Said(us, path, fact) == Said(us[..|us| - 1], path, fact) + [if last.path == path then fact(last) else None]
  {}

  const BRANCH := (u: RepoUpdate) => if u.branch.text != "" && u.branch.ok then Some(u.branch.text) else None
  const BASE := (u: RepoUpdate) => if u.base.text != "" && u.base.ok then Some(u.base.text) else None
  const DIR := (u: RepoUpdate) => if u.dir != "" then Some(u.dir) else None
  const MR_URL := (u: RepoUpdate) => if u.mrURL.text != "" then Some(u.mrURL.text) else None
  const CHANGED := (u: RepoUpdate) => u.changed

  /** Each fact about a repo is what the last update that names it and says something valid of that
  fact says, or as it was. */
  ghost predicate Told(before: Repo, after: Repo, us: seq<RepoUpdate>) {
    && after.path == before.path
    && LastSaid(after.branch, before.branch, Said(us, before.path, BRANCH))
    && LastSaid(after.base, before.base, Said(us, before.path, BASE))
    && LastSaid(after.dir, before.dir, Said(us, before.path, DIR))
    && LastSaid(after.mrURL, before.mrURL, Said(us, before.path, MR_URL))
    && LastSaid(after.changed, before.changed, Said(us, before.path, CHANGED))
  }

  lemma ToldOneMore(before: Repo, now: Repo, us: seq<RepoUpdate>)
    requires us != [] && Told(before, now, us[..|us| - 1])
    ensures Told(before, if us[|us| - 1].path == before.path then PatchedRepo(now, us[|us| - 1]) else now, us)
  {
    var u, init := us[|us| - 1], us[..|us| - 1];
    var named := u.path == before.path;
    SaidByOneMore(us, before.path, BRANCH);
    SaidByOneMore(us, before.path, BASE);
    SaidByOneMore(us, before.path, DIR);
    SaidByOneMore(us, before.path, MR_URL);
    SaidByOneMore(us, before.path, CHANGED);
    OneMoreSaid(now.branch, before.branch, Said(init, before.path, BRANCH), if named then BRANCH(u) else None);
    OneMoreSaid(now.base, before.base, Said(init, before.path, BASE), if named then BASE(u) else None);
    OneMoreSaid(now.dir, before.dir, Said(init, before.path, DIR), if named then DIR(u) else None);
    OneMoreSaid(now.mrURL, before.mrURL, Said(init, before.path, MR_URL), if named then MR_URL(u) else None);
    OneMoreSaid(now.changed, before.changed, Said(init, before.path, CHANGED), if named then CHANGED(u) else None);
  }

  predicate FirstAt(repos: seq<Repo>, i: nat)
    requires i < |repos|
  {
    forall j | 0 <= j < i :: repos[j].path != repos[i].path
  }

  /** A report tells each repo what was said of its path, the first one if two have it, and the others
  nothing. */
  lemma {:induction false} ReposAreTold(repos: seq<Repo>, us: seq<RepoUpdate>, i: nat)
    requires i < |repos|
    ensures var after := PatchedBy(repos, us);
            |after| == |repos| && if FirstAt(repos, i) then Told(repos[i], after[i], us) else after[i] == repos[i]
  {
    if us != [] {
      var u, now := us[|us| - 1], PatchedBy(repos, us[..|us| - 1]);
      ReposAreTold(repos, us[..|us| - 1], i);
      PatchKeepsRepos(repos, us[..|us| - 1]);
      if FirstAt(repos, i) { ToldOneMore(repos[i], now[i], us); }
      var at := FindRepo(now, u.path);
      if at.Some? && !FirstAt(repos, i) {
        var j :| 0 <= j < i && repos[j].path == repos[i].path;
        assert now[j].path == now[i].path;
      }
    }
  }

  // ------------------------------------------------------------ the lifecycle

  /** The lifecycle read the other way: where a state is entered from. */
  function EnteredFrom(to: TaskState): set<TaskState> {
    match to
    case Created => {}
    case WorkspaceReady => {Created, SetupFailed}
    case InProgress => {Created, WorkspaceReady, SetupFailed, AwaitingTest, MRCreated}
    case AwaitingTest => {WorkspaceReady, InProgress}
    case MRCreated => {AwaitingTest}
    case Done => {MRCreated}
    case SetupFailed => {Created, WorkspaceReady, InProgress}
    case Abandoned => {Created, WorkspaceReady, SetupFailed, InProgress, AwaitingTest, MRCreated}
  }

  lemma LifecycleIff(from: TaskState, to: TaskState)
    ensures CanTransition(from, to) <==> from == to || from in EnteredFrom(to)
  {}

  // ------------------------------------------------------------ what a call may change

  /** A report is applied as a whole or refused as a whole: for an address that is none, a step that is
  no edge of the lifecycle, or merge requests without a sign-off or without an address. */
  lemma ReportIff(t: Task, us: seq<RepoUpdate>, to: Option<TaskState>)
    ensures var r, repos := Edited(t, Report(us, to)), PatchedBy(t.repos, us);
            var bad := exists u <- us :: u.mrURL.text != "" && !u.mrURL.ok;
            var edge := to.Some? ==> t.state == to.value || t.state in EnteredFrom(to.value);
            var shown := to == Some(MRCreated) ==> t.signedOff && exists repo <- repos :: repo.mrURL != "";
      && (r == Err(Validation) <==> bad) && (r == Err(Transition) <==> !bad && !(edge && shown))
      && (r.Ok? <==> !bad && edge && shown)
      && (r.Ok? ==> r.value == t.(repos := repos, state := if to.Some? then to.value else t.state))
  {
    if to.Some? { LifecycleIff(t.state, to.value); }
    var repos := PatchedBy(t.repos, us);
    assert HasMR(repos) <==> exists repo <- repos :: repo.mrURL != "" by {
      if repo :| repo in repos && repo.mrURL != "" {
        var i :| 0 <= i < |repos| && repos[i] == repo;
      }
    }
    assert (exists i | 0 <= i < |us| :: BadURL(us[i])) <==> exists u <- us :: u.mrURL.text != "" && !u.mrURL.ok by {
      if u :| u in us && u.mrURL.text != "" && !u.mrURL.ok {
        var i :| 0 <= i < |us| && us[i] == u;
        assert BadURL(us[i]);
      }
      if i :| 0 <= i < |us| && BadURL(us[i]) { assert us[i] in us; }
    }
  }

  /** Who may change what: repos only a report, runner and run ids only a claim, the plan and the
  steering their own calls, the sign-off only one that gives it, and it is never taken off the copy;
  the state a report, or the requester who closes the task, or a task that takes over. */
  lemma FieldsAreTheirs(t: Task, e: Edit)
    requires Edited(t, e).Ok?
    ensures var after := Edited(t, e).value;
      && after.requester == t.requester
      && (!e.Report? ==> after.repos == t.repos)
      && after.plan == (if e.Plan? then e.plan else t.plan)
      && after.steering == (if e.Steer? then e.mode else t.steering)
      && after.runnerID == (if e.Pin? then e.runner else t.runnerID)
      && after.runnerOwner == (if e.Pin? then e.owner else t.runnerOwner)
      && after.runIDs == (if e.Pin? && e.runID !in t.runIDs then LastFifty(t.runIDs + [e.runID]) else t.runIDs)
      && after.signedOff == (t.signedOff || e.Sign? || e.Approve?)
      && after.state == (if e.Report? && e.toState.Some? then e.toState.value
                         else if e.Close? then e.to else if e.Supersede? then Done else t.state)
  {}

  /** And when: only the requester signs by the button, steers and closes; a sign-off is given once,
  over work that awaits the test, or merge requests that are open. */
  lemma CallsAreAllowedIff(t: Task, e: Edit)
    ensures e.Sign? ==> (Edited(t, e).Ok? <==> e.caller == t.requester && t.state == AwaitingTest && !t.signedOff)
    ensures e.Approve? ==> (Edited(t, e).Ok? <==> t.state in {AwaitingTest, MRCreated} && !t.signedOff)
    ensures e.Steer? ==> (Edited(t, e).Ok? <==> e.caller == t.requester && t.steering != e.mode)
    ensures e.Close? ==>
              (Edited(t, e).Ok? <==> e.to in {Done, Abandoned} && e.caller == t.requester && t.state in EnteredFrom(e.to))
    ensures e.Supersede? ==> (Edited(t, e).Ok? <==> t.state == MRCreated)
    ensures e.Pin? ==>
              (Edited(t, e).Ok? <==> !(t.runnerID == e.runner && t.runnerOwner == e.owner && e.runID in t.runIDs))
  {}
}
