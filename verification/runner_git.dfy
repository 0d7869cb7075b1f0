/** `orchestrator/gitops.py`: the runner-owned commit and its reconciliation after a crash, over an
    abstract worktree. */
module RunnerGit {
  import opened Common
  import opened RunnerModels

  /** Which paths pass the path checks: the frozen grant, the UI control files, containment. */
  datatype GitRules = GitRules(allowed: iset<Text>, forbiddenUi: iset<Text>, escaping: iset<Text>)

  /** The parts of a task the commit is checked against; `subject` is its runner commit subject. */
  datatype GitTask = GitTask(issue: nat, branch: Text, isUi: bool, subject: Text)

  datatype WorkerResult = WorkerResult(success: bool, issue: nat, branch: Text, head: Sha, changed: seq<Text>)

  /** A worktree: `modified` are the paths whose content differs from HEAD (untracked ones too),
      `staged` those whose index entry does. */
  datatype Tree = Tree(branch: Text, head: Sha, modified: set<Text>, staged: set<Text>)
  {
    /** `pending_files`. */
    function Pending(): set<Text> { modified + staged }

    /** `git status --porcelain` prints nothing. */
    predicate Clean() { modified == {} && staged == {} }
  }

  /** What the environment contributes: whether the UI workspace holds hidden control files, whether
      `git commit` works, what its hooks leave behind, and the rest of the new commit's identity. */
  datatype GitEnv = GitEnv(controlFilesOk: bool, commitWorks: bool, leftovers: set<Text>, rest: nat)

  datatype GitError =
    | DifferentIssue
    | DifferentBranch
    | HistoryChanged
    | ControlFiles
    | NothingChanged
    | FilesMismatch
    | OutsideScope
    | StagingMismatch
    | CommitFailed
    | NotClean
    | NotSuccessful
    | NotOneCommit
    | ForeignCommit

  /** `paths_are_allowed`, containment and the UI rule together. */
  predicate PathsOk(rules: GitRules, task: GitTask, files: set<Text>) {
    && files != {}
    && (forall f :: f in files ==> f in rules.allowed && f !in rules.escaping)
    && (task.isUi ==> forall f :: f in files ==> f !in rules.forbiddenUi)
  }

  /** `sorted(changed_files) == files`: the result lists each file exactly once. */
  predicate Lists(changed: seq<Text>, files: set<Text>) {
    multiset(changed) == multiset(files)
  }

  /** The index after `git add -- files`. */
  function Added(t: Tree, files: set<Text>): Tree {
    t.(staged := (t.staged - files) + (t.modified * files))
  }

  /** The worktree after a successful `git commit`. */
  function Committed(t: Tree, subject: Text, env: GitEnv): Tree {
    Tree(t.branch, Commit([t.head], t.staged, subject, env.rest), (t.modified - t.staged) + env.leftovers, {})
  }

  /** `validate_and_commit_worker_changes`, checks in source order. */
  function ValidateAndCommit(rules: GitRules, task: GitTask, parent: Sha, result: WorkerResult, t: Tree, env: GitEnv)
    : (Tree, Result<(Sha, set<Text>), GitError>)
  {
    var files := t.Pending();
    var added := Added(t, files);
    var done := Committed(added, task.subject, env);
    if result.issue != task.issue then (t, Err(DifferentIssue))
    else if result.branch != task.branch || t.branch != task.branch then (t, Err(DifferentBranch))
    else if t.head != result.head || t.head != parent then (t, Err(HistoryChanged))
    else if task.isUi && !env.controlFilesOk then (t, Err(ControlFiles))
    else if files == {} then (t, Err(NothingChanged))
    else if !Lists(result.changed, files) then (t, Err(FilesMismatch))
    else if !PathsOk(rules, task, files) then (t, Err(OutsideScope))
    else if added.staged != files then (added, Err(StagingMismatch))
    else if !env.commitWorks then (added, Err(CommitFailed))
    else if !done.Clean() then (done, Err(NotClean))
    else (done, Ok((done.head, files)))
  }

  function Ancestors(s: Sha): (r: set<Sha>)
    ensures s in r
  {
    match s
    case Root(_) => {s}
    case Commit(parents, _, _, _) => {s} + AncestorsOf(parents)
  }

  function AncestorsOf(parents: seq<Sha>): set<Sha> {
    if parents == [] then {} else Ancestors(parents[0]) + AncestorsOf(parents[1..])
  }

  /** `git rev-list --count parent..head`. */
  function NewCommits(parent: Sha, head: Sha): nat {
    |Ancestors(head) - Ancestors(parent)|
  }

  /** `validate_recovered_runner_commit`; it only reads. */
  function ValidateRecovered(rules: GitRules, task: GitTask, parent: Sha, result: WorkerResult, t: Tree, env: GitEnv)
    : Result<(Sha, set<Text>), GitError>
  {
    if !result.success then Err(NotSuccessful)
    else if result.issue != task.issue then Err(DifferentIssue)
    else if result.branch != task.branch then Err(DifferentBranch)
    else if result.head != parent then Err(HistoryChanged)
    else if t.branch != task.branch then Err(DifferentBranch)
    else if t.head.Root? || t.head.parents == [] then Err(NotOneCommit)
    else if t.head == parent || t.head.parents[0] != parent then Err(NotOneCommit)
    else if NewCommits(parent, t.head) != 1 then Err(NotOneCommit)
    else if t.head.subject != task.subject then Err(ForeignCommit)
    else if !t.Clean() then Err(NotClean)
    else if task.isUi && !env.controlFilesOk then Err(ControlFiles)
    else if !Lists(result.changed, t.head.touched) || !PathsOk(rules, task, t.head.touched) then Err(FilesMismatch)
    else Ok((t.head, t.head.touched))
  }

  /** One runner commit on top of `parent`, inside the task's grant. */
  predicate RunnerCommit(rules: GitRules, task: GitTask, parent: Sha, head: Sha) {
    && head.Commit?
    && head.parents != [] && head.parents[0] == parent
    && (forall p :: p in head.parents ==> p in Ancestors(parent))
    && head.subject == task.subject
    && PathsOk(rules, task, head.touched)
  }

  function Depth(s: Sha): nat {
    match s
    case Root(_) => 0
    case Commit(parents, _, _, _) => 1 + DepthOf(parents)
  }

  function DepthOf(parents: seq<Sha>): nat {
    if parents == [] then 0
    else
      var first, rest := Depth(parents[0]), DepthOf(parents[1..]);
      if first < rest then rest else first
  }

  lemma {:induction false} AncestorsAreShallower(s: Sha, a: Sha)
    requires a in Ancestors(s)
    ensures a == s || Depth(a) < Depth(s)
    decreases s, 0
  {
    if s.Commit? && a != s {
      ParentsAreShallower(s.parents, a);
    }
  }

  lemma {:induction false} ParentsAreShallower(parents: seq<Sha>, a: Sha)
    requires a in AncestorsOf(parents)
    ensures Depth(a) <= DepthOf(parents)
    decreases parents, 1
  {
    if a in Ancestors(parents[0]) {
      AncestorsAreShallower(parents[0], a);
    } else {
      ParentsAreShallower(parents[1..], a);
    }
  }

  lemma {:induction false} ParentIsAncestor(parents: seq<Sha>, i: nat)
    requires i < |parents|
    ensures parents[i] in AncestorsOf(parents)
  {
    if i > 0 {
      ParentIsAncestor(parents[1..], i - 1);
    }
  }

  /** A commit with one parent adds exactly itself. */
  lemma OneParentOneCommit(parent: Sha, touched: set<Text>, subject: Text, rest: nat)
    ensures NewCommits(parent, Commit([parent], touched, subject, rest)) == 1
    ensures Commit([parent], touched, subject, rest) != parent
  {
    var head := Commit([parent], touched, subject, rest);
    assert [parent][1..] == [];
    assert AncestorsOf([parent]) == Ancestors(parent);
    if head in Ancestors(parent) {
      AncestorsAreShallower(parent, head);
    }
    assert Ancestors(head) - Ancestors(parent) == {head};
  }

  /** If the range holds one commit, every other parent is already history. */
  lemma OneNewCommit(parent: Sha, head: Sha)
    requires head.Commit? && head.parents != [] && head.parents[0] == parent && NewCommits(parent, head) == 1
    ensures forall p :: p in head.parents ==> p in Ancestors(parent)
  {
    if head in Ancestors(parent) {
      ParentIsAncestor(head.parents, 0);
      AncestorsAreShallower(parent, head);
      ParentsAreShallower(head.parents, parent);
    }
    var unseen := Ancestors(head) - Ancestors(parent);
    assert head in unseen;
    forall p | p in head.parents ensures p in Ancestors(parent) {
      var i :| 0 <= i < |head.parents| && head.parents[i] == p;
      ParentIsAncestor(head.parents, i);
      ParentsAreShallower(head.parents, p);
      if p !in Ancestors(parent) {
        assert {head, p} <= unseen;
        CardinalityAtLeast({head, p}, unseen);
      }
    }
  }

  lemma {:induction false} CardinalityAtLeast(small: set<Sha>, large: set<Sha>)
    requires small <= large
    ensures |small| <= |large|
  {
    if small != {} {
      var x :| x in small;
      CardinalityAtLeast(small - {x}, large - {x});
    }
  }

  /** The runner commits at most once, on the expected parent, exactly the pending files, inside the
      grant, and leaves a clean worktree; a refusal before that leaves HEAD alone. */
  lemma CommitIsARunnerCommit(rules: GitRules, task: GitTask, parent: Sha, result: WorkerResult, t: Tree, env: GitEnv)
    ensures var (t', r) := ValidateAndCommit(rules, task, parent, result, t, env);
      && t'.branch == t.branch
      && (t'.head == t.head || (t.head == parent && t'.head.Commit? && t'.head.parents == [parent]
                                && RunnerCommit(rules, task, parent, t'.head)))
      && (r.Ok? ==> t'.head != t.head && r.value == (t'.head, t.Pending()) && t'.head.touched == t.Pending() && t'.Clean()
                    && Lists(result.changed, t'.head.touched))
  {
    OneParentOneCommit(t.head, Added(t, t.Pending()).staged, task.subject, env.rest);
  }

  /** A commit that recovery accepts is one runner commit on the expected parent. */
  lemma RecoveredIsARunnerCommit(rules: GitRules, task: GitTask, parent: Sha, result: WorkerResult, t: Tree, env: GitEnv)
    requires ValidateRecovered(rules, task, parent, result, t, env).Ok?
    ensures var (head, files) := ValidateRecovered(rules, task, parent, result, t, env).value;
      && head == t.head && files == head.touched && head != parent && t.Clean() && Lists(result.changed, files)
      && RunnerCommit(rules, task, parent, head)
  {
    OneNewCommit(parent, t.head);
  }

  /** A crash after the commit loses nothing: with the same durable result, recovery accepts exactly
      the commit that was made and reports the same files. */
  lemma RecoveryAcceptsTheCommit(
    rules: GitRules, task: GitTask, parent: Sha, result: WorkerResult, t: Tree, env: GitEnv, later: GitEnv)
    requires ValidateAndCommit(rules, task, parent, result, t, env).1.Ok?
    requires result.success && (task.isUi ==> later.controlFilesOk)
    ensures var (t', r) := ValidateAndCommit(rules, task, parent, result, t, env);
      ValidateRecovered(rules, task, parent, result, t', later) == r
  {
    OneParentOneCommit(t.head, Added(t, t.Pending()).staged, task.subject, env.rest);
  }

  /** And it stacks nothing: once HEAD has moved off the expected parent, committing again for that
      parent is refused and changes nothing. */
  lemma CommitNeverStacks(rules: GitRules, task: GitTask, parent: Sha, result: WorkerResult, t: Tree, env: GitEnv)
    requires t.head != parent
    ensures ValidateAndCommit(rules, task, parent, result, t, env).0 == t
    ensures ValidateAndCommit(rules, task, parent, result, t, env).1.Err?
  {
  }

  /** Everything that is asked of a worker's changes before the commit is tried: the result speaks of this
      task, branch and parent, and lists exactly the pending files, all inside the grant, and no path
      is staged that does not differ in the worktree. */
  ghost predicate Committable(rules: GitRules, task: GitTask, parent: Sha, result: WorkerResult, t: Tree, env: GitEnv) {
    var files := t.modified + t.staged;
    && result.issue == task.issue && result.branch == task.branch && t.branch == task.branch
    && result.head == parent && t.head == parent
    && (task.isUi ==> env.controlFilesOk)
    && files != {} && multiset(result.changed) == multiset(files)
    && (forall f :: f in files ==> f in rules.allowed && f !in rules.escaping && (task.isUi ==> f !in rules.forbiddenUi))
    && t.staged <= t.modified
  }

  /** Exactly when a commit is made, exactly which commit, and exactly when it is accepted: it is made if
      the changes are committable and git commits, and accepted if nothing is left over. Every refusal
      before that leaves the files and HEAD as they were. */
  lemma CommitIsMadeExactly(rules: GitRules, task: GitTask, parent: Sha, result: WorkerResult, t: Tree, env: GitEnv)
    ensures var (t', r) := ValidateAndCommit(rules, task, parent, result, t, env);
      var committable := Committable(rules, task, parent, result, t, env);
      && (t'.head != t.head <==> committable && env.commitWorks)
      && (t'.head != t.head ==>
            t' == Tree(t.branch, Commit([parent], t.modified + t.staged, task.subject, env.rest), env.leftovers, {}))
      && (t'.head == t.head ==> t'.branch == t.branch && t'.modified == t.modified)
      && (r.Ok? <==> committable && env.commitWorks && env.leftovers == {})
      && (r.Ok? ==> r.value == (t'.head, t.modified + t.staged))
  {
    OneParentOneCommit(t.head, Added(t, t.Pending()).staged, task.subject, env.rest);
    assert Added(t, t.Pending()).staged == t.modified;
    assert t.staged <= t.modified ==> t.modified + t.staged == t.modified;
    assert t.modified == t.modified + t.staged ==> t.staged <= t.modified;
    assert t.modified - t.modified + env.leftovers == env.leftovers;
  }

  lemma {:induction false} AncestorsAreClosed(a: Sha, b: Sha, c: Sha)
    requires a in Ancestors(b) && b in Ancestors(c)
    ensures a in Ancestors(c)
    decreases c, 0
  {
    if b != c && c.Commit? {
      ParentsAreClosed(a, b, c.parents);
    }
  }

  lemma {:induction false} ParentsAreClosed(a: Sha, b: Sha, parents: seq<Sha>)
    requires a in Ancestors(b) && b in AncestorsOf(parents)
    ensures a in AncestorsOf(parents)
    decreases parents, 1
  {
    if b in Ancestors(parents[0]) {
      AncestorsAreClosed(a, b, parents[0]);
    } else {
      ParentsAreClosed(a, b, parents[1..]);
    }
  }

  lemma {:induction false} ParentsAreHistory(parents: seq<Sha>, parent: Sha, a: Sha)
    requires (forall p :: p in parents ==> p in Ancestors(parent)) && a in AncestorsOf(parents)
    ensures a in Ancestors(parent)
  {
    if a in Ancestors(parents[0]) {
      AncestorsAreClosed(a, parents[0], parent);
    } else {
      ParentsAreHistory(parents[1..], parent, a);
    }
  }

  /** A commit whose parents are all history adds exactly itself. */
  lemma RunnerCommitIsOne(parent: Sha, head: Sha)
    requires head.Commit? && head.parents != [] && head.parents[0] == parent
    requires forall p :: p in head.parents ==> p in Ancestors(parent)
    ensures NewCommits(parent, head) == 1 && head != parent
  {
    ParentIsAncestor(head.parents, 0);
    assert parent in Ancestors(parent);
    ParentsAreShallower(head.parents, parent);
    if head in Ancestors(parent) {
      AncestorsAreShallower(parent, head);
    }
    forall a | a in AncestorsOf(head.parents) ensures a in Ancestors(parent) {
      ParentsAreHistory(head.parents, parent, a);
    }
    assert Ancestors(head) - Ancestors(parent) == {head};
  }

  /** Exactly which commits recovery accepts: the tip of a clean worktree on the task's branch that is one
      runner commit on the expected parent, for a successful result of this task that lists its files. */
  lemma RecoveryAcceptsExactly(rules: GitRules, task: GitTask, parent: Sha, result: WorkerResult, t: Tree, env: GitEnv)
    ensures ValidateRecovered(rules, task, parent, result, t, env).Ok? <==>
      && result.success && result.issue == task.issue && result.branch == task.branch && result.head == parent
      && t.branch == task.branch && t.modified == {} && t.staged == {}
      && (task.isUi ==> env.controlFilesOk)
      && RunnerCommit(rules, task, parent, t.head) && multiset(result.changed) == multiset(t.head.touched)
    ensures ValidateRecovered(rules, task, parent, result, t, env).Ok? ==>
      ValidateRecovered(rules, task, parent, result, t, env).value == (t.head, t.head.touched)
  {
    if ValidateRecovered(rules, task, parent, result, t, env).Ok? {
      RecoveredIsARunnerCommit(rules, task, parent, result, t, env);
    }
    if RunnerCommit(rules, task, parent, t.head) {
      RunnerCommitIsOne(parent, t.head);
    }
    hide NewCommits;
  }

  /** The worktree, changed in place by one git command at a time. */
  class Worktree {
    var branch: Text
    var head: Sha
    var modified: set<Text>
    var staged: set<Text>

    ghost function State(): Tree
      reads this
    {
      Tree(branch, head, modified, staged)
    }

    constructor (branch: Text, head: Sha)
      ensures State() == Tree(branch, head, {}, {})
    {
      this.branch, this.head, modified, staged := branch, head, {}, {};
    }

    method Add(files: set<Text>)
      modifies this`staged
      ensures State() == Added(old(State()), files)
    {
      staged := (staged - files) + (modified * files);
    }

    method CommitStaged(subject: Text, env: GitEnv)
      modifies this`head, this`modified, this`staged
      ensures State() == Committed(old(State()), subject, env)
    {
      head := Commit([head], staged, subject, env.rest);
      modified := (modified - staged) + env.leftovers;
      staged := {};
    }

    method ValidateAndCommitWorkerChanges(rules: GitRules, task: GitTask, parent: Sha, result: WorkerResult, env: GitEnv)
      returns (r: Result<(Sha, set<Text>), GitError>)
      modifies this
      ensures (State(), r) == ValidateAndCommit(rules, task, parent, result, old(State()), env)
    {
      if result.issue != task.issue {
        return Err(DifferentIssue);
      }
      if result.branch != task.branch || branch != task.branch {
        return Err(DifferentBranch);
      }
      if head != result.head || head != parent {
        return Err(HistoryChanged);
      }
      var files := modified + staged;
      if task.isUi && !env.controlFilesOk {
        return Err(ControlFiles);
      }
      if files == {} {
        return Err(NothingChanged);
      }
      if !Lists(result.changed, files) {
        return Err(FilesMismatch);
      }
      if !PathsOk(rules, task, files) {
        return Err(OutsideScope);
      }
      Add(files);
      if staged != files {
        return Err(StagingMismatch);
      }
      if !env.commitWorks {
        return Err(CommitFailed);
      }
      CommitStaged(task.subject, env);
      OneParentOneCommit(parent, files, task.subject, env.rest);
      if head == parent {
        return Err(CommitFailed);
      }
      if modified != {} || staged != {} {
        return Err(NotClean);
      }
      return Ok((head, files));
    }
  }
}
