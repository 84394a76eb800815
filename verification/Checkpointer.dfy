/** Checkpoint commits pushed to a branch that other jobs push to as well (src/engine/checkpointer.js).

    A tree is a map from path to blob. Any number of jobs share one remote branch; a push is accepted exactly
    when it extends the branch. The machine below interleaves the jobs' git commands in any order. */
module Checkpointer {
  import opened Text

  type Path = string
  type Blob = string
  type Tree = map<Path, Blob>

  datatype Commit = Root(tree: Tree) | Commit(tree: Tree, parent: Commit)

  /** Is `p` under the state directory? */
  predicate Under(root: string, p: Path) {
    |root| < |p| && p[..|root|] == root && p[|root|] == '/'
  }

  function StatePart(root: string, t: Tree): Tree {
    map p | p in t && Under(root, p) :: t[p]
  }

  predicate SameAt(a: Tree, b: Tree, p: Path) {
    if p in a then p in b && a[p] == b[p] else p !in b
  }

  predicate SameOutside(a: Tree, b: Tree, held: set<Path>) {
    forall p | p in a.Keys + b.Keys :: p !in held ==> SameAt(a, b, p)
  }

  /** The paths on which two trees differ. */
  function Changed(a: Tree, b: Tree): set<Path> {
    set p | p in a.Keys + b.Keys && !SameAt(a, b, p)
  }

  predicate Ancestor(a: Commit, c: Commit) {
    a == c || (c.Commit? && Ancestor(a, c.parent))
  }

  function Depth(c: Commit): nat {
    match c case Root(_) => 0 case Commit(_, parent) => 1 + Depth(parent)
  }

  lemma {:induction false} AncestorDepth(a: Commit, c: Commit)
    requires Ancestor(a, c)
    ensures Depth(a) <= Depth(c) && (Depth(a) == Depth(c) ==> a == c)
  {
    if a != c {
      AncestorDepth(a, c.parent);
    }
  }

  lemma {:induction false} AncestorTransitive(a: Commit, b: Commit, c: Commit)
    requires Ancestor(a, b) && Ancestor(b, c)
    ensures Ancestor(a, c)
  {
    if b != c {
      AncestorTransitive(a, b, c.parent);
    }
  }

  // ------------------------------------------------------------------ one job's repository

  /** HEAD, the index and the working tree. */
  datatype Repo = Repo(head: Commit, index: Tree, disk: Tree)

  /** HEAD, index and working tree agree under the state directory. */
  predicate Agrees(root: string, r: Repo) {
    StatePart(root, r.head.tree) == StatePart(root, r.index) == StatePart(root, r.disk)
  }

  /** `git add -A -- state` */
  function Staged(root: string, r: Repo): Tree {
    (map p | p in r.index && !Under(root, p) :: r.index[p]) + StatePart(root, r.disk)
  }

  /** The gate: what is staged must lie under the state directory. */
  predicate OnlyState(root: string, before: Tree, after: Tree) {
    forall p | p in Changed(before, after) :: Under(root, p)
  }

  function Committed(root: string, r: Repo): Repo {
    Repo(Commit(Staged(root, r), r.head), Staged(root, r), r.disk)
  }

  /** The deletions that the conflict path stages: in HEAD, still in the index, gone from the disk, present on the
      remote. */
  function Removed(root: string, r: Repo, remote: Tree): set<Path> {
    set p | p in r.head.tree && Under(root, p) && p in r.index && p !in r.disk && p in remote
  }

  /** The tree that the conflict path writes: the remote's, less our deletions, overlaid by our state directory. */
  function Merged(root: string, r: Repo, remote: Tree): Tree {
    (remote - Removed(root, r, remote)) + StatePart(root, r.disk)
  }

  function Target(root: string, r: Repo, tip: Commit): Commit {
    var tree := Merged(root, r, tip.tree);
    if tree == tip.tree then tip else Commit(tree, tip)
  }

  /** The repository afterwards: HEAD and index at the target, the state directory checked out from it. */
  function Reapplied(root: string, r: Repo, tip: Commit): Repo {
    var target := Target(root, r, tip);
    Repo(target, target.tree, r.disk + StatePart(root, target.tree))
  }

  /** What the job claims in a conflict merge: what is on its disk, and its staged deletions. */
  function Held(root: string, r: Repo, remote: Tree): set<Path> {
    StatePart(root, r.disk).Keys + Removed(root, r, remote)
  }

  /** The conflict merge, path by path. */
  lemma MergeByPath(root: string, r: Repo, tip: Commit, p: Path)
    ensures var t := Target(root, r, tip).tree;
            if !Under(root, p) then SameAt(t, tip.tree, p)
            else if p in r.disk then p in t && t[p] == r.disk[p]
            else if p in Removed(root, r, tip.tree) then p !in t
            else SameAt(t, tip.tree, p)
  {
  }

  /** Afterwards the working state directory is the new tip's, nothing else on disk moved, HEAD, index and disk agree
      again, and the new tip is the remote tip or one commit on top of it. */
  lemma ReapplySyncs(root: string, r: Repo, tip: Commit)
    ensures var r' := Reapplied(root, r, tip);
            && StatePart(root, r'.disk) == StatePart(root, r'.head.tree)
            && Agrees(root, r')
            && (forall p :: !Under(root, p) ==> SameAt(r'.disk, r.disk, p))
            && (r'.head == tip || (r'.head.Commit? && r'.head.parent == tip))
            && SameOutside(r'.head.tree, tip.tree, Held(root, r, tip.tree))
  {
    var r' := Reapplied(root, r, tip);
    forall p | Under(root, p)
      ensures SameAt(r'.disk, r'.head.tree, p)
    {
      MergeByPath(root, r, tip, p);
    }
    SameState(root, r'.disk, r'.head.tree);
    forall p | p !in Held(root, r, tip.tree) ensures SameAt(r'.head.tree, tip.tree, p) {
      MergeByPath(root, r, tip, p);
    }
  }

  lemma SameState(root: string, a: Tree, b: Tree)
    ensures StatePart(root, a) == StatePart(root, b) <==> forall p :: Under(root, p) ==> SameAt(a, b, p)
  {
    if StatePart(root, a) == StatePart(root, b) {
      forall p | Under(root, p) ensures SameAt(a, b, p) {
        assert p in a <==> p in StatePart(root, a);
        assert p in b <==> p in StatePart(root, b);
        assert p in a ==> a[p] == StatePart(root, a)[p];
        assert p in b ==> b[p] == StatePart(root, b)[p];
      }
    }
  }

  /** Merging again on the tip just made changes nothing and makes no new commit. */
  lemma ReapplyIsIdempotent(root: string, r: Repo, tip: Commit)
    ensures var r' := Reapplied(root, r, tip);
            Reapplied(root, r', r'.head) == r'
  {
    var r' := Reapplied(root, r, tip);
    ReapplySyncs(root, r, tip);
    SameState(root, r'.disk, r'.head.tree);
    SameState(root, r'.index, r'.head.tree);
    assert Removed(root, r', r'.head.tree) == {};
    assert r'.head.tree - {} == r'.head.tree;
    assert Merged(root, r', r'.head.tree) == r'.head.tree;
    assert r'.disk + StatePart(root, r'.head.tree) == r'.disk;
  }

  /** Committing makes HEAD, index and disk agree under the state directory. */
  lemma CommitAgrees(root: string, r: Repo)
    ensures Agrees(root, Committed(root, r))
  {
    assert StatePart(root, Staged(root, r)) == StatePart(root, r.disk);
  }

  /** In the flow of `checkpoint()`, which commits first, the set of staged deletions is empty. */
  lemma NothingIsRemoved(root: string, r: Repo, remote: Tree)
    requires Agrees(root, r)
    ensures Removed(root, r, remote) == {}
    ensures Merged(root, r, remote) == remote + StatePart(root, r.disk)
  {
    SameState(root, r.index, r.disk);
    assert remote - {} == remote;
  }

  /** So a file that the pulse deleted on purpose stays deleted exactly when the remote tip does not have it: when it
      does, the conflict path brings the file back, on the branch and on disk, against the comment at lines 133-137. */
  lemma DeletionSurvivesIff(root: string, r: Repo, tip: Commit, p: Path)
    requires Agrees(root, r) && Under(root, p) && p !in r.disk
    ensures var r' := Reapplied(root, r, tip);
            && (p !in r'.head.tree <==> p !in tip.tree)
            && (p !in r'.disk <==> p !in tip.tree)
  {
    NothingIsRemoved(root, r, tip.tree);
  }

  /** A deletion not yet staged, in contrast, is kept. */
  lemma UnstagedDeletionIsKept(root: string, r: Repo, tip: Commit, p: Path)
    requires Under(root, p) && p !in r.disk && p in r.head.tree && p in r.index
    ensures p !in Reapplied(root, r, tip).head.tree
  {
    MergeByPath(root, r, tip, p);
  }

  /** A path that the job did not touch since `base`: the conflict merge keeps the remote's value exactly when
      `base` does not have the path or the remote has not changed it since. Otherwise the job's stale copy
      overwrites the other's update. */
  lemma StaleCopyIff(root: string, r: Repo, tip: Commit, base: Tree, p: Path)
    requires Agrees(root, r) && Under(root, p) && SameAt(r.head.tree, base, p)
    ensures SameAt(Target(root, r, tip).tree, tip.tree, p) <==> p !in base || SameAt(base, tip.tree, p)
  {
    NothingIsRemoved(root, r, tip.tree);
    MergeByPath(root, r, tip, p);
    SameState(root, r.head.tree, r.disk);
  }

  // ------------------------------------------------------------------ many jobs, one branch

  /** Where a job stands between two git commands; `left` counts its remaining tries, the current one included. */
  datatype Pc =
    | Idle
    | Pulling(left: nat)
    | Conflicted(left: nat)
    | Fetched(left: nat)
    | Prepared(left: nat)
    | Gated(left: nat)

  /** `seen` is `origin/<ref>`. `base` is the branch commit that HEAD was last built on and `dirty` the paths that HEAD
      may differ from it in; both are for the statements. */
  datatype Job = Job(repo: Repo, seen: Commit, base: Commit, dirty: set<Path>, pc: Pc)

  datatype System = System(tip: Commit, jobs: map<nat, Job>)

  datatype Event =
    | Start(job: nat, disk: Tree)
    | Edit(job: nat, disk: Tree)
    | Checkpoint(job: nat, clean: bool)
    | PullWorks(job: nat, result: Commit, disk: Tree)
    | PullFails(job: nat)
    | Fetch(job: nat)
    | Merge(job: nat, clean: bool)
    | Gate(job: nat, clean: bool)
    | Push(job: nat)
    | Fault(job: nat)
    | External(commit: Commit)

  const TRIES := 3

  function Retry(left: nat): Pc {
    if left > 1 then Pulling(left - 1) else Idle
  }

  /** `c` is `base` plus commits that leave every path outside `held` as it is in `base`. */
  predicate ChainOn(base: Commit, c: Commit, held: set<Path>) {
    c == base || (c.Commit? && SameOutside(c.tree, base.tree, held) && ChainOn(base, c.parent, held))
  }

  /** A rebase that works replays this job's commits on the tip: it changes no path that they did not change, and
      leaves the state directory as in the result. */
  predicate LegalPull(root: string, tip: Commit, job: Job, result: Commit, disk: Tree) {
    ChainOn(tip, result, job.dirty) && StatePart(root, disk) == StatePart(root, result.tree)
  }

  /** `git add`, the diff against HEAD, the gate (`clean` is its search for secrets), `git commit`. */
  function Checkpointed(root: string, job: Job, clean: bool): Job {
    var staged := Staged(root, job.repo);
    var before := job.repo.head.tree;
    if StatePart(root, staged) == StatePart(root, before) || !OnlyState(root, before, staged) || !clean
    then job.(repo := job.repo.(index := staged))
    else job.(repo := Committed(root, job.repo), dirty := job.dirty + Changed(before, staged), pc := Pulling(TRIES))
  }

  /** The conflict merge; `clean` is the gate on the commit it makes, if it makes one. */
  function MergedJob(root: string, job: Job, clean: bool): Job
    requires job.pc.Fetched?
  {
    if !clean && Target(root, job.repo, job.seen) != job.seen then job.(pc := Retry(job.pc.left))
    else job.(repo := Reapplied(root, job.repo, job.seen), base := job.seen,
              dirty := Held(root, job.repo, job.seen.tree), pc := Prepared(job.pc.left))
  }

  ghost function Step(root: string, tip: Commit, job: Job, e: Event): Job {
    match e
    case Edit(_, disk) => if job.pc != Idle then job else job.(repo := job.repo.(disk := disk))
    case Checkpoint(_, clean) => if job.pc != Idle then job else Checkpointed(root, job, clean)
    case PullWorks(_, result, disk) =>
      if !job.pc.Pulling? || !LegalPull(root, tip, job, result, disk) then job
      else job.(repo := Repo(result, result.tree, disk), seen := tip, base := tip, pc := Prepared(job.pc.left))
    case PullFails(_) => if !job.pc.Pulling? then job else job.(pc := Conflicted(job.pc.left))
    case Fetch(_) => if !job.pc.Conflicted? then job else job.(seen := tip, pc := Fetched(job.pc.left))
    case Merge(_, clean) =>
      if !job.pc.Fetched? then job
      else MergedJob(root, job, clean)
    case Gate(_, clean) =>
      if !job.pc.Prepared? then job
      else if OnlyState(root, tip.tree, job.repo.head.tree) && clean then job.(seen := tip, pc := Gated(job.pc.left))
      else job.(seen := tip, pc := Retry(job.pc.left))
    case Push(_) =>
      if !job.pc.Gated? then job
      else if Ancestor(tip, job.repo.head)
      then job.(seen := job.repo.head, base := job.repo.head, dirty := {}, pc := Idle)
      else job.(pc := Retry(job.pc.left))
    case Fault(_) => if job.pc == Idle then job else job.(pc := Retry(job.pc.left))
    case Start(_, disk) => Job(Repo(tip, tip.tree, disk), tip, tip, {}, Idle)
    case External(_) => job
  }

  /** Does this event move the branch, and where to? */
  function NewTip(s: System, e: Event): Commit {
    match e
    case Push(j) => if j in s.jobs && s.jobs[j].pc.Gated? && Ancestor(s.tip, s.jobs[j].repo.head)
        then s.jobs[j].repo.head else s.tip
    case External(c) => if Ancestor(s.tip, c) then c else s.tip
    case _ => s.tip
  }

  ghost function Next(root: string, s: System, e: Event): System {
    match e
    case External(_) => s.(tip := NewTip(s, e))
    case Start(j, disk) => s.(jobs := s.jobs[j := Job(Repo(s.tip, s.tip.tree, disk), s.tip, s.tip, {}, Idle)])
    case _ =>
      if e.job !in s.jobs then s
      else System(NewTip(s, e), s.jobs[e.job := Step(root, s.tip, s.jobs[e.job], e)])
  }

  ghost function Exec(root: string, s: System, es: seq<Event>): System
    decreases |es|
  {
    if es == [] then s else Exec(root, Next(root, s, es[0]), es[1..])
  }

  ghost predicate JobInv(root: string, tip: Commit, job: Job) {
    && Ancestor(job.base, tip) && Ancestor(job.seen, tip)
    && ChainOn(job.base, job.repo.head, job.dirty)
    && (forall p | p in job.dirty :: Under(root, p))
    && (job.pc != Idle ==> Agrees(root, job.repo))
  }

  ghost predicate Inv(root: string, s: System) {
    forall j | j in s.jobs :: JobInv(root, s.tip, s.jobs[j])
  }

  lemma {:induction false} ChainWidens(base: Commit, c: Commit, held: set<Path>, wider: set<Path>)
    requires ChainOn(base, c, held) && held <= wider
    ensures ChainOn(base, c, wider)
    decreases c
  {
    if c != base {
      ChainWidens(base, c.parent, held, wider);
    }
  }

  /** Every commit on a chain agrees with its base outside the held paths. */
  lemma {:induction false} ChainAgrees(base: Commit, x: Commit, c: Commit, held: set<Path>)
    requires ChainOn(base, c, held) && Ancestor(base, x) && Ancestor(x, c)
    ensures SameOutside(x.tree, base.tree, held) && SameOutside(c.tree, x.tree, held)
    decreases c
  {
    if x != c {
      if c == base {
        AncestorDepth(base, x);
        AncestorDepth(x, c.parent);
      } else {
        ChainAgrees(base, x, c.parent, held);
      }
    }
  }

  lemma CommitExtendsChain(root: string, job: Job, clean: bool)
    requires ChainOn(job.base, job.repo.head, job.dirty) && (forall p | p in job.dirty :: Under(root, p))
    ensures var job' := Checkpointed(root, job, clean);
            && ChainOn(job.base, job'.repo.head, job'.dirty) && (forall p | p in job'.dirty :: Under(root, p))
            && job'.base == job.base && job'.seen == job.seen && (job'.pc == job.pc || Agrees(root, job'.repo))
  {
    var job' := Checkpointed(root, job, clean);
    if job'.repo.head != job.repo.head {
      var before, staged := job.repo.head.tree, Staged(root, job.repo);
      ChainWidens(job.base, job.repo.head, job.dirty, job'.dirty);
      if job.repo.head != job.base {
        assert SameOutside(before, job.base.tree, job'.dirty);
      }
      forall p | p !in job'.dirty ensures SameAt(staged, job.base.tree, p) {
        assert p !in Changed(before, staged);
        assert SameAt(before, job.base.tree, p);
      }
      CommitAgrees(root, job.repo);
    }
  }

  lemma JobStep(root: string, tip: Commit, job: Job, e: Event)
    requires JobInv(root, tip, job)
    requires !(e.Push? && job.pc.Gated? && Ancestor(tip, job.repo.head))
    ensures JobInv(root, tip, Step(root, tip, job, e))
  {
    match e
    case Checkpoint(_, clean) =>
      CommitExtendsChain(root, job, clean);
    case PullWorks(_, result, disk) =>
    case Merge(_, clean) =>
      if job.pc.Fetched? && Step(root, tip, job, e).pc.Prepared? {
        ReapplySyncs(root, job.repo, job.seen);
      }
    case _ =>
  }

  lemma TipGrows(root: string, s: System, e: Event)
    ensures Ancestor(s.tip, Next(root, s, e).tip)
  {
  }

  lemma InvStep(root: string, s: System, e: Event)
    requires Inv(root, s)
    ensures Inv(root, Next(root, s, e))
  {
    var s' := Next(root, s, e);
    TipGrows(root, s, e);
    hide Checkpointed, Reapplied, Target, Held, Agrees, LegalPull, ChainOn, OnlyState;
    forall j | j in s'.jobs
      ensures JobInv(root, s'.tip, s'.jobs[j])
    {
      if j in s.jobs {
        AncestorTransitive(s.jobs[j].base, s.tip, s'.tip);
        AncestorTransitive(s.jobs[j].seen, s.tip, s'.tip);
      }
      FreshJob(root, s'.tip, s'.jobs[j]);
      if !e.External? && !e.Start? && j == e.job && j in s.jobs && s'.tip == s.tip {
        if !(e.Push? && s.jobs[j].pc.Gated? && Ancestor(s.tip, s.jobs[j].repo.head)) {
          JobStep(root, s.tip, s.jobs[j], e);
        }
      }
    }
  }

  /** A job that has just cloned or just pushed stands on the tip. */
  lemma FreshJob(root: string, tip: Commit, job: Job)
    ensures job.base == job.repo.head == job.seen == tip && job.dirty == {} && job.pc == Idle ==> JobInv(root, tip, job)
  {
  }

  lemma {:induction false} InvRun(root: string, s: System, es: seq<Event>)
    requires Inv(root, s)
    ensures Inv(root, Exec(root, s, es))
    decreases |es|
  {
    hide Next, Inv;
    if es != [] {
      InvStep(root, s, es[0]);
      InvRun(root, Next(root, s, es[0]), es[1..]);
    }
  }

  /** Does this event put a new value of `p` on the branch, as far as anyone can tell from who pushes? */
  ghost predicate Claims(s: System, e: Event, p: Path) {
    match e
    case Push(j) => j in s.jobs && p in s.jobs[j].dirty
    case External(_) => true
    case _ => false
  }

  /** Every accepted push extends the branch, stays under the state directory, and leaves every path that the
      pushing job did not claim exactly as it was on the tip it landed on, however late that tip arrived. */
  lemma PushIsSafe(root: string, s: System, j: nat)
    requires Inv(root, s) && j in s.jobs
    ensures var s' := Next(root, s, Push(j));
            && Ancestor(s.tip, s'.tip)
            && SameOutside(s'.tip.tree, s.tip.tree, s.jobs[j].dirty)
            && (forall p | p in s.jobs[j].dirty :: Under(root, p))
  {
    var job := s.jobs[j];
    if job.pc.Gated? && Ancestor(s.tip, job.repo.head) {
      ChainAgrees(job.base, s.tip, job.repo.head, job.dirty);
    }
  }

  ghost predicate Unclaimed(root: string, s: System, es: seq<Event>, p: Path)
    decreases |es|
  {
    es == [] || (!Claims(s, es[0], p) && Unclaimed(root, Next(root, s, es[0]), es[1..], p))
  }

  /** Main result. For any number of jobs, interleaved in any way, with any failures: the branch only ever grows,
      and a path keeps its value until a job that claims it pushes or someone outside does. What a job claims is
      more than what it wrote: after a conflict merge it is everything on its disk, see `StaleCopyIff`. */
  lemma {:induction false} NoLostUpdate(root: string, s: System, es: seq<Event>, p: Path)
    requires Inv(root, s)
    ensures Ancestor(s.tip, Exec(root, s, es).tip)
    ensures Unclaimed(root, s, es, p) ==> SameAt(Exec(root, s, es).tip.tree, s.tip.tree, p)
    decreases |es|
  {
    if es != [] {
      var e, s' := es[0], Next(root, s, es[0]);
      InvStep(root, s, e);
      NoLostUpdate(root, s', es[1..], p);
      TipGrows(root, s, e);
      AncestorTransitive(s.tip, s'.tip, Exec(root, s', es[1..]).tip);
      if e.Push? && e.job in s.jobs {
        PushIsSafe(root, s, e.job);
      }
      hide Inv, Step, Ancestor;
      if Unclaimed(root, s, es, p) {
        assert SameAt(s'.tip.tree, s.tip.tree, p);
      }
    }
  }

  /** Paths outside the state directory are never claimed by a job. */
  lemma {:induction false} CodeIsUntouched(root: string, s: System, es: seq<Event>, p: Path)
    requires Inv(root, s) && !Under(root, p)
    requires forall e | e in es :: !e.External?
    ensures SameAt(Exec(root, s, es).tip.tree, s.tip.tree, p)
  {
    NeverClaimed(root, s, es, p);
    NoLostUpdate(root, s, es, p);
  }

  lemma {:induction false} NeverClaimed(root: string, s: System, es: seq<Event>, p: Path)
    requires Inv(root, s) && !Under(root, p)
    requires forall e | e in es :: !e.External?
    ensures Unclaimed(root, s, es, p)
    decreases |es|
  {
    if es != [] {
      InvStep(root, s, es[0]);
      NeverClaimed(root, Next(root, s, es[0]), es[1..], p);
      assert !Claims(s, es[0], p);
      hide Next, Inv;
    }
  }

  predicate Concerns(e: Event, j: nat) {
    !e.External? && e.job == j
  }

  /** A job is not changed by what others do. */
  lemma {:induction false} OthersKeep(root: string, s: System, es: seq<Event>, j: nat)
    requires j in s.jobs && forall e | e in es :: !Concerns(e, j)
    ensures j in Exec(root, s, es).jobs && Exec(root, s, es).jobs[j] == s.jobs[j]
    decreases |es|
  {
    if es != [] {
      assert !Concerns(es[0], j);
      hide Step, NewTip;
      OthersKeep(root, Next(root, s, es[0]), es[1..], j);
    }
  }

  /** The conflict path end to end: from the merge, through whatever others do before the gate and before the push,
      a push that is accepted keeps the value on its tip of every path that the job did not hold on disk when it
      merged. */
  lemma {:induction false} ConflictPushKeepsTheRest(root: string, s: System, j: nat, before: seq<Event>,
      between: seq<Event>, p: Path)
    requires Inv(root, s) && j in s.jobs && s.jobs[j].pc.Fetched?
    requires forall e | e in before + between :: !Concerns(e, j)
    requires p !in StatePart(root, s.jobs[j].repo.disk)
    ensures var s1 := Exec(root, Next(root, s, Merge(j, true)), before);
            var s2 := Exec(root, Next(root, s1, Gate(j, true)), between);
            var s3 := Next(root, s2, Push(j));
            && Ancestor(s2.tip, s3.tip) && SameAt(s3.tip.tree, s2.tip.tree, p)
  {
    hide Exec, Ancestor, Concerns;
    var s0 := Next(root, s, Merge(j, true));
    NothingIsRemoved(root, s.jobs[j].repo, s.jobs[j].seen.tree);
    InvStep(root, s, Merge(j, true));
    InvRun(root, s0, before);
    OthersKeep(root, s0, before, j);
    var s1 := Exec(root, s0, before);
    var s1' := Next(root, s1, Gate(j, true));
    InvStep(root, s1, Gate(j, true));
    InvRun(root, s1', between);
    OthersKeep(root, s1', between, j);
    PushIsSafe(root, Exec(root, s1', between), j);
  }

  /** The push is accepted. */
  ghost predicate Accepted(s: System, j: nat) {
    j in s.jobs && s.jobs[j].pc.Gated? && Ancestor(s.tip, s.jobs[j].repo.head)
  }

  /** An accepted conflict push puts the merged commit on the very tip that was fetched before the merge (or on
      itself). */
  lemma {:induction false} ConflictPushLands(root: string, s: System, j: nat, before: seq<Event>, between: seq<Event>)
    requires Inv(root, s) && j in s.jobs && s.jobs[j].pc.Fetched?
    requires forall e | e in before + between :: !Concerns(e, j)
    ensures var s1 := Exec(root, Next(root, s, Merge(j, true)), before);
            var s2 := Exec(root, Next(root, s1, Gate(j, true)), between);
            var s3, target := Next(root, s2, Push(j)), Target(root, s.jobs[j].repo, s.jobs[j].seen);
            Accepted(s2, j) ==> s3.tip == target && (s2.tip == s.jobs[j].seen || s2.tip == target)
  {
    hide Exec, Concerns, Merged, Held;
    var s0, seen := Next(root, s, Merge(j, true)), s.jobs[j].seen;
    InvStep(root, s, Merge(j, true));
    InvRun(root, s0, before);
    OthersKeep(root, s0, before, j);
    var s1 := Exec(root, s0, before);
    var s1' := Next(root, s1, Gate(j, true));
    InvStep(root, s1, Gate(j, true));
    InvRun(root, s1', between);
    OthersKeep(root, s1', between, j);
    var s2 := Exec(root, s1', between);
    assert s2.jobs[j].repo.head == Target(root, s.jobs[j].repo, seen) && s2.jobs[j].base == seen;
    assert Ancestor(seen, s2.tip);
    hide Next, Inv, JobInv;
    if Accepted(s2, j) {
      OnTopOf(seen, Target(root, s.jobs[j].repo, seen), s2.tip);
      PushMoves(root, s2, j);
    }
  }

  lemma PushMoves(root: string, s: System, j: nat)
    requires Accepted(s, j)
    ensures Next(root, s, Push(j)).tip == s.jobs[j].repo.head
  {
  }

  /** Between a commit and one on top of it there is nothing. */
  lemma OnTopOf(seen: Commit, target: Commit, tip: Commit)
    requires target == seen || (target.Commit? && target.parent == seen)
    requires Ancestor(seen, tip) && Ancestor(tip, target)
    ensures tip == seen || tip == target
  {
    AncestorDepth(seen, tip);
    if tip != target {
      AncestorDepth(tip, if target == seen then target else target.parent);
    }
  }

  /** End to end: of a state path that the job did not touch since it last stood on the branch, an accepted conflict
      push keeps the value it finds exactly when the path was not there then or has not changed since. A file that
      the job wrote wins, as promised; so does a stale copy of a file that another job wrote, which is not. */
  lemma ConflictPushKeepsUntouchedIff(root: string, s: System, j: nat, before: seq<Event>, between: seq<Event>, p: Path)
    requires Inv(root, s) && j in s.jobs && s.jobs[j].pc.Fetched?
    requires forall e | e in before + between :: !Concerns(e, j)
    requires Under(root, p) && SameAt(s.jobs[j].repo.head.tree, s.jobs[j].base.tree, p)
    ensures var s1 := Exec(root, Next(root, s, Merge(j, true)), before);
            var s2 := Exec(root, Next(root, s1, Gate(j, true)), between);
            var s3, job := Next(root, s2, Push(j)), s.jobs[j];
            Accepted(s2, j) ==>
              (SameAt(s3.tip.tree, job.seen.tree, p) <==>
                  p !in job.base.tree || SameAt(job.base.tree, job.seen.tree, p))
  {
    ConflictPushLands(root, s, j, before, between);
    StaleCopyIff(root, s.jobs[j].repo, s.jobs[j].seen, s.jobs[j].base.tree, p);
    hide Exec, Next, Target, SameAt, Accepted, Under;
  }

  // ------------------------------------------------------------------ inputs on which files come back or are lost

  const ROOT := "state"

  lemma ExecCons(root: string, s: System, e: Event, es: seq<Event>)
    ensures Exec(root, s, [e] + es) == Exec(root, Next(root, s, e), es)
  {
    assert ([e] + es)[1..] == es;
  }

  /** The commands of one conflict push. */
  function ConflictPush(j: nat): seq<Event> {
    [PullFails(j), Fetch(j), Merge(j, true), Gate(j, true), Push(j)]
  }

  /** A conflict push with nobody in between, in one step: the merge on the tip, accepted. */
  lemma ConflictPushAlone(root: string, s: System, j: nat)
    requires j in s.jobs && s.jobs[j].pc == Pulling(TRIES)
    requires OnlyState(root, s.tip.tree, Target(root, s.jobs[j].repo, s.tip).tree)
    ensures var s' := Exec(root, s, ConflictPush(j));
            && s'.tip == Target(root, s.jobs[j].repo, s.tip)
            && j in s'.jobs && s'.jobs[j].repo == Reapplied(root, s.jobs[j].repo, s.tip) && s'.jobs[j].pc == Idle
  {
    hide Target, OnlyState;
    var s1 := Next(root, s, PullFails(j));
    var s2 := Next(root, s1, Fetch(j));
    var s3 := Next(root, s2, Merge(j, true));
    var s4 := Next(root, s3, Gate(j, true));
    assert s4.jobs[j].pc == Gated(TRIES) && s4.tip == s.tip;
    assert s4.jobs[j].repo == Reapplied(root, s.jobs[j].repo, s.tip);
    assert Ancestor(s.tip, Target(root, s.jobs[j].repo, s.tip)) by { TargetExtends(root, s.jobs[j].repo, s.tip); }
    var s5 := Next(root, s4, Push(j));
    assert s5.tip == Target(root, s.jobs[j].repo, s.tip) && s5.jobs[j].repo == s4.jobs[j].repo && s5.jobs[j].pc == Idle;
    hide Next, Reapplied;
    ExecCons(root, s, PullFails(j), [Fetch(j), Merge(j, true), Gate(j, true), Push(j)]);
    ExecCons(root, s1, Fetch(j), [Merge(j, true), Gate(j, true), Push(j)]);
    ExecCons(root, s2, Merge(j, true), [Gate(j, true), Push(j)]);
    ExecCons(root, s3, Gate(j, true), [Push(j)]);
    ExecCons(root, s4, Push(j), []);
  }

  lemma TargetExtends(root: string, r: Repo, tip: Commit)
    ensures Ancestor(tip, Target(root, r, tip))
  {
    hide Merged;
  }

  /** A deletion that comes back: the job removes a file of the branch, commits, cannot rebase, and pushes. */
  lemma DeletedFileComesBack()
    ensures var p, s := "state/lease.json", System(Root(map["state/lease.json" := "1"]), map[]);
            var s1 := Exec(ROOT, s, [Start(0, map[p := "1"]), Edit(0, map[]), Checkpoint(0, true)]);
            var s2 := Exec(ROOT, s1, ConflictPush(0));
            && 0 in s1.jobs && p !in s1.jobs[0].repo.head.tree && p !in s1.jobs[0].repo.disk
            && 0 in s2.jobs && s2.jobs[0].pc == Idle && p in s2.tip.tree && p in s2.jobs[0].repo.disk
  {
    var p: Path := "state/lease.json";
    var full: Tree, none: Tree := map[p := "1"], map[];
    var tip := Root(full);
    var s := System(tip, map[]);
    assert Under(ROOT, p) by { assert p[..5] == ROOT && p[5] == '/'; }
    var a := Next(ROOT, s, Start(0, full));
    var b := Next(ROOT, a, Edit(0, none));
    assert b.jobs[0] == Job(Repo(tip, full, none), tip, tip, {}, Idle);
    assert Staged(ROOT, b.jobs[0].repo) == none;
    assert p in StatePart(ROOT, full) && p !in StatePart(ROOT, none);
    var c := Next(ROOT, b, Checkpoint(0, true));
    assert c.tip == tip && c.jobs[0].repo == Repo(Commit(none, tip), none, none) && c.jobs[0].pc == Pulling(TRIES);
    assert Removed(ROOT, c.jobs[0].repo, full) == {};
    assert Merged(ROOT, c.jobs[0].repo, full) == full;
    assert Target(ROOT, c.jobs[0].repo, tip) == tip;
    assert p in Reapplied(ROOT, c.jobs[0].repo, tip).disk;
    hide Under, Staged, StatePart, Next, Target, Reapplied, Removed, Merged;
    ExecCons(ROOT, s, Start(0, full), [Edit(0, none), Checkpoint(0, true)]);
    ExecCons(ROOT, a, Edit(0, none), [Checkpoint(0, true)]);
    ExecCons(ROOT, b, Checkpoint(0, true), []);
    ConflictPushAlone(ROOT, c, 0);
  }

  const OLD: Tree := map["state/a" := "1", "state/b" := "1"]
  const MINE: Tree := map["state/a" := "1", "state/b" := "2"]
  const THEIRS: Tree := map["state/a" := "2", "state/b" := "1"]

  /** A job starts on the tip, writes and commits. */
  function Work(j: nat, was: Tree, work: Tree): seq<Event> {
    [Start(j, was), Edit(j, work), Checkpoint(j, true)]
  }

  /** Its rebase works and its push follows. */
  function RebaseAndPush(j: nat, result: Commit): seq<Event> {
    [PullWorks(j, result, result.tree), Gate(j, true), Push(j)]
  }

  /** An update that is lost: two jobs start from the same tip, one rewrites a file and pushes, the other writes a
      different file, cannot rebase, and pushes its old copy of the first one. */
  lemma StaleCopyOverwrites()
    ensures var tip := Root(OLD);
            var s1 := Exec(ROOT, System(tip, map[]), Work(0, OLD, MINE) + Work(1, OLD, THEIRS) +
                RebaseAndPush(1, Commit(THEIRS, tip)));
            var s2 := Exec(ROOT, s1, ConflictPush(0));
            && s1.tip.tree == THEIRS && 0 in s1.jobs && SameAt(s1.jobs[0].repo.head.tree, OLD, "state/a")
            && 0 in s2.jobs && s2.jobs[0].pc == Idle && s2.tip.tree == MINE
  {
    var tip := Root(OLD);
    var s := System(tip, map[]);
    var mine, theirs, push := Work(0, OLD, MINE), Work(1, OLD, THEIRS), RebaseAndPush(1, Commit(THEIRS, tip));
    FilesDiffer();
    hide OLD, MINE, THEIRS, Work, RebaseAndPush;
    WorkCommitted(s, 0, OLD, MINE);
    var c := Exec(ROOT, s, mine);
    WorkCommitted(c, 1, OLD, THEIRS);
    var d := Exec(ROOT, c, theirs);
    PullAndPush(d, 1, tip, THEIRS);
    var g := Exec(ROOT, d, push);
    MergeOfState(c.jobs[0].repo, g.tip);
    ConflictPushAlone(ROOT, g, 0);
    hide *;
    ExecConcat(ROOT, s, mine, theirs);
    ExecConcat(ROOT, s, mine + theirs, push);
  }

  lemma FilesDiffer()
    ensures OLD.Keys == MINE.Keys == THEIRS.Keys == {"state/a", "state/b"}
    ensures OLD != MINE && OLD != THEIRS && MINE != THEIRS && SameAt(MINE, OLD, "state/a")
  {
    assert OLD["state/b"] != MINE["state/b"] && OLD["state/a"] != THEIRS["state/a"] &&
           MINE["state/a"] != THEIRS["state/a"];
  }

  lemma ThreeSteps(s: System, a: Event, b: Event, c: Event)
    ensures Exec(ROOT, s, [a, b, c]) == Next(ROOT, Next(ROOT, Next(ROOT, s, a), b), c)
  {
    hide Next;
    assert [a, b, c] == [a] + ([b] + ([c] + []));
    ExecCons(ROOT, s, a, [b] + ([c] + []));
    ExecCons(ROOT, Next(ROOT, s, a), b, [c] + []);
    ExecCons(ROOT, Next(ROOT, Next(ROOT, s, a), b), c, []);
  }

  /** The two files of the example are all there is, and both lie under the state directory. */
  lemma AllState(t: Tree)
    requires t.Keys == {"state/a", "state/b"}
    ensures StatePart(ROOT, t) == t && forall p | p in t :: Under(ROOT, p)
  {
    assert Under(ROOT, "state/a") by { assert "state/a"[..5] == ROOT && "state/a"[5] == '/'; }
    assert Under(ROOT, "state/b") by { assert "state/b"[..5] == ROOT && "state/b"[5] == '/'; }
  }

  /** A job that starts on the tip, writes and commits. */
  lemma WorkCommitted(s: System, j: nat, was: Tree, work: Tree)
    requires s.tip.tree == was && was != work && was.Keys == work.Keys == {"state/a", "state/b"}
    ensures var c := Exec(ROOT, s, Work(j, was, work));
            && c.tip == s.tip && j in c.jobs &&
               (forall k | k in s.jobs && k != j :: k in c.jobs && c.jobs[k] == s.jobs[k])
            && c.jobs[j].repo == Repo(Commit(work, s.tip), work, work) && c.jobs[j].pc == Pulling(TRIES)
            && c.jobs[j].base == s.tip && c.jobs[j].dirty == Changed(was, work)
  {
    ThreeSteps(s, Start(j, was), Edit(j, work), Checkpoint(j, true));
    hide Exec;
    AllState(was);
    AllState(work);
    var job := Job(Repo(s.tip, was, work), s.tip, s.tip, {}, Idle);
    var b := Next(ROOT, Next(ROOT, s, Start(j, was)), Edit(j, work));
    assert b.jobs[j] == job;
    assert Staged(ROOT, job.repo) == work;
    assert OnlyState(ROOT, was, work);
    hide Staged, StatePart, OnlyState, Under;
  }

  /** A rebase that works and a push with nobody in between. */
  lemma PullAndPush(d: System, j: nat, tip: Commit, work: Tree)
    requires d.tip == tip && j in d.jobs && tip.tree.Keys == work.Keys == {"state/a", "state/b"}
    requires d.jobs[j].pc == Pulling(TRIES) && d.jobs[j].dirty == Changed(tip.tree, work)
    ensures var g := Exec(ROOT, d, RebaseAndPush(j, Commit(work, tip)));
            && g.tip == Commit(work, tip) && (forall k | k in d.jobs && k != j :: k in g.jobs && g.jobs[k] == d.jobs[k])
  {
    var result := Commit(work, tip);
    ThreeSteps(d, PullWorks(j, result, work), Gate(j, true), Push(j));
    hide Exec;
    AllState(tip.tree);
    AllState(work);
    assert SameOutside(work, tip.tree, Changed(tip.tree, work));
    assert ChainOn(tip, tip, Changed(tip.tree, work));
    assert LegalPull(ROOT, tip, d.jobs[j], result, work);
    assert OnlyState(ROOT, tip.tree, work);
    assert Ancestor(tip, result);
    hide LegalPull, OnlyState, StatePart, SameOutside, Under, ChainOn;
  }

  /** With every file under the state directory, the merge is what is on the disk. */
  lemma MergeOfState(r: Repo, tip: Commit)
    requires r.head.tree == r.index == r.disk && r.disk != tip.tree
    requires r.disk.Keys == tip.tree.Keys == {"state/a", "state/b"}
    ensures Target(ROOT, r, tip) == Commit(r.disk, tip) && OnlyState(ROOT, tip.tree, r.disk)
  {
    AllState(r.disk);
    AllState(tip.tree);
    assert Removed(ROOT, r, tip.tree) == {};
    assert Merged(ROOT, r, tip.tree) == r.disk;
  }

  // ------------------------------------------------------------------ the program

  lemma {:induction false} ExecConcat(root: string, s: System, a: seq<Event>, b: seq<Event>)
    ensures Exec(root, s, a + b) == Exec(root, Exec(root, s, a), b)
    decreases |a|
  {
    hide Next;
    if a == [] {
      assert a + b == b;
    } else {
      assert (a + b)[1..] == a[1..] + b;
      ExecConcat(root, Next(root, s, a[0]), a[1..], b);
    }
  }

  /** Appends one event to a run. */
  ghost function Then(root: string, s: System, es: seq<Event>, e: Event): (r: seq<Event>)
    ensures r == es + [e] && Exec(root, s, r) == Next(root, Exec(root, s, es), e)
  {
    hide Next;
    ExecConcat(root, s, es, [e]);
    assert [e][1..] == [];
    es + [e]
  }

  /** A system of one job; whatever the others do reaches it as `External` events. */
  function One(tip: Commit, job: Job): System {
    System(tip, map[0 := job])
  }

  lemma OneExternal(root: string, tip: Commit, job: Job, e: Event)
    requires e.External?
    ensures Next(root, One(tip, job), e) == One(if Ancestor(tip, e.commit) then e.commit else tip, job)
  {
  }

  lemma OneStep(root: string, tip: Commit, job: Job, e: Event)
    requires !e.External? && !e.Start? && e.job == 0
    ensures Next(root, One(tip, job), e) == One(NewTip(One(tip, job), e), Step(root, tip, job, e))
  {
    hide Step, NewTip;
    assert map[0 := job][0 := Step(root, tip, job, e)] == map[0 := Step(root, tip, job, e)];
  }

  lemma OneLocal(root: string, tip: Commit, job: Job, e: Event)
    requires !e.External? && !e.Start? && !e.Push? && e.job == 0
    ensures Next(root, One(tip, job), e) == One(tip, Step(root, tip, job, e))
  {
    OneStep(root, tip, job, e);
    hide Step;
  }

  lemma OneMerge(root: string, tip: Commit, job: Job, clean: bool)
    requires job.pc.Fetched?
    ensures Next(root, One(tip, job), Merge(0, clean)) == One(tip, MergedJob(root, job, clean))
  {
    OneLocal(root, tip, job, Merge(0, clean));
    hide MergedJob, Next;
  }

  lemma OnePush(root: string, tip: Commit, job: Job)
    requires job.pc.Gated?
    ensures Next(root, One(tip, job), Push(0)) ==
            if Ancestor(tip, job.repo.head)
            then One(job.repo.head, job.(seen := job.repo.head, base := job.repo.head, dirty := {}, pc := Idle))
            else One(tip, job.(pc := Retry(job.pc.left)))
  {
    OneStep(root, tip, job, Push(0));
    hide Ancestor, Next;
  }

  lemma OneGate(root: string, tip: Commit, job: Job, clean: bool)
    requires job.pc.Prepared?
    ensures Next(root, One(tip, job), Gate(0, clean)) ==
            One(tip, job.(seen := tip, pc :=
              if OnlyState(root, tip.tree, job.repo.head.tree) && clean then Gated(job.pc.left)
              else Retry(job.pc.left)))
  {
    OneLocal(root, tip, job, Gate(0, clean));
    hide OnlyState, Next;
  }

  lemma OnePull(root: string, tip: Commit, job: Job, result: Commit, disk: Tree)
    requires job.pc.Pulling?
    ensures Next(root, One(tip, job), PullFails(0)) == One(tip, job.(pc := Conflicted(job.pc.left)))
    ensures LegalPull(root, tip, job, result, disk) ==>
              Next(root, One(tip, job), PullWorks(0, result, disk)) ==
              One(tip, job.(repo := Repo(result, result.tree, disk), seen := tip, base := tip,
                  pc := Prepared(job.pc.left)))
  {
    OneLocal(root, tip, job, PullFails(0));
    OneLocal(root, tip, job, PullWorks(0, result, disk));
    hide LegalPull, Next;
  }

  lemma OneCheckpoint(root: string, tip: Commit, job: Job, clean: bool)
    requires job.pc == Idle
    ensures Next(root, One(tip, job), Event.Checkpoint(0, clean)) == One(tip, Checkpointed(root, job, clean))
  {
    OneLocal(root, tip, job, Event.Checkpoint(0, clean));
    hide Checkpointed, Next;
  }

  lemma OneFetch(root: string, tip: Commit, job: Job)
    requires job.pc.Conflicted?
    ensures Next(root, One(tip, job), Fault(0)) == One(tip, job.(pc := Retry(job.pc.left)))
    ensures Next(root, One(tip, job), Fetch(0)) == One(tip, job.(seen := tip, pc := Fetched(job.pc.left)))
  {
    OneLocal(root, tip, job, Fault(0));
    OneLocal(root, tip, job, Fetch(0));
    hide Next;
  }

  // What one call does, event by event

  /** What one try meets: what others push before each of its four dealings with the server, whether a rebase works
      and with what result, whether the server can be reached, and what the gate says of the merge and of the push. */
  datatype Weather = Weather(
    before: Commit, rebase: Option<(Commit, Tree)>, online: bool, fetched: Commit, mergeClean: bool,
    gated: Commit, pushClean: bool, pushed: Commit)

  function Grown(tip: Commit, c: Commit): Commit {
    if Ancestor(tip, c) then c else tip
  }

  predicate Rebases(root: string, tip: Commit, job: Job, wx: Weather) {
    wx.rebase.Some? && LegalPull(root, Grown(tip, wx.before), job, wx.rebase.value.0, wx.rebase.value.1)
  }

  /** From the pull to a HEAD on top of the branch. */
  function PrepareEvents(root: string, tip: Commit, job: Job, wx: Weather): seq<Event> {
    if Rebases(root, tip, job, wx)
    then [External(wx.before), PullWorks(0, wx.rebase.value.0, wx.rebase.value.1)]
    else [External(wx.before), PullFails(0)] + ReapplyEvents(wx)
  }

  function ReapplyEvents(wx: Weather): seq<Event> {
    [External(wx.fetched)] + if wx.online then [Fetch(0), Merge(0, wx.mergeClean)] else [Fault(0)]
  }

  predicate PassesGate(root: string, tip: Commit, head: Commit, wx: Weather) {
    OnlyState(root, Grown(tip, wx.gated).tree, head.tree) && wx.pushClean
  }

  /** The gate and the push. */
  function PushEvents(root: string, tip: Commit, head: Commit, wx: Weather): seq<Event> {
    [External(wx.gated), Gate(0, wx.pushClean)] +
    if PassesGate(root, tip, head, wx) then [External(wx.pushed), Push(0)] else []
  }

  predicate Lands(root: string, tip: Commit, head: Commit, wx: Weather) {
    PassesGate(root, tip, head, wx) && Ancestor(Grown(Grown(tip, wx.gated), wx.pushed), head)
  }

  /** One try, from a job that pulls. */
  ghost function AttemptEvents(root: string, s: System, wx: Weather): seq<Event>
    requires 0 in s.jobs
  {
    var prepare := PrepareEvents(root, s.tip, s.jobs[0], wx);
    var s1 := Exec(root, s, prepare);
    prepare +
    if 0 in s1.jobs && s1.jobs[0].pc.Prepared? then PushEvents(root, s1.tip, s1.jobs[0].repo.head, wx) else []
  }

  ghost predicate AttemptLands(root: string, s: System, wx: Weather)
    requires 0 in s.jobs
  {
    var s1 := Exec(root, s, PrepareEvents(root, s.tip, s.jobs[0], wx));
    0 in s1.jobs && s1.jobs[0].pc.Prepared? && Lands(root, s1.tip, s1.jobs[0].repo.head, wx)
  }

  /** Up to `left` tries, each in its own weather, until one lands. */
  ghost function RetryEvents(root: string, s: System, weather: nat -> Weather, left: nat): seq<Event>
    decreases left
  {
    if left == 0 || 0 !in s.jobs then []
    else
      var es := AttemptEvents(root, s, weather(left));
      if AttemptLands(root, s, weather(left)) then es
      else es + RetryEvents(root, Exec(root, s, es), weather, left - 1)
  }

  ghost predicate RetryLands(root: string, s: System, weather: nat -> Weather, left: nat)
    decreases left
  {
    left > 0 && 0 in s.jobs &&
    (AttemptLands(root, s, weather(left)) ||
     RetryLands(root, Exec(root, s, AttemptEvents(root, s, weather(left))), weather, left - 1))
  }

  /** When a commit is made, and what it holds: exactly when the state directory on disk differs from HEAD's,
      nothing else is staged, and the gate finds it clean; then its parent is the old HEAD, and its tree is the disk
      under the state directory and the index elsewhere. */
  lemma CommitIff(root: string, job: Job, clean: bool)
    requires job.pc == Idle
    ensures var job', r := Checkpointed(root, job, clean), job.repo;
            && (job'.pc == Pulling(TRIES) <==>
                  && StatePart(root, r.disk) != StatePart(root, r.head.tree)
                  && (forall p :: !Under(root, p) ==> SameAt(r.index, r.head.tree, p)) && clean)
            && (job'.pc != Pulling(TRIES) ==> job'.pc == Idle && job'.repo.head == r.head)
            && (job'.pc == Pulling(TRIES) ==>
                  && job'.repo.head.Commit? && job'.repo.head.parent == r.head
                  && forall p :: SameAt(job'.repo.head.tree, if Under(root, p) then r.disk else r.index, p))
            && job'.repo.disk == r.disk
            && forall p :: SameAt(job'.repo.index, if Under(root, p) then r.disk else r.index, p)
  {
    StagedByPath(root, job.repo);
    OnlyStateIff(root, job.repo);
    CommitAgrees(root, job.repo);
    hide Staged, OnlyState, StatePart, Under, SameAt, Changed;
  }

  lemma StagedByPath(root: string, r: Repo)
    ensures forall p :: SameAt(Staged(root, r), if Under(root, p) then r.disk else r.index, p)
    ensures StatePart(root, Staged(root, r)) == StatePart(root, r.disk)
  {
  }

  lemma OnlyStateIff(root: string, r: Repo)
    ensures OnlyState(root, r.head.tree, Staged(root, r)) <==>
            forall p :: !Under(root, p) ==> SameAt(r.index, r.head.tree, p)
  {
    var staged := Staged(root, r);
    if OnlyState(root, r.head.tree, staged) {
      forall p | !Under(root, p) ensures SameAt(r.index, r.head.tree, p) {
        assert p !in Changed(r.head.tree, staged);
      }
    }
  }

  /** In calm weather a try always lands: when a pull fails for whatever reason, but the server answers, the gate
      has nothing to object and nobody pushes in between, the conflict path ends on the branch. */
  lemma CalmConflictLands(root: string, s: System, wx: Weather)
    requires 0 in s.jobs && s.jobs[0].pc.Pulling? && s == One(s.tip, s.jobs[0])
    requires wx.rebase.None? && wx.online && wx.mergeClean && wx.pushClean
    requires wx.before == wx.fetched == wx.gated == wx.pushed == s.tip
    ensures AttemptLands(root, s, wx)
  {
    var job, tip := s.jobs[0], s.tip;
    assert PrepareEvents(root, tip, job, wx) ==
           [External(tip)] + ([PullFails(0)] + ([External(tip)] + ([Fetch(0)] + ([Merge(0, true)] + []))));
    OneExternal(root, tip, job, External(tip));
    OnePull(root, tip, job, tip, map[]);
    var job1 := job.(pc := Conflicted(job.pc.left));
    OneExternal(root, tip, job1, External(tip));
    OneFetch(root, tip, job1);
    var job2 := job1.(seen := tip, pc := Fetched(job.pc.left));
    OneMerge(root, tip, job2, true);
    var job3 := MergedJob(root, job2, true);
    MergePassesGate(root, job2.repo, tip);
    TargetExtends(root, job2.repo, tip);
    assert job3.repo.head == Target(root, job2.repo, tip) && job3.pc.Prepared?;
    hide Next, MergedJob, Target, OnlyState;
    ExecCons(root, s, External(tip), [PullFails(0)] + ([External(tip)] + ([Fetch(0)] + ([Merge(0, true)] + []))));
    ExecCons(root, s, PullFails(0), [External(tip)] + ([Fetch(0)] + ([Merge(0, true)] + [])));
    ExecCons(root, One(tip, job1), External(tip), [Fetch(0)] + ([Merge(0, true)] + []));
    ExecCons(root, One(tip, job1), Fetch(0), [Merge(0, true)] + []);
    ExecCons(root, One(tip, job2), Merge(0, true), []);
    ExecNone(root, One(tip, job3));
  }

  /** What the conflict merge changes lies under the state directory, so the gate never objects to its paths. */
  lemma MergePassesGate(root: string, r: Repo, tip: Commit)
    ensures OnlyState(root, tip.tree, Target(root, r, tip).tree)
  {
    forall p | p in Changed(tip.tree, Target(root, r, tip).tree) ensures Under(root, p) {
      MergeByPath(root, r, tip, p);
    }
    hide Target;
  }

  datatype Mode = Off | Git

  datatype Skip = ModeNone | RateLimited | NothingChanged | CommitFailed

  /** The shared branch on the server. */
  class Origin {
    var tip: Commit

    constructor(tip: Commit)
      ensures this.tip == tip
    {
      this.tip := tip;
    }

    /** Between any two commands of this job, others may push: what extends the branch is accepted. */
    method OthersPush(c: Commit)
      modifies this
      ensures tip == if Ancestor(old(tip), c) then c else old(tip)
    {
      if Ancestor(tip, c) {
        tip := c;
      }
    }
  }

  class Clone {
    var head: Commit
    var index: Tree
    var disk: Tree
    var seen: Commit
    var base: Commit
    var dirty: set<Path>

    constructor(tip: Commit, disk: Tree)
      ensures head == seen == base == tip && index == tip.tree && this.disk == disk && dirty == {}
    {
      head, index, this.disk, seen, base, dirty := tip, tip.tree, disk, tip, tip, {};
    }

    function Local(): Repo
      reads this
    {
      Repo(head, index, disk)
    }

    function AsJob(pc: Pc): Job
      reads this
    {
      Job(Local(), seen, base, dirty, pc)
    }
  }

  // `relative(repoRoot, stateDir)`: the way from one directory to another

  /** So many levels up, and then down through these directories. */
  datatype Way = Way(ups: nat, names: seq<string>)

  predicate Name(n: string) {
    n != "" && '/' !in n && n != "." && n != ".."
  }

  predicate Inside(w: Way) {
    w.ups == 0 && w.names != []
  }

  function Down(names: seq<string>): string {
    if names == [] then "" else if |names| == 1 then names[0] else names[0] + "/" + Down(names[1..])
  }

  function RelativePath(w: Way): string
    decreases w.ups
  {
    if w.ups == 0 then Down(w.names)
    else if w.ups == 1 && w.names == [] then ".."
    else "../" + RelativePath(w.(ups := w.ups - 1))
  }

  /** The constructor's test on the relative path. */
  predicate FallsBack(rel: string) {
    ".." <= rel || "/" <= rel || rel == ""
  }

  /** The test lets no directory outside the repository through, nor the repository itself; of those inside it also
      turns away the ones whose first name starts with two dots. */
  lemma FallsBackIff(w: Way)
    requires forall n | n in w.names :: Name(n)
    ensures FallsBack(RelativePath(w)) <==> !Inside(w) || ".." <= w.names[0]
  {
    var rel := RelativePath(w);
    if w.ups == 0 && w.names != [] {
      var first := w.names[0];
      assert first in w.names && first[0] in first;
      assert first <= rel;
      assert rel[0] == first[0] != '/';
      assert |w.names| > 1 ==> rel[|first|] == '/';
    } else if w.ups > 0 {
      assert rel[..2] == "..";
    }
  }

  class Checkpointer {
    const root: string
    const mode: Mode
    const minIntervalMs: int
    const git: Clone
    const origin: Origin
    var lastCommitAt: int
    var commits: nat
    var pushes: nat
    var failures: nat

    /** `rel` is the state directory relative to the repository; git mode needs it to be inside. */
    constructor(mode: Mode, rel: string, minIntervalMs: int, git: Clone, origin: Origin)
      ensures root == rel && this.git == git && this.origin == origin && this.minIntervalMs == minIntervalMs
      ensures this.mode == if mode == Git && FallsBack(rel) then Off else mode
      ensures lastCommitAt == 0 && commits == pushes == failures == 0
    {
      root, this.git, this.origin, this.minIntervalMs := rel, git, origin, minIntervalMs;
      this.mode := if mode == Git && (".." <= rel || "/" <= rel || rel == "") then Off else mode;
      lastCommitAt, commits, pushes, failures := 0, 0, 0, 0;
    }

    /** This job, alone with everything others do, as a system of the machine. */
    ghost function At(pc: Pc): System
      reads git, origin
    {
      One(origin.tip, git.AsJob(pc))
    }

    predicate TooSoon(force: bool, now: int)
      reads this
    {
      !force && now - lastCommitAt < minIntervalMs
    }

    /** Nothing but the state directory is staged. */
    ghost predicate OnlyOurs()
      reads git
    {
      forall p :: !Under(root, p) ==> SameAt(git.index, git.head.tree, p)
    }

    predicate StateChanged()
      reads git
    {
      StatePart(root, git.disk) != StatePart(root, git.head.tree)
    }

    /** Add, diff, gate and commit the state directory, unless it is too soon or nothing changed; then push. */
    method Checkpoint(force: bool, now: int, later: int, clean: bool, weather: nat -> Weather)
      returns (committed: bool, pushed: bool, skipped: Option<Skip>, ghost es: seq<Event>)
      modifies this, git, origin
      ensures skipped == Some(ModeNone) <==> mode != Git
      ensures skipped == Some(RateLimited) <==> mode == Git && !force && now - old(lastCommitAt) < minIntervalMs
      ensures skipped == Some(NothingChanged) <==>
              && mode == Git && (force || now - old(lastCommitAt) >= minIntervalMs)
              && StatePart(root, old(git.disk)) == StatePart(root, old(git.head.tree))
      ensures skipped == None <==>
              mode == Git && !old(TooSoon(force, now)) && old(StateChanged()) && old(OnlyOurs()) && clean
      ensures committed <==> skipped.None?
      ensures es ==
              if mode != Git || old(TooSoon(force, now)) then []
              else [Event.Checkpoint(0, clean)] +
                   if committed
                   then RetryEvents(root, Next(root, old(At(Idle)), Event.Checkpoint(0, clean)), weather, TRIES) else []
      ensures At(Idle) == Exec(root, old(At(Idle)), es)
      ensures pushed <==>
              committed && RetryLands(root, Next(root, old(At(Idle)), Event.Checkpoint(0, clean)), weather, TRIES)
      ensures pushed ==> Ancestor(git.head, origin.tip)
      ensures commits == old(commits) + (if committed then 1 else 0)
      ensures lastCommitAt == if committed then later else old(lastCommitAt)
      ensures pushes == old(pushes) + (if pushed then 1 else 0)
      ensures match skipped
              case Some(why) => failures == old(failures) + if why == CommitFailed then 1 else 0
              case None => old(failures) <= failures <= old(failures) + (if pushed then TRIES - 1 else TRIES)
    {
      es := [];
      ExecNone(root, At(Idle));
      if mode != Git {
        return false, false, Some(ModeNone), es;
      }
      if !force && now - lastCommitAt < minIntervalMs {
        return false, false, Some(RateLimited), es;
      }
      hide Exec, Next, Ancestor, RetryEvents, RetryLands, StatePart, SameAt;
      ghost var start := At(Idle);
      skipped := CommitState(later, clean);
      es := [Event.Checkpoint(0, clean)];
      ExecOne(root, start, Event.Checkpoint(0, clean));
      if skipped.Some? {
        return false, false, skipped, es;
      }
      ghost var more;
      pushed, more := PushWithRetry(weather);
      ExecConcat(root, start, es, more);
      return true, pushed, None, es + more;
    }

    /** The commit half, whose every failure is counted and survived. */
    method CommitState(later: int, clean: bool) returns (skipped: Option<Skip>)
      modifies this`commits, this`failures, this`lastCommitAt, git
      ensures At(if skipped.Some? then Idle else Pulling(TRIES)) ==
              Next(root, old(At(Idle)), Event.Checkpoint(0, clean))
      ensures skipped ==
              if !old(StateChanged()) then Some(NothingChanged)
              else if old(OnlyOurs()) && clean then None else Some(CommitFailed)
      ensures git.disk == old(git.disk)
      ensures skipped.Some? ==> git.head == old(git.head)
      ensures skipped.None? ==>
                && git.head.Commit? && git.head.parent == old(git.head)
                && forall p :: SameAt(git.head.tree, if Under(root, p) then git.disk else old(git.index), p)
      ensures commits == old(commits) + (if skipped.None? then 1 else 0)
      ensures lastCommitAt == if skipped.None? then later else old(lastCommitAt)
      ensures failures == old(failures) + (if skipped == Some(CommitFailed) then 1 else 0)
    {
      StagedByPath(root, git.Local());
      OnlyStateIff(root, git.Local());
      OneCheckpoint(root, origin.tip, git.AsJob(Idle), clean);
      hide Next, Step, OnlyState, Changed, StatePart, Staged, SameAt, Under;
      git.index := Staged(root, git.Local());
      if StatePart(root, git.index) == StatePart(root, git.head.tree) {
        return Some(NothingChanged);
      }
      if !OnlyState(root, git.head.tree, git.index) || !clean {
        failures := failures + 1;
        return Some(CommitFailed);
      }
      git.dirty := git.dirty + Changed(git.head.tree, git.index);
      git.head := Commit.Commit(git.index, git.head);
      commits := commits + 1;
      lastCommitAt := later;
      return None;
    }

    method PushWithRetry(weather: nat -> Weather) returns (pushed: bool, ghost es: seq<Event>)
      modifies this`pushes, this`failures, git, origin
      ensures es == RetryEvents(root, old(At(Pulling(TRIES))), weather, TRIES)
      ensures pushed <==> RetryLands(root, old(At(Pulling(TRIES))), weather, TRIES)
      ensures At(Idle) == Exec(root, old(At(Pulling(TRIES))), es)
      ensures pushes == old(pushes) + (if pushed then 1 else 0)
      ensures if pushed then failures <= old(failures) + TRIES - 1 else failures == old(failures) + TRIES
      ensures old(failures) <= failures
      ensures pushed ==> Ancestor(git.head, origin.tip)
    {
      hide Exec, Next, Ancestor, AttemptEvents, AttemptLands;
      ghost var start := At(Pulling(TRIES));
      es := [];
      ExecNone(root, start);
      for attempt := 1 to TRIES + 1
        invariant At(if attempt > TRIES then Idle else Pulling(TRIES + 1 - attempt)) == Exec(root, start, es)
        invariant RetryEvents(root, start, weather, TRIES) ==
                  es + RetryEvents(root, Exec(root, start, es), weather, TRIES + 1 - attempt)
        invariant RetryLands(root, start, weather, TRIES) ==
                  RetryLands(root, Exec(root, start, es), weather, TRIES + 1 - attempt)
        invariant pushes == old(pushes) && failures == old(failures) + attempt - 1
      {
        var left := TRIES + 1 - attempt;
        ghost var s := Exec(root, start, es);
        ghost var more;
        pushed, more := Attempt(left, weather(left));
        ExecConcat(root, start, es, more);
        Assoc(es, more, RetryEvents(root, Exec(root, s, more), weather, left - 1));
        es := es + more;
        if pushed {
          pushes := pushes + 1;
          return;
        }
        failures := failures + 1;
      }
      assert RetryEvents(root, Exec(root, start, es), weather, 0) == [];
      assert es + [] == es;
      pushed := false;
    }

    /** One try: pull, or on a failed pull merge on the remote tip; then the gate and the push. */
    method Attempt(left: nat, wx: Weather) returns (pushed: bool, ghost es: seq<Event>)
      requires left > 0
      modifies git, origin
      ensures es == AttemptEvents(root, old(At(Pulling(left))), wx)
      ensures pushed <==> AttemptLands(root, old(At(Pulling(left))), wx)
      ensures At(if pushed then Idle else Retry(left)) == Exec(root, old(At(Pulling(left))), es)
      ensures pushed ==> Ancestor(git.head, origin.tip)
    {
      hide Exec, Next, PrepareEvents, PushEvents, Lands;
      ghost var start := At(Pulling(left));
      es := PrepareEvents(root, start.tip, start.jobs[0], wx);
      var prepared := Prepare(left, wx);
      if !prepared {
        assert es + [] == es;
        return false, es;
      }
      ghost var ready := At(Prepared(left));
      ghost var more := PushEvents(root, ready.tip, ready.jobs[0].repo.head, wx);
      pushed := GatedPush(left, wx);
      ExecConcat(root, start, es, more);
      es := es + more;
    }

    /** Get HEAD on top of the branch: by a rebase, which may fail for any reason and has a legal result when it
        works, or else by the conflict merge. */
    method Prepare(left: nat, wx: Weather) returns (prepared: bool)
      requires left > 0
      modifies git, origin
      ensures At(if prepared then Prepared(left) else Retry(left)) ==
              Exec(root, old(At(Pulling(left))),
                  PrepareEvents(root, old(origin.tip), old(git.AsJob(Pulling(left))), wx))
    {
      hide Exec, Next, Step, LegalPull, Ancestor;
      ghost var start := At(Pulling(left));
      ExecNone(root, start);
      OneExternal(root, origin.tip, git.AsJob(Pulling(left)), External(wx.before));
      ghost var es := Then(root, start, [], External(wx.before));
      origin.OthersPush(wx.before);
      if wx.rebase.Some? {
        var (result, disk) := wx.rebase.value;
        OnePull(root, origin.tip, git.AsJob(Pulling(left)), result, disk);
        if LegalPull(root, origin.tip, git.AsJob(Pulling(left)), result, disk) {
          es := Then(root, start, es, PullWorks(0, result, disk));
          assert es == [External(wx.before), PullWorks(0, result, disk)];
          git.head, git.index, git.disk, git.seen := result, result.tree, disk, origin.tip;
          git.base := origin.tip;
          return true;
        }
      }
      OnePull(root, origin.tip, git.AsJob(Pulling(left)), origin.tip, map[]);
      es := Then(root, start, es, PullFails(0));
      assert es == [External(wx.before), PullFails(0)];
      assert At(Conflicted(left)) == Exec(root, start, es);
      prepared := ReapplyOnRemote(left, wx);
      ExecConcat(root, start, es, ReapplyEvents(wx));
    }

    /** Build the commit on the remote tip from a temporary index, then move there and sync the state directory. */
    method ReapplyOnRemote(left: nat, wx: Weather) returns (done: bool)
      requires left > 0
      modifies git, origin
      ensures At(if done then Prepared(left) else Retry(left)) ==
              Exec(root, old(At(Conflicted(left))), ReapplyEvents(wx))
    {
      hide Exec, Next, Step, Ancestor, MergedJob;
      ghost var start := At(Conflicted(left));
      ExecNone(root, start);
      OneExternal(root, origin.tip, git.AsJob(Conflicted(left)), External(wx.fetched));
      ghost var es := Then(root, start, [], External(wx.fetched));
      origin.OthersPush(wx.fetched);
      OneFetch(root, origin.tip, git.AsJob(Conflicted(left)));
      if !wx.online {
        es := Then(root, start, es, Fault(0));
        assert es == ReapplyEvents(wx);
        return false;
      }
      es := Then(root, start, es, Fetch(0));
      git.seen := origin.tip;
      OneMerge(root, origin.tip, git.AsJob(Fetched(left)), wx.mergeClean);
      done := BuildOnRemote(left, wx.mergeClean);
      es := Then(root, start, es, Merge(0, wx.mergeClean));
      assert es == ReapplyEvents(wx);
    }

    /** From the temporary index to the synced state directory. */
    method BuildOnRemote(left: nat, clean: bool) returns (done: bool)
      requires left > 0
      modifies git
      ensures git.AsJob(if done then Prepared(left) else Retry(left)) ==
              MergedJob(root, old(git.AsJob(Fetched(left))), clean)
    {
      hide StatePart, Held, Reapplied;
      var remoteTip := git.seen;
      var oursBefore := set p | p in git.head.tree && Under(root, p);
      var missing := set p | p in git.index && Under(root, p) && p !in git.disk;
      var removed := set p | p in oursBefore && p in missing && p in remoteTip.tree;
      assert removed == Removed(root, git.Local(), remoteTip.tree);
      hide Removed;
      ReappliedBy(root, git.Local(), remoteTip);
      var tmpIndex := remoteTip.tree - removed;
      tmpIndex := tmpIndex + StatePart(root, git.disk);
      var target := remoteTip;
      if tmpIndex != remoteTip.tree {
        if !clean {
          return false;
        }
        target := Commit.Commit(tmpIndex, remoteTip);
      }
      git.dirty := StatePart(root, git.disk).Keys + removed;
      git.base := remoteTip;
      git.head := target;
      git.index := target.tree;
      git.disk := git.disk + StatePart(root, git.index);
      return true;
    }

    /** The gate fetches once more and compares; the server accepts only what extends the branch. */
    method GatedPush(left: nat, wx: Weather) returns (pushed: bool)
      requires left > 0
      modifies git, origin
      ensures At(if pushed then Idle else Retry(left)) ==
              Exec(root, old(At(Prepared(left))), PushEvents(root, old(origin.tip), old(git.head), wx))
      ensures pushed <==> Lands(root, old(origin.tip), old(git.head), wx)
      ensures pushed ==> git.head == origin.tip
    {
      hide Exec, Next, Step, OnlyState;
      ghost var start := At(Prepared(left));
      ExecNone(root, start);
      OneExternal(root, origin.tip, git.AsJob(Prepared(left)), External(wx.gated));
      ghost var es := Then(root, start, [], External(wx.gated));
      origin.OthersPush(wx.gated);
      OneGate(root, origin.tip, git.AsJob(Prepared(left)), wx.pushClean);
      es := Then(root, start, es, Gate(0, wx.pushClean));
      git.seen := origin.tip;
      if !OnlyState(root, git.seen.tree, git.head.tree) || !wx.pushClean {
        assert es == PushEvents(root, old(origin.tip), git.head, wx);
        return false;
      }
      OneExternal(root, origin.tip, git.AsJob(Gated(left)), External(wx.pushed));
      es := Then(root, start, es, External(wx.pushed));
      origin.OthersPush(wx.pushed);
      OnePush(root, origin.tip, git.AsJob(Gated(left)));
      es := Then(root, start, es, Push(0));
      assert es == PushEvents(root, old(origin.tip), git.head, wx);
      if !Ancestor(origin.tip, git.head) {
        return false;
      }
      origin.tip := git.head;
      git.seen := git.head;
      git.base, git.dirty := git.head, {};
      return true;
    }
  }

  lemma ExecOne(root: string, s: System, e: Event)
    ensures Exec(root, s, [e]) == Next(root, s, e)
  {
    hide Next;
    assert [e] == [e] + [];
    ExecCons(root, s, e, []);
    ExecNone(root, Next(root, s, e));
  }

  lemma ReappliedBy(root: string, r: Repo, tip: Commit)
    ensures Held(root, r, tip.tree) == StatePart(root, r.disk).Keys + Removed(root, r, tip.tree)
    ensures var target := Target(root, r, tip);
            Reapplied(root, r, tip) == Repo(target, target.tree, r.disk + StatePart(root, target.tree))
  {
  }

  lemma ExecNone(root: string, s: System)
    ensures Exec(root, s, []) == s
  {
  }
}