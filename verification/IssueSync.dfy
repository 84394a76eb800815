/** GitHub issues as the task queue and the control surface (src/issueSync.js): intake with de-duplication, cancel by
    close, and commands read from comments behind a cursor. */
module IssueSync {
  import opened Text
  import opened Lifecycle

  // ------------------------------------------------------------------ intake

  /** An issue as the listing gives it. Who may file and the idempotency key are computed elsewhere. */
  datatype Issue = Issue(number: nat, isPullRequest: bool, createdAt: Option<int>, authorized: bool, key: string,
      priority: string)

  datatype Fate = PullRequest | Known | NotAuthorized | Added | DuplicateOf(id: TaskId)

  function KnownIds(ts: seq<Task>): set<TaskId> {
    set t | t in ts :: t.id
  }

  predicate Blocks(t: Task, key: string, now: int, windowMs: int) {
    && t.key == Some(key) && t.status != Cancelled
    && (Live(t) || (t.times.completedAt.Some? && now - t.times.completedAt.value <= windowMs))
  }

  /** The first live or recently finished task with this key. */
  function FindDuplicate(ts: seq<Task>, key: string, now: int, windowMs: int): (r: Option<Task>)
    ensures r.Some? ==> r.value in ts && Blocks(r.value, key, now, windowMs)
    ensures r.None? ==> forall t | t in ts :: !Blocks(t, key, now, windowMs)
  {
    if ts == [] then None
    else if Blocks(ts[0], key, now, windowMs) then Some(ts[0])
    else FindDuplicate(ts[1..], key, now, windowMs)
  }

  function NewTask(issue: Issue, now: int): Task {
    Task(FromIssue(issue.number), Some(issue.number), Some(issue.key), Pending, None,
         Times(now, None, issue.createdAt), Asks(false, false, issue.priority, map[]), 0, None, None)
  }

  const DUPLICATE_ERROR := "Duplicate submission"

  function Duplicate(issue: Issue, of: TaskId, now: int): Task {
    Moved(NewTask(issue, now), Cancelled, now, Some(DUPLICATE_ERROR)).(duplicateOf := Some(of))
  }

  function FateOf(ts: seq<Task>, known: set<TaskId>, issue: Issue, now: int, windowMs: int): Fate {
    if issue.isPullRequest then PullRequest
    else if FromIssue(issue.number) in known then Known
    else if !issue.authorized then NotAuthorized
    else match FindDuplicate(ts, issue.key, now, windowMs)
         case Some(t) => DuplicateOf(t.id)
         case None => Added
  }

  function Take1(ts: seq<Task>, known: set<TaskId>, issue: Issue, now: int, windowMs: int): seq<Task> {
    match FateOf(ts, known, issue, now, windowMs)
    case Added => ts + [NewTask(issue, now)]
    case DuplicateOf(id) => ts + [Duplicate(issue, id, now)]
    case _ => ts
  }

  /** The task list after the first `n` issues; `known` is taken once, before the loop. */
  function Intake(ts: seq<Task>, known: set<TaskId>, issues: seq<Issue>, n: nat, now: int,
      windowMs: int): (r: seq<Task>)
    requires n <= |issues|
    ensures ts <= r
  {
    if n == 0 then ts else Take1(Intake(ts, known, issues, n - 1, now, windowMs), known, issues[n - 1], now, windowMs)
  }

  function Fates(ts: seq<Task>, known: set<TaskId>, issues: seq<Issue>, n: nat, now: int, windowMs: int): (r: seq<Fate>)
    requires n <= |issues|
    ensures |r| == n
  {
    if n == 0 then []
    else Fates(ts, known, issues, n - 1, now, windowMs) +
         [FateOf(Intake(ts, known, issues, n - 1, now, windowMs), known, issues[n - 1], now, windowMs)]
  }

  /** An issue that becomes a task, live or cancelled as a duplicate. */
  predicate Eligible(issue: Issue, known: set<TaskId>) {
    !issue.isPullRequest && FromIssue(issue.number) !in known && issue.authorized
  }

  lemma Take1OneLive(ts: seq<Task>, known: set<TaskId>, issue: Issue, now: int, windowMs: int)
    requires OneLive(ts)
    ensures OneLive(Take1(ts, known, issue, now, windowMs))
  {
    var r := Take1(ts, known, issue, now, windowMs);
    if FateOf(ts, known, issue, now, windowMs) == Added {
      forall i, j | 0 <= i < j < |r| && r[i].key.Some? && r[i].key == r[j].key
        ensures !(Live(r[i]) && Live(r[j]))
      {
        if j == |ts| {
          assert !Blocks(ts[i], issue.key, now, windowMs);
        }
      }
    }
  }

  /** Main result on keys: no intake pass creates a second live task with the same key. */
  lemma {:induction false} IntakeKeepsOneLive(ts: seq<Task>, known: set<TaskId>, issues: seq<Issue>, n: nat, now: int,
      windowMs: int)
    requires OneLive(ts) && n <= |issues|
    ensures OneLive(Intake(ts, known, issues, n, now, windowMs))
  {
    if n > 0 {
      IntakeKeepsOneLive(ts, known, issues, n - 1, now, windowMs);
      Take1OneLive(Intake(ts, known, issues, n - 1, now, windowMs), known, issues[n - 1], now, windowMs);
    }
  }

  /** One issue adds a task under its number, or nothing. */
  lemma Take1Adds(ts: seq<Task>, known: set<TaskId>, issue: Issue, now: int, windowMs: int)
    ensures var r := Take1(ts, known, issue, now, windowMs);
            if Eligible(issue, known)
            then |r| == |ts| + 1 && r == ts + [r[|ts|]] && r[|ts|].id == FromIssue(issue.number)
            else r == ts
  {
    hide FindDuplicate;
  }

  lemma KnownAppend(ts: seq<Task>, t: Task)
    ensures KnownIds(ts + [t]) == KnownIds(ts) + {t.id}
  {
  }

  /** The ids of the eligible issues among the first `n`. */
  function NewIds(issues: seq<Issue>, known: set<TaskId>, n: nat): set<TaskId>
    requires n <= |issues|
  {
    set i | 0 <= i < n && Eligible(issues[i], known) :: FromIssue(issues[i].number)
  }

  lemma OneMoreNewId(issues: seq<Issue>, known: set<TaskId>, n: nat)
    requires n < |issues|
    ensures NewIds(issues, known, n + 1) ==
            NewIds(issues, known, n) + if Eligible(issues[n], known) then {FromIssue(issues[n].number)} else {}
  {
    hide Eligible;
  }

  /** Which ids a pass ends up with: the old ones and those of the eligible issues. */
  lemma {:induction false} IntakeIds(ts: seq<Task>, known: set<TaskId>, issues: seq<Issue>, n: nat, now: int,
      windowMs: int)
    requires n <= |issues|
    ensures KnownIds(Intake(ts, known, issues, n, now, windowMs)) == KnownIds(ts) + NewIds(issues, known, n)
  {
    if n > 0 {
      OneMoreNewId(issues, known, n - 1);
      var before := Intake(ts, known, issues, n - 1, now, windowMs);
      IntakeIds(ts, known, issues, n - 1, now, windowMs);
      Take1Adds(before, known, issues[n - 1], now, windowMs);
      var r := Intake(ts, known, issues, n, now, windowMs);
      hide Take1, KnownIds, Eligible, NewIds;
      if Eligible(issues[n - 1], known) {
        KnownAppend(before, r[|before|]);
      }
    }
  }

  /** The eligible issues carry different numbers. */
  predicate DistinctNew(issues: seq<Issue>, known: set<TaskId>, n: nat)
    requires n <= |issues|
  {
    forall i, j | 0 <= i < j < n :: Eligible(issues[i], known) && Eligible(issues[j], known) ==>
        issues[i].number != issues[j].number
  }

  lemma UniqueAppend(ts: seq<Task>, t: Task)
    ensures UniqueIds(ts + [t]) <==> UniqueIds(ts) && t.id !in KnownIds(ts)
  {
    var r := ts + [t];
    if UniqueIds(r) {
      forall i, j | 0 <= i < j < |ts| ensures ts[i].id != ts[j].id { assert r[i].id != r[j].id; }
      forall i | 0 <= i < |ts| ensures ts[i].id != t.id { assert r[i].id != r[|ts|].id; }
    }
    if UniqueIds(ts) && t.id !in KnownIds(ts) {
      forall i, j | 0 <= i < j < |r| ensures r[i].id != r[j].id {
        if j == |ts| { assert ts[i].id in KnownIds(ts); }
      }
    }
  }

  lemma DistinctStep(issues: seq<Issue>, known: set<TaskId>, n: nat)
    requires n < |issues|
    ensures DistinctNew(issues, known, n + 1) <==>
            && DistinctNew(issues, known, n)
            && (Eligible(issues[n], known) ==> FromIssue(issues[n].number) !in NewIds(issues, known, n))
  {
    hide Eligible;
  }

  /** Because `known` is not updated inside the loop, ids stay unique exactly when no issue number is listed twice. */
  lemma {:induction false} IdsStayUniqueIff(ts: seq<Task>, issues: seq<Issue>, n: nat, now: int, windowMs: int)
    requires UniqueIds(ts) && n <= |issues|
    ensures UniqueIds(Intake(ts, KnownIds(ts), issues, n, now, windowMs)) <==> DistinctNew(issues, KnownIds(ts), n)
  {
    if n > 0 {
      var known := KnownIds(ts);
      var before, r := Intake(ts, known, issues, n - 1, now, windowMs), Intake(ts, known, issues, n, now, windowMs);
      IdsStayUniqueIff(ts, issues, n - 1, now, windowMs);
      IntakeIds(ts, known, issues, n - 1, now, windowMs);
      Take1Adds(before, known, issues[n - 1], now, windowMs);
      DistinctStep(issues, known, n - 1);
      EligibleIsUnknown(issues[n - 1], known);
      assert r == Take1(before, known, issues[n - 1], now, windowMs);
      hide Take1, Intake, Eligible, DistinctNew, UniqueIds, KnownIds, NewIds;
      if Eligible(issues[n - 1], known) {
        UniqueAppend(before, r[|before|]);
      }
    }
  }

  lemma EligibleIsUnknown(issue: Issue, known: set<TaskId>)
    ensures Eligible(issue, known) ==> FromIssue(issue.number) !in known
  {
  }

  /** A fate that puts a task on the list. */
  predicate Filed(f: Fate) {
    f == Added || f.DuplicateOf?
  }

  /** A task the pass added: live, or cancelled and naming the task it repeats. */
  predicate WellFiled(ts: seq<Task>, t: Task) {
    if Live(t) then t.duplicateOf.None?
    else t.status == Cancelled && t.duplicateOf.Some? && t.duplicateOf.value in KnownIds(ts)
  }

  lemma {:induction false} FatesAt(ts: seq<Task>, known: set<TaskId>, issues: seq<Issue>, n: nat, i: nat, now: int,
      windowMs: int)
    requires i < n <= |issues|
    ensures Fates(ts, known, issues, n, now, windowMs)[i] ==
            FateOf(Intake(ts, known, issues, i, now, windowMs), known, issues[i], now, windowMs)
  {
    hide FateOf, Intake;
    if i < n - 1 {
      FatesAt(ts, known, issues, n - 1, i, now, windowMs);
    }
  }

  lemma {:induction false} CountOfFates(ts: seq<Task>, known: set<TaskId>, issues: seq<Issue>, n: nat, now: int,
      windowMs: int)
    requires n <= |issues|
    ensures |Intake(ts, known, issues, n, now, windowMs)| == |ts| + Count(Fates(ts, known, issues, n, now, windowMs))
  {
    hide FateOf;
    if n > 0 {
      CountOfFates(ts, known, issues, n - 1, now, windowMs);
      var before := Intake(ts, known, issues, n - 1, now, windowMs);
      CountAppend(Fates(ts, known, issues, n - 1, now, windowMs), FateOf(before, known, issues[n - 1], now, windowMs));
    } else {
      assert Fates(ts, known, issues, 0, now, windowMs) == [];
    }
  }

  /** Every issue has one fate, decided by what it is; the filed ones are the eligible ones, and only those add a
      task. */
  lemma EachIssueHasOneFate(ts: seq<Task>, known: set<TaskId>, issues: seq<Issue>, n: nat, now: int, windowMs: int)
    requires n <= |issues|
    ensures |Intake(ts, known, issues, n, now, windowMs)| == |ts| + Count(Fates(ts, known, issues, n, now, windowMs))
    ensures forall i | 0 <= i < n :: Filed(Fates(ts, known, issues, n, now, windowMs)[i]) <==>
            Eligible(issues[i], known)
    ensures forall i | 0 <= i < n :: Fates(ts, known, issues, n, now, windowMs)[i] == NotAuthorized <==>
              !issues[i].isPullRequest && FromIssue(issues[i].number) !in known && !issues[i].authorized
  {
    CountOfFates(ts, known, issues, n, now, windowMs);
    hide Fates, Intake, FindDuplicate;
    forall i | 0 <= i < n
      ensures var f := Fates(ts, known, issues, n, now, windowMs)[i];
              && (Filed(f) <==> Eligible(issues[i], known))
              && (f == NotAuthorized <==>
                 !issues[i].isPullRequest && FromIssue(issues[i].number) !in known && !issues[i].authorized)
    {
      FatesAt(ts, known, issues, n, i, now, windowMs);
    }
  }

  lemma FilesOne(ts: seq<Task>, known: set<TaskId>, issue: Issue, now: int, windowMs: int)
    ensures var r := Take1(ts, known, issue, now, windowMs);
            && ts <= r && forall t | t in r[|ts|..] :: WellFiled(ts, t)
  {
    var f := FateOf(ts, known, issue, now, windowMs);
    if f.DuplicateOf? {
      var of := FindDuplicate(ts, issue.key, now, windowMs);
      assert of.value in ts && of.value.id == f.id;
    }
  }

  lemma MoreKnown(ts: seq<Task>, more: seq<Task>)
    requires ts <= more
    ensures KnownIds(ts) <= KnownIds(more)
  {
    assert forall t | t in ts :: t in more;
  }

  /** The pass changes no task it found, and each it adds is live or a cancelled duplicate of one on the list. */
  lemma {:induction false} IntakeFilesWell(ts: seq<Task>, known: set<TaskId>, issues: seq<Issue>, n: nat, now: int,
      windowMs: int)
    requires n <= |issues|
    ensures var r := Intake(ts, known, issues, n, now, windowMs);
            && ts <= r && forall t | t in r[|ts|..] :: WellFiled(r, t)
  {
    if n > 0 {
      var before, r := Intake(ts, known, issues, n - 1, now, windowMs), Intake(ts, known, issues, n, now, windowMs);
      IntakeFilesWell(ts, known, issues, n - 1, now, windowMs);
      FilesOne(before, known, issues[n - 1], now, windowMs);
      MoreKnown(before, r);
      hide Take1, KnownIds;
      assert r[|ts|..] == before[|ts|..] + r[|before|..];
    }
  }

  /** How many of these fates put a task on the list. */
  function Count(fates: seq<Fate>): nat {
    if fates == [] then 0 else Count(fates[..|fates| - 1]) + if Filed(fates[|fates| - 1]) then 1 else 0
  }

  lemma CountAppend(fates: seq<Fate>, f: Fate)
    ensures Count(fates + [f]) == Count(fates) + if Filed(f) then 1 else 0
  {
    assert (fates + [f])[..|fates|] == fates;
  }

  /** What intake puts on the list for an issue: a task under its number, with its key, pending or cancelled as a
      duplicate, whose control cursor stands at the creation of the issue. */
  predicate FiledFor(t: Task, issue: Issue, now: int) {
    && t.id == FromIssue(issue.number) && t.issueNumber == Some(issue.number) && t.key == Some(issue.key)
    && t.times.seen == issue.createdAt && t.times.createdAt == now && t.attempts == 0
    && t.status in {Pending, Cancelled} && (t.status == Pending <==> t.times.completedAt == None)
    && (t.status == Cancelled ==> t.times.completedAt == Some(now) && t.error.Some?)
    && t.asks == Asks(false, false, issue.priority, map[])
  }

  lemma Take1FilesFor(ts: seq<Task>, known: set<TaskId>, issue: Issue, now: int, windowMs: int)
    requires Eligible(issue, known)
    ensures var r := Take1(ts, known, issue, now, windowMs); |r| == |ts| + 1 && FiledFor(r[|ts|], issue, now)
  {
    hide FindDuplicate;
  }

  lemma {:induction false} EachEligibleIsFiled(ts: seq<Task>, known: set<TaskId>, issues: seq<Issue>, n: nat, i: nat,
      now: int, windowMs: int)
    requires i < n <= |issues| && Eligible(issues[i], known)
    ensures exists t | t in Intake(ts, known, issues, n, now, windowMs)[|ts|..] :: FiledFor(t, issues[i], now)
  {
    var before, r := Intake(ts, known, issues, n - 1, now, windowMs), Intake(ts, known, issues, n, now, windowMs);
    assert r == Take1(before, known, issues[n - 1], now, windowMs);
    FilesOne(before, known, issues[n - 1], now, windowMs);
    if i == n - 1 {
      Take1FilesFor(before, known, issues[i], now, windowMs);
      hide Take1, FiledFor;
      assert r[|ts|..][|before| - |ts|] == r[|before|];
    } else {
      hide Take1, FiledFor;
      EachEligibleIsFiled(ts, known, issues, n - 1, i, now, windowMs);
      var t :| t in before[|ts|..] && FiledFor(t, issues[i], now);
      assert r[|ts|..] == before[|ts|..] + r[|before|..];
      assert t in r[|ts|..];
    }
  }

  /** Which earlier task makes a new one a duplicate: one with the same key that was not cancelled, and that still
      lives or finished at most the window ago. */
  lemma DuplicateWindow(t: Task, known: set<TaskId>, issue: Issue, now: int, windowMs: int)
    requires Eligible(issue, known)
    ensures var fate := FateOf([t], known, issue, now, windowMs);
            && (t.key != Some(issue.key) || t.status == Cancelled ==> fate == Added)
            && (t.key == Some(issue.key) && Live(t) ==> fate == DuplicateOf(t.id))
            && (t.key == Some(issue.key) && IsTerminal(t.status) && t.status != Cancelled ==>
                  match t.times.completedAt
                  case None => fate == Added
                  case Some(at) => fate == if now <= at + windowMs then DuplicateOf(t.id) else Added)
  {
    assert [t][1..] == [];
  }

  /** A second pass over the same issues, at any later time, adds nothing. */
  lemma {:induction false} SecondPassAddsNothing(ts: seq<Task>, issues: seq<Issue>, n: nat, now: int, later: int,
      windowMs: int)
    requires n <= |issues|
    ensures var r := Intake(ts, KnownIds(ts), issues, |issues|, now, windowMs);
            Intake(r, KnownIds(r), issues, n, later, windowMs) == r
  {
    var r := Intake(ts, KnownIds(ts), issues, |issues|, now, windowMs);
    if n > 0 {
      SecondPassAddsNothing(ts, issues, n - 1, now, later, windowMs);
      IntakeIds(ts, KnownIds(ts), issues, |issues|, now, windowMs);
      assert Eligible(issues[n - 1], KnownIds(ts)) ==> FromIssue(issues[n - 1].number) in KnownIds(r);
    }
  }

  /** A task dispatched by hand is not checked against the others. */
  function WithManual(ts: seq<Task>, key: string, priority: string, now: int): seq<Task> {
    ts + [Task(Manual(now), None, Some(key), Pending, None, Times(now, None, None),
               Asks(false, false, priority, map[]), 0, None, None)]
  }

  /** So it keeps the rules on keys and ids exactly when no live task has its key and none was dispatched in the
      same millisecond. */
  lemma ManualKeepsRulesIff(ts: seq<Task>, key: string, priority: string, now: int)
    ensures OneLive(WithManual(ts, key, priority, now)) <==>
            OneLive(ts) && forall t | t in ts :: t.key == Some(key) ==> !Live(t)
    ensures UniqueIds(WithManual(ts, key, priority, now)) <==> UniqueIds(ts) && Manual(now) !in KnownIds(ts)
  {
    var r := WithManual(ts, key, priority, now);
    UniqueAppend(ts, r[|ts|]);
    if OneLive(r) {
      forall i, j | 0 <= i < j < |ts| && ts[i].key.Some? && ts[i].key == ts[j].key
        ensures !(Live(ts[i]) && Live(ts[j]))
      {
        assert r[i] == ts[i] && r[j] == ts[j];
      }
      forall t | t in ts && t.key == Some(key) ensures !Live(t) {
        var i :| 0 <= i < |ts| && ts[i] == t;
        assert r[i] == t;
      }
    }
    if OneLive(ts) && forall t | t in ts :: t.key == Some(key) ==> !Live(t) {
      forall i, j | 0 <= i < j < |r| && r[i].key.Some? && r[i].key == r[j].key ensures !(Live(r[i]) && Live(r[j])) {
        if j == |ts| { assert ts[i] in ts; }
      }
    }
  }

  // ------------------------------------------------------------------ comments behind a cursor

  /** A comment, with what the command parser and the authorization say of it. */
  datatype Comment = Comment(id: nat, at: int, command: Option<Command>, authorized: bool, who: string)

  /** How one command comment was dealt with. */
  datatype Handling = TooLateForRetry | Unauthorized | Did(outcome: Outcome)

  datatype Handled = Handled(comment: Comment, handling: Handling)

  function SeenAt(t: Task): int {
    match t.times.seen
    case Some(at) => at
    case None => match t.times.completedAt case Some(at) => at case None => t.times.createdAt
  }

  /** One command comment posted after the cursor. `completed` was read before the loop. */
  function HandleOne(t: Task, c: Comment, completed: Option<int>, now: int): (Task, Handling)
    requires c.command.Some?
  {
    if c.command.value.verb == Retry && completed.Some? && c.at <= completed.value then (t, TooLateForRetry)
    else if !c.authorized then (t, Unauthorized)
    else var (t', outcome) := Applied(t, c.command.value, c.who, now); (t', Did(outcome))
  }

  predicate IsNews(c: Comment, since: int) {
    c.command.Some? && c.at > since
  }

  /** The task, and what was handled, after the first `n` listed comments. */
  function HandleAll(t: Task, cs: seq<Comment>, n: nat, since: int, completed: Option<int>, now: int)
    : (Task, seq<Handled>)
    requires n <= |cs|
  {
    if n == 0 then (t, [])
    else
      var (t1, log) := HandleAll(t, cs, n - 1, since, completed, now);
      var c := cs[n - 1];
      if !IsNews(c, since) then (t1, log)
      else var (t2, how) := HandleOne(t1, c, completed, now); (t2, log + [Handled(c, how)])
  }

  /** What one pulse sees of an issue: closed, or open with its last update and the comments listed for it. */
  datatype Sight = Closed | Open(updatedAt: Option<int>, comments: seq<Comment>)

  const CLOSED_ERROR := "Cancelled from the dashboard"

  predicate Examines(t: Task, sight: Sight) {
    sight.Open? && sight.updatedAt.Some? && sight.updatedAt.value > SeenAt(t)
  }

  /** One task in one pulse's reconciliation. */
  function Reconciled(t: Task, sight: Sight, now: int): (Task, seq<Handled>) {
    if t.issueNumber.None? then (t, [])
    else if sight.Closed? then (if Preemptable(t.status) then Moved(t, Cancelled, now, Some(CLOSED_ERROR)) else t, [])
    else if !Examines(t, sight) then (t, [])
    else
      HandleAll(t.(times := t.times.(seen := sight.updatedAt)), sight.comments, |sight.comments|,
                SeenAt(t), t.times.completedAt, now)
  }

  /** What one reconciliation keeps: identity and key; the cursor moves exactly when the issue is examined; and the
      task does not come to life except by a retry. */
  lemma {:induction false} HandleAllKeeps(t: Task, cs: seq<Comment>, n: nat, since: int, completed: Option<int>,
      now: int)
    requires n <= |cs|
    ensures var (t', log) := HandleAll(t, cs, n, since, completed, now);
            && t'.id == t.id && t'.key == t.key && t'.issueNumber == t.issueNumber && t'.times.seen == t.times.seen
            && (Live(t') && !Live(t) ==> exists h | h in log :: h.handling == Did(Retried))
  {
    if n > 0 {
      HandleAllKeeps(t, cs, n - 1, since, completed, now);
      var (t1, log1) := HandleAll(t, cs, n - 1, since, completed, now);
      var c := cs[n - 1];
      if IsNews(c, since) {
        CommandLaws(t1, c.command.value, c.who, now);
        var (t2, how) := HandleOne(t1, c, completed, now);
        var (t', log) := HandleAll(t, cs, n, since, completed, now);
        assert t' == t2 && log == log1 + [Handled(c, how)];
        assert forall h | h in log1 :: h in log;
        assert Handled(c, how) in log;
        hide Applied;
      }
    }
  }

  /** Closing an issue cancels its task when the task waits to run, and only then. */
  lemma CloseCancels(t: Task, now: int)
    requires t.issueNumber.Some?
    ensures var (t', log) := Reconciled(t, Closed, now);
            && log == [] && t'.times.seen == t.times.seen && t'.key == t.key
            && (if Preemptable(t.status) then t'.status == Cancelled && CanTransition(t.status, Cancelled) else t' == t)
            && (Live(t') ==> Live(t))
  {
  }

  /** The task after the commands that a log says were applied, one after the other. */
  function Replayed(t: Task, log: seq<Handled>, now: int): Task {
    if log == [] then t
    else
      var before, h := Replayed(t, log[..|log| - 1], now), log[|log| - 1];
      if h.handling.Did? && h.comment.command.Some?
      then Applied(before, h.comment.command.value, h.comment.who, now).0 else before
  }

  /** Every entry tells what its command came to when it was applied. */
  predicate Truthful(t: Task, log: seq<Handled>, now: int) {
    log == [] ||
    (var h := log[|log| - 1];
     && Truthful(t, log[..|log| - 1], now)
     && h.comment.command.Some?
     && (h.handling.Did? ==>
           h.handling.outcome ==
           Applied(Replayed(t, log[..|log| - 1], now), h.comment.command.value, h.comment.who, now).1))
  }

  /** Main result on handling: what a pass logs is what it did. The task ends as the logged commands, applied in
      order, leave it; every logged outcome is the true one; a late retry and an unauthorized command leave no trace
      on the task. */
  lemma {:induction false} HandlingIsWhatTheLogSays(t: Task, cs: seq<Comment>, n: nat, since: int,
      completed: Option<int>, now: int)
    requires n <= |cs|
    ensures var (t', log) := HandleAll(t, cs, n, since, completed, now);
            t' == Replayed(t, log, now) && Truthful(t, log, now)
  {
    if n > 0 {
      HandlingIsWhatTheLogSays(t, cs, n - 1, since, completed, now);
      var (t1, log1) := HandleAll(t, cs, n - 1, since, completed, now);
      var c := cs[n - 1];
      hide Applied;
      if IsNews(c, since) {
        var (t2, how) := HandleOne(t1, c, completed, now);
        LogGrows(t, log1, Handled(c, how), now);
      }
    }
  }

  lemma LogGrows(t: Task, log: seq<Handled>, h: Handled, now: int)
    ensures var before := Replayed(t, log, now);
            && Replayed(t, log + [h], now) ==
               (if h.handling.Did? && h.comment.command.Some?
                then Applied(before, h.comment.command.value, h.comment.who, now).0 else before)
            && (Truthful(t, log + [h], now) <==>
                  && Truthful(t, log, now) && h.comment.command.Some?
                  && (h.handling.Did? ==>
                        h.handling.outcome == Applied(before, h.comment.command.value, h.comment.who, now).1))
  {
    hide Applied;
    assert (log + [h])[..|log|] == log;
  }

  lemma {:induction false} NothingNew(t: Task, cs: seq<Comment>, n: nat, since: int, completed: Option<int>, now: int)
    requires n <= |cs| && forall i | 0 <= i < n :: !IsNews(cs[i], since)
    ensures HandleAll(t, cs, n, since, completed, now) == (t, [])
  {
    if n > 0 {
      NothingNew(t, cs, n - 1, since, completed, now);
    }
  }

  /** One new comment in a listing: the pass does with the task what it does with that comment, and nothing else. */
  lemma {:induction false} OneNew(t: Task, cs: seq<Comment>, n: nat, k: nat, since: int, completed: Option<int>,
      now: int)
    requires k < n <= |cs| && IsNews(cs[k], since)
    requires forall i | 0 <= i < n && i != k :: !IsNews(cs[i], since)
    ensures var (t', how) := HandleOne(t, cs[k], completed, now);
            HandleAll(t, cs, n, since, completed, now) == (t', [Handled(cs[k], how)])
  {
    if k == n - 1 {
      NothingNew(t, cs, n - 1, since, completed, now);
      var how := HandleOne(t, cs[k], completed, now).1;
      assert [] + [Handled(cs[k], how)] == [Handled(cs[k], how)];
    } else {
      OneNew(t, cs, n - 1, k, since, completed, now);
    }
    hide HandleOne;
  }

  // ------------------------------------------------------------------ exactly once

  function Comments(log: seq<Handled>): (r: seq<Comment>)
    ensures |r| == |log| && forall i | 0 <= i < |log| :: r[i] == log[i].comment
  {
    seq(|log|, i requires 0 <= i < |log| => log[i].comment)
  }

  /** The command comments of a thread posted after `from` and up to `to`, in order. */
  function News(thread: seq<Comment>, from: int, to: int): seq<Comment> {
    if thread == [] then []
    else News(thread[..|thread| - 1], from, to) +
         var c := thread[|thread| - 1]; if IsNews(c, from) && c.at <= to then [c] else []
  }

  /** A complete listing of the comments from `since` on, made when those up to `upTo` exist. */
  function Listed(thread: seq<Comment>, since: int, upTo: int): seq<Comment> {
    if thread == [] then []
    else Listed(thread[..|thread| - 1], since, upTo) +
         var c := thread[|thread| - 1]; if since <= c.at <= upTo then [c] else []
  }

  predicate Increasing(thread: seq<Comment>) {
    forall i, j | 0 <= i < j < |thread| :: thread[i].at < thread[j].at
  }

  lemma {:induction false} HandledComments(t: Task, cs: seq<Comment>, n: nat, since: int, completed: Option<int>,
      now: int, upTo: int)
    requires n <= |cs| && forall c | c in cs :: c.at <= upTo
    ensures Comments(HandleAll(t, cs, n, since, completed, now).1) == News(cs[..n], since, upTo)
  {
    if n > 0 {
      HandledComments(t, cs, n - 1, since, completed, now, upTo);
      assert cs[..n][..n - 1] == cs[..n - 1];
      var (t1, log) := HandleAll(t, cs, n - 1, since, completed, now);
      var c := cs[n - 1];
      if IsNews(c, since) {
        var how := HandleOne(t1, c, completed, now).1;
        hide HandleOne;
        assert Comments(log + [Handled(c, how)]) == Comments(log) + [c];
      }
    }
  }

  lemma NewsSnoc(l: seq<Comment>, c: Comment, from: int, to: int)
    ensures News(l + [c], from, to) == News(l, from, to) + if IsNews(c, from) && c.at <= to then [c] else []
  {
    hide IsNews;
    assert (l + [c])[..|l|] == l;
  }

  lemma {:induction false} NewsOfListed(thread: seq<Comment>, since: int, upTo: int)
    ensures News(Listed(thread, since, upTo), since, upTo) == News(thread, since, upTo)
    ensures forall c | c in Listed(thread, since, upTo) :: c.at <= upTo
  {
    if thread != [] {
      var init, c := thread[..|thread| - 1], thread[|thread| - 1];
      var l := Listed(init, since, upTo);
      NewsOfListed(init, since, upTo);
      NewsSnoc(l, c, since, upTo);
      InitLast(thread);
      NewsSnoc(init, c, since, upTo);
      assert Listed(thread, since, upTo) == l + if since <= c.at <= upTo then [c] else [];
      hide News, Listed;
      if !(since <= c.at <= upTo) {
        assert Listed(thread, since, upTo) == l;
      }
    }
  }

  /** Consecutive stretches of a thread make up the whole. */
  lemma {:induction false} NewsSplit(thread: seq<Comment>, a: int, b: int, c: int)
    requires a <= b <= c && Increasing(thread)
    ensures News(thread, a, b) + News(thread, b, c) == News(thread, a, c)
  {
    if thread != [] {
      var init, last := thread[..|thread| - 1], thread[|thread| - 1];
      NewsSplit(init, a, b, c);
      if last.at <= b {
        NoneBefore(init, b, c, last.at);
      }
    }
  }

  lemma {:induction false} NoneBefore(thread: seq<Comment>, b: int, c: int, bound: int)
    requires bound <= b && forall x | x in thread :: x.at < bound
    ensures News(thread, b, c) == []
  {
    if thread != [] {
      NoneBefore(thread[..|thread| - 1], b, c, bound);
    }
  }

  /** One pulse: the task as the pulse finds it, what it sees of the issue, and its clock. */
  datatype Pulse = Pulse(task: Task, sight: Sight, now: int)

  /** Where one pulse leaves the cursor. */
  function NextCursor(p: Pulse, cursor: int): int {
    if Examines(p.task, p.sight) then p.sight.updatedAt.value else cursor
  }

  /** The cursor is carried from pulse to pulse; the rest of the task may change in between as it likes. A task that
      has no cursor yet gets one at its first examination, which starts where `SeenAt` says. */
  predicate Carried(pulses: seq<Pulse>, cursor: int) {
    pulses == [] ||
    (var p := pulses[0];
     && p.task.issueNumber.Some?
     && (p.task.times.seen.Some? || Examines(p.task, p.sight) ==> SeenAt(p.task) == cursor)
     && Carried(pulses[1..], NextCursor(p, cursor)))
  }

  function HandledIn(pulses: seq<Pulse>): seq<Handled> {
    if pulses == [] then []
    else Reconciled(pulses[0].task, pulses[0].sight, pulses[0].now).1 + HandledIn(pulses[1..])
  }

  /** Where the cursor ends up. */
  function FinalCursor(pulses: seq<Pulse>, cursor: int): int {
    if pulses == [] then cursor else FinalCursor(pulses[1..], NextCursor(pulses[0], cursor))
  }

  /** The two requests of a pulse: the issue is seen as of its last update, and the complete listing, made no
      earlier, shows the comments up to `lim`. */
  predicate ListedUpTo(p: Pulse, thread: seq<Comment>, lim: int) {
    Examines(p.task, p.sight) ==>
      p.sight.updatedAt.value <= lim && p.sight.comments == Listed(thread, SeenAt(p.task), lim)
  }

  predicate AllListed(pulses: seq<Pulse>, lims: seq<int>, thread: seq<Comment>)
    requires |lims| == |pulses|
  {
    forall i | 0 <= i < |pulses| :: ListedUpTo(pulses[i], thread, lims[i])
  }

  /** The command comments that fall between the two requests. */
  function Early(p: Pulse, thread: seq<Comment>, lim: int): seq<Comment> {
    if Examines(p.task, p.sight) then News(thread, p.sight.updatedAt.value, lim) else []
  }

  function EarlyCount(pulses: seq<Pulse>, lims: seq<int>, thread: seq<Comment>): nat
    requires |lims| == |pulses|
  {
    if pulses == [] then 0 else |Early(pulses[0], thread, lims[0])| + EarlyCount(pulses[1..], lims[1..], thread)
  }

  predicate NoneEarly(pulses: seq<Pulse>, lims: seq<int>, thread: seq<Comment>)
    requires |lims| == |pulses|
  {
    forall i | 0 <= i < |pulses| :: Early(pulses[i], thread, lims[i]) == []
  }

  lemma OnePulse(p: Pulse, thread: seq<Comment>, cursor: int, lim: int)
    requires p.task.issueNumber.Some? && ListedUpTo(p, thread, lim)
    requires p.task.times.seen.Some? || Examines(p.task, p.sight) ==> SeenAt(p.task) == cursor
    ensures var (t', log) := Reconciled(p.task, p.sight, p.now);
            && (p.task.times.seen.Some? || Examines(p.task, p.sight) ==> t'.times.seen == Some(NextCursor(p, cursor)))
            && Comments(log) == if Examines(p.task, p.sight) then News(thread, cursor, lim) else []
  {
    var t := p.task;
    if Examines(t, p.sight) {
      var t0, cs := t.(times := t.times.(seen := p.sight.updatedAt)), p.sight.comments;
      NewsOfListed(thread, cursor, lim);
      HandledComments(t0, cs, |cs|, cursor, t.times.completedAt, p.now, lim);
      HandleAllKeeps(t0, cs, |cs|, cursor, t.times.completedAt, p.now);
      assert cs[..|cs|] == cs;
      hide HandleAll;
    }
  }

  lemma {:induction false} NoneInside(thread: seq<Comment>, at: int)
    ensures News(thread, at, at) == []
  {
    if thread != [] {
      NoneInside(thread[..|thread| - 1], at);
    }
  }

  /** What one pulse handles: its share of the thread, and what came early. */
  lemma OneShare(p: Pulse, thread: seq<Comment>, cursor: int, lim: int)
    requires Increasing(thread) && p.task.issueNumber.Some? && ListedUpTo(p, thread, lim)
    requires p.task.times.seen.Some? || Examines(p.task, p.sight) ==> SeenAt(p.task) == cursor
    ensures cursor <= NextCursor(p, cursor)
    ensures Comments(Reconciled(p.task, p.sight, p.now).1) ==
            News(thread, cursor, NextCursor(p, cursor)) + Early(p, thread, lim)
  {
    OnePulse(p, thread, cursor, lim);
    if Examines(p.task, p.sight) {
      NewsSplit(thread, cursor, p.sight.updatedAt.value, lim);
    } else {
      NoneInside(thread, cursor);
    }
    hide Reconciled, News;
  }

  lemma {:induction false} CursorGrows(pulses: seq<Pulse>, cursor: int)
    requires Carried(pulses, cursor)
    ensures cursor <= FinalCursor(pulses, cursor)
  {
    if pulses != [] {
      CursorGrows(pulses[1..], NextCursor(pulses[0], cursor));
    }
  }

  lemma ListedTail(pulses: seq<Pulse>, lims: seq<int>, thread: seq<Comment>)
    requires |lims| == |pulses| && pulses != []
    ensures AllListed(pulses, lims, thread) ==>
              ListedUpTo(pulses[0], thread, lims[0]) && AllListed(pulses[1..], lims[1..], thread)
    ensures NoneEarly(pulses, lims, thread) <==>
              Early(pulses[0], thread, lims[0]) == [] && NoneEarly(pulses[1..], lims[1..], thread)
  {
    hide ListedUpTo, Early;
    if Early(pulses[0], thread, lims[0]) == [] && NoneEarly(pulses[1..], lims[1..], thread) {
      forall i | 0 <= i < |pulses| ensures Early(pulses[i], thread, lims[i]) == [] {
        if i > 0 { assert Early(pulses[1..][i - 1], thread, lims[1..][i - 1]) == []; }
      }
    }
    if NoneEarly(pulses, lims, thread) {
      forall i | 0 <= i < |pulses| - 1 ensures Early(pulses[1..][i], thread, lims[1..][i]) == [] {
        assert Early(pulses[i + 1], thread, lims[i + 1]) == [];
      }
    }
    if AllListed(pulses, lims, thread) {
      forall i | 0 <= i < |pulses| - 1 ensures ListedUpTo(pulses[1..][i], thread, lims[1..][i]) {
        assert ListedUpTo(pulses[i + 1], thread, lims[i + 1]);
      }
    }
  }

  /** What a run handles, by its first pulse and the rest. */
  lemma HandledFirst(pulses: seq<Pulse>, lims: seq<int>, thread: seq<Comment>, cursor: int)
    requires Increasing(thread) && Carried(pulses, cursor) && |lims| == |pulses| && AllListed(pulses, lims, thread)
    requires pulses != []
    ensures var next := NextCursor(pulses[0], cursor);
            && Carried(pulses[1..], next) && AllListed(pulses[1..], lims[1..], thread)
            && cursor <= next <= FinalCursor(pulses, cursor) == FinalCursor(pulses[1..], next)
            && News(thread, cursor, FinalCursor(pulses, cursor)) ==
               News(thread, cursor, next) + News(thread, next, FinalCursor(pulses, cursor))
            && Comments(HandledIn(pulses)) ==
               News(thread, cursor, next) + Early(pulses[0], thread, lims[0]) + Comments(HandledIn(pulses[1..]))
  {
    var p, rest, next := pulses[0], pulses[1..], NextCursor(pulses[0], cursor);
    ListedTail(pulses, lims, thread);
    OneShare(p, thread, cursor, lims[0]);
    CursorGrows(rest, next);
    NewsSplit(thread, cursor, next, FinalCursor(pulses, cursor));
    CommentsConcat(Reconciled(p.task, p.sight, p.now).1, HandledIn(rest));
    hide Reconciled, News, AllListed, Early, Increasing, Comments, ListedUpTo, NextCursor;
  }

  /** How many command comments a run handles: those of its stretch of the thread, and once more each that came
      early. */
  lemma {:induction false} HandledCount(pulses: seq<Pulse>, lims: seq<int>, thread: seq<Comment>, cursor: int)
    requires Increasing(thread) && Carried(pulses, cursor) && |lims| == |pulses| && AllListed(pulses, lims, thread)
    ensures |HandledIn(pulses)| ==
            |News(thread, cursor, FinalCursor(pulses, cursor))| + EarlyCount(pulses, lims, thread)
  {
    if pulses == [] {
      NoneInside(thread, cursor);
    } else {
      HandledFirst(pulses, lims, thread, cursor);
      hide News, AllListed, Early, Increasing, NextCursor, Carried, FinalCursor, HandledIn;
      HandledCount(pulses[1..], lims[1..], thread, NextCursor(pulses[0], cursor));
    }
  }

  lemma {:induction false} NoneEarlyIsZero(pulses: seq<Pulse>, lims: seq<int>, thread: seq<Comment>)
    requires |lims| == |pulses|
    ensures EarlyCount(pulses, lims, thread) == 0 <==> NoneEarly(pulses, lims, thread)
  {
    if pulses != [] {
      ListedTail(pulses, lims, thread);
      hide Early, NoneEarly;
      NoneEarlyIsZero(pulses[1..], lims[1..], thread);
    }
  }

  lemma {:induction false} HandledInOrder(pulses: seq<Pulse>, lims: seq<int>, thread: seq<Comment>, cursor: int)
    requires Increasing(thread) && Carried(pulses, cursor) && |lims| == |pulses| && AllListed(pulses, lims, thread)
    requires NoneEarly(pulses, lims, thread)
    ensures Comments(HandledIn(pulses)) == News(thread, cursor, FinalCursor(pulses, cursor))
  {
    if pulses == [] {
      NoneInside(thread, cursor);
    } else {
      HandledFirst(pulses, lims, thread, cursor);
      ListedTail(pulses, lims, thread);
      hide News, AllListed, Early, Increasing, NextCursor, Carried, FinalCursor, HandledIn, NoneEarly, Comments;
      HandledInOrder(pulses[1..], lims[1..], thread, NextCursor(pulses[0], cursor));
    }
  }

  lemma CommentsConcat(a: seq<Handled>, b: seq<Handled>)
    ensures Comments(a + b) == Comments(a) + Comments(b)
  {
  }

  /** Main result on comments, exactly. Over every sequence of pulses, with the issue closed for some of them, and
      with the issue and its comments asked for in two requests: the command comments handled are those posted after
      the starting cursor and up to the last examined update, each once, in posting order, if and only if none was
      posted between the update that a pulse saw and the listing that it then made. */
  lemma HandledOnceIff(pulses: seq<Pulse>, lims: seq<int>, thread: seq<Comment>, cursor: int)
    requires Increasing(thread) && Carried(pulses, cursor) && |lims| == |pulses| && AllListed(pulses, lims, thread)
    ensures Comments(HandledIn(pulses)) == News(thread, cursor, FinalCursor(pulses, cursor)) <==>
            NoneEarly(pulses, lims, thread)
  {
    HandledCount(pulses, lims, thread, cursor);
    NoneEarlyIsZero(pulses, lims, thread);
    if NoneEarly(pulses, lims, thread) {
      HandledInOrder(pulses, lims, thread, cursor);
    }
    hide News, HandledIn, NoneEarly, AllListed, Carried;
  }

  /** A pulse that sees the issue and its comments at one moment. */
  predicate Atomic(p: Pulse, thread: seq<Comment>) {
    Examines(p.task, p.sight) ==> ListedUpTo(p, thread, p.sight.updatedAt.value)
  }

  function Updates(pulses: seq<Pulse>): (r: seq<int>)
    ensures |r| == |pulses|
    ensures forall i | 0 <= i < |pulses| && Examines(pulses[i].task, pulses[i].sight) ::
            r[i] == pulses[i].sight.updatedAt.value
  {
    seq(|pulses|, i requires 0 <= i < |pulses| =>
      if Examines(pulses[i].task, pulses[i].sight) then pulses[i].sight.updatedAt.value else 0)
  }

  /** With atomic snapshots the condition holds: every command comment of the stretch is handled once, in posting
      order. */
  lemma CommentsExactlyOnce(pulses: seq<Pulse>, thread: seq<Comment>, cursor: int)
    requires Increasing(thread) && Carried(pulses, cursor)
    requires forall i | 0 <= i < |pulses| :: Atomic(pulses[i], thread)
    ensures cursor <= FinalCursor(pulses, cursor)
    ensures Comments(HandledIn(pulses)) == News(thread, cursor, FinalCursor(pulses, cursor))
  {
    var lims := Updates(pulses);
    CursorGrows(pulses, cursor);
    forall i | 0 <= i < |pulses|
      ensures ListedUpTo(pulses[i], thread, lims[i]) && Early(pulses[i], thread, lims[i]) == []
    {
      assert Atomic(pulses[i], thread);
      if Examines(pulses[i].task, pulses[i].sight) {
        NoneInside(thread, lims[i]);
      }
    }
    hide ListedUpTo, Early, News, Updates, Examines, Carried;
    HandledOnceIff(pulses, lims, thread, cursor);
  }

  /** A handled comment is dropped only as a retry that is no later than the completion the pulse found, and
      otherwise refused only for its author. */
  lemma {:induction false} OnlyStaleRetriesAreDropped(t: Task, cs: seq<Comment>, n: nat, since: int,
      completed: Option<int>, now: int)
    requires n <= |cs|
    ensures forall h | h in HandleAll(t, cs, n, since, completed, now).1 ::
              && h.comment.command.Some?
              && (h.handling == TooLateForRetry <==>
                    h.comment.command.value.verb == Retry && completed.Some? && h.comment.at <= completed.value)
              && (h.handling == Unauthorized ==> !h.comment.authorized)
              && (h.handling.Did? ==> h.comment.authorized)
  {
    if n > 0 {
      OnlyStaleRetriesAreDropped(t, cs, n - 1, since, completed, now);
    }
  }

  /** How the condition fails: a comment that the listing shows although it is later than the update time is handled
      now, and again by the next pulse that examines the issue. */
  lemma {:induction false} EarlyListingHandlesTwice(first: Pulse, second: Pulse, c: Comment)
    requires first.task.issueNumber.Some? && second.task.issueNumber.Some?
    requires Examines(first.task, first.sight) && c in first.sight.comments && c.command.Some?
    requires c.at > first.sight.updatedAt.value
    requires second.task.times.seen == first.sight.updatedAt
    requires Examines(second.task, second.sight) && c in second.sight.comments
    ensures c in Comments(Reconciled(first.task, first.sight, first.now).1)
    ensures c in Comments(Reconciled(second.task, second.sight, second.now).1)
  {
    ListedIsHandled(first, c);
    ListedIsHandled(second, c);
  }

  /** An input of this kind: the issue is fetched as updated at 3, a pause is posted at 5, the comments are listed,
      and the next pulse sees the update of 5. The pause is handled twice. */
  lemma TwoPulsesHandleTwice()
    ensures var c := Comment(1, 5, Some(Command(Pause, None)), true, "owner");
            var t := NewTask(Issue(7, false, Some(0), true, "key", "normal"), 0);
            var first := Pulse(t, Open(Some(3), [c]), 6);
            var second := Pulse(Reconciled(first.task, first.sight, 6).0, Open(Some(5), [c]), 9);
            && Increasing([c]) && Carried([first, second], 0) && AllListed([first, second], [5, 5], [c])
            && Comments(HandledIn([first, second])) == [c, c] && News([c], 0, FinalCursor([first, second], 0)) == [c]
  {
    var c := Comment(1, 5, Some(Command(Pause, None)), true, "owner");
    var t := NewTask(Issue(7, false, Some(0), true, "key", "normal"), 0);
    var first := Pulse(t, Open(Some(3), [c]), 6);
    var second := Pulse(Reconciled(first.task, first.sight, 6).0, Open(Some(5), [c]), 9);
    ListedAlone(c);
    HandledAlone(first, c);
    assert second.task.times.seen == Some(3) && second.task.issueNumber == Some(7);
    HandledAlone(second, c);
    hide Reconciled, News, Listed;
    var ps := [first, second];
    assert ps[1..] == [second] && ps[1..][1..] == [];
    assert HandledIn([]) == [];
    assert Carried([second], 3) && FinalCursor([second], 3) == 5;
    assert HandledIn([second]) == Reconciled(second.task, second.sight, 9).1;
    CommentsConcat(Reconciled(first.task, first.sight, 6).1, HandledIn([second]));
  }

  lemma ListedAlone(c: Comment)
    requires c.command.Some? && c.at == 5
    ensures Listed([c], 0, 5) == [c] == Listed([c], 3, 5) && News([c], 0, 5) == [c]
  {
    assert [c][..0] == [];
    assert Listed([], 0, 5) == [] == Listed([], 3, 5) && News([], 0, 5) == [];
  }

  /** A pulse that is shown one comment, and finds it new. */
  lemma HandledAlone(p: Pulse, c: Comment)
    requires p.task.issueNumber.Some? && Examines(p.task, p.sight)
    requires p.sight.comments == [c] && IsNews(c, SeenAt(p.task))
    ensures var (t', log) := Reconciled(p.task, p.sight, p.now);
            Comments(log) == [c] && t'.times.seen == p.sight.updatedAt && t'.issueNumber == p.task.issueNumber
  {
    var t0, completed := p.task.(times := p.task.times.(seen := p.sight.updatedAt)), p.task.times.completedAt;
    HandleAllKeeps(t0, [c], 1, SeenAt(p.task), completed, p.now);
    var (t1, log0) := HandleAll(t0, [c], 0, SeenAt(p.task), completed, p.now);
    hide HandleOne;
    assert log0 == [];
  }

  lemma ListedIsHandled(p: Pulse, c: Comment)
    requires p.task.issueNumber.Some? && Examines(p.task, p.sight)
    requires c in p.sight.comments && IsNews(c, SeenAt(p.task))
    ensures c in Comments(Reconciled(p.task, p.sight, p.now).1)
  {
    var t := p.task;
    var n :| 0 <= n < |p.sight.comments| && p.sight.comments[n] == c;
    NewsIsHandled(t.(times := t.times.(seen := p.sight.updatedAt)), p.sight.comments, |p.sight.comments|, n,
                  SeenAt(t), t.times.completedAt, p.now);
  }

  lemma {:induction false} NewsIsHandled(t: Task, cs: seq<Comment>, n: nat, k: nat, since: int, completed: Option<int>,
      now: int)
    requires k < n <= |cs| && IsNews(cs[k], since)
    ensures cs[k] in Comments(HandleAll(t, cs, n, since, completed, now).1)
  {
    var log := HandleAll(t, cs, n, since, completed, now).1;
    if k < n - 1 {
      NewsIsHandled(t, cs, n - 1, k, since, completed, now);
      var log1 := HandleAll(t, cs, n - 1, since, completed, now).1;
      var i :| 0 <= i < |log1| && Comments(log1)[i] == cs[k];
      assert log[i] == log1[i];
      assert Comments(log)[i] == cs[k];
    } else {
      assert Comments(log)[|log| - 1] == cs[k];
    }
  }

  // ------------------------------------------------------------------ whole passes

  /** What intake reports: how many it added, the issue numbers it ignored, the ids it filed as duplicates. */
  datatype Report = Report(added: nat, ignored: seq<nat>, duplicates: seq<TaskId>)

  function Reported(issues: seq<Issue>, fates: seq<Fate>, n: nat): Report
    requires n <= |issues| && n <= |fates|
  {
    if n == 0 then Report(0, [], []) else WithFate(Reported(issues, fates, n - 1), issues[n - 1].number, fates[n - 1])
  }

  function WithFate(r: Report, number: nat, fate: Fate): Report {
    match fate
    case Added => r.(added := r.added + 1)
    case NotAuthorized => r.(ignored := r.ignored + [number])
    case DuplicateOf(_) => r.(duplicates := r.duplicates + [FromIssue(number)])
    case _ => r
  }

  lemma {:induction false} ReportedPrefix(issues: seq<Issue>, fates: seq<Fate>, more: seq<Fate>, n: nat)
    requires n <= |issues| && n <= |fates| && fates <= more
    ensures Reported(issues, fates, n) == Reported(issues, more, n)
  {
    if n > 0 {
      ReportedPrefix(issues, fates, more, n - 1);
    }
  }

  lemma PassStarts(ts: seq<Task>, known: set<TaskId>, issues: seq<Issue>, now: int, windowMs: int)
    ensures Intake(ts, known, issues, 0, now, windowMs) == ts
    ensures Reported(issues, Fates(ts, known, issues, 0, now, windowMs), 0) == Report(0, [], [])
  {
  }

  lemma PassGoesOn(ts: seq<Task>, known: set<TaskId>, issues: seq<Issue>, i: nat, now: int, windowMs: int)
    requires i < |issues|
    ensures var before := Intake(ts, known, issues, i, now, windowMs);
            && Intake(ts, known, issues, i + 1, now, windowMs) == Take1(before, known, issues[i], now, windowMs)
            && Reported(issues, Fates(ts, known, issues, i + 1, now, windowMs), i + 1) ==
               WithFate(Reported(issues, Fates(ts, known, issues, i, now, windowMs), i), issues[i].number,
                        FateOf(before, known, issues[i], now, windowMs))
  {
    hide FateOf, Take1, WithFate;
    ReportedPrefix(issues, Fates(ts, known, issues, i, now, windowMs), Fates(ts, known, issues, i + 1, now, windowMs),
        i);
  }

  /** The report accounts for every task the pass put on the list. */
  lemma {:induction false} ReportAddsUp(ts: seq<Task>, known: set<TaskId>, issues: seq<Issue>, n: nat, now: int,
      windowMs: int)
    requires n <= |issues|
    ensures var r := Reported(issues, Fates(ts, known, issues, n, now, windowMs), n);
            |Intake(ts, known, issues, n, now, windowMs)| == |ts| + r.added + |r.duplicates|
  {
    if n > 0 {
      ReportAddsUp(ts, known, issues, n - 1, now, windowMs);
      ReportedPrefix(issues, Fates(ts, known, issues, n - 1, now, windowMs), Fates(ts, known, issues, n, now, windowMs),
          n - 1);
      hide FindDuplicate, NewTask, Duplicate;
    }
  }

  /** The ids of the tasks that were filed as duplicates, in order, and the numbers of the issues from unknown
      authors. */
  function CancelledIds(ts: seq<Task>): seq<TaskId> {
    if ts == [] then []
    else CancelledIds(ts[..|ts| - 1]) + if ts[|ts| - 1].status == Cancelled then [ts[|ts| - 1].id] else []
  }

  predicate Stranger(issue: Issue, known: set<TaskId>) {
    !issue.isPullRequest && FromIssue(issue.number) !in known && !issue.authorized
  }

  function Strangers(issues: seq<Issue>, known: set<TaskId>, n: nat): seq<nat>
    requires n <= |issues|
  {
    if n == 0 then []
    else Strangers(issues, known, n - 1) + if Stranger(issues[n - 1], known) then [issues[n - 1].number] else []
  }

  lemma CancelledAppend(ts: seq<Task>, t: Task)
    ensures CancelledIds(ts + [t]) == CancelledIds(ts) + if t.status == Cancelled then [t.id] else []
  {
    assert (ts + [t])[..|ts|] == ts;
  }

  lemma OneFate(ts: seq<Task>, known: set<TaskId>, issue: Issue, now: int, windowMs: int, r: Report)
    ensures var ts', r' := Take1(ts, known, issue, now, windowMs),
                           WithFate(r, issue.number, FateOf(ts, known, issue, now, windowMs));
            && ts <= ts'
            && r'.ignored == r.ignored + (if Stranger(issue, known) then [issue.number] else [])
            && (ts' == ts ==> r'.added == r.added && r'.duplicates == r.duplicates)
            && (ts' != ts ==>
                  && ts' == ts + [ts'[|ts|]]
                  && r'.duplicates == r.duplicates + (if ts'[|ts|].status == Cancelled then [ts'[|ts|].id] else [])
                  && r'.added == r.added + if Live(ts'[|ts|]) then 1 else 0)
  {
    hide FindDuplicate;
  }

  /** The report names exactly what the pass did: the ids of the tasks it filed as duplicates and the issues it
      ignored, each in the order of the listing. */
  lemma {:induction false} ReportNamesThem(ts: seq<Task>, known: set<TaskId>, issues: seq<Issue>, n: nat, now: int,
      windowMs: int)
    requires n <= |issues|
    ensures var r := Reported(issues, Fates(ts, known, issues, n, now, windowMs), n);
            && r.duplicates == CancelledIds(Intake(ts, known, issues, n, now, windowMs)[|ts|..])
            && r.ignored == Strangers(issues, known, n)
  {
    if n == 0 {
      PassStarts(ts, known, issues, now, windowMs);
      assert ts[|ts|..] == [];
    } else {
      ReportNamesThem(ts, known, issues, n - 1, now, windowMs);
      PassGoesOn(ts, known, issues, n - 1, now, windowMs);
      var before := Intake(ts, known, issues, n - 1, now, windowMs);
      var r := Reported(issues, Fates(ts, known, issues, n - 1, now, windowMs), n - 1);
      OneFate(before, known, issues[n - 1], now, windowMs, r);
      hide FateOf, Take1, WithFate, Fates, Reported, Stranger;
      var after := Intake(ts, known, issues, n, now, windowMs);
      if after != before {
        var t := after[|before|];
        assert after[|ts|..] == before[|ts|..] + [t];
        CancelledAppend(before[|ts|..], t);
      }
    }
  }

  /** What the pulse sees of a task's issue: the open issues with their update times, and a listing by issue and
      start time. */
  function SightOf(t: Task, open: map<nat, Option<int>>, listComments: (nat, int) -> seq<Comment>): Sight {
    if t.issueNumber.Some? && t.issueNumber.value in open
    then Open(open[t.issueNumber.value], listComments(t.issueNumber.value, SeenAt(t)))
    else Closed
  }

  function AllReconciled(ts: seq<Task>, open: map<nat, Option<int>>, listComments: (nat, int) -> seq<Comment>,
      now: int): (r: seq<Task>)
    ensures |r| == |ts|
  {
    seq(|ts|, i requires 0 <= i < |ts| => Reconciled(ts[i], SightOf(ts[i], open, listComments), now).0)
  }

  lemma AllReconciledAt(ts: seq<Task>, i: nat, open: map<nat, Option<int>>, listComments: (nat, int) -> seq<Comment>,
      now: int)
    requires i < |ts|
    ensures AllReconciled(ts, open, listComments, now)[i] ==
            Reconciled(ts[i], SightOf(ts[i], open, listComments), now).0
  {
    hide Reconciled, SightOf;
  }

  /** One list overtaken by another, one place at a time. */
  function Overtaken(a: seq<Task>, b: seq<Task>, i: nat): (r: seq<Task>)
    requires i <= |a| == |b|
    ensures |r| == |a|
    ensures i == 0 ==> r == a
    ensures i == |a| ==> r == b
  {
    b[..i] + a[i..]
  }

  lemma Overtake(a: seq<Task>, b: seq<Task>, i: nat)
    requires i < |a| == |b|
    ensures Overtaken(a, b, i)[i := b[i]] == Overtaken(a, b, i + 1) && Overtaken(a, b, i)[i] == a[i]
  {
  }

  /** A cancel behind the cursor, through the whole pass: from an authorized author it cancels a task that waits to
      run and asks a running one; from any other it changes nothing but the cursor. */
  lemma CancelReachesTheTask(ts: seq<Task>, i: nat, open: map<nat, Option<int>>,
      listComments: (nat, int) -> seq<Comment>, now: int, k: nat)
    requires i < |ts| && ts[i].issueNumber.Some? && ts[i].issueNumber.value in open
    requires Examines(ts[i], SightOf(ts[i], open, listComments))
    requires var cs := SightOf(ts[i], open, listComments).comments;
             && k < |cs| && IsNews(cs[k], SeenAt(ts[i])) && cs[k].command.value.verb == Cancel
             && forall j | 0 <= j < |cs| && j != k :: !IsNews(cs[j], SeenAt(ts[i]))
    ensures var t, c := ts[i], SightOf(ts[i], open, listComments).comments[k];
            var t' := AllReconciled(ts, open, listComments, now)[i];
            && t'.times.seen == open[t.issueNumber.value]
            && (c.authorized && t.status in {Pending, Waiting, Paused} ==>
                  t'.status == Cancelled && t'.times.completedAt == Some(now))
            && (c.authorized && t.status == Running ==> t'.status == Running && t'.asks.cancelRequested)
            && (!c.authorized ==> t' == t.(times := t.times.(seen := t'.times.seen)))
  {
    var t, sight := ts[i], SightOf(ts[i], open, listComments);
    var t0 := t.(times := t.times.(seen := sight.updatedAt));
    OneNew(t0, sight.comments, |sight.comments|, k, SeenAt(t), t.times.completedAt, now);
    CommandEffects(t0, sight.comments[k].command.value, sight.comments[k].who, now);
    CommandLaws(t0, sight.comments[k].command.value, sight.comments[k].who, now);
    AllReconciledAt(ts, i, open, listComments, now);
    assert Moves(t0, Cancel, Cancelled) <==> t.status in {Pending, Waiting, Paused};
    hide HandleAll, Applied, AllReconciled;
  }

  predicate NoRetry(log: seq<Handled>) {
    forall h | h in log :: h.handling != Did(Retried)
  }

  lemma ReconciledKeeps(t: Task, sight: Sight, now: int)
    ensures var (t', log) := Reconciled(t, sight, now);
            && t'.id == t.id && t'.key == t.key && t'.issueNumber == t.issueNumber
            && (NoRetry(log) && Live(t') ==> Live(t))
  {
    if Examines(t, sight) {
      var t0 := t.(times := t.times.(seen := sight.updatedAt));
      HandleAllKeeps(t0, sight.comments, |sight.comments|, SeenAt(t), t.times.completedAt, now);
    }
  }

  /** A reconciliation pass in which no retry is applied keeps at most one live task per key, and keeps every id. */
  lemma ReconcileKeepsOneLive(ts: seq<Task>, open: map<nat, Option<int>>, listComments: (nat, int) -> seq<Comment>,
      now: int)
    requires OneLive(ts)
    requires forall t | t in ts :: NoRetry(Reconciled(t, SightOf(t, open, listComments), now).1)
    ensures var r := AllReconciled(ts, open, listComments, now);
            OneLive(r) && forall i | 0 <= i < |ts| :: r[i].id == ts[i].id
  {
    var r := AllReconciled(ts, open, listComments, now);
    hide Reconciled, NoRetry;
    forall i | 0 <= i < |ts|
      ensures r[i].id == ts[i].id && r[i].key == ts[i].key && (Live(r[i]) ==> Live(ts[i]))
    {
      assert ts[i] in ts;
      ReconciledKeeps(ts[i], SightOf(ts[i], open, listComments), now);
    }
  }

  datatype Counts = Counts(cancelled: nat, retried: nat, commands: nat, rejectedCommands: nat, commentsFetched: nat,
      approvals: nat)

  function Counted(c: Counts, how: Handling): Counts {
    match how
    case TooLateForRetry => c
    case Unauthorized => c.(rejectedCommands := c.rejectedCommands + 1)
    case Did(o) =>
      c.(commands := c.commands + 1, retried := c.retried + (if o == Retried then 1 else 0),
         approvals := c.approvals + if o == ApprovalRecorded then 1 else 0)
  }

  function CountedAll(c: Counts, log: seq<Handled>): Counts {
    if log == [] then c else Counted(CountedAll(c, log[..|log| - 1]), log[|log| - 1].handling)
  }

  /** What one task adds to the counts of a pass. */
  function Tallied(c: Counts, t: Task, sight: Sight, now: int): Counts {
    var log := Reconciled(t, sight, now).1;
    if t.issueNumber.None? then c
    else if sight.Closed? then (if Preemptable(t.status) then c.(cancelled := c.cancelled + 1) else c)
    else if !Examines(t, sight) then c
    else CountedAll(c.(commentsFetched := c.commentsFetched + 1), log)
  }

  function TalliedAll(ts: seq<Task>, n: nat, open: map<nat, Option<int>>, listComments: (nat, int) -> seq<Comment>,
      now: int): Counts
    requires n <= |ts|
  {
    if n == 0 then Counts(0, 0, 0, 0, 0, 0)
    else Tallied(TalliedAll(ts, n - 1, open, listComments, now), ts[n - 1], SightOf(ts[n - 1], open, listComments), now)
  }

  /** How many comments of a log were handled in one way. */
  function HandledAs(log: seq<Handled>, how: Handling): nat {
    if log == [] then 0 else HandledAs(log[..|log| - 1], how) + if log[|log| - 1].handling == how then 1 else 0
  }

  /** The counts by outcome: rejections, retries and approvals are those of the log; the two counts of the pass
      itself stay. */
  lemma {:induction false} CountsByOutcome(c: Counts, log: seq<Handled>)
    ensures var r := CountedAll(c, log);
            && r.rejectedCommands == c.rejectedCommands + HandledAs(log, Unauthorized)
            && r.retried == c.retried + HandledAs(log, Did(Retried))
            && r.approvals == c.approvals + HandledAs(log, Did(ApprovalRecorded))
            && r.cancelled == c.cancelled && r.commentsFetched == c.commentsFetched
  {
    if log != [] {
      CountsByOutcome(c, log[..|log| - 1]);
    }
  }

  /** The tasks whose closed issue cancels them, and the tasks whose comments are fetched, among the first `n`. */
  function ClosedAndWaiting(ts: seq<Task>, n: nat, open: map<nat, Option<int>>): nat
    requires n <= |ts|
  {
    if n == 0 then 0
    else
      var t := ts[n - 1];
      ClosedAndWaiting(ts, n - 1, open) +
      if t.issueNumber.Some? && t.issueNumber.value !in open && t.status in {Pending, Waiting, Paused} then 1 else 0
  }

  function UpdatedSince(ts: seq<Task>, n: nat, open: map<nat, Option<int>>): nat
    requires n <= |ts|
  {
    if n == 0 then 0
    else
      var t := ts[n - 1];
      UpdatedSince(ts, n - 1, open) +
      if t.issueNumber.Some? && t.issueNumber.value in open && open[t.issueNumber.value].Some? &&
         open[t.issueNumber.value].value > SeenAt(t) then 1 else 0
  }

  /** The counts of a pass: one cancelled for each waiting task whose issue is not open, one fetch for each whose
      issue was updated after the cursor. */
  lemma {:induction false} PassCounts(ts: seq<Task>, n: nat, open: map<nat, Option<int>>,
      listComments: (nat, int) -> seq<Comment>, now: int)
    requires n <= |ts|
    ensures var r := TalliedAll(ts, n, open, listComments, now);
            r.cancelled == ClosedAndWaiting(ts, n, open) && r.commentsFetched == UpdatedSince(ts, n, open)
  {
    if n > 0 {
      PassCounts(ts, n - 1, open, listComments, now);
      var c := TalliedAll(ts, n - 1, open, listComments, now);
      var log := Reconciled(ts[n - 1], SightOf(ts[n - 1], open, listComments), now).1;
      CountsByOutcome(c.(commentsFetched := c.commentsFetched + 1), log);
      hide Reconciled, CountedAll, SeenAt;
    }
  }

  /** Every handled comment is counted once: applied, refused, or a retry that came too late. */
  lemma {:induction false} CountsAddUp(c: Counts, log: seq<Handled>)
    ensures var r := CountedAll(c, log);
            && r.commands + r.rejectedCommands + |Late(log)| == c.commands + c.rejectedCommands + |log|
            && c.retried <= r.retried && r.retried - c.retried <= r.commands - c.commands
            && (NoRetry(log) <==> r.retried == c.retried)
  {
    if log != [] {
      var init, h := log[..|log| - 1], log[|log| - 1];
      CountsAddUp(c, init);
      assert forall x | x in log :: x in init || x == h;
      assert forall x | x in init :: x in log;
    }
  }

  function Late(log: seq<Handled>): seq<Handled> {
    if log == [] then []
    else Late(log[..|log| - 1]) + if log[|log| - 1].handling == TooLateForRetry then [log[|log| - 1]] else []
  }

  // ------------------------------------------------------------------ the program

  function ValuesOf(rs: seq<TaskRecord>): (r: seq<Task>)
    reads rs
    ensures |r| == |rs| && forall i | 0 <= i < |rs| :: r[i] == rs[i].Value()
  {
    seq(|rs|, i requires 0 <= i < |rs| reads rs => rs[i].Value())
  }

  /** The mutable task list of `state/tasks.json`. */
  class TaskList {
    var tasks: seq<TaskRecord>

    /** No record is on the list twice. */
    ghost predicate Valid()
      reads this
    {
      forall i, j | 0 <= i < j < |tasks| :: tasks[i] != tasks[j]
    }

    function Values(): seq<Task>
      reads this, tasks
    {
      ValuesOf(tasks)
    }

    method Duplicated(key: string, now: int, windowMs: int) returns (found: Option<TaskId>)
      ensures found == match FindDuplicate(Values(), key, now, windowMs) case Some(t) => Some(t.id) case None => None
    {
      ghost var ts := Values();
      var i := 0;
      while i < |tasks|
        invariant 0 <= i <= |tasks|
        invariant FindDuplicate(ts, key, now, windowMs) == FindDuplicate(ts[i..], key, now, windowMs)
      {
        var t := tasks[i];
        assert ts[i..][1..] == ts[i + 1..] && ts[i..][0] == t.Value();
        if t.key == Some(key) && t.status != Cancelled {
          if !IsTerminal(t.status) {
            return Some(t.id);
          }
          if t.completedAt.Some? && now - t.completedAt.value <= windowMs {
            return Some(t.id);
          }
        }
        i := i + 1;
      }
      return None;
    }

    /** One issue that is not yet known and whose author is authorized: push the task, and cancel it if it repeats
        another. */
    method File(issue: Issue, now: int, windowMs: int) returns (repeats: Option<TaskId>)
      requires Valid()
      modifies this
      ensures Valid() && old(tasks) <= tasks && fresh(tasks[|old(tasks)|..])
      ensures var was := old(Values());
              && Values() == was +
                 [match repeats case Some(id) => Duplicate(issue, id, now) case None => NewTask(issue, now)]
              && repeats == match FindDuplicate(was, issue.key, now, windowMs)
                            case Some(t) => Some(t.id)
                            case None => None
    {
      hide FindDuplicate, Blocks, NewTask, Duplicate;
      repeats := Duplicated(issue.key, now, windowMs);
      ghost var was, values := tasks, Values();
      var task := new TaskRecord(NewTask(issue, now));
      tasks := tasks + [task];
      if repeats.Some? {
        CancelAsDuplicate(task, issue, repeats.value, now);
      }
      assert ValuesOf(was) == values;
      assert Values() == values + [task.Value()];
    }

    static method CancelAsDuplicate(task: TaskRecord, issue: Issue, of: TaskId, now: int)
      requires task.Value() == NewTask(issue, now)
      modifies task
      ensures task.Value() == Duplicate(issue, of, now)
    {
      var ok := task.Transition(Status.Cancelled, now, Some(DUPLICATE_ERROR), None);
      task.duplicateOf := Some(of);
    }

    /** One listed issue. */
    method Consider(issue: Issue, known: set<TaskId>, now: int, windowMs: int, report0: Report) returns (report: Report)
      requires Valid()
      modifies this
      ensures Valid() && old(tasks) <= tasks && fresh(tasks[|old(tasks)|..])
      ensures Values() == Take1(old(Values()), known, issue, now, windowMs)
      ensures report == WithFate(report0, issue.number, FateOf(old(Values()), known, issue, now, windowMs))
    {
      hide FindDuplicate, NewTask, Duplicate, ValuesOf;
      report := report0;
      if !issue.isPullRequest && FromIssue(issue.number) !in known {
        if !issue.authorized {
          report := report.(ignored := report.ignored + [issue.number]);
        } else {
          var repeats := File(issue, now, windowMs);
          if repeats.Some? {
            report := report.(duplicates := report.duplicates + [FromIssue(issue.number)]);
          } else {
            report := report.(added := report.added + 1);
          }
        }
      }
    }

    method SyncIssuesIntoTasks(issues: seq<Issue>, now: int, windowMs: int) returns (report: Report)
      requires Valid()
      modifies this
      ensures Valid() && old(tasks) <= tasks && fresh(tasks[|old(tasks)|..])
      ensures var was := old(Values());
              && Values() == Intake(was, KnownIds(was), issues, |issues|, now, windowMs)
              && report == Reported(issues, Fates(was, KnownIds(was), issues, |issues|, now, windowMs), |issues|)
    {
      hide FateOf, Take1, WithFate, ValuesOf, Intake, Fates, Reported;
      ghost var was := Values();
      var known := set t | t in tasks :: t.id;
      SameIds();
      PassStarts(was, known, issues, now, windowMs);
      report := Report(0, [], []);
      var i := 0;
      while i < |issues|
        invariant 0 <= i <= |issues|
        invariant Valid() && old(tasks) <= tasks && fresh(tasks[|old(tasks)|..])
        invariant Values() == Intake(was, known, issues, i, now, windowMs)
        invariant report == Reported(issues, Fates(was, known, issues, i, now, windowMs), i)
      {
        ghost var listed := tasks;
        PassGoesOn(was, known, issues, i, now, windowMs);
        report := Consider(issues[i], known, now, windowMs, report);
        assert tasks[|old(tasks)|..] == listed[|old(tasks)|..] + tasks[|listed|..];
        i := i + 1;
      }
    }

    lemma SameIds()
      ensures (set t | t in tasks :: t.id) == KnownIds(Values())
    {
      var ts := Values();
      forall t | t in tasks ensures t.id in KnownIds(ts) {
        var i :| 0 <= i < |tasks| && tasks[i] == t;
        assert ts[i] in ts;
      }
      forall t | t in ts ensures exists r | r in tasks :: r.id == t.id {
        var i :| 0 <= i < |ts| && ts[i] == t;
        assert tasks[i] in tasks;
      }
    }

    /** One task against what is open now. The log is the audit trail. */
    static method ReconcileTask(task: TaskRecord, open: map<nat, Option<int>>, listComments: (nat, int) -> seq<Comment>,
        now: int, counts0: Counts)
      returns (counts: Counts, ghost log: seq<Handled>)
      modifies task
      ensures var t := old(task.Value());
              var sight := SightOf(t, open, listComments);
              && (task.Value(), log) == Reconciled(t, sight, now)
              && counts == Tallied(counts0, t, sight, now)
    {
      counts, log := counts0, [];
      if task.issueNumber.None? {
        return;
      }
      var number := task.issueNumber.value;
      if number !in open {
        if Preemptable(task.status) {
          var ok := task.Transition(Status.Cancelled, now, Some(CLOSED_ERROR), None);
          counts := counts.(cancelled := counts.cancelled + 1);
        }
        return;
      }
      var since := match task.issueUpdatedAtSeen
        case Some(at) => at
        case None => match task.completedAt case Some(at) => at case None => task.createdAt;
      var updatedAt := open[number];
      if updatedAt.None? || updatedAt.value <= since {
        return;
      }
      var comments := listComments(number, since);
      counts := counts.(commentsFetched := counts.commentsFetched + 1);
      task.issueUpdatedAtSeen := updatedAt;
      counts, log := HandleComments(task, comments, since, now, counts);
    }

    static method HandleComments(task: TaskRecord, comments: seq<Comment>, since: int, now: int, counts0: Counts)
      returns (counts: Counts, ghost log: seq<Handled>)
      modifies task
      ensures var t := old(task.Value());
              && (task.Value(), log) == HandleAll(t, comments, |comments|, since, t.times.completedAt, now)
              && counts == CountedAll(counts0, log)
    {
      hide HandleOne, Counted;
      counts, log := counts0, [];
      ghost var t := task.Value();
      var completed := task.completedAt;
      var i := 0;
      while i < |comments|
        invariant 0 <= i <= |comments|
        invariant (task.Value(), log) == HandleAll(t, comments, i, since, completed, now)
        invariant counts == CountedAll(counts0, log)
      {
        var c := comments[i];
        if c.command.Some? && c.at > since {
          var how;
          counts, how := HandleComment(task, c, completed, now, counts);
          assert (log + [Handled(c, how)])[..|log|] == log;
          log := log + [Handled(c, how)];
        }
        i := i + 1;
      }
    }

    static method HandleComment(task: TaskRecord, c: Comment, completed: Option<int>, now: int, counts0: Counts)
      returns (counts: Counts, how: Handling)
      requires c.command.Some?
      modifies task
      ensures (task.Value(), how) == HandleOne(old(task.Value()), c, completed, now)
      ensures counts == Counted(counts0, how)
    {
      hide Applied;
      counts := counts0;
      var command := c.command.value;
      if command.verb == Retry && completed.Some? && c.at <= completed.value {
        return counts, TooLateForRetry;
      }
      if !c.authorized {
        counts := counts.(rejectedCommands := counts.rejectedCommands + 1);
        return counts, Unauthorized;
      }
      var outcome := task.ApplyCommand(command, c.who, now);
      counts := counts.(commands := counts.commands + 1);
      if outcome == Retried {
        counts := counts.(retried := counts.retried + 1);
      }
      if outcome == ApprovalRecorded {
        counts := counts.(approvals := counts.approvals + 1);
      }
      return counts, Did(outcome);
    }

    /** The task at one place on the list; the others stay as they are. */
    method ReconcileAt(i: nat, open: map<nat, Option<int>>, listComments: (nat, int) -> seq<Comment>, now: int,
        counts0: Counts)
      returns (counts: Counts)
      requires Valid() && i < |tasks|
      modifies tasks[i]
      ensures var t := old(tasks[i].Value());
              var sight := SightOf(t, open, listComments);
              && Values() == old(Values())[i := Reconciled(t, sight, now).0]
              && counts == Tallied(counts0, t, sight, now)
    {
      hide Reconciled, Tallied, SightOf;
      ghost var log;
      counts, log := ReconcileTask(tasks[i], open, listComments, now, counts0);
    }

    lemma Sizes()
      ensures |Values()| == |tasks|
    {
    }

    lemma ValueAt(i: nat)
      requires i < |tasks|
      ensures |Values()| == |tasks| && Values()[i] == tasks[i].Value()
    {
    }

    method ReconcileIssueState(open: map<nat, Option<int>>, listComments: (nat, int) -> seq<Comment>,
        now: int) returns (counts: Counts)
      requires Valid()
      modifies tasks
      ensures tasks == old(tasks)
      ensures Values() == AllReconciled(old(Values()), open, listComments, now)
      ensures counts == TalliedAll(old(Values()), |tasks|, open, listComments, now)
    {
      hide Reconciled, Tallied, SightOf, AllReconciled, ValuesOf, Values, Overtaken;
      ghost var was := Values();
      assert |was| == |tasks| by { Sizes(); }
      ghost var all := AllReconciled(was, open, listComments, now);
      counts := Counts(0, 0, 0, 0, 0, 0);
      var i := 0;
      while i < |tasks|
        invariant 0 <= i <= |tasks|
        invariant counts == TalliedAll(was, i, open, listComments, now)
        invariant Values() == Overtaken(was, all, i)
      {
        AllReconciledAt(was, i, open, listComments, now);
        Overtake(was, all, i);
        ValueAt(i);
        counts := ReconcileAt(i, open, listComments, now, counts);
        i := i + 1;
      }
    }
  }
}
