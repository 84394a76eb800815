/** The task state machine and the commands that steer it (src/task/lifecycle.js, applyCommand in src/issueSync.js). */
module Lifecycle {
  import opened Text

  datatype Status =
    | Pending | Running | Waiting | Paused | PrOpen
    | Complete | Failed | Blocked | Cancelled | Expired | DeadLettered

  predicate IsTerminal(s: Status) {
    s in {Complete, Failed, Blocked, Cancelled, Expired, DeadLettered}
  }

  /** From a status to the statuses it may move to. */
  predicate CanTransition(from: Status, to: Status) {
    match from
    case Pending => to in {Running, Waiting, Paused, Cancelled, Expired, DeadLettered}
    case Running => to in {Complete, Failed, Blocked, Cancelled, Waiting, PrOpen, DeadLettered, Expired, Pending}
    case Waiting => to in {Pending, Paused, Cancelled, Expired, DeadLettered}
    case Paused => to in {Pending, Cancelled, Expired}
    case PrOpen => to in {Complete, Failed, Cancelled}
    case _ => to == Pending
  }

  /** A task is known by the issue it came from, or by the moment it was dispatched by hand. */
  datatype TaskId = FromIssue(number: nat) | Manual(ms: int)

  datatype Decision = Decision(approved: bool, who: string, at: int)

  /** What people have asked of a task; none of it is status. */
  datatype Asks = Asks(cancelRequested: bool, pauseRequested: bool, priority: string, approvals: map<string, Decision>)

  /** When it was created and completed, and the control cursor (`issueUpdatedAtSeen`). */
  datatype Times = Times(createdAt: int, completedAt: Option<int>, seen: Option<int>)

  datatype Task = Task(
    id: TaskId, issueNumber: Option<nat>, key: Option<string>, status: Status, waitReason: Option<string>,
    times: Times, asks: Asks, attempts: nat, error: Option<string>, duplicateOf: Option<TaskId>)

  predicate Live(t: Task) {
    !IsTerminal(t.status)
  }

  const WAIT_REASONS := ["backoff", "dependency", "approval", "budget", "quota", "pulse-budget", "provider"]

  /** `transition`: status, stamps, and the record of a previous life. A move to `waiting` then gets its reason. */
  function Moved(t: Task, to: Status, now: int, error: Option<string>): Task {
    var restart := to == Pending && t.status !in {Waiting, Paused, Running};
    var ended := IsTerminal(to) || to == PrOpen;
    t.(status := to, waitReason := None,
       times := t.times.(completedAt := if ended then Some(now) else if restart || to == Running then None
                                        else t.times.completedAt),
       error := if error.Some? then error else if restart then None else t.error)
  }

  const PRIORITIES := ["low", "normal", "high", "urgent"]

  datatype Verb = Retry | Cancel | Pause | Resume | SetPriority | Approve | Deny

  datatype Command = Command(verb: Verb, arg: Option<string>)

  datatype Outcome =
    | Retried | IgnoredNotTerminal | WasCancelled | CancelRequested | WasPaused | PauseRequested | Resumed
    | PrioritySet(priority: string) | IgnoredBadPriority | ApprovalRecorded | Ignored

  /** `outcome.startsWith('ignored')` */
  predicate IsIgnored(o: Outcome) {
    o in {IgnoredNotTerminal, IgnoredBadPriority, Ignored}
  }

  predicate Preemptable(s: Status) {
    s in {Pending, Waiting, Paused}
  }

  function PriorityArg(c: Command): string {
    Lower(match c.arg case Some(a) => a case None => "")
  }

  function StepArg(c: Command): string {
    Take(match c.arg case Some(a) => a case None => "all", 64)
  }

  function Applied(t: Task, c: Command, who: string, now: int): (Task, Outcome) {
    match c.verb
    case Retry =>
      if IsTerminal(t.status) then (Moved(t.(attempts := 0), Pending, now, None), Retried) else (t, IgnoredNotTerminal)
    case Cancel =>
      if Preemptable(t.status) then (Moved(t, Cancelled, now, Some("Cancelled by " + who + ".")), WasCancelled)
      else if t.status == Running then (t.(asks := t.asks.(cancelRequested := true)), CancelRequested)
      else (t, Ignored)
    case Pause =>
      if t.status in {Pending, Waiting} then (Moved(t, Paused, now, None), WasPaused)
      else if t.status == Running then (t.(asks := t.asks.(pauseRequested := true)), PauseRequested)
      else (t, Ignored)
    case Resume =>
      if t.status == Paused then (Moved(t, Pending, now, None), Resumed) else (t, Ignored)
    case SetPriority =>
      if PriorityArg(c) !in PRIORITIES then (t, IgnoredBadPriority)
      else (t.(asks := t.asks.(priority := PriorityArg(c))), PrioritySet(PriorityArg(c)))
    case _ =>
      var t1 := t.(asks := t.asks.(approvals := t.asks.approvals[StepArg(c) := Decision(c.verb == Approve, who, now)]));
      (if t.status == Waiting && t.waitReason == Some("approval") then Moved(t1, Pending, now, None) else t1,
       ApprovalRecorded)
  }

  /** Every command: a terminal task leaves its status only by retry, and then to pending; a running task keeps its
      status and gets at most a request, a priority or an approval; an ignored command changes nothing at all; identity,
      cursor and key never change; and every status change is one the table allows, so `transition` never throws. */
  lemma CommandLaws(t: Task, c: Command, who: string, now: int)
    ensures var (t', o) := Applied(t, c, who, now);
            && (IsTerminal(t.status) && t'.status != t.status ==>
               c.verb == Retry && t'.status == Pending && o == Retried)
            && (t.status == Running ==> t' == t.(asks := t'.asks))
            && (IsIgnored(o) ==> t' == t)
            && (t'.id, t'.issueNumber, t'.key, t'.duplicateOf) == (t.id, t.issueNumber, t.key, t.duplicateOf)
            && t'.times.seen == t.times.seen && t'.times.createdAt == t.times.createdAt
            && (t'.status != t.status ==> CanTransition(t.status, t'.status))
            && (c.verb != Retry && Live(t') ==> Live(t))
  {
    hide PriorityArg, StepArg;
  }

  predicate Decides(v: Verb) {
    v == Approve || v == Deny
  }

  /** Where a command takes a task from and to, if it moves it at all. */
  predicate Moves(t: Task, v: Verb, to: Status) {
    || (v == Retry && IsTerminal(t.status) && to == Pending)
    || (v == Cancel && Preemptable(t.status) && to == Cancelled)
    || (v == Pause && t.status in {Pending, Waiting} && to == Paused)
    || (v == Resume && t.status == Paused && to == Pending)
    || (Decides(v) && t.status == Waiting && t.waitReason == Some("approval") && to == Pending)
  }

  /** The whole grammar of moves and requests, both ways: a command moves a task exactly where the table above says,
      a running task is asked instead, and approvals and priorities are recorded under their own name only. */
  lemma CommandEffects(t: Task, c: Command, who: string, now: int)
    ensures var t' := Applied(t, c, who, now).0;
            && (forall to: Status :: Moves(t, c.verb, to) ==> t'.status == to)
            && (t'.status != t.status ==> Moves(t, c.verb, t'.status))
            && (t'.asks.cancelRequested <==> t.asks.cancelRequested || (c.verb == Cancel && t.status == Running))
            && (t'.asks.pauseRequested <==> t.asks.pauseRequested || (c.verb == Pause && t.status == Running))
            && t'.asks.priority ==
               (if c.verb == SetPriority && PriorityArg(c) in PRIORITIES then PriorityArg(c) else t.asks.priority)
            && t'.asks.approvals ==
               (if Decides(c.verb) then t.asks.approvals[StepArg(c) := Decision(c.verb == Approve, who, now)]
                                     else t.asks.approvals)
            && (IsTerminal(t'.status) && !IsTerminal(t.status) ==> t'.times.completedAt == Some(now))
            && (IsTerminal(t.status) && !IsTerminal(t'.status) ==>
                  t'.times.completedAt == None && t'.error == None && t'.attempts == 0)
  {
    hide PriorityArg, StepArg;
  }

  /** A decision lands under the step named, cut to 64 characters, or under `all` when none is named, and under no
      other; no other command touches a decision. */
  lemma DecisionLandsOnItsStep(t: Task, c: Command, who: string, now: int)
    ensures var before, after := t.asks.approvals, Applied(t, c, who, now).0.asks.approvals;
            var step := match c.arg
                        case Some(a) => if |a| <= 64 then a else a[..64]
                        case None => "all";
            && (!Decides(c.verb) ==> after == before)
            && (Decides(c.verb) ==>
                  && step in after && after[step] == Decision(c.verb == Approve, who, now)
                  && forall other | other != step ::
                       (other in after <==> other in before) && (other in before ==> after[other] == before[other]))
  {
    hide PriorityArg;
  }

  /** A priority is set exactly to one of the four words, in any case; with any other argument nothing changes. */
  lemma PriorityIsOneOfFour(t: Task, arg: Option<string>, who: string, now: int)
    ensures var t' := Applied(t, Command(SetPriority, arg), who, now).0;
            var p := match arg case Some(a) => Lower(a) case None => "";
            if p in ["low", "normal", "high", "urgent"] then t' == t.(asks := t.asks.(priority := p)) else t' == t
  {
    assert Lower("") == "";
    hide Lower;
  }

  /** What the outcome tells: which of them stand for a move, and which for nothing at all. */
  lemma OutcomeTells(t: Task, c: Command, who: string, now: int)
    ensures var o := Applied(t, c, who, now).1;
            && (o == Retried <==> c.verb == Retry && Moves(t, Retry, Pending))
            && (o == WasCancelled <==> c.verb == Cancel && Moves(t, Cancel, Cancelled))
            && (o == WasPaused <==> c.verb == Pause && Moves(t, Pause, Paused))
            && (o == Resumed <==> c.verb == Resume && Moves(t, Resume, Pending))
            && (o == CancelRequested <==> c.verb == Cancel && t.status == Running)
            && (o == PauseRequested <==> c.verb == Pause && t.status == Running)
            && (o == ApprovalRecorded <==> Decides(c.verb))
            && (o.PrioritySet? <==> c.verb == SetPriority && !IsIgnored(o))
            && (IsIgnored(o) <==> Refuses(t, c))
  {
    hide PriorityArg, StepArg;
  }

  /** What a task does not listen to. */
  predicate Refuses(t: Task, c: Command) {
    match c.verb
    case Retry => !IsTerminal(t.status)
    case Cancel => t.status !in {Pending, Waiting, Paused, Running}
    case Pause => t.status !in {Pending, Waiting, Running}
    case Resume => t.status != Paused
    case SetPriority => PriorityArg(c) !in PRIORITIES
    case _ => false
  }

  /** A pause is undone by a resume, except that a task that waited for something no longer does. */
  lemma ResumeUndoesPause(t: Task, who: string, now: int, who2: string, later: int)
    requires t.status in {Pending, Waiting}
    ensures var t1 := Applied(t, Command(Pause, None), who, now).0;
            var t2 := Applied(t1, Command(Resume, None), who2, later).0;
            && t1.status == Paused && t2 == t.(status := Pending, waitReason := None)
            && (t2 == t <==> t.status == Pending && t.waitReason == None)
  {
  }

  // ------------------------------------------------------------------ task lists

  /** At most one live task per idempotency key. */
  predicate OneLive(ts: seq<Task>) {
    forall i, j | 0 <= i < j < |ts| :: ts[i].key.Some? && ts[i].key == ts[j].key ==> !(Live(ts[i]) && Live(ts[j]))
  }

  predicate UniqueIds(ts: seq<Task>) {
    forall i, j | 0 <= i < j < |ts| :: ts[i].id != ts[j].id
  }

  /** Replacing a task by one with the same key keeps the rule when it does not bring the task to life. */
  lemma OneLiveUpdate(ts: seq<Task>, i: nat, t: Task)
    requires OneLive(ts) && i < |ts| && t.key == ts[i].key && (Live(t) ==> Live(ts[i]))
    ensures OneLive(ts[i := t])
  {
  }

  predicate LiveTwin(ts: seq<Task>, i: nat)
    requires i < |ts|
  {
    ts[i].key.Some? && exists j | 0 <= j < |ts| :: j != i && ts[j].key == ts[i].key && Live(ts[j])
  }

  /** Among all commands only a retry can break the rule, and it does exactly when the task was finished and another
      live task has its key. */
  lemma CommandKeepsOneLiveIff(ts: seq<Task>, i: nat, c: Command, who: string, now: int)
    requires OneLive(ts) && i < |ts|
    ensures OneLive(ts[i := Applied(ts[i], c, who, now).0]) <==>
            !(c.verb == Retry && IsTerminal(ts[i].status) && LiveTwin(ts, i))
  {
    var t' := Applied(ts[i], c, who, now).0;
    CommandLaws(ts[i], c, who, now);
    hide PriorityArg, StepArg;
    if c.verb == Retry && IsTerminal(ts[i].status) {
      var ts' := ts[i := t'];
      assert Live(t') && t'.key == ts[i].key;
      if LiveTwin(ts, i) {
        var j :| 0 <= j < |ts| && j != i && ts[j].key == ts[i].key && Live(ts[j]);
        assert ts'[j] == ts[j] && ts'[i] == t';
      }
    } else {
      OneLiveUpdate(ts, i, t');
    }
  }

  // ------------------------------------------------------------------ the program

  class TaskRecord {
    const id: TaskId
    const issueNumber: Option<nat>
    const key: Option<string>
    const createdAt: int
    var status: Status
    var waitReason: Option<string>
    var completedAt: Option<int>
    var issueUpdatedAtSeen: Option<int>
    var cancelRequested: bool
    var pauseRequested: bool
    var priority: string
    var approvals: map<string, Decision>
    var attempts: nat
    var error: Option<string>
    var duplicateOf: Option<TaskId>

    function Value(): Task
      reads this
    {
      Task(id, issueNumber, key, status, waitReason, Times(createdAt, completedAt, issueUpdatedAtSeen),
           Asks(cancelRequested, pauseRequested, priority, approvals), attempts, error, duplicateOf)
    }

    constructor(t: Task)
      ensures Value() == t
    {
      id, issueNumber, key, createdAt := t.id, t.issueNumber, t.key, t.times.createdAt;
      status, waitReason, completedAt, issueUpdatedAtSeen := t.status, t.waitReason, t.times.completedAt, t.times.seen;
      cancelRequested, pauseRequested, priority := t.asks.cancelRequested, t.asks.pauseRequested, t.asks.priority;
      approvals, attempts, error, duplicateOf := t.asks.approvals, t.attempts, t.error, t.duplicateOf;
    }

    /** The only writer of the status. It refuses a move that the table does not allow, and a wait without a known
        reason. */
    method Transition(to: Status, now: int, why: Option<string>, wait: Option<string>) returns (ok: bool)
      modifies this
      ensures ok <==>
                && CanTransition(old(status), to)
                && (to == Status.Waiting ==> wait.Some? && wait.value in WAIT_REASONS)
      ensures Value() ==
              if !ok then old(Value())
              else Moved(old(Value()), to, now, why).(waitReason := if to == Status.Waiting then wait else None)
    {
      var from := status;
      if !CanTransition(from, to) {
        return false;
      }
      if to == Status.Waiting && (wait.None? || wait.value !in WAIT_REASONS) {
        return false;
      }
      status := to;
      waitReason := if to == Status.Waiting then wait else None;
      if to == Status.Running {
        completedAt := None;
      }
      if to == Status.Pending {
        if from != Status.Waiting && from != Status.Paused && from != Status.Running {
          completedAt := None;
          error := None;
        }
      }
      if IsTerminal(to) || to == PrOpen {
        completedAt := Some(now);
      }
      if why.Some? {
        error := why;
      }
      return true;
    }

    /** One authorized command; none of its transitions can be refused. */
    method ApplyCommand(c: Command, who: string, now: int) returns (outcome: Outcome)
      modifies this
      ensures (Value(), outcome) == Applied(old(Value()), c, who, now)
    {
      hide PriorityArg, StepArg;
      var ok;
      match c.verb {
        case Retry =>
          if IsTerminal(status) {
            attempts := 0;
            ok := Transition(Status.Pending, now, None, None);
            return Retried;
          }
          return IgnoredNotTerminal;
        case Cancel =>
          if Preemptable(status) {
            ok := Transition(Status.Cancelled, now, Some("Cancelled by " + who + "."), None);
            return WasCancelled;
          }
          if status == Status.Running {
            cancelRequested := true;
            return CancelRequested;
          }
          return Ignored;
        case Pause =>
          if status == Status.Pending || status == Status.Waiting {
            ok := Transition(Status.Paused, now, None, None);
            return WasPaused;
          }
          if status == Status.Running {
            pauseRequested := true;
            return PauseRequested;
          }
          return Ignored;
        case Resume =>
          if status == Status.Paused {
            ok := Transition(Status.Pending, now, None, None);
            return Resumed;
          }
          return Ignored;
        case SetPriority =>
          var p := PriorityArg(c);
          if p !in PRIORITIES {
            return IgnoredBadPriority;
          }
          priority := p;
          return PrioritySet(p);
        case _ =>
          approvals := approvals[StepArg(c) := Decision(c.verb == Approve, who, now)];
          if status == Status.Waiting && waitReason == Some("approval") {
            ok := Transition(Status.Pending, now, None, None);
          }
          return ApprovalRecorded;
      }
    }
  }
}
