/** The operator's control plane: one call applies one control action (src/control/dispatch.js). */
module Dispatch {
  import opened Text
  import opened Lifecycle
  import opened IssueSync

  // ------------------------------------------------------------------ naming a task

  function Digits(n: nat): (s: string)
    ensures |s| > 0 && s[0] != '-'
  {
    if n < 10 then [(n + '0' as int) as char] else Digits(n / 10) + [(n % 10 + '0' as int) as char]
  }

  /** The id a task is stored under. */
  function IdText(id: TaskId): string {
    match id
    case FromIssue(n) => "issue-" + Digits(n)
    case Manual(ms) => "manual-" + if ms < 0 then "-" + Digits(-ms) else Digits(ms)
  }

  lemma {:induction false} DigitsInjective(a: nat, b: nat)
    requires Digits(a) == Digits(b)
    ensures a == b
  {
    var s, t := Digits(a), Digits(b);
    assert s[|s| - 1] == t[|t| - 1];
    assert a % 10 == b % 10;
    if a >= 10 && b >= 10 {
      assert Digits(a / 10) == s[..|s| - 1] == t[..|t| - 1] == Digits(b / 10);
      DigitsInjective(a / 10, b / 10);
    }
  }

  /** Two tasks never share the text of their ids. */
  lemma IdTextInjective(a: TaskId, b: TaskId)
    requires IdText(a) == IdText(b)
    ensures a == b
  {
    var s, t := IdText(a), IdText(b);
    assert s[0] == t[0];
    if a.FromIssue? {
      assert s[6..] == Digits(a.number) && t[6..] == Digits(b.number);
      DigitsInjective(a.number, b.number);
    } else {
      var u, v := s[7..], t[7..];
      assert u[0] == v[0];
      if a.ms < 0 {
        assert u[1..] == Digits(-a.ms) && v[1..] == Digits(-b.ms);
        DigitsInjective(-a.ms, -b.ms);
      } else {
        assert u == Digits(a.ms) && v == Digits(b.ms);
        DigitsInjective(a.ms, b.ms);
      }
    }
  }

  /** `tasks.find`: the first task stored under this id. */
  function Named(ts: seq<Task>, target: string): (r: Option<nat>)
    ensures r.Some? ==> r.value < |ts| && IdText(ts[r.value].id) == target
    ensures r.None? ==> forall t | t in ts :: IdText(t.id) != target
  {
    if ts == [] then None
    else if IdText(ts[0].id) == target then Some(0)
    else match Named(ts[1..], target) case Some(i) => Some(i + 1) case None => None
  }

  /** With unique ids a target names one task or none. */
  lemma TargetNamesOne(ts: seq<Task>, i: nat)
    requires UniqueIds(ts) && i < |ts|
    ensures Named(ts, IdText(ts[i].id)) == Some(i)
  {
    hide IdText;
    var target := IdText(ts[i].id);
    assert ts[i] in ts;
    var k := Named(ts, target).value;
    IdTextInjective(ts[k].id, ts[i].id);
  }

  // ------------------------------------------------------------------ one action

  datatype Switch = KillSwitch | Drain | SafeMode

  datatype Action = Flip(switch: Switch) | Autonomy | OnTask(verb: Verb)

  /** The fixed table of actions. */
  function ActionNamed(s: string): Option<Action> {
    if s == "kill-switch" then Some(Flip(KillSwitch))
    else if s == "drain" then Some(Flip(Drain))
    else if s == "safe-mode" then Some(Flip(SafeMode))
    else if s == "autonomy" then Some(Autonomy)
    else if s == "cancel" then Some(OnTask(Cancel))
    else if s == "pause" then Some(OnTask(Pause))
    else if s == "resume" then Some(OnTask(Resume))
    else if s == "retry" then Some(OnTask(Retry))
    else if s == "priority" then Some(OnTask(SetPriority))
    else if s == "approve" then Some(OnTask(Approve))
    else if s == "deny" then Some(OnTask(Deny))
    else None
  }

  const ON_WORDS := ["on", "true", "1", "yes"]
  const OFF_WORDS := ["off", "false", "0", "no"]
  const AUTONOMY_LEVELS := ["dry-run", "propose", "approval", "autonomous"]

  function ParseOnOff(value: Option<string>): Option<bool> {
    var v := Lower(Trim(OrEmpty(value)));
    if v in ON_WORDS then Some(true) else if v in OFF_WORDS then Some(false) else None
  }

  function OrEmpty(s: Option<string>): string {
    match s case Some(t) => t case None => ""
  }

  /** A call as it arrives, and after trimming and cutting. */
  datatype Input = Input(action: string, target: Option<string>, argument: Option<string>, reason: Option<string>,
      who: string)

  function Cut(s: Option<string>, n: nat): Option<string> {
    match s case Some(t) => Some(Take(Trim(t), n)) case None => None
  }

  function Cleaned(i: Input): Input {
    var reason := Cut(i.reason, 300);
    Input(Lower(Trim(i.action)), Cut(i.target, 120), Cut(i.argument, 64),
          if reason == Some("") then None else reason, Take(Trim(i.who), 80))
  }

  /** What was changed last, by whom and why. */
  datatype Stamp = Stamp(updatedAt: Option<int>, updatedBy: Option<string>, reason: Option<string>)

  datatype Control = Control(switches: map<Switch, bool>, autonomy: string, stamp: Stamp)

  datatype Verdict =
    | RejectedNoActor | RejectedUnknownAction | RejectedBadArgument | RejectedNoTarget | RejectedNoSuchTask
    | Unchanged | Flipped(switch: Switch, on: bool) | AutonomySet(level: string) | OfTask(outcome: Outcome)

  datatype Response = Response(ok: bool, verdict: Verdict, control: Control)

  /** The `control.action` event. */
  datatype Audit = Audit(call: Input, verdict: Verdict)

  function Stamped(c: Control, call: Input, now: int): Control {
    c.(stamp := Stamp(Some(now), Some(call.who), call.reason))
  }

  /** The argument of a task command, where it takes one: approvals default to all steps. */
  function CommandFor(verb: Verb, argument: Option<string>): (r: Option<Command>)
    ensures r.Some? ==> r.value.verb == verb
  {
    if verb in {SetPriority, Approve, Deny} then
      var arg := match argument case Some(a) => a case None => if verb == SetPriority then "" else "all";
      if arg == "" then None else Some(Command(verb, Some(arg)))
    else Some(Command(verb, None))
  }

  /** A command that gets through to a task. */
  datatype Steer = Steer(index: nat, command: Command, who: string)

  function No(v: Verdict, control: Control): (Response, Option<Steer>) {
    (Response(false, v, control), None)
  }

  /** The answer of one call, and the task command it carries out, if any. */
  function Dispatched(input: Input, control: Control, ts: seq<Task>, now: int): (r: (Response, Option<Steer>))
    ensures r.1.Some? ==> r.1.value.index < |ts| && IdText(ts[r.1.value.index].id) == OrEmpty(Cleaned(input).target)
  {
    var call := Cleaned(input);
    if call.who == "" then No(RejectedNoActor, control)
    else match ActionNamed(call.action)
    case None => No(RejectedUnknownAction, control)
    case Some(Flip(s)) =>
      (match ParseOnOff(OrElse(call.argument, call.target))
       case None => No(RejectedBadArgument, control)
       case Some(on) =>
         (Response(true, if s in control.switches && control.switches[s] == on then Unchanged else Flipped(s, on),
                   Stamped(control.(switches := control.switches[s := on]), call, now)), None))
    case Some(Autonomy) =>
      var level := Lower(OrEmpty(OrElse(call.argument, call.target)));
      if level !in AUTONOMY_LEVELS then No(RejectedBadArgument, control)
      else (Response(true, if control.autonomy == level then Unchanged else AutonomySet(level),
                     Stamped(control.(autonomy := level), call, now)), None)
    case Some(OnTask(verb)) => Commanded(verb, call, control, ts, now)
  }

  function Commanded(verb: Verb, call: Input, control: Control, ts: seq<Task>, now: int): (r: (Response, Option<Steer>))
    ensures r.1.Some? ==> r.1.value.index < |ts| && IdText(ts[r.1.value.index].id) == OrEmpty(call.target)
  {
    if OrEmpty(call.target) == "" then No(RejectedNoTarget, control)
    else match Named(ts, call.target.value)
    case None => No(RejectedNoSuchTask, control)
    case Some(i) =>
      match CommandFor(verb, call.argument)
      case None => No(RejectedBadArgument, control)
      case Some(command) =>
        var outcome := Applied(ts[i], command, call.who, now).1;
        (Response(!IsIgnored(outcome), OfTask(outcome), control), Some(Steer(i, command, call.who)))
  }

  function Steered(ts: seq<Task>, s: Option<Steer>, now: int): (r: seq<Task>)
    requires s.Some? ==> s.value.index < |ts|
    ensures |r| == |ts|
  {
    match s
    case None => ts
    case Some(Steer(i, command, who)) => ts[i := Applied(ts[i], command, who, now).0]
  }

  /** A refused call changes neither the control file nor any task. An accepted one changes one of the two: the
      control file at the one field named, stamped with actor and reason, or one task, which is the one named. */
  lemma OneCallLaws(input: Input, control: Control, ts: seq<Task>, now: int)
    ensures var (r, s) := Dispatched(input, control, ts, now);
            var call := Cleaned(input);
            && (!r.ok ==> r.control == control && Steered(ts, s, now) == ts)
            && (r.ok ==> call.who != "" && (s.Some? <==> r.verdict.OfTask?))
            && (s.Some? ==> r.control == control)
            && (ActionNamed(call.action) != Some(Autonomy) ==> r.control.autonomy == control.autonomy)
            && (s.None? && r.ok ==> r.control.stamp == Stamp(Some(now), Some(call.who), call.reason))
            && (r.ok && s.None? ==>
                  (r.verdict == Unchanged <==> r.control == control.(stamp := r.control.stamp)))
            && (r.verdict.Flipped? ==> Setting(r.control, r.verdict.switch) == Some(r.verdict.on))
            && (r.verdict.AutonomySet? ==> r.control.autonomy == r.verdict.level)
  {
    var call := Cleaned(input);
    hide Applied, ParseOnOff, ActionNamed, CommandFor, Cleaned, Commanded, Named, IdText, Lower, Trim;
    if call.who != "" && ActionNamed(call.action).Some? && ActionNamed(call.action).value.OnTask? {
      CommandedLaws(ActionNamed(call.action).value.verb, call, control, ts, now);
    }
  }

  lemma CommandedLaws(verb: Verb, call: Input, control: Control, ts: seq<Task>, now: int)
    ensures var (r, s) := Commanded(verb, call, control, ts, now);
            && (!r.ok ==> Steered(ts, s, now) == ts)
            && r.control == control && (r.ok ==> s.Some? && r.verdict.OfTask?)
            && r.verdict != Unchanged && !r.verdict.Flipped? && !r.verdict.AutonomySet?
  {
    var (r, s) := Commanded(verb, call, control, ts, now);
    if s.Some? {
      CommandLaws(ts[s.value.index], s.value.command, s.value.who, now);
    }
    hide Applied, CommandFor;
  }

  // ------------------------------------------------------------------ whole runs

  datatype World = World(control: Control, tasks: seq<Task>, audits: seq<Audit>)

  /** A control action, or an authorized command from an issue comment on the task at an index. */
  datatype Event = Act(input: Input, now: int) | Relay(steer: Steer, now: int)

  /** The command an event carries out on the tasks. */
  function SteerOf(w: World, e: Event): (s: Option<Steer>)
    ensures s.Some? ==> s.value.index < |w.tasks|
  {
    match e
    case Act(input, now) => Dispatched(input, w.control, w.tasks, now).1
    case Relay(steer, now) => if steer.index < |w.tasks| then Some(steer) else None
  }

  function Next(w: World, e: Event): World {
    var tasks := Steered(w.tasks, SteerOf(w, e), e.now);
    match e
    case Act(input, now) =>
      var r := Dispatched(input, w.control, w.tasks, now).0;
      World(r.control, tasks, w.audits + [Audit(Cleaned(input), r.verdict)])
    case Relay(_, _) => w.(tasks := tasks)
  }

  function Exec(w: World, es: seq<Event>): World
    decreases |es|
  {
    if es == [] then w else Exec(Next(w, es[0]), es[1..])
  }

  lemma OneStep(w: World, e: Event, i: nat)
    requires i < |w.tasks|
    ensures var w' := Next(w, e);
            && |w'.tasks| == |w.tasks| && w'.tasks[i].id == w.tasks[i].id
            && (w.tasks[i].status == Running ==> w'.tasks[i].status == Running)
            && (IsTerminal(w.tasks[i].status) && w'.tasks[i].status != w.tasks[i].status ==> RetriesTask(w, e, i))
  {
    var s := SteerOf(w, e);
    if s.Some? && s.value.index == i {
      CommandLaws(w.tasks[i], s.value.command, s.value.who, e.now);
    }
    hide Applied, Dispatched;
  }

  /** This event applies a retry to this task. */
  predicate RetriesTask(w: World, e: Event, i: nat) {
    var s := SteerOf(w, e);
    s.Some? && s.value.index == i && s.value.command.verb == Retry
  }

  /** Over every sequence of control actions and issue commands a running task stays running. */
  lemma {:induction false} RunningIsNotInterrupted(w: World, es: seq<Event>, i: nat)
    requires i < |w.tasks| && w.tasks[i].status == Running
    ensures i < |Exec(w, es).tasks| && Exec(w, es).tasks[i].status == Running
    decreases |es|
  {
    if es != [] {
      OneStep(w, es[0], i);
      RunningIsNotInterrupted(Next(w, es[0]), es[1..], i);
    }
  }

  predicate RetriedAt(w: World, es: seq<Event>, i: nat, k: nat)
    requires k < |es|
  {
    RetriesTask(Exec(w, es[..k]), es[k], i)
  }

  /** Over every such sequence a finished task leaves its status only where a retry was applied to it. */
  lemma {:induction false} FinishedLeavesByRetryOnly(w: World, es: seq<Event>, i: nat)
    requires i < |w.tasks| && IsTerminal(w.tasks[i].status)
    ensures |Exec(w, es).tasks| == |w.tasks|
    ensures Exec(w, es).tasks[i].status == w.tasks[i].status || exists k | 0 <= k < |es| :: RetriedAt(w, es, i, k)
    decreases |es|
  {
    if es != [] {
      var e, rest, w' := es[0], es[1..], Next(w, es[0]);
      OneStep(w, e, i);
      SameCount(w', rest);
      if w'.tasks[i].status != w.tasks[i].status {
        assert RetriedAt(w, es, i, 0);
      } else {
        FinishedLeavesByRetryOnly(w', rest, i);
        hide Next, RetriedAt;
        if k :| 0 <= k < |rest| && RetriedAt(w', rest, i, k) {
          RetriedLater(w, es, i, k);
        }
      }
    }
  }

  lemma RetriedLater(w: World, es: seq<Event>, i: nat, k: nat)
    requires k + 1 < |es| && RetriedAt(Next(w, es[0]), es[1..], i, k)
    ensures RetriedAt(w, es, i, k + 1)
  {
    hide Next, RetriesTask;
    var front := es[..k + 1];
    assert front[1..] == es[1..][..k] && front[0] == es[0];
    assert Exec(w, front) == Exec(Next(w, es[0]), es[1..][..k]);
  }

  lemma {:induction false} SameCount(w: World, es: seq<Event>)
    ensures |Exec(w, es).tasks| == |w.tasks|
    decreases |es|
  {
    if es != [] {
      SameCount(Next(w, es[0]), es[1..]);
    }
  }

  /** A retry that brings a task back beside a live one with its key. */
  predicate RevivesTwin(w: World, e: Event) {
    var s := SteerOf(w, e);
    && s.Some? && s.value.command.verb == Retry
    && IsTerminal(w.tasks[s.value.index].status) && LiveTwin(w.tasks, s.value.index)
  }

  lemma StepKeepsOneLiveIff(w: World, e: Event)
    requires OneLive(w.tasks)
    ensures OneLive(Next(w, e).tasks) <==> !RevivesTwin(w, e)
  {
    var s := SteerOf(w, e);
    if s.Some? {
      CommandKeepsOneLiveIff(w.tasks, s.value.index, s.value.command, s.value.who, e.now);
    }
    hide Applied, Dispatched;
  }

  predicate NoTwinRevived(w: World, es: seq<Event>)
    decreases |es|
  {
    es == [] || (!RevivesTwin(w, es[0]) && NoTwinRevived(Next(w, es[0]), es[1..]))
  }

  /** At most one live task per key is kept along every run in which no retry revives a twin; by the step above the
      first such retry breaks it. */
  lemma {:induction false} RunKeepsOneLive(w: World, es: seq<Event>)
    requires OneLive(w.tasks) && NoTwinRevived(w, es)
    ensures OneLive(Exec(w, es).tasks)
    decreases |es|
  {
    if es != [] {
      StepKeepsOneLiveIff(w, es[0]);
      hide RevivesTwin, Next;
      RunKeepsOneLive(Next(w, es[0]), es[1..]);
    }
  }

  /** The control calls of a run. */
  function Calls(es: seq<Event>): seq<Input> {
    if es == [] then [] else (if es[0].Act? then [Cleaned(es[0].input)] else []) + Calls(es[1..])
  }

  function AuditedCalls(audits: seq<Audit>): (r: seq<Input>)
    ensures |r| == |audits|
  {
    seq(|audits|, i requires 0 <= i < |audits| => audits[i].call)
  }

  /** The audit trail of every run: one event for each call, in order, and nothing else. */
  lemma {:induction false} EveryCallIsAudited(w: World, es: seq<Event>)
    ensures AuditedCalls(Exec(w, es).audits) == AuditedCalls(w.audits) + Calls(es)
    decreases |es|
  {
    if es != [] {
      OneCallIsAudited(w, es[0]);
      hide Cleaned, Next, AuditedCalls;
      EveryCallIsAudited(Next(w, es[0]), es[1..]);
    }
  }

  lemma OneCallIsAudited(w: World, e: Event)
    ensures AuditedCalls(Next(w, e).audits) == AuditedCalls(w.audits) + if e.Act? then [Cleaned(e.input)] else []
  {
    hide Cleaned, SteerOf, Dispatched;
  }

  /** What a call says about one switch, read off the call alone. */
  function Says(s: Switch, input: Input): Option<bool> {
    var call := Cleaned(input);
    if call.who != "" && ActionNamed(call.action) == Some(Flip(s))
    then ParseOnOff(OrElse(call.argument, call.target))
    else None
  }

  function LastWord(s: Switch, es: seq<Event>, before: Option<bool>): Option<bool> {
    if es == [] then before
    else
      var e := es[|es| - 1];
      if e.Act? && Says(s, e.input).Some? then Says(s, e.input) else LastWord(s, es[..|es| - 1], before)
  }

  function Setting(c: Control, s: Switch): Option<bool> {
    if s in c.switches then Some(c.switches[s]) else None
  }

  lemma ExecSnoc(w: World, es: seq<Event>, e: Event)
    ensures Exec(w, es + [e]) == Next(Exec(w, es), e)
    decreases |es|
  {
    if es == [] {
      assert Exec(Next(w, e), []) == Next(w, e);
    } else {
      hide Next;
      assert (es + [e])[1..] == es[1..] + [e];
      ExecSnoc(Next(w, es[0]), es[1..], e);
    }
  }

  /** After every run each switch stands where the last well-formed call about it put it, whatever else was asked. */
  lemma {:induction false} LastWordWins(w: World, es: seq<Event>, s: Switch)
    ensures Setting(Exec(w, es).control, s) == LastWord(s, es, Setting(w.control, s))
    decreases |es|
  {
    if es == [] {
      assert Exec(w, es) == w;
    } else {
      var init, e := es[..|es| - 1], es[|es| - 1];
      LastWordWins(w, init, s);
      OneSetting(Exec(w, init), e, s);
      LastEvent(w, es);
      hide Next, Says, Exec, Setting;
    }
  }

  lemma LastEvent(w: World, es: seq<Event>)
    requires es != []
    ensures Exec(w, es) == Next(Exec(w, es[..|es| - 1]), es[|es| - 1])
  {
    hide Exec, Next;
    var init, e := es[..|es| - 1], es[|es| - 1];
    assert es == init + [e];
    ExecSnoc(w, init, e);
  }

  lemma OneSetting(w: World, e: Event, s: Switch)
    ensures Setting(Next(w, e).control, s) ==
            if e.Act? && Says(s, e.input).Some? then Says(s, e.input) else Setting(w.control, s)
  {
    hide Commanded, ParseOnOff, ActionNamed, CommandFor, Cleaned, Steered, Lower, IdText;
    if e.Act? {
      var call := Cleaned(e.input);
      if call.who != "" && ActionNamed(call.action).Some? && ActionNamed(call.action).value.OnTask? {
        CommandedLaws(ActionNamed(call.action).value.verb, call, w.control, w.tasks, e.now);
      }
    }
  }

  // ------------------------------------------------------------------ the words of the operator

  /** The word a call puts after its action: the argument or, without one, the target. */
  function Word(i: Input): string {
    match i.argument
    case Some(a) => Take(Trim(a), 64)
    case None => match i.target case Some(t) => Take(Trim(t), 120) case None => ""
  }

  predicate Signed(i: Input) {
    Trim(i.who) != ""
  }

  /** The words for on and for off, in any case and with any white space around them. */
  predicate Means(word: string, on: bool) {
    Lower(Trim(word)) in if on then ["on", "true", "1", "yes"] else ["off", "false", "0", "no"]
  }

  /** A signed call that names the action and says on, or off. */
  predicate Turns(i: Input, name: string, on: bool) {
    Signed(i) && Lower(Trim(i.action)) == name && Means(Word(i), on)
  }

  predicate SwitchName(s: Switch, name: string) {
    match s
    case KillSwitch => name == "kill-switch"
    case Drain => name == "drain"
    case SafeMode => name == "safe-mode"
  }

  lemma NamesOfSwitches(name: string, s: Switch)
    ensures ActionNamed(name) == Some(Flip(s)) <==> SwitchName(s, name)
  {
  }

  lemma WordsOfSwitches(value: Option<string>)
    ensures ParseOnOff(value) == Some(true) <==> Means(OrEmpty(value), true)
    ensures ParseOnOff(value) == Some(false) <==> Means(OrEmpty(value), false)
  {
    hide Lower, Trim;
    assert |"on"| == 2 && |"true"| == 4 && |"1"| == 1 && |"yes"| == 3;
    assert |"off"| == 3 && |"false"| == 5 && |"0"| == 1 && |"no"| == 2;
    assert "on"[1] == 'n' && "no"[1] == 'o' && "yes"[0] == 'y' && "off"[0] == 'o' && "1"[0] == '1' && "0"[0] == '0';
  }

  lemma OneName(s: Switch, name: string, other: string)
    requires SwitchName(s, name)
    ensures SwitchName(s, other) <==> other == name
  {
  }

  lemma CallOf(i: Input)
    ensures var call := Cleaned(i);
            && (call.who != "" <==> Signed(i)) && call.action == Lower(Trim(i.action))
            && OrEmpty(OrElse(call.argument, call.target)) == Word(i)
  {
    hide Lower, Trim;
  }

  lemma SaysMeans(s: Switch, name: string, i: Input)
    requires SwitchName(s, name)
    ensures Says(s, i) == Some(true) <==> Turns(i, name, true)
    ensures Says(s, i) == Some(false) <==> Turns(i, name, false)
  {
    var call := Cleaned(i);
    hide ActionNamed, ParseOnOff, Lower, Trim, SwitchName, Means, Cleaned, Word, Signed, OrElse, OrEmpty;
    CallOf(i);
    NamesOfSwitches(call.action, s);
    OneName(s, name, call.action);
    WordsOfSwitches(OrElse(call.argument, call.target));
  }

  /** A well-formed call about this switch. */
  predicate Speaks(e: Event, name: string) {
    e.Act? && (Turns(e.input, name, true) || Turns(e.input, name, false))
  }

  lemma LastWordStep(s: Switch, name: string, es: seq<Event>, before: Option<bool>)
    requires SwitchName(s, name) && es != []
    ensures var last := es[|es| - 1];
            && (!Speaks(last, name) ==> LastWord(s, es, before) == LastWord(s, es[..|es| - 1], before))
            && (last.Act? && Turns(last.input, name, true) ==> LastWord(s, es, before) == Some(true))
            && (last.Act? && Turns(last.input, name, false) ==> LastWord(s, es, before) == Some(false))
  {
    var last := es[|es| - 1];
    if last.Act? {
      SaysMeans(s, name, last.input);
    }
    hide Says, Turns, SwitchName;
  }

  lemma {:induction false} LastWordIs(s: Switch, name: string, es: seq<Event>, k: nat, on: bool, before: Option<bool>)
    requires SwitchName(s, name) && k < |es| && es[k].Act? && Turns(es[k].input, name, on)
    requires forall j | k < j < |es| :: !Speaks(es[j], name)
    ensures LastWord(s, es, before) == Some(on)
  {
    hide LastWord, Turns, SwitchName, Speaks;
    LastWordStep(s, name, es, before);
    if k < |es| - 1 {
      LastWordIs(s, name, es[..|es| - 1], k, on, before);
    }
  }

  /** The switches by name and by word. After every run whose last well-formed call about `kill-switch`, `drain` or
      `safe-mode` says `on`, `true`, `1` or `yes`, that switch is on; after one whose last says `off`, `false`, `0` or
      `no`, it is off. */
  lemma SwitchStandsAsSaid(w: World, es: seq<Event>, s: Switch, name: string, k: nat, on: bool)
    requires SwitchName(s, name) && k < |es| && es[k].Act? && Turns(es[k].input, name, on)
    requires forall j | k < j < |es| :: !Speaks(es[j], name)
    ensures var switches := Exec(w, es).control.switches; s in switches && switches[s] == on
  {
    LastWordWins(w, es, s);
    LastWordIs(s, name, es, k, on, Setting(w.control, s));
    hide Exec, LastWord, Turns, Speaks;
  }

  /** A signed call that asks for one of the four levels. */
  predicate AsksLevel(i: Input, level: string) {
    && Signed(i) && Lower(Trim(i.action)) == "autonomy" && Lower(Word(i)) == level
    && level in ["dry-run", "propose", "approval", "autonomous"]
  }

  lemma NameOfAutonomy(name: string)
    ensures ActionNamed(name) == Some(Autonomy) <==> name == "autonomy"
  {
  }

  lemma AsksLevelMeans(i: Input)
    ensures var call := Cleaned(i);
            && Lower(OrEmpty(OrElse(call.argument, call.target))) == Lower(Word(i))
            && (AsksLevel(i, Lower(Word(i))) <==>
                  call.who != "" && ActionNamed(call.action) == Some(Autonomy) && Lower(Word(i)) in AUTONOMY_LEVELS)
  {
    NameOfAutonomy(Cleaned(i).action);
    hide ActionNamed, Lower, Trim;
  }

  lemma LevelOfCall(i: Input, control: Control, ts: seq<Task>, now: int)
    ensures Dispatched(i, control, ts, now).0.control.autonomy ==
            if AsksLevel(i, Lower(Word(i))) then Lower(Word(i)) else control.autonomy
  {
    var call := Cleaned(i);
    AsksLevelMeans(i);
    hide AsksLevel, AUTONOMY_LEVELS, ActionNamed, ParseOnOff, Lower, Cleaned, Commanded, Word, OrElse, OrEmpty;
    if call.who != "" && ActionNamed(call.action).Some? && ActionNamed(call.action).value.OnTask? {
      CommandedLaws(ActionNamed(call.action).value.verb, call, control, ts, now);
    }
  }

  /** This call asks for a level. */
  predicate AsksSome(e: Event) {
    e.Act? && AsksLevel(e.input, Lower(Word(e.input)))
  }

  lemma OneLevel(w: World, e: Event)
    ensures AsksSome(e) ==> Next(w, e).control.autonomy == Lower(Word(e.input))
    ensures !AsksSome(e) ==> Next(w, e).control.autonomy == w.control.autonomy
  {
    if e.Act? {
      LevelOfCall(e.input, w.control, w.tasks, e.now);
    }
    hide AsksLevel, Dispatched, Lower, Word, Steered;
  }

  /** The same for autonomy: it is the level that the last well-formed call about it asked for. */
  lemma {:induction false} AutonomyStandsAsAsked(w: World, es: seq<Event>, k: nat, level: string)
    requires k < |es| && es[k].Act? && AsksLevel(es[k].input, level)
    requires forall j | k < j < |es| :: !AsksSome(es[j])
    ensures Exec(w, es).control.autonomy == level
    decreases |es|
  {
    var init, last := es[..|es| - 1], es[|es| - 1];
    LastEvent(w, es);
    OneLevel(Exec(w, init), last);
    assert AsksSome(es[k]) && level == Lower(Word(es[k].input));
    hide Exec, Next, AsksLevel, Word, AsksSome;
    if k < |es| - 1 {
      assert !AsksSome(last);
      assert forall j | k < j < |init| :: !AsksSome(es[j]);
      AutonomyStandsAsAsked(w, init, k, level);
    }
  }

  predicate VerbName(v: Verb, name: string) {
    match v
    case Cancel => name == "cancel"
    case Pause => name == "pause"
    case Resume => name == "resume"
    case Retry => name == "retry"
    case SetPriority => name == "priority"
    case Approve => name == "approve"
    case Deny => name == "deny"
  }

  lemma NamesOfVerbs(name: string, v: Verb)
    requires VerbName(v, name)
    ensures ActionNamed(name) == Some(OnTask(v))
  {
  }

  /** The argument that the verb then has: a priority must be given, a decision is about all steps unless one is
      named. */
  predicate ArgumentFor(v: Verb, given: Option<string>, arg: Option<string>) {
    if v == SetPriority then given.Some? && given.value != "" && arg == given
    else if v == Approve || v == Deny then given != Some("") && arg == if given.Some? then given else Some("all")
    else arg == None
  }

  lemma ArgumentGiven(v: Verb, given: Option<string>, arg: Option<string>)
    requires ArgumentFor(v, given, arg)
    ensures CommandFor(v, given) == Some(Command(v, arg))
  {
  }

  lemma CommandedSteers(call: Input, control: Control, ts: seq<Task>, now: int, k: nat, c: Command)
    requires call.target.Some? && call.target.value != "" && Named(ts, call.target.value) == Some(k)
    requires CommandFor(c.verb, call.argument) == Some(c)
    ensures var (r, s) := Commanded(c.verb, call, control, ts, now);
            r.control == control && s == Some(Steer(k, c, call.who))
  {
    hide Named, CommandFor, IdText, Applied;
  }

  lemma DispatchedIsCommanded(i: Input, control: Control, ts: seq<Task>, now: int, v: Verb)
    requires Cleaned(i).who != "" && ActionNamed(Cleaned(i).action) == Some(OnTask(v))
    ensures Dispatched(i, control, ts, now) == Commanded(v, Cleaned(i), control, ts, now)
  {
    hide Cleaned, ActionNamed, Commanded, ParseOnOff, Lower;
  }

  lemma FieldsOf(i: Input)
    ensures var call := Cleaned(i);
            && (call.who != "" <==> Signed(i)) && call.who == Take(Trim(i.who), 80)
            && call.action == Lower(Trim(i.action)) && call.argument == Cut(i.argument, 64)
            && call.target == Cut(i.target, 120)
  {
    hide Lower, Trim;
  }

  lemma CutTarget(target: Option<string>, id: string)
    requires target.Some? && Take(Trim(target.value), 120) == id != ""
    ensures Cut(target, 120) == Some(id)
  {
    hide Lower, Trim;
  }

  lemma NamedTaskSteers(control: Control, ts: seq<Task>, i: Input, now: int, k: nat, v: Verb, arg: Option<string>)
    requires Signed(i) && VerbName(v, Lower(Trim(i.action))) && UniqueIds(ts) && k < |ts|
    requires i.target.Some? && Take(Trim(i.target.value), 120) == IdText(ts[k].id)
    requires ArgumentFor(v, Cut(i.argument, 64), arg)
    ensures var (r, s) := Dispatched(i, control, ts, now);
            r.control == control && s == Some(Steer(k, Command(v, arg), Take(Trim(i.who), 80)))
  {
    var call := Cleaned(i);
    FieldsOf(i);
    NamesOfVerbs(call.action, v);
    TargetNamesOne(ts, k);
    IdIsNotEmpty(ts[k].id);
    ArgumentGiven(v, call.argument, arg);
    CutTarget(i.target, IdText(ts[k].id));
    hide *;
    CommandedSteers(call, control, ts, now, k, Command(v, arg));
    DispatchedIsCommanded(i, control, ts, now, v);
  }

  /** The task commands by name: a signed call with the name of the verb and the id of a task carries out that command,
      on that task and no other, and so moves it as the verb says and not otherwise. */
  lemma NamedTaskMoves(w: World, i: Input, now: int, k: nat, v: Verb, arg: Option<string>)
    requires Signed(i) && VerbName(v, Lower(Trim(i.action))) && UniqueIds(w.tasks) && k < |w.tasks|
    requires i.target.Some? && Take(Trim(i.target.value), 120) == IdText(w.tasks[k].id)
    requires ArgumentFor(v, Cut(i.argument, 64), arg)
    ensures var w' := Next(w, Act(i, now));
            && w'.control == w.control
            && w'.tasks == w.tasks[k := Applied(w.tasks[k], Command(v, arg), Take(Trim(i.who), 80), now).0]
            && (forall to: Status :: Moves(w.tasks[k], v, to) ==> w'.tasks[k].status == to)
            && (w'.tasks[k].status != w.tasks[k].status ==> Moves(w.tasks[k], v, w'.tasks[k].status))
  {
    NamedTaskSteers(w.control, w.tasks, i, now, k, v, arg);
    CommandEffects(w.tasks[k], Command(v, arg), Take(Trim(i.who), 80), now);
    hide Dispatched, Applied, Moves, IdText, UniqueIds, VerbName, ArgumentFor, Trim;
  }

  /** A word for something done to a task. */
  predicate TaskWord(name: string) {
    name in ["cancel", "pause", "resume", "retry", "priority", "approve", "deny"]
  }

  predicate SwitchWord(name: string) {
    name in ["kill-switch", "drain", "safe-mode"]
  }

  lemma KindsOfNames(name: string)
    ensures ActionNamed(name).None? <==> !SwitchWord(name) && name != "autonomy" && !TaskWord(name)
    ensures ActionNamed(name).Some? && ActionNamed(name).value.Flip? <==> SwitchWord(name)
    ensures ActionNamed(name) == Some(Autonomy) <==> name == "autonomy"
    ensures ActionNamed(name).Some? && ActionNamed(name).value.OnTask? <==> TaskWord(name)
  {
  }

  /** The argument is not one that the action can take. */
  predicate BadArgument(name: string, i: Input) {
    if SwitchWord(name) then !Means(Word(i), true) && !Means(Word(i), false)
    else if name == "autonomy" then Lower(Word(i)) !in ["dry-run", "propose", "approval", "autonomous"]
    else if name == "priority" then OrEmpty(Cut(i.argument, 64)) == ""
    else (name == "approve" || name == "deny") && Cut(i.argument, 64) == Some("")
  }

  lemma NoArgument(name: string, i: Input, v: Verb)
    requires ActionNamed(name) == Some(OnTask(v))
    ensures CommandFor(v, Cut(i.argument, 64)).None? <==> BadArgument(name, i)
  {
    hide Lower, Trim, Take, Means, Word;
  }

  /** Why a call is refused, as far as it is the call's fault: each answer has its own condition, and a call that meets
      none of them is refused exactly when the task does not listen to the command. */
  lemma WhyRefused(i: Input, control: Control, ts: seq<Task>, now: int)
    ensures var (r, s) := Dispatched(i, control, ts, now);
            var name, target := Lower(Trim(i.action)), OrEmpty(Cut(i.target, 120));
            var known := exists t :: t in ts && IdText(t.id) == target;
            && (r.verdict == RejectedNoActor <==> !Signed(i))
            && (r.verdict == RejectedUnknownAction <==>
                  Signed(i) && !SwitchWord(name) && name != "autonomy" && !TaskWord(name))
            && (r.verdict == RejectedNoTarget <==> Signed(i) && TaskWord(name) && target == "")
            && (r.verdict == RejectedNoSuchTask <==> Signed(i) && TaskWord(name) && target != "" && !known)
            && (r.verdict == RejectedBadArgument <==>
                  && Signed(i) && BadArgument(name, i)
                  && (SwitchWord(name) || name == "autonomy" || (TaskWord(name) && target != "" && known)))
            && (s.Some? ==> r.verdict.OfTask? && (r.ok <==> !Refuses(ts[s.value.index], s.value.command)))
            && (s.None? ==> (r.ok <==> r.verdict.Flipped? || r.verdict.AutonomySet? || r.verdict == Unchanged))
  {
    var call := Cleaned(i);
    FieldsOf(i);
    KindsOfNames(call.action);
    hide Dispatched, Cleaned, IdText, Lower, Trim, Take, Cut, BadArgument, SwitchWord, TaskWord, Signed, ActionNamed;
    if !Signed(i) || ActionNamed(call.action).None? {
      NobodyOrNothing(i, control, ts, now);
    } else if ActionNamed(call.action).value.OnTask? {
      TaskAnswer(i, control, ts, now, ActionNamed(call.action).value.verb);
    } else {
      ControlAnswer(i, control, ts, now);
    }
  }

  lemma NobodyOrNothing(i: Input, control: Control, ts: seq<Task>, now: int)
    requires !Signed(i) || ActionNamed(Cleaned(i).action).None?
    ensures Dispatched(i, control, ts, now) ==
            No(if Signed(i) then RejectedUnknownAction else RejectedNoActor, control)
  {
    FieldsOf(i);
    hide Cleaned, ActionNamed, Commanded, ParseOnOff, Lower, Trim, Signed;
  }

  /** An answer about the control file: the argument is bad, or the answer is positive. */
  lemma ControlAnswer(i: Input, control: Control, ts: seq<Task>, now: int)
    requires var a := ActionNamed(Cleaned(i).action); Signed(i) && a.Some? && !a.value.OnTask?
    ensures var (r, s) := Dispatched(i, control, ts, now);
            && s.None? && (r.ok <==> r.verdict.Flipped? || r.verdict.AutonomySet? || r.verdict == Unchanged)
            && (!r.ok <==> r.verdict == RejectedBadArgument)
            && (!r.ok <==> BadArgument(Lower(Trim(i.action)), i))
  {
    var call := Cleaned(i);
    FieldsOf(i);
    CallOf(i);
    KindsOfNames(call.action);
    WordsOfSwitches(OrElse(call.argument, call.target));
    hide Cleaned, ActionNamed, ParseOnOff, Commanded, Means, Word, Lower, Trim, Take, Signed, SwitchWord, TaskWord;
  }

  lemma TaskAnswer(i: Input, control: Control, ts: seq<Task>, now: int, v: Verb)
    requires Signed(i) && ActionNamed(Cleaned(i).action) == Some(OnTask(v))
    ensures var (r, s) := Dispatched(i, control, ts, now);
            var target := OrEmpty(Cut(i.target, 120));
            var known := exists t :: t in ts && IdText(t.id) == target;
            && (r.verdict == RejectedNoTarget <==> target == "")
            && (r.verdict == RejectedNoSuchTask <==> target != "" && !known)
            && (r.verdict == RejectedBadArgument <==>
                  target != "" && known && BadArgument(Lower(Trim(i.action)), i))
            && (s.Some? <==> r.verdict.OfTask?) && (s.None? ==> !r.ok)
            && !r.verdict.Flipped? && !r.verdict.AutonomySet? && r.verdict != Unchanged
            && r.verdict != RejectedNoActor && r.verdict != RejectedUnknownAction
            && (s.Some? ==> (r.ok <==> !Refuses(ts[s.value.index], s.value.command)))
  {
    var call := Cleaned(i);
    FieldsOf(i);
    NoArgument(call.action, i, v);
    WhyNot(v, call, control, ts, now);
    DispatchedIsCommanded(i, control, ts, now, v);
    hide *;
  }

  lemma WhyNot(v: Verb, call: Input, control: Control, ts: seq<Task>, now: int)
    ensures var (r, s) := Commanded(v, call, control, ts, now);
            var target := OrEmpty(call.target);
            var known := exists t :: t in ts && IdText(t.id) == target;
            && (r.verdict == RejectedNoTarget <==> target == "")
            && (r.verdict == RejectedNoSuchTask <==> target != "" && !known)
            && (r.verdict == RejectedBadArgument <==>
                  target != "" && known && CommandFor(v, call.argument).None?)
            && (s.Some? <==> r.verdict.OfTask?) && (s.None? ==> !r.ok)
            && !r.verdict.Flipped? && !r.verdict.AutonomySet? && r.verdict != Unchanged
            && r.verdict != RejectedNoActor && r.verdict != RejectedUnknownAction
            && (s.Some? ==> (r.ok <==> !Refuses(ts[s.value.index], s.value.command)))
  {
    var s := Commanded(v, call, control, ts, now).1;
    if s.Some? {
      OutcomeTells(ts[s.value.index], s.value.command, call.who, now);
    }
    var k := Named(ts, OrEmpty(call.target));
    assert k.Some? ==> ts[k.value] in ts;
    hide Applied, CommandFor, IdText, Refuses, Moves;
  }

  lemma IdIsNotEmpty(id: TaskId)
    ensures IdText(id) != ""
  {
  }

  // ------------------------------------------------------------------ the program

  class EventLog {
    var entries: seq<Audit>

    method Append(a: Audit)
      modifies this
      ensures entries == old(entries) + [a]
    {
      entries := entries + [a];
    }
  }

  method FindTask(tasks: seq<TaskRecord>, target: string) returns (found: Option<nat>)
    ensures found == Named(ValuesOf(tasks), target)
  {
    hide IdText;
    ghost var ts := ValuesOf(tasks);
    var i := 0;
    while i < |tasks|
      invariant 0 <= i <= |tasks|
      invariant Named(ts, target) == match Named(ts[i..], target) case Some(k) => Some(i + k) case None => None
    {
      assert ts[i..][1..] == ts[i + 1..] && ts[i..][0] == tasks[i].Value();
      if IdText(tasks[i].id) == target {
        return Some(i);
      }
      i := i + 1;
    }
    return None;
  }

  /** One control action. The control file is copied, changed and handed back; the task is changed in place. */
  method ApplyControlAction(input: Input, original: Control, tasksFile: TaskList, events: EventLog,
      now: int) returns (r: Response)
    requires tasksFile.Valid() && events !in (set t: object | t in tasksFile.tasks)
    modifies events, tasksFile.tasks
    ensures tasksFile.tasks == old(tasksFile.tasks)
    ensures var (answer, s) := Dispatched(input, original, old(tasksFile.Values()), now);
            && r == answer
            && (s.Some? ==> s.value.index < |tasksFile.tasks|)
            && tasksFile.Values() == Steered(old(tasksFile.Values()), s, now)
    ensures events.entries == old(events.entries) + [Audit(Cleaned(input), r.verdict)]
  {
    hide Cleaned, Commanded;
    var call := Cleaned(input);
    var control := original;
    if call.who == "" {
      r := Response(false, RejectedNoActor, original);
    } else {
      match ActionNamed(call.action) {
        case None =>
          r := Response(false, RejectedUnknownAction, original);
        case Some(Flip(s)) =>
          var value := ParseOnOff(OrElse(call.argument, call.target));
          if value.None? {
            r := Response(false, RejectedBadArgument, original);
          } else {
            var changed := !(s in control.switches && control.switches[s] == value.value);
            control := control.(switches := control.switches[s := value.value]);
            control := control.(stamp := Stamp(Some(now), Some(call.who), call.reason));
            r := Response(true, if changed then Flipped(s, value.value) else Unchanged, control);
          }
        case Some(Autonomy) =>
          var level := Lower(OrEmpty(OrElse(call.argument, call.target)));
          if level !in AUTONOMY_LEVELS {
            r := Response(false, RejectedBadArgument, original);
          } else {
            var changed := control.autonomy != level;
            control := control.(autonomy := level);
            control := control.(stamp := Stamp(Some(now), Some(call.who), call.reason));
            r := Response(true, if changed then AutonomySet(level) else Unchanged, control);
          }
        case Some(OnTask(verb)) =>
          r := CommandTask(verb, call, original, tasksFile, now);
      }
    }
    events.Append(Audit(call, r.verdict));
  }

  method CommandTask(verb: Verb, call: Input, original: Control, tasksFile: TaskList, now: int) returns (r: Response)
    requires tasksFile.Valid()
    modifies tasksFile.tasks
    ensures tasksFile.tasks == old(tasksFile.tasks)
    ensures var (answer, s) := Commanded(verb, call, original, old(tasksFile.Values()), now);
            && r == answer
            && (s.Some? ==> s.value.index < |tasksFile.tasks|)
            && tasksFile.Values() == Steered(old(tasksFile.Values()), s, now)
  {
    hide Applied, CommandFor;
    if call.target.None? || call.target.value == "" {
      return Response(false, RejectedNoTarget, original);
    }
    ghost var was := tasksFile.Values();
    var found := FindTask(tasksFile.tasks, call.target.value);
    if found.None? {
      return Response(false, RejectedNoSuchTask, original);
    }
    var command := CommandFor(verb, call.argument);
    if command.None? {
      return Response(false, RejectedBadArgument, original);
    }
    var i := found.value;
    var task := tasksFile.tasks[i];
    var outcome := task.ApplyCommand(command.value, call.who, now);
    assert tasksFile.Values() == was[i := task.Value()];
    return Response(!IsIgnored(outcome), OfTask(outcome), original);
  }
}
