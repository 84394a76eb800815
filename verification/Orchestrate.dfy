/** One task's orchestration with a checkpoint at every boundary (src/engine/orchestrate.js).

    The machine below takes one step per stretch of code between two checkpoint writes. A crash is a
    `Begin` at any step: the next pulse starts again from the checkpoint on disk. The decomposer, the
    scheduler and the judge answer through the events' arguments; `Legal` states what the scheduler promises. */
module Orchestrate {
  import opened Text
  import opened Remediation

  datatype Phase = Planned | Executing | Executed | Verifying | Verified | Delivering

  /** Why a parked step waits, and for how long. */
  datatype Park = Park(reason: string, wakeInMs: nat)

  datatype StepState = Pending | Complete | Failed(park: Option<Park>) | Blocked

  datatype Entry = Entry(state: StepState, attempts: nat, output: Option<string>)

  const MAX_CHECKPOINT_OUTPUT_CHARS := 16_000

  function Snapshot(e: Entry): Entry {
    e.(output := match e.output
                 case Some(o) => Some(if |o| > MAX_CHECKPOINT_OUTPUT_CHARS then o[..MAX_CHECKPOINT_OUTPUT_CHARS] else o)
                 case None => None)
  }

  /** What `cp.subtasks` holds after every entry of `entries` is written over it. */
  function Snapshots(subtasks: map<string, Entry>, entries: map<string, Entry>): map<string, Entry> {
    subtasks + map id | id in entries :: Snapshot(entries[id])
  }

  datatype Verdict = Pass | Fail

  /** The verdict and the remediation round it was given in. */
  datatype Verification = Verification(verdict: Verdict, round: nat)

  datatype Checkpoint = Checkpoint(
    graph: Option<Graph>, phase: Phase, subtasks: map<string, Entry>,
    verification: Option<Verification>, remediations: nat)

  function NewCheckpoint(): Checkpoint {
    Checkpoint(None, Planned, map[], None, 0)
  }

  datatype Result = Ok | Drained | Parked | StepFailed | VerificationFailed | Threw

  datatype Pc =
    | Off
    | Planning
    | Scheduling
    | Reviewing(entries: map<string, Entry>)
    | Judging
    | Deciding(verdict: Verdict, issues: seq<Issue>)
    | Done(result: Result)

  /** `mem` is the pulse's checkpoint, `disk` the saved one. The counters are for the statements:
      pulses begun, judge calls, and in this pulse the starting round and the scheduler runs. */
  datatype World = World(
    mem: Checkpoint, disk: Option<Checkpoint>, pc: Pc,
    pulses: nat, judged: nat, startRound: nat, loops: nat)

  datatype PlanReply = Graphed(graph: Graph) | PlanParked | PlanThrew

  datatype Event =
    | Begin
    | Plan(reply: PlanReply)
    | StepEnded(id: string, entry: Entry)
    | Scheduled(entries: map<string, Entry>, drained: bool)
    | Review
    | Judge(verdict: Verdict, issues: seq<Issue>)
    | Decide(drain: bool)
    | Deliver

  /** Settled steps are restored from the checkpoint and not run again. */
  predicate Settled(e: Entry) {
    e.state == Complete || e.state == Failed(None)
  }

  predicate Ended(e: Entry) {
    e.state != Pending
  }

  predicate AnyParked(entries: map<string, Entry>) {
    exists id | id in entries :: entries[id].state.Failed? && entries[id].state.park.Some?
  }

  predicate AnyFailed(entries: map<string, Entry>) {
    exists id | id in entries :: entries[id].state.Failed? || entries[id].state.Blocked?
  }

  /** A step event is about a step of the graph that was not already settled, and ends it. */
  predicate LegalStep(cp: Checkpoint, id: string, entry: Entry) {
    cp.graph.Some? && id in Ids(cp.graph.value) && Ended(entry) && !(id in cp.subtasks && Settled(cp.subtasks[id]))
  }

  /** The scheduler answers for exactly the graph's steps, keeps what was settled, and says it drained
      exactly when something is left to run. */
  predicate LegalSchedule(cp: Checkpoint, entries: map<string, Entry>, drained: bool) {
    && cp.graph.Some? && entries.Keys == Ids(cp.graph.value)
    && (forall id | id in entries && id in cp.subtasks && Settled(cp.subtasks[id]) :: entries[id] == cp.subtasks[id])
    && (drained <==> exists id | id in entries :: !Ended(entries[id]))
  }

  /** The checkpoint after a failed verification sends its targets back for round `cp.remediations + 1`. */
  ghost function Remediate(cp: Checkpoint, issues: seq<Issue>): Checkpoint
    requires cp.graph.Some?
  {
    var graph, round := cp.graph.value, cp.remediations + 1;
    var targets := TargetSet(graph, issues);
    cp.(graph := Some(Hinted(graph, targets, Hint(round + 1, issues))),
        phase := Executing, subtasks := cp.subtasks - targets, remediations := round)
  }

  function Hinted(graph: Graph, targets: set<string>, hint: Hint): (r: Graph)
    ensures |r| == |graph|
    ensures forall i :: 0 <= i < |graph| ==>
            r[i] == if graph[i].id in targets then graph[i].(hint := Some(hint)) else graph[i]
  {
    if graph == [] then []
    else
      [if graph[0].id in targets then graph[0].(hint := Some(hint)) else graph[0]] +
      Hinted(graph[1..], targets, hint)
  }

  function Save(w: World, cp: Checkpoint, pc: Pc): World {
    w.(mem := cp, disk := Some(cp), pc := pc)
  }

  /** The verdict is already in the checkpoint (line 236); the phase was set to `executed` just before. */
  predicate AlreadyVerified(cp: Checkpoint) {
    cp.phase == Verified || (cp.verification.Some? && cp.verification.value == Verification(Pass, cp.remediations))
  }

  ghost function Next(limit: nat, w: World, e: Event): World {
    match e
    case Begin =>
      var cp := match w.disk case Some(cp) => cp case None => NewCheckpoint();
      w.(mem := cp, pc := if cp.graph.None? then Planning else Scheduling,
         pulses := w.pulses + 1, startRound := cp.remediations, loops := 0)
    case Plan(reply) =>
      if w.pc != Planning then w
      else (match reply
            case Graphed(g) => Save(w, w.mem.(graph := Some(g), phase := Executing), Scheduling)
            case PlanParked => Save(w, w.mem, Done(Parked))
            case PlanThrew => w.(pc := Done(Threw)))
    case StepEnded(id, entry) =>
      if w.pc != Scheduling || !LegalStep(w.mem, id, entry) then w
      else Save(w, w.mem.(subtasks := w.mem.subtasks[id := Snapshot(entry)]), Scheduling)
    case Scheduled(entries, drained) =>
      if w.pc != Scheduling || !LegalSchedule(w.mem, entries, drained) then w
      else AfterSchedule(w.(loops := w.loops + 1), entries, drained)
    case Review =>
      if !w.pc.Reviewing? then w
      else if AnyFailed(w.pc.entries) then w.(pc := Done(StepFailed))
      else if AlreadyVerified(w.mem) && w.mem.verification.Some?
      then w.(pc := Deciding(w.mem.verification.value.verdict, []))
      else Save(w, w.mem.(phase := Verifying), Judging)
    case Judge(verdict, issues) =>
      if w.pc != Judging then w
      else w.(mem := w.mem.(verification := Some(Verification(verdict, w.mem.remediations))),
              judged := w.judged + 1, pc := Deciding(verdict, issues))
    case Decide(drain) =>
      if !w.pc.Deciding? then w
      else if w.pc.verdict == Pass then Save(w, w.mem.(phase := Verified), Done(Ok))
      else if w.mem.remediations < limit && !drain && w.mem.graph.Some?
      then Save(w, Remediate(w.mem, w.pc.issues), Scheduling)
      else w.(pc := Done(VerificationFailed))
    case Deliver =>
      if w.pc.Done? && w.disk.Some? then Save(w, w.mem.(phase := Delivering), w.pc) else w
  }

  function AfterSchedule(w: World, entries: map<string, Entry>, drained: bool): World {
    if drained then Save(w, w.mem.(phase := Executing), Done(Drained))
    else
      var subtasks := Snapshots(w.mem.subtasks, entries);
      if AnyParked(entries) then Save(w, w.mem.(phase := Executing, subtasks := subtasks), Done(Parked))
      else Save(w, w.mem.(phase := Executed, subtasks := subtasks), Reviewing(entries))
  }

  ghost function Exec(limit: nat, w: World, es: seq<Event>): World
    decreases |es|
  {
    if es == [] then w else Exec(limit, Next(limit, w, es[0]), es[1..])
  }

  function Initial(): World {
    World(NewCheckpoint(), None, Off, 0, 0, 0, 0)
  }

  function Round(disk: Option<Checkpoint>): nat {
    match disk case Some(cp) => cp.remediations case None => 0
  }

  predicate Passed(cp: Checkpoint) {
    cp.verification == Some(Verification(Pass, cp.remediations))
  }

  predicate PassedOnDisk(w: World) {
    w.disk.Some? && Passed(w.disk.value)
  }

  /** Every step of the saved graph is saved as complete. */
  ghost predicate AllComplete(cp: Checkpoint) {
    cp.graph.Some? && forall id :: id in Ids(cp.graph.value) ==> id in cp.subtasks && cp.subtasks[id].state == Complete
  }

  predicate Looping(pc: Pc) {
    pc == Scheduling || pc.Reviewing? || pc == Judging
  }

  /** The pulse may still call the judge without another remediation. */
  predicate MayJudge(pc: Pc) {
    pc == Planning || Looping(pc)
  }

  predicate Truncated(subtasks: map<string, Entry>) {
    forall id | id in subtasks :: Snapshot(subtasks[id]) == subtasks[id]
  }

  /** In a running pulse, memory differs from the disk at most by a verdict not yet saved; and while the
      loop schedules, reviews or judges, by nothing: the round, the hints and the deletions are on disk. */
  ghost predicate Durable(w: World) {
    && (w.pc != Off && w.disk.Some? ==> w.mem == w.disk.value.(verification := w.mem.verification))
    && (w.pc != Off && w.disk.None? ==> w.mem == NewCheckpoint())
    && (Looping(w.pc) ==> w.disk == Some(w.mem) && w.mem.graph.Some?)
    && (w.pc == Off ==> w.disk.None?)
    && Truncated(w.mem.subtasks) && (w.disk.Some? ==> Truncated(w.disk.value.subtasks))
  }

  /** Rounds only come from failed verifications, and both loops and judge calls are paid for by rounds. */
  ghost predicate Counted(limit: nat, w: World) {
    && w.startRound <= w.mem.remediations && Round(w.disk) <= limit
    && w.mem.remediations == Round(w.disk)
    && w.loops <= w.mem.remediations - w.startRound +
       (if w.pc == Off || w.pc == Planning || w.pc == Scheduling then 0 else 1)
    && w.judged + (if MayJudge(w.pc) then 1 else 0) <= Round(w.disk) + w.pulses
  }

  /** A verdict is only taken on a run whose every step is complete, and a saved pass is never lost. */
  ghost predicate Judged(w: World) {
    && (w.pc == Planning ==> w.mem.graph.None?)
    && (w.pc.Reviewing? ==> Reviewed(w.mem, w.pc.entries))
    && (w.pc == Judging ==> !Passed(w.mem) && AllComplete(w.mem))
    && (w.pc.Deciding? ==>
          && w.mem.verification == Some(Verification(w.pc.verdict, w.mem.remediations))
          && w.disk.Some? && AllComplete(w.mem))
    && (PassedOnDisk(w) ==> w.disk == Some(w.mem))
    && (w.pc == Done(Ok) ==> w.disk == Some(w.mem) && Passed(w.mem) && AllComplete(w.mem))
  }

  /** The phase is `executed` here, so the first half of the `alreadyVerified` test can never decide it. */
  ghost predicate Reviewed(cp: Checkpoint, entries: map<string, Entry>) {
    && cp.phase == Executed
    && cp.graph.Some? && entries.Keys == Ids(cp.graph.value) && !AnyParked(entries)
    && (forall id | id in entries :: Ended(entries[id]))
    && (forall id | id in entries :: id in cp.subtasks && cp.subtasks[id] == Snapshot(entries[id]))
  }

  ghost predicate Inv(limit: nat, w: World) {
    Durable(w) && Counted(limit, w) && Judged(w)
  }

  lemma DurableStep(limit: nat, w: World, e: Event)
    requires Durable(w)
    ensures Durable(Next(limit, w, e))
  {
    hide TargetSet, Hinted, Ids, AnyParked, AnyFailed, Passed;
  }

  lemma CountedStep(limit: nat, w: World, e: Event)
    requires Durable(w) && Counted(limit, w)
    ensures Counted(limit, Next(limit, w, e))
  {
    hide TargetSet, Hinted, Ids, AnyParked, AnyFailed, Passed, Snapshots, Snapshot, Truncated;
  }

  lemma ScheduleReviewed(w: World, entries: map<string, Entry>, drained: bool)
    requires LegalSchedule(w.mem, entries, drained)
    ensures var w' := AfterSchedule(w, entries, drained);
            w'.pc.Reviewing? ==> Reviewed(w'.mem, w'.pc.entries)
  {
    hide Ids, Snapshot;
  }

  lemma ReviewedComplete(cp: Checkpoint, entries: map<string, Entry>)
    requires Reviewed(cp, entries) && !AnyFailed(entries)
    ensures AllComplete(cp)
  {
    hide Ids;
    forall id | id in Ids(cp.graph.value)
      ensures id in cp.subtasks && cp.subtasks[id].state == Complete
    {
      assert id in entries;
    }
  }

  lemma JudgedStep(limit: nat, w: World, e: Event)
    requires Durable(w) && Judged(w)
    ensures Judged(Next(limit, w, e))
  {
    hide TargetSet, Hinted, Ids, Snapshots, Snapshot, Truncated, AnyParked, AnyFailed, Reviewed, LegalSchedule,
         LegalStep;
    match e
    case Scheduled(entries, drained) =>
      if LegalSchedule(w.mem, entries, drained) {
        ScheduleReviewed(w.(loops := w.loops + 1), entries, drained);
      }
    case Review =>
      if w.pc.Reviewing? && !AnyFailed(w.pc.entries) {
        ReviewedComplete(w.mem, w.pc.entries);
        ReviewPhase(w.mem, w.pc.entries);
      }
    case _ =>
  }

  lemma ReviewPhase(cp: Checkpoint, entries: map<string, Entry>)
    requires Reviewed(cp, entries)
    ensures cp.graph.Some? && (AlreadyVerified(cp) <==> Passed(cp))
    ensures AllComplete(cp) ==> AllComplete(cp.(phase := Verifying))
  {
  }

  lemma InvStep(limit: nat, w: World, e: Event)
    requires Inv(limit, w)
    ensures Inv(limit, Next(limit, w, e))
  {
    hide Next, Durable, Counted, Judged;
    DurableStep(limit, w, e);
    CountedStep(limit, w, e);
    JudgedStep(limit, w, e);
  }

  lemma {:induction false} InvRun(limit: nat, w: World, es: seq<Event>)
    requires Inv(limit, w)
    ensures Inv(limit, Exec(limit, w, es))
    decreases |es|
  {
    hide Next, Inv;
    if es != [] {
      InvStep(limit, w, es[0]);
      InvRun(limit, Next(limit, w, es[0]), es[1..]);
    }
  }

  /** Every state that pulses, crashes included, can reach. */
  ghost predicate Reachable(limit: nat, w: World) {
    exists es :: w == Exec(limit, Initial(), es)
  }

  lemma ReachableInv(limit: nat, w: World)
    requires Reachable(limit, w)
    ensures Inv(limit, w)
  {
    var es :| w == Exec(limit, Initial(), es);
    InvRun(limit, Initial(), es);
  }

  // ------------------------------------------------------------------ rounds

  lemma {:induction false} RoundsGrow(limit: nat, w: World, es: seq<Event>)
    requires Inv(limit, w)
    ensures Round(w.disk) <= Round(Exec(limit, w, es).disk)
    decreases |es|
  {
    if es != [] {
      InvStep(limit, w, es[0]);
      RoundStep(limit, w, es[0]);
      hide Next, Inv;
      RoundsGrow(limit, Next(limit, w, es[0]), es[1..]);
    }
  }

  lemma RoundStep(limit: nat, w: World, e: Event)
    requires Inv(limit, w)
    ensures Round(w.disk) <= Round(Next(limit, w, e).disk)
  {
    hide TargetSet, Hinted, Ids, AnyParked, AnyFailed, Passed, Snapshots, Snapshot, Truncated, Judged, LegalSchedule,
         LegalStep;
  }

  /** Main result on rounds. Whatever the crashes, the saved round never decreases and never exceeds the limit; a pulse
      runs the scheduler at most `limit - startRound + 1` times; each judge call is paid for by a pulse or a saved
      round; and whenever steps are running, the round they run under, and all the rest, is already saved. */
  lemma {:induction false} RoundsAreDurable(limit: nat, w: World, es: seq<Event>)
    requires Reachable(limit, w)
    ensures var w' := Exec(limit, w, es);
            && Round(w.disk) <= Round(w'.disk) <= limit
            && w'.loops <= limit - w'.startRound + 1
            && w'.judged <= limit + w'.pulses
            && (w'.pc == Scheduling ==> w'.disk == Some(w'.mem))
  {
    ReachableInv(limit, w);
    InvRun(limit, w, es);
    RoundsGrow(limit, w, es);
  }

  // ------------------------------------------------------------------ a pass is final

  lemma PassStep(limit: nat, w: World, e: Event)
    requires Inv(limit, w) && PassedOnDisk(w)
    ensures var w' := Next(limit, w, e);
            PassedOnDisk(w') && Round(w'.disk) == Round(w.disk) && w'.judged == w.judged
  {
    hide TargetSet, Hinted, Ids, AnyParked, AnyFailed, Snapshots, Snapshot, Truncated, LegalSchedule, LegalStep,
         AllComplete;
    if w.pc.Reviewing? {
      ReviewPhase(w.mem, w.pc.entries);
    }
  }

  /** Main result on verdicts. Once a pass is on disk, no later pulse asks the judge again, starts another round, or
      loses the pass, although a drained or parked resume moves the phase back. */
  lemma {:induction false} PassIsFinal(limit: nat, w: World, es: seq<Event>)
    requires Inv(limit, w) || Reachable(limit, w)
    requires PassedOnDisk(w)
    ensures var w' := Exec(limit, w, es);
            PassedOnDisk(w') && Round(w'.disk) == Round(w.disk) && w'.judged == w.judged
    decreases |es|
  {
    if Reachable(limit, w) { ReachableInv(limit, w); }
    if es != [] {
      PassStep(limit, w, es[0]);
      InvStep(limit, w, es[0]);
      hide Next, Inv, Reachable;
      PassIsFinal(limit, Next(limit, w, es[0]), es[1..]);
    }
  }

  /** A checkpoint without a plan was never past planning, except to be delivered. */
  predicate UnplannedPhase(cp: Checkpoint) {
    cp.graph.None? ==> cp.phase in {Planned, Delivering}
  }

  predicate Unplanned(w: World) {
    UnplannedPhase(w.mem) && (w.disk.Some? ==> UnplannedPhase(w.disk.value))
  }

  lemma UnplannedStep(limit: nat, w: World, e: Event)
    requires Inv(limit, w) && Unplanned(w)
    ensures Unplanned(Next(limit, w, e))
  {
    hide TargetSet, Hinted, AnyParked, AnyFailed, Snapshots, Snapshot, Truncated, LegalStep, Reviewed, Ids, Counted;
  }

  lemma {:induction false} UnplannedRun(limit: nat, w: World, es: seq<Event>)
    requires Inv(limit, w) && Unplanned(w)
    ensures Unplanned(Exec(limit, w, es))
    decreases |es|
  {
    if es != [] {
      UnplannedStep(limit, w, es[0]);
      InvStep(limit, w, es[0]);
      hide Next, Inv, Unplanned;
      UnplannedRun(limit, Next(limit, w, es[0]), es[1..]);
    }
  }

  lemma ReachableUnplanned(limit: nat, w: World)
    requires Reachable(limit, w)
    ensures Unplanned(w)
  {
    var es :| w == Exec(limit, Initial(), es);
    UnplannedRun(limit, Initial(), es);
  }

  // ------------------------------------------------------------------ what a result means

  /** The step that ends a pulse, by result: what it leaves on disk. A parked pulse leaves the phase `executing`
      exactly when it parked at a step; parked at its plan, it leaves the phase as it was. */
  lemma ResultsAreHonest(limit: nat, w: World, e: Event)
    requires Reachable(limit, w) && !w.pc.Done? && Next(limit, w, e).pc.Done?
    ensures var w' := Next(limit, w, e);
            match w'.pc.result
            case Ok =>
              && w'.disk.Some? && w'.disk.value.phase == Verified
              && Passed(w'.disk.value) && AllComplete(w'.disk.value)
            case Drained =>
              && w'.disk.Some? && w'.disk.value.phase == Executing
              && e.Scheduled? && exists id | id in e.entries :: !Ended(e.entries[id])
            case Parked =>
              && (if w.pc == Scheduling
                  then e.Scheduled? && AnyParked(e.entries) && forall id | id in e.entries :: Ended(e.entries[id])
                  else e == Plan(PlanParked))
              && w'.disk.Some? && (w'.disk.value.phase == Executing <==> w.pc == Scheduling)
              && (w.pc != Scheduling ==> w.pc == Planning && w'.disk.value.graph.None?)
            case StepFailed => w.pc.Reviewing? && AnyFailed(w.pc.entries) && w'.disk == w.disk
            case VerificationFailed =>
              && w'.disk == w.disk && w'.mem.verification == Some(Verification(Fail, w'.mem.remediations))
              && (w'.mem.remediations == limit || e == Decide(true))
            case Threw => w.pc == Planning && w'.disk == w.disk && e == Plan(PlanThrew)
  {
    ReachableInv(limit, w);
    ReachableUnplanned(limit, w);
    hide TargetSet, Hinted, Ids, AnyParked, AnyFailed, Snapshots, Snapshot, Truncated, LegalSchedule, LegalStep,
         Reachable, Reviewed;
  }

  // ------------------------------------------------------------------ what a checkpoint keeps

  /** What is saved of a step: its state and attempts, and of its output, if it has one, the first 16000 characters. */
  predicate KeptOf(saved: Entry, e: Entry) {
    && saved.state == e.state && saved.attempts == e.attempts
    && (saved.output.Some? <==> e.output.Some?)
    && (e.output.Some? ==>
          && saved.output.value <= e.output.value
          && |saved.output.value| == if |e.output.value| <= 16_000 then |e.output.value| else 16_000)
  }

  lemma SnapshotKeeps(e: Entry)
    ensures KeptOf(Snapshot(e), e)
  {
  }

  /** A step that ends is saved as it ended, and nothing else in the checkpoint moves. */
  lemma EndedStepIsSaved(limit: nat, w: World, id: string, entry: Entry)
    requires w.pc == Scheduling && LegalStep(w.mem, id, entry)
    ensures var w' := Next(limit, w, StepEnded(id, entry));
            && w'.disk == Some(w'.mem) && id in w'.mem.subtasks && KeptOf(w'.mem.subtasks[id], entry)
            && w'.mem == w.mem.(subtasks := w.mem.subtasks[id := w'.mem.subtasks[id]])
  {
    SnapshotKeeps(entry);
    hide Snapshot, LegalStep, KeptOf;
  }

  /** When the scheduler is done, drained apart, every one of its entries is saved as it stands. */
  lemma ScheduledStepsAreSaved(limit: nat, w: World, entries: map<string, Entry>, drained: bool, id: string)
    requires w.pc == Scheduling && LegalSchedule(w.mem, entries, drained) && !drained && id in entries
    ensures var w' := Next(limit, w, Scheduled(entries, drained));
            && w'.disk == Some(w'.mem) && id in w'.mem.subtasks && KeptOf(w'.mem.subtasks[id], entries[id])
            && w'.mem.graph == w.mem.graph
  {
    SnapshotKeeps(entries[id]);
    hide Snapshot, LegalSchedule, KeptOf, AnyParked;
  }

  /** The same steps, waiting for the same others, whatever feedback they carry. */
  predicate SamePlan(a: Graph, b: Graph) {
    |a| == |b| && forall i | 0 <= i < |a| :: a[i].(hint := None) == b[i].(hint := None)
  }

  predicate PlanOnDisk(w: World, g: Graph) {
    && w.disk.Some? && w.disk.value.graph.Some? && SamePlan(w.disk.value.graph.value, g)
  }

  /** The plan that the decomposer gave is the plan on the disk. */
  lemma PlanIsSaved(limit: nat, w: World, g: Graph)
    requires w.pc == Planning
    ensures PlanOnDisk(Next(limit, w, Plan(Graphed(g))), g)
  {
  }

  lemma HintedSamePlan(graph: Graph, targets: set<string>, hint: Hint, g: Graph)
    requires SamePlan(graph, g)
    ensures SamePlan(Hinted(graph, targets, hint), g)
  {
  }

  /** The saved graph changes only when steps are sent back, and then only in its hints. */
  lemma SavedGraph(limit: nat, w: World, e: Event)
    requires Durable(w) && w.disk.Some? && w.disk.value.graph.Some? && (w.pc == Planning ==> w.mem.graph.None?)
    ensures var g, w' := w.disk.value.graph.value, Next(limit, w, e);
            && w'.disk.Some?
            && (w'.disk.value.graph == Some(g) ||
                (w.pc.Deciding? && w.mem.graph == Some(g) &&
                 w'.disk.value.graph ==
                 Some(Hinted(g, TargetSet(g, w.pc.issues), Hint(w.mem.remediations + 2, w.pc.issues)))))
  {
    hide TargetSet, Hinted, AnyParked, AnyFailed, Snapshot, Snapshots, LegalStep, LegalSchedule, Truncated, Ids;
  }

  lemma PlanStep(limit: nat, w: World, e: Event, g: Graph)
    requires Inv(limit, w) && PlanOnDisk(w, g)
    ensures PlanOnDisk(Next(limit, w, e), g)
  {
    hide Next, Counted, SamePlan, TargetSet, Hinted;
    SavedGraph(limit, w, e);
    hide Durable, Judged, Inv;
    if w.pc.Deciding? {
      var now := w.disk.value.graph.value;
      HintedSamePlan(now, TargetSet(now, w.pc.issues), Hint(w.mem.remediations + 2, w.pc.issues), g);
    }
  }

  /** A saved plan is never planned again: through every crash and every later pulse the disk holds the same steps
      with the same dependencies, whatever feedback they carry. */
  lemma {:induction false} PlanIsKept(limit: nat, w: World, es: seq<Event>, g: Graph)
    requires Inv(limit, w) || Reachable(limit, w)
    requires PlanOnDisk(w, g)
    ensures PlanOnDisk(Exec(limit, w, es), g)
    decreases |es|
  {
    if Reachable(limit, w) { ReachableInv(limit, w); }
    if es != [] {
      PlanStep(limit, w, es[0], g);
      InvStep(limit, w, es[0]);
      hide Next, Inv, Reachable, PlanOnDisk;
      PlanIsKept(limit, Next(limit, w, es[0]), es[1..], g);
    }
  }

  // ------------------------------------------------------------------ finished work

  predicate CompleteOnDisk(w: World, id: string) {
    w.disk.Some? && id in w.disk.value.subtasks && w.disk.value.subtasks[id].state == Complete
  }

  /** This step sends `id` back. */
  ghost predicate SendsBack(limit: nat, w: World, e: Event, id: string) {
    && e == Decide(false) && w.pc.Deciding? && w.pc.verdict == Fail && w.mem.remediations < limit && w.mem.graph.Some?
    && id in TargetSet(w.mem.graph.value, w.pc.issues)
  }

  ghost predicate NeverSentBack(limit: nat, w: World, es: seq<Event>, id: string)
    decreases |es|
  {
    es == [] || (!SendsBack(limit, w, es[0], id) && NeverSentBack(limit, Next(limit, w, es[0]), es[1..], id))
  }

  lemma WorkStep(limit: nat, w: World, e: Event, id: string)
    requires Inv(limit, w) && CompleteOnDisk(w, id) && !SendsBack(limit, w, e, id)
    ensures var w' := Next(limit, w, e);
            CompleteOnDisk(w', id) && w'.disk.value.subtasks[id] == w.disk.value.subtasks[id]
  {
    hide TargetSet, Hinted, AnyParked, AnyFailed, Judged, Counted, Snapshot, AllComplete;
    if e.Scheduled? && w.pc == Scheduling && LegalSchedule(w.mem, e.entries, e.drained) {
      assert id in e.entries ==> e.entries[id] == w.mem.subtasks[id];
    }
  }

  /** Main result on work. A step saved as complete keeps its saved entry, through every crash and every later pulse,
      until a failed verification sends that very step back. */
  lemma {:induction false} FinishedWorkIsKept(limit: nat, w: World, es: seq<Event>, id: string)
    requires Inv(limit, w) || Reachable(limit, w)
    requires CompleteOnDisk(w, id) && NeverSentBack(limit, w, es, id)
    ensures var w' := Exec(limit, w, es);
            CompleteOnDisk(w', id) && w'.disk.value.subtasks[id] == w.disk.value.subtasks[id]
    decreases |es|
  {
    if Reachable(limit, w) { ReachableInv(limit, w); }
    if es != [] {
      WorkStep(limit, w, es[0], id);
      InvStep(limit, w, es[0]);
      hide Next, Inv, Reachable;
      FinishedWorkIsKept(limit, Next(limit, w, es[0]), es[1..], id);
    }
  }

  /** The entries that sending back deletes: exactly the targets'. */
  lemma DeletedEntries(cp: Checkpoint, issues: seq<Issue>)
    requires cp.graph.Some?
    ensures var cp', targets := Remediate(cp, issues), TargetSet(cp.graph.value, issues);
            && cp'.subtasks.Keys == cp.subtasks.Keys - targets
            && (forall id | id in cp'.subtasks :: cp'.subtasks[id] == cp.subtasks[id])
  {
    hide TargetSet, Hinted;
    assert cp.subtasks.Keys - TargetSet(cp.graph.value, issues) == Remediate(cp, issues).subtasks.Keys;
  }

  /** No kept entry depends, directly or through others, on a deleted step. */
  lemma NoKeptDependent(cp: Checkpoint, issues: seq<Issue>, id: string, kept: string)
    requires cp.graph.Some? && id in TargetSet(cp.graph.value, issues) && kept in Remediate(cp, issues).subtasks
    ensures !Downstream(cp.graph.value, {id}, kept)
  {
    var graph, targets := cp.graph.value, TargetSet(cp.graph.value, issues);
    DeletedEntries(cp, issues);
    hide Remediate, Downstream, Seeds;
    if Downstream(graph, {id}, kept) {
      DownstreamIsLeast(graph, {id}, targets, kept);
    }
  }

  /** The targets, and only they, carry the feedback. */
  lemma HintsGiven(graph: Graph, targets: set<string>, hint: Hint)
    ensures forall t | t in Hinted(graph, targets, hint) && t.id in targets :: t.hint == Some(hint)
    ensures forall t | t in Hinted(graph, targets, hint) && t.id !in targets :: t in graph
  {
    var r := Hinted(graph, targets, hint);
    forall t | t in r ensures if t.id in targets then t.hint == Some(hint) else t in graph {
      var i :| 0 <= i < |r| && r[i] == t;
      assert r[i] == if graph[i].id in targets then graph[i].(hint := Some(hint)) else graph[i];
    }
  }

  /** Sending steps back deletes exactly the targets' entries and leaves no kept entry that depends, directly or through
      others, on a deleted step; the targets, and only they, carry the feedback for the new round. */
  lemma RemediationIsConsistent(cp: Checkpoint, issues: seq<Issue>)
    requires cp.graph.Some?
    ensures var cp', graph, targets := Remediate(cp, issues), cp.graph.value, TargetSet(cp.graph.value, issues);
            && cp'.remediations == cp.remediations + 1 && cp'.graph.Some?
            && cp'.subtasks.Keys == cp.subtasks.Keys - targets
            && (forall id | id in cp'.subtasks :: cp'.subtasks[id] == cp.subtasks[id])
            && (forall id, kept | id in targets && kept in cp'.subtasks :: !Downstream(graph, {id}, kept))
            && (forall t | t in cp'.graph.value && t.id in targets ::
               t.hint == Some(Hint(cp'.remediations + 1, issues)))
            && (forall t | t in cp'.graph.value && t.id !in targets :: t in graph)
  {
    var graph, targets := cp.graph.value, TargetSet(cp.graph.value, issues);
    DeletedEntries(cp, issues);
    HintsGiven(graph, targets, Hint(cp.remediations + 2, issues));
    hide TargetSet, Hinted, Downstream;
    forall id, kept | id in targets && kept in Remediate(cp, issues).subtasks
      ensures !Downstream(graph, {id}, kept)
    {
      NoKeptDependent(cp, issues, id, kept);
    }
  }

  /** The first half of the `alreadyVerified` test (line 236) is dead code: the phase was just set to `executed`. */
  lemma PhaseTestIsDead(limit: nat, w: World)
    requires Reachable(limit, w) && w.pc.Reviewing?
    ensures w.mem.phase == Executed && (AlreadyVerified(w.mem) <==> Passed(w.mem))
  {
    ReachableInv(limit, w);
  }

  // ------------------------------------------------------------------ one pulse, event by event

  /** What one pulse meets: the decomposer's answer and, round by round, the steps that end, the scheduler's answer,
      the verdict of the verification and whether the pulse is asked to drain. */
  datatype Env = Env(
    plan: PlanReply, steps: nat -> seq<(string, Entry)>, answer: nat -> (map<string, Entry>, bool),
    judge: nat -> (Verdict, seq<Issue>), drain: nat -> bool)

  /** The step events of one round; what the scheduler may not report is no event. */
  function StepEvents(cp: Checkpoint, steps: seq<(string, Entry)>): seq<Event>
    decreases |steps|
  {
    if steps == [] then []
    else
      var (id, entry) := steps[0];
      if LegalStep(cp, id, entry)
      then [StepEnded(id, entry)] + StepEvents(cp.(subtasks := cp.subtasks[id := Snapshot(entry)]), steps[1..])
      else StepEvents(cp, steps[1..])
  }

  /** The answer when nothing more was run: what was settled is kept. */
  function NothingRan(cp: Checkpoint): (r: (map<string, Entry>, bool))
    requires cp.graph.Some?
    ensures LegalSchedule(cp, r.0, r.1)
  {
    var entries := map id | id in Ids(cp.graph.value) ::
      if id in cp.subtasks && Settled(cp.subtasks[id]) then cp.subtasks[id] else Entry(Pending, 0, None);
    (entries, exists id | id in entries :: !Ended(entries[id]))
  }

  /** Any answer that the scheduler's contract allows; in place of any other, that nothing was run. */
  function AnswerFor(cp: Checkpoint, answer: (map<string, Entry>, bool)): (r: (map<string, Entry>, bool))
    requires cp.graph.Some?
    ensures LegalSchedule(cp, r.0, r.1)
  {
    if LegalSchedule(cp, answer.0, answer.1) then answer else NothingRan(cp)
  }

  /** The review, with a call of the judge where there is one. */
  ghost function JudgeEvents(limit: nat, env: Env, w: World): seq<Event> {
    var (verdict, issues) := env.judge(w.mem.remediations);
    [Review] + if Next(limit, w, Review).pc == Judging then [Judge(verdict, issues)] else []
  }

  /** One round, from the scheduler on. */
  ghost function RoundEvents(limit: nat, env: Env, w: World): seq<Event> {
    var round := w.mem.remediations;
    var steps := StepEvents(w.mem, env.steps(round));
    var w1 := Exec(limit, w, steps);
    if w1.mem.graph.None? then steps
    else
      var (entries, drained) := AnswerFor(w1.mem, env.answer(round));
      var w2 := Next(limit, w1, Scheduled(entries, drained));
      steps + ([Scheduled(entries, drained)] + if w2.pc.Reviewing? then VerdictEvents(limit, env, w2) else [])
  }

  ghost function VerdictEvents(limit: nat, env: Env, w: World): seq<Event> {
    var review := JudgeEvents(limit, env, w);
    review + if Exec(limit, w, review).pc.Deciding? then [Decide(env.drain(w.mem.remediations))] else []
  }

  /** Round after round. */
  ghost function LoopEvents(limit: nat, env: Env, w: World): seq<Event>
    decreases limit - w.mem.remediations
  {
    var round := RoundEvents(limit, env, w);
    var w' := Exec(limit, w, round);
    round +
    if w'.pc == Scheduling && w.mem.remediations < w'.mem.remediations <= limit then LoopEvents(limit, env, w') else []
  }

  /** A whole pulse, from its beginning in any state that the last one left. */
  ghost function PulseEvents(limit: nat, env: Env, before: World): seq<Event> {
    var w := Next(limit, before, Begin);
    [Begin] +
    if w.pc == Planning then
      var planned := Next(limit, w, Plan(env.plan));
      [Plan(env.plan)] + if planned.pc == Scheduling then LoopEvents(limit, env, planned) else []
    else LoopEvents(limit, env, w)
  }

  // ------------------------------------------------------------------ the program

  lemma {:induction false} ExecConcat(limit: nat, w: World, a: seq<Event>, b: seq<Event>)
    ensures Exec(limit, w, a + b) == Exec(limit, Exec(limit, w, a), b)
    decreases |a|
  {
    hide Next;
    if a == [] {
      assert a + b == b;
    } else {
      assert (a + b)[1..] == a[1..] + b;
      ExecConcat(limit, Next(limit, w, a[0]), a[1..], b);
    }
  }

  lemma ReachableOnwards(limit: nat, w: World, es: seq<Event>)
    ensures Reachable(limit, w) ==> Reachable(limit, Exec(limit, w, es))
  {
    if Reachable(limit, w) {
      var past :| w == Exec(limit, Initial(), past);
      ExecConcat(limit, Initial(), past, es);
    }
  }

  lemma ExecOne(limit: nat, w: World, e: Event)
    ensures Exec(limit, w, [e]) == Next(limit, w, e)
  {
    hide Next;
    assert [e][1..] == [];
  }

  class CheckpointRecord {
    var graph: Option<Graph>
    var phase: Phase
    var subtasks: map<string, Entry>
    var verification: Option<Verification>
    var remediations: nat

    function Value(): Checkpoint
      reads this
    {
      Checkpoint(graph, phase, subtasks, verification, remediations)
    }

    constructor(saved: Option<Checkpoint>)
      ensures Value() == match saved case Some(cp) => cp case None => NewCheckpoint()
    {
      var cp := match saved case Some(cp) => cp case None => NewCheckpoint();
      graph, phase, subtasks := cp.graph, cp.phase, cp.subtasks;
      verification, remediations := cp.verification, cp.remediations;
    }

    /** Copy every scheduler entry into the checkpoint. */
    method TakeSnapshots(entries: map<string, Entry>)
      modifies this`subtasks
      ensures subtasks == Snapshots(old(subtasks), entries)
    {
      var rest := entries.Keys;
      ghost var before := subtasks;
      while rest != {}
        invariant rest <= entries.Keys
        invariant subtasks == before + map id | id in entries.Keys - rest :: Snapshot(entries[id])
      {
        hide Snapshot;
        var id :| id in rest;
        subtasks := subtasks[id := Snapshot(entries[id])];
        rest := rest - {id};
      }
      assert entries.Keys - rest == entries.Keys;
    }

    static lemma NoIds(steps: seq<Step>)
      ensures Ids(steps[..0]) == {}
    {
    }

    static lemma OneMoreId(steps: seq<Step>, i: nat)
      requires i < |steps|
      ensures Ids(steps[..i + 1]) == Ids(steps[..i]) + {steps[i].id}
    {
      assert steps[..i + 1] == steps[..i] + [steps[i]];
    }

    /** Delete the targets' entries and give the targets, step by step, the feedback for the next attempt. */
    method SendBack(targets: set<string>, hint: Hint)
      requires graph.Some? && targets <= Ids(graph.value)
      modifies this`subtasks, this`graph
      ensures graph == Some(Hinted(old(graph.value), targets, hint))
      ensures subtasks == old(subtasks) - targets
    {
      hide Ids;
      var steps := graph.value;
      ghost var before, gone := subtasks, {};
      assert Ids(steps[..0]) == {} by { NoIds(steps); }
      for i := 0 to |steps|
        invariant graph.Some? && |graph.value| == |steps|
        invariant forall j :: 0 <= j < |steps| ==>
                      graph.value[j] ==
                      if j < i && steps[j].id in targets then steps[j].(hint := Some(hint)) else steps[j]
        invariant gone == set id | id in targets && id in Ids(steps[..i])
        invariant subtasks == before - gone
      {
        var step := steps[i];
        OneMoreId(steps, i);
        if step.id !in targets {
          continue;
        }
        subtasks := subtasks - {step.id};
        graph := Some(graph.value[i := step.(hint := Some(hint))]);
        gone := gone + {step.id};
      }
      assert steps[..|steps|] == steps;
      assert gone == targets;
      assert graph.value == Hinted(steps, targets, hint);
    }
  }

  class CheckpointFile {
    var saved: Option<Checkpoint>

    constructor()
      ensures saved.None?
    {
      saved := None;
    }

    method Write(cp: CheckpointRecord)
      modifies this
      ensures saved == Some(cp.Value())
    {
      saved := Some(cp.Value());
    }
  }

  class Orchestration {
    const cp: CheckpointRecord
    const file: CheckpointFile
    const limit: nat
    ghost var pulses: nat
    ghost var judged: nat
    ghost var startRound: nat
    ghost var loops: nat

    constructor(cp: CheckpointRecord, file: CheckpointFile, limit: nat)
      ensures this.cp == cp && this.file == file && this.limit == limit
      ensures pulses == judged == startRound == loops == 0
    {
      this.cp, this.file, this.limit := cp, file, limit;
      pulses, judged, startRound, loops := 0, 0, 0, 0;
    }

    ghost function At(pc: Pc): World
      reads this, cp, file
    {
      World(cp.Value(), file.saved, pc, pulses, judged, startRound, loops)
    }

    /** Ask the decomposer, which returns a graph, asks to wait, or throws. */
    method Plan(answer: PlanReply) returns (done: Option<Result>)
      requires cp.graph.None?
      modifies cp, file
      ensures At(match done case Some(r) => Done(r) case None => Scheduling) ==
              Next(limit, old(At(Planning)), Event.Plan(answer))
      ensures done.None? ==> cp.graph.Some?
    {
      match answer {
        case PlanThrew =>
          return Some(Threw);
        case PlanParked =>
          file.Write(cp);
          return Some(Parked);
        case Graphed(g) =>
          cp.graph := Some(g);
          cp.phase := Executing;
          file.Write(cp);
          return None;
      }
    }

    /** The scheduler: the steps that end, each saved at once; then its answer. */
    method RunScheduler(env: Env) returns (entries: map<string, Entry>, drained: bool)
      requires cp.graph.Some?
      modifies cp`subtasks, file
      ensures At(Scheduling) ==
              Exec(limit, old(At(Scheduling)), StepEvents(old(cp.Value()), env.steps(cp.remediations)))
      ensures (entries, drained) == AnswerFor(cp.Value(), env.answer(cp.remediations))
      ensures LegalSchedule(cp.Value(), entries, drained)
    {
      hide LegalStep, LegalSchedule, Next, Exec;
      var steps := env.steps(cp.remediations);
      ghost var start, cp0 := At(Scheduling), cp.Value();
      ghost var es := [];
      ExecNone(limit, start);
      for i := 0 to |steps|
        invariant cp.graph.Some?
        invariant At(Scheduling) == Exec(limit, start, es)
        invariant StepEvents(cp0, steps) == es + StepEvents(cp.Value(), steps[i..])
      {
        var (id, entry) := steps[i];
        assert steps[i..][0] == (id, entry) && steps[i..][1..] == steps[i + 1..];
        if LegalStep(cp.Value(), id, entry) {
          ghost var w, e := At(Scheduling), StepEnded(id, entry);
          cp.subtasks := cp.subtasks[id := Snapshot(entry)];
          file.Write(cp);
          StepEndedNext(limit, w, id, entry);
          ExecConcat(limit, start, es, [e]);
          ExecOne(limit, w, e);
          Assoc(es, [e], StepEvents(cp.Value(), steps[i + 1..]));
          es := es + [e];
        }
      }
      assert steps[|steps|..] == [] && es + [] == es;
      var answer := AnswerFor(cp.Value(), env.answer(cp.remediations));
      return answer.0, answer.1;
    }

    /** After the scheduler: stop here (drained, parked) or go on to the review, always with a checkpoint. */
    method AfterScheduler(entries: map<string, Entry>, drained: bool) returns (done: Option<Result>)
      requires LegalSchedule(cp.Value(), entries, drained)
      modifies this`loops, cp`phase, cp`subtasks, file
      ensures At(match done case Some(r) => Done(r) case None => Reviewing(entries)) ==
              Next(limit, old(At(Scheduling)), Scheduled(entries, drained))
      ensures done.None? ==> !drained && !AnyParked(entries)
    {
      hide Snapshots, AnyParked;
      loops := loops + 1;
      if drained {
        cp.phase := Executing;
        file.Write(cp);
        return Some(Drained);
      }
      if AnyParked(entries) {
        cp.phase := Executing;
        cp.TakeSnapshots(entries);
        file.Write(cp);
        return Some(Parked);
      }
      cp.phase := Executed;
      cp.TakeSnapshots(entries);
      file.Write(cp);
      return None;
    }

    /** Judge the run unless a step failed or its pass is already in the checkpoint. */
    method ReviewRun(entries: map<string, Entry>, env: Env) returns (verdict: Verdict, issues: seq<Issue>, failed: bool)
      modifies this`judged, cp`phase, cp`verification, file
      ensures At(if failed then Done(StepFailed) else Deciding(verdict, issues)) ==
              Exec(limit, old(At(Reviewing(entries))), JudgeEvents(limit, env, old(At(Reviewing(entries)))))
    {
      hide Next, Exec, AnyFailed;
      ghost var start := At(Reviewing(entries));
      ReviewNext(limit, start);
      ExecOne(limit, start, Review);
      assert [Review] + [] == [Review];
      failed := AnyFailed(entries);
      if failed {
        verdict, issues := Fail, [];
        return;
      }
      var alreadyVerified := cp.phase == Verified ||
                             (cp.verification.Some? && cp.verification.value.verdict == Pass &&
                              cp.verification.value.round == cp.remediations);
      if alreadyVerified && cp.verification.Some? {
        verdict, issues := cp.verification.value.verdict, [];
        return;
      }
      cp.phase := Verifying;
      file.Write(cp);
      ghost var judging := At(Judging);
      var answer := env.judge(cp.remediations);
      verdict, issues := answer.0, answer.1;
      judged := judged + 1;
      cp.verification := Some(Verification(verdict, cp.remediations));
      JudgeNext(limit, judging, verdict, issues);
      ExecConcat(limit, start, [Review], [Judge(verdict, issues)]);
      ExecOne(limit, judging, Judge(verdict, issues));
    }

    /** Act on the verdict: finish, give up, or send steps back. */
    method Act(verdict: Verdict, issues: seq<Issue>, shouldDrain: bool) returns (done: Option<Result>)
      requires cp.graph.Some?
      modifies cp, file
      ensures At(match done case Some(r) => Done(r) case None => Scheduling) ==
              Next(limit, old(At(Deciding(verdict, issues))), Decide(shouldDrain))
      ensures done.None? ==> cp.graph.Some? && cp.remediations == old(cp.remediations) + 1 <= limit
    {
      hide Next, TargetSet, Hinted, Ids, Seeds, Closed, Downstream;
      ghost var w := At(Deciding(verdict, issues));
      DecideNext(limit, w, shouldDrain);
      if verdict == Fail {
        if cp.remediations < limit && !shouldDrain {
          cp.remediations := cp.remediations + 1;
          var targets := RemediationTargets(cp.graph.value, issues);
          TargetsAreIds(cp.graph.value, issues);
          cp.SendBack(targets, Hint(cp.remediations + 1, issues));
          cp.phase := Executing;
          file.Write(cp);
          return None;
        }
        return Some(VerificationFailed);
      }
      cp.phase := Verified;
      file.Write(cp);
      return Some(Ok);
    }

    /** One pulse's work on the task. Its events are those of a pulse in this environment, and a run of the machine,
        so everything proved about runs holds of it, and a crash anywhere inside it is the machine stopped after
        some of these events. */
    method RunOrchestration(ghost before: Pc, env: Env) returns (result: Result)
      requires cp.Value() == match file.saved case Some(saved) => saved case None => NewCheckpoint()
      modifies this, cp, file
      ensures At(Done(result)) == Exec(limit, old(At(before)), PulseEvents(limit, env, old(At(before))))
      ensures Reachable(limit, old(At(before))) ==> Reachable(limit, At(Done(result)))
      ensures Reachable(limit, old(At(before))) && result == Ok ==> Passed(cp.Value()) && AllComplete(cp.Value())
    {
      result := RunPulse(before, env);
      ReachableOnwards(limit, old(At(before)), PulseEvents(limit, env, old(At(before))));
      if Reachable(limit, old(At(before))) {
        ReachableInv(limit, At(Done(result)));
      }
    }

    method RunPulse(ghost before: Pc, env: Env) returns (result: Result)
      requires cp.Value() == match file.saved case Some(saved) => saved case None => NewCheckpoint()
      modifies this, cp, file
      ensures At(Done(result)) == Exec(limit, old(At(before)), PulseEvents(limit, env, old(At(before))))
    {
      hide Next, Exec, LoopEvents;
      ghost var start := At(before);
      BeginNext(limit, start);
      ExecOne(limit, start, Begin);
      ghost var es := [Begin];
      pulses, startRound, loops := pulses + 1, cp.remediations, 0;
      if cp.graph.None? {
        ghost var w := At(Planning);
        var planned := Plan(env.plan);
        es := Extend(limit, start, es, w, [Event.Plan(env.plan)]);
        if planned.Some? {
          assert PulseEvents(limit, env, start) == es;
          return planned.value;
        }
        assert PulseEvents(limit, env, start) == es + LoopEvents(limit, env, At(Scheduling));
      }
      ghost var w := At(Scheduling);
      result := RunLoop(env);
      es := ExtendRun(limit, start, es, w, LoopEvents(limit, env, w));
    }

    /** Execute, verify, remediate, until the pulse ends. */
    method RunLoop(env: Env) returns (result: Result)
      requires cp.graph.Some?
      modifies this`loops, this`judged, cp, file
      ensures At(Done(result)) == Exec(limit, old(At(Scheduling)), LoopEvents(limit, env, old(At(Scheduling))))
    {
      hide Next, Exec, RoundEvents;
      ghost var start := At(Scheduling);
      ghost var es := [];
      ExecNone(limit, start);
      while true
        invariant cp.graph.Some?
        invariant At(Scheduling) == Exec(limit, start, es)
        invariant LoopEvents(limit, env, start) == es + LoopEvents(limit, env, At(Scheduling))
        decreases limit - cp.remediations
      {
        ghost var w := At(Scheduling);
        var stop := RunRound(env);
        ghost var round := RoundEvents(limit, env, w);
        ghost var before := es;
        es := ExtendRun(limit, start, es, w, round);
        if stop.Some? {
          assert round + [] == round;
          assert LoopEvents(limit, env, w) == round;
          return stop.value;
        }
        assert LoopEvents(limit, env, w) == round + LoopEvents(limit, env, At(Scheduling));
        Assoc(before, round, LoopEvents(limit, env, At(Scheduling)));
      }
    }

    /** One round: the scheduler, the review, and what to do about it. */
    method RunRound(env: Env) returns (stop: Option<Result>)
      requires cp.graph.Some?
      modifies this`loops, this`judged, cp, file
      ensures At(match stop case Some(r) => Done(r) case None => Scheduling) ==
              Exec(limit, old(At(Scheduling)), RoundEvents(limit, env, old(At(Scheduling))))
      ensures stop.None? ==> cp.graph.Some? && cp.remediations == old(cp.remediations) + 1 <= limit
    {
      hide Next, Exec, LegalSchedule, AnyParked, StepEvents, AnswerFor, VerdictEvents;
      ghost var start := At(Scheduling);
      ghost var steps := StepEvents(cp.Value(), env.steps(cp.remediations));
      var entries, drained := RunScheduler(env);
      ghost var w1 := At(Scheduling);
      ghost var scheduled := [Scheduled(entries, drained)];
      stop := AfterScheduler(entries, drained);
      ExecOne(limit, w1, Scheduled(entries, drained));
      ExecConcat(limit, start, steps, scheduled);
      if stop.Some? {
        assert scheduled + [] == scheduled;
        return;
      }
      ghost var w2 := At(Reviewing(entries));
      stop := JudgeAndAct(entries, env);
      ExecConcat(limit, start, steps + scheduled, VerdictEvents(limit, env, w2));
      Assoc(steps, scheduled, VerdictEvents(limit, env, w2));
    }

    /** The review and what to do about it. */
    method JudgeAndAct(entries: map<string, Entry>, env: Env) returns (stop: Option<Result>)
      requires cp.graph.Some?
      modifies this`judged, cp, file
      ensures At(match stop case Some(r) => Done(r) case None => Scheduling) ==
              Exec(limit, old(At(Reviewing(entries))), VerdictEvents(limit, env, old(At(Reviewing(entries)))))
      ensures stop.None? ==> cp.graph.Some? && cp.remediations == old(cp.remediations) + 1 <= limit
    {
      hide Next, Exec, JudgeEvents;
      ghost var start := At(Reviewing(entries));
      ghost var review := JudgeEvents(limit, env, start);
      var verdict, issues, failed := ReviewRun(entries, env);
      if failed {
        assert review + [] == review;
        return Some(StepFailed);
      }
      ghost var w := At(Deciding(verdict, issues));
      var drain := env.drain(cp.remediations);
      stop := Act(verdict, issues, drain);
      ExecOne(limit, w, Decide(drain));
      ExecConcat(limit, start, review, [Decide(drain)]);
    }
  }

  ghost function Extend(limit: nat, start: World, es: seq<Event>, w: World, more: seq<Event>): (r: seq<Event>)
    requires w == Exec(limit, start, es) && |more| == 1
    ensures r == es + more && Exec(limit, start, r) == Next(limit, w, more[0])
  {
    hide Next, Exec;
    ExecConcat(limit, start, es, more);
    assert more == [more[0]];
    ExecOne(limit, w, more[0]);
    es + more
  }

  ghost function ExtendRun(limit: nat, start: World, es: seq<Event>, w: World, more: seq<Event>): (r: seq<Event>)
    requires w == Exec(limit, start, es)
    ensures r == es + more && Exec(limit, start, r) == Exec(limit, w, more)
  {
    ExecConcat(limit, start, es, more);
    es + more
  }

  lemma ExecNone(limit: nat, w: World)
    ensures Exec(limit, w, []) == w
  {
  }

  lemma BeginNext(limit: nat, w: World)
    requires w.mem == match w.disk case Some(cp) => cp case None => NewCheckpoint()
    ensures Next(limit, w, Begin) ==
            w.(pc := if w.mem.graph.None? then Planning else Scheduling,
               pulses := w.pulses + 1, startRound := w.mem.remediations, loops := 0)
  {
  }

  lemma StepEndedNext(limit: nat, w: World, id: string, entry: Entry)
    requires w.pc == Scheduling && LegalStep(w.mem, id, entry)
    ensures Next(limit, w, StepEnded(id, entry)) ==
            Save(w, w.mem.(subtasks := w.mem.subtasks[id := Snapshot(entry)]), Scheduling)
  {
  }

  lemma ReviewNext(limit: nat, w: World)
    requires w.pc.Reviewing?
    ensures Next(limit, w, Review) ==
            if AnyFailed(w.pc.entries) then w.(pc := Done(StepFailed))
            else if AlreadyVerified(w.mem) && w.mem.verification.Some?
            then w.(pc := Deciding(w.mem.verification.value.verdict, []))
            else Save(w, w.mem.(phase := Verifying), Judging)
  {
  }

  lemma DecideNext(limit: nat, w: World, drain: bool)
    requires w.pc.Deciding?
    ensures Next(limit, w, Decide(drain)) ==
            if w.pc.verdict == Pass then Save(w, w.mem.(phase := Verified), Done(Ok))
            else if w.mem.remediations < limit && !drain && w.mem.graph.Some?
            then Save(w, Remediate(w.mem, w.pc.issues), Scheduling)
            else w.(pc := Done(VerificationFailed))
  {
  }

  lemma TargetsAreIds(graph: Graph, issues: seq<Issue>)
    ensures TargetSet(graph, issues) <= Ids(graph)
  {
  }

  lemma JudgeNext(limit: nat, w: World, verdict: Verdict, issues: seq<Issue>)
    requires w.pc == Judging
    ensures Next(limit, w, Judge(verdict, issues)) ==
            w.(mem := w.mem.(verification := Some(Verification(verdict, w.mem.remediations))),
               judged := w.judged + 1, pc := Deciding(verdict, issues))
  {
  }
}
