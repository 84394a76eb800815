/** The controller of the embedded globe (dashboard/lib/gev.ts): check the host, mint an access link, show the frame,
    keep watching. Its timers and its calls in flight are a set of pending things that answer in any order, or never;
    each call carries the generation (`run`) that made it. */
module Gev {
  import opened Text

  datatype Reason = Unset | Invalid

  datatype Target = Host(origin: string) | NoHost(reason: Reason)

  datatype Health = Up | Starting | Down | Timeout

  datatype Missing = Secret | Worker

  datatype MintResult = Minted(token: string) | Unauthorized | NotConfigured(what: Missing) | MintError(message: string)

  datatype Message = SessionBlocked | Rejected

  /** The texts shown: the Worker refused the admin token; the host keeps refusing the link; or the mint's own
      message. */
  datatype Notice = BadAdminToken | BadLink | FromMint(message: string)

  datatype Phase = Empty | Checking | Waking | Minting | Ready | Unconfigured | Error

  datatype View = View(
    phase: Phase, src: Option<string>, reachable: Option<bool>, attempts: nat, message: Option<Notice>,
    missing: Option<Missing>, sessionBlocked: bool, frameKey: nat, emptyReason: Option<Reason>)

  const INITIAL_VIEW := View(Checking, None, None, 0, None, None, false, 0, None)

  const TIMEOUT_RETRY_MS := 500
  const MINT_RETRY_MS := 15_000
  const AUTO_RELOAD_WINDOW_MS := 120_000
  const AUTO_RELOAD_LIMIT := 2
  const RETRY_STEPS_MS := [3000, 5000, 8000, 12000, 15000]

  function RetryDelayMs(attempt: int): (ms: nat)
    ensures 3000 <= ms <= 15_000
  {
    var a := if attempt < 1 then 1 else attempt;
    RETRY_STEPS_MS[(if a < 5 then a else 5) - 1]
  }

  /** The delay never shrinks with the number of attempts, and is at its ceiling exactly from the fifth on. */
  lemma RetryDelayGrows(a: int, b: int)
    requires a <= b
    ensures RetryDelayMs(a) <= RetryDelayMs(b)
    ensures RetryDelayMs(a) == 15_000 <==> a >= 5
  {
    assert RETRY_STEPS_MS[0] < RETRY_STEPS_MS[1] < RETRY_STEPS_MS[2] < RETRY_STEPS_MS[3] < RETRY_STEPS_MS[4];
  }

  /** The iframe address; the percent-encoding of the token is not modelled. */
  function BuildGevSrc(origin: string, token: string): (src: string)
    ensures origin <= src && |src| == |origin| + 12 + |token| && src[|origin| + 12..] == token
  {
    origin + "/?gev_token=" + token
  }

  /** A call that has not answered yet. */
  datatype InFlight = ProbeCall(gen: nat) | MonitorCall(gen: nat) | MintCall(gen: nat)

  datatype Timer = ProbeTimer(gen: nat, ms: nat) | MonitorTimer(gen: nat) | RefreshTimer

  /** What lies outside the controller: calls in flight, armed timers by handle, the states emitted. */
  datatype Env = Env(calls: multiset<InFlight>, timers: map<nat, Timer>, nextHandle: nat, emitted: seq<View>,
      rejected: nat)

  /** The controller. `reloads` is the whole history of automatic reloads; `auto` is the pruned list it keeps. */
  datatype Ctl = Ctl(
    view: View, timer: Option<nat>, refresh: Option<nat>, run: nat, stopped: bool, missed: nat,
    auto: seq<int>, reloads: seq<int>, env: Env)

  // ------------------------------------------------------------------ transitions

  function Emit(c: Ctl, v: View): Ctl {
    c.(view := v, env := c.env.(emitted := c.env.emitted + [v]))
  }

  function Calling(c: Ctl, call: InFlight): Ctl {
    c.(env := c.env.(calls := c.env.calls + multiset{call}))
  }

  function Without(timers: map<nat, Timer>, handle: Option<nat>): map<nat, Timer> {
    match handle case Some(h) => timers - {h} case None => timers
  }

  function ClearTimers(c: Ctl): Ctl {
    c.(timer := None, refresh := None, env := c.env.(timers := Without(Without(c.env.timers, c.timer), c.refresh)))
  }

  /** Arm a timer; the caller stores the handle. */
  function Arm(c: Ctl, t: Timer): Ctl {
    c.(env := c.env.(timers := c.env.timers[c.env.nextHandle := t], nextHandle := c.env.nextHandle + 1))
  }

  function ArmMain(c: Ctl, t: Timer): Ctl {
    Arm(c, t).(timer := Some(c.env.nextHandle))
  }

  function Started(target: Target, c: Ctl): Ctl {
    var c1 := c.(stopped := false, run := c.run + 1);
    match target
    case NoHost(reason) => Emit(c1, INITIAL_VIEW.(phase := Empty, emptyReason := Some(reason)))
    case Host(_) => Calling(Emit(c1, INITIAL_VIEW), ProbeCall(c1.run))
  }

  function Stopped(c: Ctl): Ctl {
    ClearTimers(c.(stopped := true, run := c.run + 1))
  }

  function Reloaded(target: Target, c: Ctl): Ctl {
    if c.stopped || target.NoHost? then c
    else
      var c1 := ClearTimers(c.(run := c.run + 1)).(missed := 0);
      Calling(Emit(c1, c1.view.(phase := Checking, src := None, attempts := 0, message := None,
          sessionBlocked := false)),
           ProbeCall(c1.run))
  }

  /** The automatic reloads still inside the window. */
  function Recent(auto: seq<int>, now: int): seq<int> {
    if auto == [] then []
    else (if now - auto[0] < AUTO_RELOAD_WINDOW_MS then [auto[0]] else []) + Recent(auto[1..], now)
  }

  function Report(target: Target, c: Ctl, message: Message, now: int): Ctl {
    if c.stopped then c
    else if message == SessionBlocked then Emit(c, c.view.(sessionBlocked := true))
    else
      var recent := Recent(c.auto, now);
      if |recent| >= AUTO_RELOAD_LIMIT
      then var c1 := ClearTimers(c.(auto := recent));
           Emit(c1, c1.view.(phase := Error, src := None, message := Some(BadLink)))
      else Reloaded(target, c.(auto := recent + [now], reloads := c.reloads + [now]))
  }

  function Answered(c: Ctl, call: InFlight): Ctl {
    c.(env := c.env.(calls := c.env.calls - multiset{call}))
  }

  function ProbeAnswered(c: Ctl, gen: nat, health: Health): Ctl {
    var c1 := Answered(c, ProbeCall(gen));
    if gen != c1.run then c1
    else if health == Up
    then Calling(Emit(c1, c1.view.(phase := Minting, reachable := Some(true), attempts := 0)), MintCall(gen))
    else WaitingToWake(c1, gen, health)
  }

  /** Not awake yet: shown as waking, and probed again after a delay. */
  function WaitingToWake(c: Ctl, gen: nat, health: Health): Ctl {
    var attempts := c.view.attempts + 1;
    ArmMain(Emit(c, c.view.(phase := Waking, reachable := Some(false), attempts := attempts, message := None,
        src := None)),
            ProbeTimer(gen, if health == Timeout then TIMEOUT_RETRY_MS else RetryDelayMs(attempts)))
  }

  function Shown(c: Ctl, gen: nat, src: string): Ctl {
    var c1 := Emit(c.(missed := 0),
                   c.view.(phase := Ready, src := Some(src), reachable := Some(true),
                           message := None, sessionBlocked := false, frameKey := c.view.frameKey + 1));
    var c2 := ArmMain(c1, MonitorTimer(gen));
    Arm(c2, RefreshTimer).(refresh := Some(c2.env.nextHandle))
  }

  function MintAnswered(origin: string, c: Ctl, gen: nat, result: MintResult): Ctl {
    var c1 := Answered(c, MintCall(gen));
    if gen != c1.run then c1 else WithMint(origin, c1, gen, result)
  }

  function WithMint(origin: string, c: Ctl, gen: nat, result: MintResult): Ctl {
    match result
    case Minted(token) => Shown(c, gen, BuildGevSrc(origin, token))
    case Unauthorized =>
      var c1 := Emit(c, c.view.(phase := Error, message := Some(BadAdminToken)));
      c1.(env := c1.env.(rejected := c1.env.rejected + 1))
    case NotConfigured(what) => Emit(c, c.view.(phase := Unconfigured, missing := Some(what)))
    case MintError(message) =>
      ArmMain(Emit(c, c.view.(phase := Error, message := Some(FromMint(message)))), ProbeTimer(gen, MINT_RETRY_MS))
  }

  function MonitorAnswered(c: Ctl, gen: nat, health: Health): Ctl {
    var c1 := Answered(c, MonitorCall(gen));
    if gen != c1.run then c1
    else
      ArmMain(Noted(c1, health), MonitorTimer(gen))
  }

  /** The dot: one missed check is noise, two in a row are shown, and a good one clears them. */
  function Noted(c: Ctl, health: Health): Ctl {
    var c2 := c.(missed := if health == Up then 0 else c.missed + 1);
    if health == Up
    then if c2.view.reachable != Some(true) then Emit(c2, c2.view.(reachable := Some(true))) else c2
    else if c2.missed >= 2 && c2.view.reachable != Some(false) then Emit(c2, c2.view.(reachable := Some(false))) else c2
  }

  /** A timer fires: it is no longer armed, though the controller still holds its handle. */
  function Fire(target: Target, c: Ctl, handle: nat): Ctl
    requires handle in c.env.timers
  {
    var t := c.env.timers[handle];
    var c1 := c.(env := c.env.(timers := c.env.timers - {handle}));
    match t
    case ProbeTimer(gen, _) => Calling(c1, ProbeCall(gen))
    case MonitorTimer(gen) => Calling(c1, MonitorCall(gen))
    case RefreshTimer => Reloaded(target, c1)
  }

  datatype Event =
    | StartEvent
    | StopEvent
    | ReloadEvent
    | MessageEvent(message: Message, now: int)
    | ProbeReply(gen: nat, health: Health)
    | MonitorReply(gen: nat, health: Health)
    | MintReply(gen: nat, result: MintResult)
    | TimerEvent(handle: nat)

  /** Anything pending may answer next; `start` is only called on a stopped controller. */
  function Next(target: Target, c: Ctl, e: Event): Ctl {
    match e
    case StartEvent => if c.stopped then Started(target, c) else c
    case StopEvent => Stopped(c)
    case ReloadEvent => Reloaded(target, c)
    case MessageEvent(message, now) => Report(target, c, message, now)
    case ProbeReply(gen, health) => if ProbeCall(gen) in c.env.calls then ProbeAnswered(c, gen, health) else c
    case MonitorReply(gen, health) => if MonitorCall(gen) in c.env.calls then MonitorAnswered(c, gen, health) else c
    case MintReply(gen, result) =>
      if MintCall(gen) in c.env.calls && target.Host? then MintAnswered(target.origin, c, gen, result) else c
    case TimerEvent(handle) => if handle in c.env.timers then Fire(target, c, handle) else c
  }

  function Exec(target: Target, c: Ctl, es: seq<Event>): Ctl
    decreases |es|
  {
    if es == [] then c else Exec(target, Next(target, c, es[0]), es[1..])
  }

  const INITIAL := Ctl(INITIAL_VIEW, None, None, 0, true, 0, [], [], Env(multiset{}, map[], 0, [], 0))

  // ------------------------------------------------------------------ the invariant

  predicate MainArmed(c: Ctl) {
    c.timer.Some? && c.timer.value in c.env.timers
  }

  predicate RefreshArmed(c: Ctl) {
    c.refresh.Some? && c.refresh.value in c.env.timers
  }

  /** What can carry the current generation on: a health check, a mint, or the main timer. */
  function Tokens(c: Ctl): nat {
    c.env.calls[ProbeCall(c.run)] + c.env.calls[MonitorCall(c.run)] + c.env.calls[MintCall(c.run)] +
    if MainArmed(c) then 1 else 0
  }

  predicate Probing(c: Ctl) {
    ProbeCall(c.run) in c.env.calls || (MainArmed(c) && c.env.timers[c.timer.value].ProbeTimer?)
  }

  predicate Monitoring(c: Ctl) {
    MonitorCall(c.run) in c.env.calls || (MainArmed(c) && c.env.timers[c.timer.value].MonitorTimer?)
  }

  /** Every armed timer is one of the two the controller knows, and belongs to the current generation. */
  predicate TimersKnown(c: Ctl) {
    && (forall h | h in c.env.timers :: h < c.env.nextHandle && (c.timer == Some(h) || c.refresh == Some(h)))
    && (c.timer.Some? ==> c.timer.value < c.env.nextHandle)
    && (c.refresh.Some? ==> c.refresh.value < c.env.nextHandle && c.refresh != c.timer)
    && (MainArmed(c) ==> var t := c.env.timers[c.timer.value]; !t.RefreshTimer? && t.gen == c.run)
    && (RefreshArmed(c) ==> c.env.timers[c.refresh.value] == RefreshTimer && c.view.phase == Ready)
  }

  predicate CallsKnown(c: Ctl) {
    forall call | call in c.env.calls :: call.gen <= c.run
  }

  /** At most one token; none when stopped; and which token goes with which phase. */
  predicate OneToken(target: Target, c: Ctl) {
    && Tokens(c) <= 1
    && (c.stopped || target.NoHost? ==> Tokens(c) == 0 && c.env.timers == map[])
    && (target.NoHost? ==> c.stopped || c.view.phase in {Empty, Error})
    && (Probing(c) ==> c.view.phase in {Checking, Waking, Error})
    && (MintCall(c.run) in c.env.calls ==> c.view.phase in {Minting, Error})
    && (Monitoring(c) ==> c.view.phase in {Ready, Error})
    && (!c.stopped && Tokens(c) == 0 ==>
          || c.view.phase in {Empty, Unconfigured}
          || (c.view.phase == Error && c.view.message in {Some(BadAdminToken), Some(BadLink)}))
  }

  predicate Display(c: Ctl) {
    c.view.src.Some? <==> c.view.phase == Ready
  }

  predicate Inv(target: Target, c: Ctl) {
    TimersKnown(c) && CallsKnown(c) && OneToken(target, c) && Display(c)
  }

  lemma StartInv(target: Target, c: Ctl)
    requires Inv(target, c) && c.stopped
    ensures Inv(target, Started(target, c))
  {
    hide BuildGevSrc, RetryDelayMs;
    assert forall call | call in c.env.calls :: call.gen != c.run + 1;
  }

  lemma StopInv(target: Target, c: Ctl)
    requires Inv(target, c)
    ensures Inv(target, Stopped(c))
  {
    hide BuildGevSrc, RetryDelayMs;
    assert forall call | call in c.env.calls :: call.gen != c.run + 1;
  }

  lemma ReloadInv(target: Target, c: Ctl)
    requires Inv(target, c)
    ensures Inv(target, Reloaded(target, c))
  {
    hide BuildGevSrc, RetryDelayMs;
    assert forall call | call in c.env.calls :: call.gen != c.run + 1;
  }

  lemma ReportInv(target: Target, c: Ctl, message: Message, now: int)
    requires Inv(target, c)
    ensures Inv(target, Report(target, c, message, now))
  {
    hide BuildGevSrc, RetryDelayMs;
    if !c.stopped && message == Rejected {
      var recent := Recent(c.auto, now);
      if |recent| < AUTO_RELOAD_LIMIT {
        ReloadInv(target, c.(auto := recent + [now], reloads := c.reloads + [now]));
      }
    }
  }

  lemma ProbeInv(target: Target, c: Ctl, gen: nat, health: Health)
    requires Inv(target, c) && ProbeCall(gen) in c.env.calls
    ensures Inv(target, ProbeAnswered(c, gen, health))
  {
    hide BuildGevSrc, RetryDelayMs;
    if gen != c.run {
      StaleInv(target, c, ProbeCall(gen));
      hide Inv;
    } else if health == Up {
      hide WaitingToWake;
    }
  }

  /** After a monitor check only the view's `reachable` may have changed; the monitor is armed again. */
  lemma RearmInv(target: Target, c: Ctl, v: View, emitted: seq<View>, missed: nat)
    requires Inv(target, c) && MonitorCall(c.run) in c.env.calls
    requires v == c.view.(reachable := v.reachable)
    ensures var c1 := Answered(c, MonitorCall(c.run));
            Inv(target, ArmMain(c1.(view := v, missed := missed, env := c1.env.(emitted := emitted)),
                MonitorTimer(c.run)))
  {
  }

  lemma MonitorInv(target: Target, c: Ctl, gen: nat, health: Health)
    requires Inv(target, c) && MonitorCall(gen) in c.env.calls
    ensures Inv(target, MonitorAnswered(c, gen, health))
  {
    if gen == c.run {
      var c' := MonitorAnswered(c, gen, health);
      RearmInv(target, c, c'.view, c'.env.emitted, c'.missed);
      hide Inv;
    } else {
      StaleInv(target, c, MonitorCall(gen));
      hide Inv;
    }
  }

  lemma StaleInv(target: Target, c: Ctl, call: InFlight)
    requires Inv(target, c) && call.gen != c.run
    ensures Inv(target, Answered(c, call))
  {
  }

  lemma MintInv(target: Target, c: Ctl, gen: nat, result: MintResult)
    requires Inv(target, c) && MintCall(gen) in c.env.calls && target.Host?
    ensures Inv(target, MintAnswered(target.origin, c, gen, result))
  {
    hide BuildGevSrc, RetryDelayMs;
  }

  lemma RefreshFires(target: Target, c: Ctl, handle: nat)
    requires Inv(target, c) && handle in c.env.timers && c.env.timers[handle].RefreshTimer?
    ensures Inv(target, c.(env := c.env.(timers := c.env.timers - {handle})))
  {
  }

  lemma MainFires(target: Target, c: Ctl, handle: nat)
    requires Inv(target, c) && handle in c.env.timers && !c.env.timers[handle].RefreshTimer?
    ensures Inv(target, Fire(target, c, handle))
  {
    assert c.timer == Some(handle);
    hide Reloaded;
  }

  lemma FireInv(target: Target, c: Ctl, handle: nat)
    requires Inv(target, c) && handle in c.env.timers
    ensures Inv(target, Fire(target, c, handle))
  {
    hide Inv, Reloaded;
    if c.env.timers[handle].RefreshTimer? {
      RefreshFires(target, c, handle);
      ReloadInv(target, c.(env := c.env.(timers := c.env.timers - {handle})));
    } else {
      MainFires(target, c, handle);
    }
  }

  lemma InvStep(target: Target, c: Ctl, e: Event)
    requires Inv(target, c)
    ensures Inv(target, Next(target, c, e))
  {
    hide Inv, Started, Stopped, Reloaded, Report, ProbeAnswered, MonitorAnswered, MintAnswered, Fire;
    match e
    case StartEvent => if c.stopped { StartInv(target, c); }
    case StopEvent => StopInv(target, c);
    case ReloadEvent => ReloadInv(target, c);
    case MessageEvent(message, now) => ReportInv(target, c, message, now);
    case ProbeReply(gen, health) => if ProbeCall(gen) in c.env.calls { ProbeInv(target, c, gen, health); }
    case MonitorReply(gen, health) => if MonitorCall(gen) in c.env.calls { MonitorInv(target, c, gen, health); }
    case MintReply(gen, result) =>
      if MintCall(gen) in c.env.calls && target.Host? { MintInv(target, c, gen, result); }
    case TimerEvent(handle) => if handle in c.env.timers { FireInv(target, c, handle); }
  }

  lemma {:induction false} InvRun(target: Target, c: Ctl, es: seq<Event>)
    requires Inv(target, c)
    ensures Inv(target, Exec(target, c, es))
    decreases |es|
  {
    hide Inv, Next;
    if es != [] {
      InvStep(target, c, es[0]);
      InvRun(target, Next(target, c, es[0]), es[1..]);
    }
  }

  predicate Ended(v: View) {
    v.phase in {Empty, Unconfigured} || (v.phase == Error && v.message in {Some(BadAdminToken), Some(BadLink)})
  }

  /** Main result. In every state that any interleaving can reach: at most one token can carry the current
      generation on; a running controller without one has ended as empty, unconfigured, rejected or reload-limited;
      a stopped one has none and no armed timer; no armed timer is ever forgotten; and the frame is shown exactly in
      the phase `ready`. */
  lemma {:induction false} TokenInvariant(target: Target, es: seq<Event>)
    ensures var c := Exec(target, INITIAL, es);
            && Tokens(c) <= 1
            && (c.stopped ==> Tokens(c) == 0 && c.env.timers == map[])
            && (!c.stopped && Tokens(c) == 0 ==> Ended(c.view))
            && (!c.stopped && c.view.phase in {Checking, Waking, Minting, Ready} ==> Tokens(c) == 1)
            && (forall h | h in c.env.timers :: c.timer == Some(h) || c.refresh == Some(h))
            && (c.view.src.Some? <==> c.view.phase == Ready)
  {
    InvRun(target, INITIAL, es);
  }

  // ------------------------------------------------------------------ old answers and stopped controllers

  /** The controller as everyone but the pending-call table sees it. */
  function Visible(c: Ctl): Ctl {
    c.(env := c.env.(calls := multiset{}))
  }

  predicate Stale(c: Ctl, e: Event) {
    match e
    case ProbeReply(gen, _) => gen != c.run
    case MonitorReply(gen, _) => gen != c.run
    case MintReply(gen, _) => gen != c.run
    case _ => false
  }

  /** The answer to a call of an older generation changes nothing, starts nothing and shows nothing. */
  lemma StaleAnswersChangeNothing(target: Target, c: Ctl, e: Event)
    requires Stale(c, e)
    ensures Visible(Next(target, c, e)) == Visible(c)
    ensures Next(target, c, e).env.calls <= c.env.calls
  {
  }

  /** After `stop`, until the next `start`, nothing is emitted, no timer is armed and no call is made. */
  lemma {:induction false} StoppedIsQuiet(target: Target, c: Ctl, es: seq<Event>)
    requires Inv(target, c) && c.stopped && forall e | e in es :: !e.StartEvent?
    ensures var c' := Exec(target, c, es);
            c'.stopped && c'.env.emitted == c.env.emitted && c'.env.timers == map[] && c'.env.calls <= c.env.calls
    decreases |es|
  {
    if es != [] {
      QuietStep(target, c, es[0]);
      InvStep(target, c, es[0]);
      hide Inv, Next;
      StoppedIsQuiet(target, Next(target, c, es[0]), es[1..]);
    }
  }

  lemma QuietStep(target: Target, c: Ctl, e: Event)
    requires Inv(target, c) && c.stopped && !e.StartEvent?
    ensures var c' := Next(target, c, e);
            c'.stopped && c'.env.emitted == c.env.emitted && c'.env.calls <= c.env.calls
  {
    hide Recent, BuildGevSrc, RetryDelayMs;
    assert forall call | call in c.env.calls :: call.gen != c.run;
    assert c.env.timers == map[];
  }

  predicate SameFrame(before: View, after: View) {
    after.frameKey == before.frameKey && (after.phase == Ready ==> before.phase == Ready)
  }

  lemma ReloadFrame(target: Target, c: Ctl)
    ensures SameFrame(c.view, Reloaded(target, c).view)
  {
  }

  lemma ReportFrame(target: Target, c: Ctl, message: Message, now: int)
    ensures SameFrame(c.view, Report(target, c, message, now).view)
  {
    hide Recent;
  }

  lemma AnswerFrame(c: Ctl, gen: nat, health: Health)
    ensures SameFrame(c.view, ProbeAnswered(c, gen, health).view)
    ensures SameFrame(c.view, MonitorAnswered(c, gen, health).view)
  {
    hide RetryDelayMs;
  }

  /** `frameKey` never decreases between starts and rises by exactly one on each entry to `ready`. */
  lemma FrameKeyCountsEntries(target: Target, c: Ctl, e: Event)
    requires Inv(target, c) && !(e.StartEvent? && c.stopped)
    ensures var c' := Next(target, c, e);
            c'.view.frameKey == c.view.frameKey + if c'.view.phase == Ready && c.view.phase != Ready then 1 else 0
  {
    hide Reloaded, Report, ProbeAnswered, MonitorAnswered, TimersKnown, CallsKnown, BuildGevSrc, Display;
    match e
    case MintReply(gen, _) => assert gen == c.run && MintCall(gen) in c.env.calls ==> c.view.phase != Ready;
    case ReloadEvent => hide OneToken; ReloadFrame(target, c);
    case MessageEvent(message, now) => hide OneToken; ReportFrame(target, c, message, now);
    case ProbeReply(gen, health) => hide OneToken; AnswerFrame(c, gen, health);
    case MonitorReply(gen, health) => hide OneToken; AnswerFrame(c, gen, health);
    case TimerEvent(handle) =>
      hide OneToken;
      if handle in c.env.timers { ReloadFrame(target, c.(env := c.env.(timers := c.env.timers - {handle}))); }
    case _ =>
  }

  // ------------------------------------------------------------------ what is shown

  /** What each phase shows: an error has its message and a working frame has none; the attempts are counted while
      waking only; an empty page says why, and a missing configuration says what. */
  predicate Shows(v: View) {
    && (v.phase == Error ==> v.message.Some?)
    && (v.phase in {Checking, Waking, Ready} ==> v.message.None?)
    && (v.phase in {Checking, Minting} ==> v.attempts == 0)
    && (v.phase == Waking ==> v.attempts >= 1)
    && (v.phase == Empty ==> v.emptyReason.Some?)
    && (v.phase == Unconfigured ==> v.missing.Some?)
  }

  predicate LastEmitted(c: Ctl) {
    c.env.emitted != [] ==> c.env.emitted[|c.env.emitted| - 1] == c.view
  }

  predicate ShownLast(c: Ctl) {
    Shows(c.view) && LastEmitted(c)
  }

  lemma EmitShows(c: Ctl, v: View)
    requires Shows(v)
    ensures ShownLast(Emit(c, v))
  {
    hide Shows;
  }

  lemma SameShows(c: Ctl, c': Ctl)
    requires ShownLast(c) && c'.view == c.view && c'.env.emitted == c.env.emitted
    ensures ShownLast(c')
  {
    hide Shows;
  }

  lemma ReportShows(target: Target, c: Ctl, message: Message, now: int)
    requires ShownLast(c)
    ensures ShownLast(Report(target, c, message, now))
  {
    var c1 := c.(auto := Recent(c.auto, now));
    hide Recent;
    EmitShows(c, c.view.(sessionBlocked := true));
    EmitShows(ClearTimers(c1), c.view.(phase := Error, src := None, message := Some(BadLink)));
    var c2 := c1.(auto := c1.auto + [now], reloads := c1.reloads + [now]);
    SameShows(c, c2);
    ReloadShows(target, c2);
    SameShows(c, c1);
    hide Shows, LastEmitted, ShownLast, Reloaded, ClearTimers, Emit;
  }

  lemma MintShows(origin: string, c: Ctl, gen: nat, result: MintResult)
    requires ShownLast(c)
    ensures ShownLast(MintAnswered(origin, c, gen, result))
  {
    SameShows(c, Answered(c, MintCall(gen)));
    hide LastEmitted, ShownLast;
    var c1, after := Answered(c, MintCall(gen)), MintAnswered(origin, c, gen, result);
    if gen == c1.run {
      assert Shows(after.view);
      LastOfMint(origin, c1, gen, result);
      BothShow(after);
    }
  }

  lemma LastOfMint(origin: string, c: Ctl, gen: nat, result: MintResult)
    ensures LastEmitted(WithMint(origin, c, gen, result))
  {
    hide BuildGevSrc;
  }

  lemma BothShow(c: Ctl)
    requires Shows(c.view) && LastEmitted(c)
    ensures ShownLast(c)
  {
  }

  lemma ProbeShows(c: Ctl, gen: nat, health: Health)
    requires ShownLast(c)
    ensures ShownLast(ProbeAnswered(c, gen, health))
  {
    hide RetryDelayMs;
    SameShows(c, Answered(c, ProbeCall(gen)));
    var v := c.view.(phase := Minting, reachable := Some(true), attempts := 0);
    EmitShows(Answered(c, ProbeCall(gen)), v);
    hide LastEmitted;
  }

  lemma MonitorShows(c: Ctl, gen: nat, health: Health)
    requires ShownLast(c)
    ensures ShownLast(MonitorAnswered(c, gen, health))
  {
    var c1 := Answered(c, MonitorCall(gen));
    SameShows(c, c1);
    NotedShows(c1, health);
    SameShows(Noted(c1, health), ArmMain(Noted(c1, health), MonitorTimer(gen)));
    hide ShownLast, Noted, ArmMain, Answered;
  }

  lemma NotedShows(c: Ctl, health: Health)
    requires ShownLast(c)
    ensures ShownLast(Noted(c, health))
  {
    EmitShows(c, c.view.(reachable := Some(true)));
    EmitShows(c, c.view.(reachable := Some(false)));
    hide Shows;
  }

  lemma ReloadShows(target: Target, c: Ctl)
    requires ShownLast(c)
    ensures ShownLast(Reloaded(target, c)) && ShownLast(Started(target, c)) && ShownLast(Stopped(c))
  {
    hide Without;
  }

  lemma FireShows(target: Target, c: Ctl, handle: nat)
    requires ShownLast(c) && handle in c.env.timers
    ensures ShownLast(Fire(target, c, handle))
  {
    var c1 := c.(env := c.env.(timers := c.env.timers - {handle}));
    SameShows(c, c1);
    ReloadShows(target, c1);
    hide Reloaded, Shows;
  }

  lemma ShownStep(target: Target, c: Ctl, e: Event)
    requires ShownLast(c)
    ensures ShownLast(Next(target, c, e))
  {
    ReloadShows(target, c);
    NextIs(target, c, e);
    hide *;
    match e
    case MessageEvent(message, now) => ReportShows(target, c, message, now);
    case ProbeReply(gen, health) => ProbeShows(c, gen, health);
    case MonitorReply(gen, health) => MonitorShows(c, gen, health);
    case MintReply(gen, result) => if target.Host? { MintShows(target.origin, c, gen, result); }
    case TimerEvent(handle) => if handle in c.env.timers { FireShows(target, c, handle); }
    case _ =>
  }

  /** One step, by event. */
  lemma NextIs(target: Target, c: Ctl, e: Event)
    ensures Next(target, c, e) in {
              c, Started(target, c), Stopped(c), Reloaded(target, c)} ||
            (match e
             case MessageEvent(message, now) => Next(target, c, e) == Report(target, c, message, now)
             case ProbeReply(gen, health) => Next(target, c, e) == ProbeAnswered(c, gen, health)
             case MonitorReply(gen, health) => Next(target, c, e) == MonitorAnswered(c, gen, health)
             case MintReply(gen, result) =>
               target.Host? && Next(target, c, e) == MintAnswered(target.origin, c, gen, result)
             case TimerEvent(handle) => handle in c.env.timers && Next(target, c, e) == Fire(target, c, handle)
             case _ => false)
  {
    hide Report, MintAnswered, ProbeAnswered, MonitorAnswered, Reloaded, Started, Stopped, Fire;
  }

  /** In every reachable state the view shows what its phase says, and what was last emitted is what the view is. */
  lemma {:induction false} ViewIsSound(target: Target, c: Ctl, es: seq<Event>)
    requires ShownLast(c)
    ensures ShownLast(Exec(target, c, es))
    decreases |es|
  {
    if es != [] {
      ShownStep(target, c, es[0]);
      hide Next, ShownLast;
      ViewIsSound(target, Next(target, c, es[0]), es[1..]);
    }
  }

  /** A frame is shown and its monitor is armed. */
  predicate Watching(c: Ctl) {
    && c.timer.Some? && c.timer.value in c.env.timers && c.env.timers[c.timer.value] == MonitorTimer(c.run)
    && c.timer.value < c.env.nextHandle && MonitorCall(c.run) !in c.env.calls
  }

  /** The monitor fires, and its check is answered. */
  function OneCheck(target: Target, c: Ctl, health: Health): Ctl
    requires c.timer.Some?
  {
    Next(target, Next(target, c, TimerEvent(c.timer.value)), MonitorReply(c.run, health))
  }

  lemma MonitorFires(target: Target, c: Ctl)
    requires Watching(c)
    ensures var c1 := Next(target, c, TimerEvent(c.timer.value));
            && c1.env.calls[MonitorCall(c.run)] == 1 && c1 == c.(env := c1.env)
  {
    hide Report, MintAnswered, ProbeAnswered, MonitorAnswered, Reloaded, Started, Stopped;
  }

  lemma CheckAnswered(c1: Ctl, health: Health)
    requires c1.env.calls[MonitorCall(c1.run)] == 1
    ensures var c' := MonitorAnswered(c1, c1.run, health);
            && Watching(c') && c'.run == c1.run
            && c'.missed == (if health == Up then 0 else c1.missed + 1)
            && (health == Up ==> c'.view == c1.view.(reachable := Some(true)))
            && (health != Up && c'.missed >= 2 ==> c'.view == c1.view.(reachable := Some(false)))
            && (health != Up && c'.missed < 2 ==> c'.view == c1.view)
  {
  }

  lemma CheckTells(target: Target, c: Ctl, health: Health)
    requires Watching(c)
    ensures var c' := OneCheck(target, c, health);
            && Watching(c') && c'.run == c.run
            && c'.missed == (if health == Up then 0 else c.missed + 1)
            && (health == Up ==> c'.view == c.view.(reachable := Some(true)))
            && (health != Up && c'.missed >= 2 ==> c'.view == c.view.(reachable := Some(false)))
            && (health != Up && c'.missed < 2 ==> c'.view == c.view)
  {
    MonitorFires(target, c);
    CheckAnswered(Next(target, c, TimerEvent(c.timer.value)), health);
    hide Report, MintAnswered, ProbeAnswered, Reloaded, Started, Stopped, MonitorAnswered, Fire;
  }

  function Checks(target: Target, c: Ctl, hs: seq<Health>): Ctl
    requires Watching(c)
    ensures Watching(Checks(target, c, hs))
    decreases |hs|
  {
    if hs == [] then c
    else
      var before := Checks(target, c, hs[..|hs| - 1]);
      CheckTells(target, before, hs[|hs| - 1]);
      OneCheck(target, before, hs[|hs| - 1])
  }

  /** How many checks at the end of the list were missed. */
  function MissedAtEnd(hs: seq<Health>): nat {
    if hs == [] || hs[|hs| - 1] == Up then 0 else 1 + MissedAtEnd(hs[..|hs| - 1])
  }

  /** Over every run of monitor checks on a frame just shown: the dot turns unreachable exactly when the last two
      checks were missed, and a single good one turns it back; nothing else of the view changes. */
  lemma {:induction false} DotTurnsAfterTwoMisses(target: Target, c: Ctl, hs: seq<Health>)
    requires Watching(c) && c.missed == 0 && c.view.reachable == Some(true)
    ensures var c' := Checks(target, c, hs);
            && c'.missed == MissedAtEnd(hs)
            && c'.view == c.view.(reachable := Some(MissedAtEnd(hs) < 2))
  {
    if hs != [] {
      DotTurnsAfterTwoMisses(target, c, hs[..|hs| - 1]);
      CheckTells(target, Checks(target, c, hs[..|hs| - 1]), hs[|hs| - 1]);
      hide OneCheck, Watching;
    }
  }

  /** That is where showing a frame leads. */
  lemma ShownIsWatched(c: Ctl, gen: nat, src: string)
    requires gen == c.run && MonitorCall(c.run) !in c.env.calls
    ensures var c' := Shown(c, gen, src);
            Watching(c') && c'.missed == 0 && c'.view.reachable == Some(true) && c'.view.src == Some(src)
  {
  }

  /** Two of these reloads lie inside the window. */
  predicate TwoInside(auto: seq<int>, now: int) {
    exists i, j :: 0 <= i < j < |auto| && now - auto[i] < 120_000 && now - auto[j] < 120_000
  }

  lemma {:induction false} RecentTwo(auto: seq<int>, now: int)
    ensures |Recent(auto, now)| >= 1 <==> exists i :: 0 <= i < |auto| && now - auto[i] < 120_000
    ensures |Recent(auto, now)| >= 2 <==> TwoInside(auto, now)
  {
    if auto != [] {
      var rest := auto[1..];
      RecentTwo(rest, now);
      assert forall i :: 0 <= i < |rest| ==> rest[i] == auto[i + 1];
      assert forall i :: 1 <= i < |auto| ==> auto[i] == rest[i - 1];
      if TwoInside(auto, now) {
        var i, j :| 0 <= i < j < |auto| && now - auto[i] < 120_000 && now - auto[j] < 120_000;
        assert rest[j - 1] == auto[j];
        assert i > 0 ==> rest[i - 1] == auto[i];
      }
    }
  }

  /** A link that the host refused: everything starts over with a new generation, unless two automatic reloads lie
      inside the window already; then the page says why it stopped, and nothing new is begun. */
  lemma RefusedLinkReloadsIff(target: Target, c: Ctl, now: int)
    requires !c.stopped && target.Host?
    ensures var c' := Next(target, c, MessageEvent(Rejected, now));
            && c'.timer.None? && c'.refresh.None? && c'.view.src.None?
            && (TwoInside(c.auto, now) ==>
                  c'.run == c.run && c'.env.calls == c.env.calls && c'.view.phase == Error &&
                  c'.view.message == Some(BadLink))
            && (!TwoInside(c.auto, now) ==>
                  c'.run == c.run + 1 && c'.env.calls == c.env.calls + multiset{ProbeCall(c.run + 1)} &&
                  c'.view.phase == Checking && c'.view.message.None? && c'.auto[|c'.auto| - 1..] == [now])
  {
    RecentTwo(c.auto, now);
    hide Recent, TwoInside;
  }

  /** The notice about a blocked session comes with its message only, which a running controller always heeds, and
      stays until the frame starts over or is shown again. */
  lemma NoticeOfSession(target: Target, c: Ctl, e: Event)
    ensures var c' := Next(target, c, e);
            && (!c.stopped && e.MessageEvent? && e.message == SessionBlocked ==> c'.view.sessionBlocked)
            && (c'.view.sessionBlocked && !c.view.sessionBlocked ==> e.MessageEvent? && e.message == SessionBlocked)
            && (c.view.sessionBlocked && !c'.view.sessionBlocked ==>
                  c'.run > c.run || c'.view.frameKey > c.view.frameKey)
  {
    hide Recent, BuildGevSrc, RetryDelayMs;
  }

  /** A probe that is not answered well is counted, and the next one comes after the delay of that count, or at once
      after a timeout. */
  lemma WakingIsCounted(target: Target, c: Ctl, health: Health)
    requires ProbeCall(c.run) in c.env.calls && health != Up
    ensures var c' := Next(target, c, ProbeReply(c.run, health));
            && c'.view.phase == Waking && c'.view.attempts == c.view.attempts + 1 && c'.view.src.None?
            && c'.timer.Some? && c'.timer.value in c'.env.timers
            && c'.env.timers[c'.timer.value] ==
               ProbeTimer(c.run, if health == Timeout then 500 else RetryDelayMs(c.view.attempts + 1))
  {
    hide RetryDelayMs;
  }

  // ------------------------------------------------------------------ the reload limit

  /** The reload limit clears the timers but not the generation: it stops the controller exactly when no call of the
      current generation is in flight. */
  lemma LimitStopsIff(target: Target, c: Ctl, now: int)
    requires Inv(target, c) && !c.stopped && |Recent(c.auto, now)| >= AUTO_RELOAD_LIMIT
    ensures var c' := Report(target, c, Rejected, now);
            && c'.view.phase == Error && c'.view.message == Some(BadLink) && c'.view.src.None?
            && (Tokens(c') == 0 <==> forall call | call in c.env.calls :: call.gen != c.run)
  {
    hide Recent;
    var c' := Report(target, c, Rejected, now);
    assert !MainArmed(c');
    assert c'.env.calls == c.env.calls && c'.run == c.run;
    if Tokens(c') == 0 {
      forall call | call in c.env.calls ensures call.gen != c.run {
        match call case ProbeCall(_) => case MonitorCall(_) => case MintCall(_) =>
      }
    }
  }

  /** Without a token nothing that is pending can change what is shown; only a reload, a message or a start can. */
  lemma NoTokenNoChange(target: Target, c: Ctl, e: Event)
    requires Inv(target, c) && Tokens(c) == 0 && c.view.phase != Ready
    requires e.ProbeReply? || e.MonitorReply? || e.MintReply? || e.TimerEvent?
    ensures Next(target, c, e).view == c.view
  {
    hide Recent, BuildGevSrc, RetryDelayMs, Reloaded;
  }

  /** With a mint in flight the limit does not hold: the answer shows the frame again. */
  lemma LimitOvertaken(target: Target, c: Ctl, now: int, token: string)
    requires Inv(target, c) && target.Host? && !c.stopped
    requires MintCall(c.run) in c.env.calls && |Recent(c.auto, now)| >= AUTO_RELOAD_LIMIT
    ensures var c' := Next(target, Report(target, c, Rejected, now), MintReply(c.run, Minted(token)));
            c'.view.phase == Ready && c'.view.src == Some(BuildGevSrc(target.origin, token))
  {
    hide Recent, BuildGevSrc;
  }

  lemma ExecCons(target: Target, c: Ctl, e: Event, es: seq<Event>)
    ensures Exec(target, c, [e] + es) == Exec(target, Next(target, c, e), es)
  {
    hide Next;
    assert ([e] + es)[1..] == es;
  }

  /** A link is rejected while at most one reload is recent: the controller reloads. */
  lemma RejectedReloads(target: Target, c: Ctl)
    requires target.Host? && !c.stopped && (c.auto == [] || c.auto == [0])
    ensures var c' := Next(target, c, MessageEvent(Rejected, 0));
            && c'.auto == c.auto + [0] && c'.run == c.run + 1 && !c'.stopped && ProbeCall(c'.run) in c'.env.calls
  {
    assert Recent(c.auto, 0) == c.auto by { assert c.auto != [] ==> c.auto[1..] == []; }
    hide Recent;
  }

  /** Two rejected links, and the host answers the next check: a mint is in flight and two reloads are recent. */
  function TwoRejections(): seq<Event> {
    [StartEvent] + ([MessageEvent(Rejected, 0)] + ([MessageEvent(Rejected, 0)] + ([ProbeReply(3, Up)] + [])))
  }

  lemma MintInFlight(origin: string)
    ensures var c := Exec(Host(origin), INITIAL, TwoRejections());
            c.auto == [0, 0] && c.run == 3 && !c.stopped && MintCall(3) in c.env.calls
  {
    var target, m := Host(origin), MessageEvent(Rejected, 0);
    var c0 := Next(target, INITIAL, StartEvent);
    assert c0.auto == [] && c0.run == 1 && !c0.stopped;
    RejectedReloads(target, c0);
    var c1 := Next(target, c0, m);
    RejectedReloads(target, c1);
    var c2 := Next(target, c1, m);
    Woken(target, c2);
    var c3 := Next(target, c2, ProbeReply(3, Up));
    hide *;
    ExecCons(target, INITIAL, StartEvent, [m] + ([m] + ([ProbeReply(3, Up)] + [])));
    ExecCons(target, c0, m, [m] + ([ProbeReply(3, Up)] + []));
    ExecCons(target, c1, m, [ProbeReply(3, Up)] + []);
    ExecCons(target, c2, ProbeReply(3, Up), []);
    NoEvents(target, c3);
    TwoRejectionsAre();
  }

  lemma TwoRejectionsAre()
    ensures TwoRejections() ==
            [StartEvent] + ([MessageEvent(Rejected, 0)] + ([MessageEvent(Rejected, 0)] + ([ProbeReply(3, Up)] + [])))
  {
  }

  lemma NoEvents(target: Target, c: Ctl)
    ensures Exec(target, c, []) == c
  {
  }

  lemma Woken(target: Target, c: Ctl)
    requires ProbeCall(c.run) in c.env.calls && !c.stopped
    ensures var c' := Next(target, c, ProbeReply(c.run, Up));
            c'.auto == c.auto && c'.run == c.run && !c'.stopped && MintCall(c.run) in c'.env.calls
  {
  }

  /** A run that gets there: after the two rejections a third link is rejected while the mint is in flight. The
      limit is shown, and then, with the mint's answer, the frame. */
  lemma LimitIsReachedAndOvertaken(origin: string, token: string)
    ensures var c := Exec(Host(origin), INITIAL, TwoRejections());
            var limited := Next(Host(origin), c, MessageEvent(Rejected, 0));
            var shown := Next(Host(origin), limited, MintReply(3, Minted(token)));
            && limited.view.phase == Error && limited.view.message == Some(BadLink) && limited.view.src.None?
            && shown.view.phase == Ready && shown.view.src == Some(BuildGevSrc(origin, token))
  {
    var target := Host(origin);
    var c := Exec(target, INITIAL, TwoRejections());
    StartInvariant(target);
    hide *;
    MintInFlight(origin);
    InvRun(target, INITIAL, TwoRejections());
    TwoAreRecent();
    LimitStopsIff(target, c, 0);
    LimitOvertaken(target, c, 0, token);
    MessageIsReport(target, c);
  }

  lemma StartInvariant(target: Target)
    ensures Inv(target, INITIAL)
  {
  }

  lemma TwoAreRecent()
    ensures Recent([0, 0], 0) == [0, 0] && AUTO_RELOAD_LIMIT == 2
  {
    assert [0, 0][1..] == [0] && [0][1..] == [];
  }

  lemma MessageIsReport(target: Target, c: Ctl)
    ensures Next(target, c, MessageEvent(Rejected, 0)) == Report(target, c, Rejected, 0)
  {
    hide Report;
  }

  // ------------------------------------------------------------------ the rate of automatic reloads

  predicate Sorted(s: seq<int>) {
    forall i, j | 0 <= i < j < |s| :: s[i] <= s[j]
  }

  /** No three consecutive reloads within the window. */
  predicate Spaced(s: seq<int>) {
    forall i | 0 <= i < |s| - 2 :: s[i + 2] - s[i] >= AUTO_RELOAD_WINDOW_MS
  }

  /** The kept list is the end of the history, and what was pruned is older than the window. */
  predicate Rated(auto: seq<int>, reloads: seq<int>, clock: int) {
    && |auto| <= |reloads| && auto == reloads[|reloads| - |auto|..]
    && (forall i | 0 <= i < |reloads| - |auto| :: clock - reloads[i] >= AUTO_RELOAD_WINDOW_MS)
    && (forall i | 0 <= i < |reloads| :: reloads[i] <= clock)
    && Sorted(reloads) && Spaced(reloads)
  }

  lemma {:induction false} AllRecent(auto: seq<int>, now: int)
    requires forall i | 0 <= i < |auto| :: now - auto[i] < AUTO_RELOAD_WINDOW_MS
    ensures Recent(auto, now) == auto
  {
    if auto != [] {
      AllRecent(auto[1..], now);
      assert [auto[0]] + auto[1..] == auto;
    }
  }

  /** Pruning a sorted list keeps its end and drops what is too old. */
  lemma {:induction false} RecentIsSuffix(auto: seq<int>, now: int)
    requires Sorted(auto)
    ensures var r := Recent(auto, now);
            && |r| <= |auto| && r == auto[|auto| - |r|..]
            && (forall i | 0 <= i < |auto| - |r| :: now - auto[i] >= AUTO_RELOAD_WINDOW_MS)
  {
    if auto != [] {
      if now - auto[0] < AUTO_RELOAD_WINDOW_MS {
        AllRecent(auto, now);
        hide Recent;
      } else {
        var rest := auto[1..];
        assert Recent(auto, now) == Recent(rest, now);
        RecentIsSuffix(rest, now);
        hide Recent, Sorted;
        forall i | 0 <= i < |auto| - |Recent(rest, now)| ensures now - auto[i] >= AUTO_RELOAD_WINDOW_MS {
          assert i > 0 ==> auto[i] == rest[i - 1];
        }
      }
    }
  }

  /** The suffix of a suffix, as indices into the whole. */
  lemma SuffixOfSuffix(r: seq<int>, auto: seq<int>, reloads: seq<int>)
    requires |r| <= |auto| <= |reloads| && auto == reloads[|reloads| - |auto|..] && r == auto[|auto| - |r|..]
    ensures r == reloads[|reloads| - |r|..]
    ensures forall i | |reloads| - |auto| <= i < |reloads| :: reloads[i] == auto[i - (|reloads| - |auto|)]
  {
  }

  lemma RatedPrune(auto: seq<int>, reloads: seq<int>, clock: int, now: int)
    requires Rated(auto, reloads, clock) && clock <= now
    ensures Rated(Recent(auto, now), reloads, now)
  {
    hide Recent, Spaced;
    var d, r := |reloads| - |auto|, Recent(auto, now);
    assert Sorted(auto) by {
      assert forall i | 0 <= i < |auto| :: auto[i] == reloads[d + i];
    }
    RecentIsSuffix(auto, now);
    SuffixOfSuffix(r, auto, reloads);
    hide Sorted;
    forall i | 0 <= i < |reloads| - |r| ensures now - reloads[i] >= AUTO_RELOAD_WINDOW_MS {
      if i >= d {
        var k := i - d;
        assert 0 <= k < |auto| - |r| && reloads[i] == auto[k];
      }
    }
  }

  lemma RatedPush(recent: seq<int>, reloads: seq<int>, now: int)
    requires Rated(recent, reloads, now) && |recent| < AUTO_RELOAD_LIMIT
    ensures Rated(recent + [now], reloads + [now], now)
  {
    var n, reloads' := |reloads|, reloads + [now];
    forall i | 0 <= i < |reloads'| - 2 ensures reloads'[i + 2] - reloads'[i] >= AUTO_RELOAD_WINDOW_MS {
      assert i + 2 == n ==> i < n - |recent|;
    }
    assert recent + [now] == reloads'[n - |recent|..];
  }

  lemma ReportHistory(target: Target, c: Ctl, message: Message, now: int)
    ensures var c', recent := Report(target, c, message, now), Recent(c.auto, now);
            if c.stopped || message == SessionBlocked then c'.auto == c.auto && c'.reloads == c.reloads
            else if |recent| >= AUTO_RELOAD_LIMIT then c'.auto == recent && c'.reloads == c.reloads
            else c'.auto == recent + [now] && c'.reloads == c.reloads + [now]
  {
    hide Recent;
  }

  lemma RatedReport(target: Target, c: Ctl, message: Message, clock: int, now: int)
    requires Rated(c.auto, c.reloads, clock) && clock <= now
    ensures var c' := Report(target, c, message, now); Rated(c'.auto, c'.reloads, now)
  {
    RatedPrune(c.auto, c.reloads, clock, now);
    ReportHistory(target, c, message, now);
    hide Recent, Report;
    var recent := Recent(c.auto, now);
    if !c.stopped && message == Rejected && |recent| < AUTO_RELOAD_LIMIT {
      RatedPush(recent, c.reloads, now);
    }
  }

  predicate ClockNeverBack(es: seq<Event>, clock: int)
    decreases |es|
  {
    es == [] ||
    (if es[0].MessageEvent? then clock <= es[0].now && ClockNeverBack(es[1..], es[0].now)
     else ClockNeverBack(es[1..], clock))
  }

  lemma OthersKeepHistory(target: Target, c: Ctl, e: Event)
    requires !e.MessageEvent?
    ensures Next(target, c, e).auto == c.auto && Next(target, c, e).reloads == c.reloads
  {
    hide BuildGevSrc, RetryDelayMs;
  }

  lemma {:induction false} RatedRun(target: Target, c: Ctl, es: seq<Event>, clock: int)
    requires Rated(c.auto, c.reloads, clock) && ClockNeverBack(es, clock)
    ensures Spaced(Exec(target, c, es).reloads)
    decreases |es|
  {
    if es != [] {
      var e, c' := es[0], Next(target, c, es[0]);
      if e.MessageEvent? {
        RatedReport(target, c, e.message, clock, e.now);
        hide Rated, Report;
        RatedRun(target, c', es[1..], e.now);
      } else {
        OthersKeepHistory(target, c, e);
        hide Next;
        RatedRun(target, c', es[1..], clock);
      }
    }
  }

  /** Main result on reloads. With a clock that never goes back, over any run, with manual reloads, stops and starts
      in between, any three consecutive automatic reloads span at least the window. */
  lemma {:induction false} ReloadsAreRateLimited(target: Target, es: seq<Event>, clock: int)
    requires ClockNeverBack(es, clock)
    ensures Spaced(Exec(target, INITIAL, es).reloads)
  {
    RatedRun(target, INITIAL, es, clock);
  }

  /** The clock matters: set back between two messages, three reloads fit in no time at all. */
  lemma {:induction false} ClockSetBack()
    ensures var es := [StartEvent, MessageEvent(Rejected, 0), MessageEvent(Rejected, 200_000),
            MessageEvent(Rejected, 0)];
            Exec(Host(""), INITIAL, es).reloads == [0, 200_000, 0]
  {
    var m0, m1 := MessageEvent(Rejected, 0), MessageEvent(Rejected, 200_000);
    var c0 := Next(Host(""), INITIAL, StartEvent);
    var c1 := Next(Host(""), c0, m0);
    assert c1.auto == [0] && c1.reloads == [0] && !c1.stopped;
    var c2 := Next(Host(""), c1, m1);
    assert Recent([0], 200_000) == [] by { assert [0][1..] == []; }
    assert c2.auto == [200_000] && c2.reloads == [0, 200_000] && !c2.stopped;
    var c3 := Next(Host(""), c2, m0);
    assert Recent([200_000], 0) == [200_000] by { assert [200_000][1..] == []; }
    assert c3.reloads == [0, 200_000, 0];
    hide Next;
    var es := [StartEvent, m0, m1, m0];
    assert es[1..] == [m0, m1, m0] && es[1..][1..] == [m1, m0];
    assert es[1..][1..][1..] == [m0] && es[1..][1..][1..][1..] == [];
  }

  // ------------------------------------------------------------------ the program

  /** The page around the controller: its promises, its timers and its listeners. */
  class Page {
    var calls: multiset<InFlight>
    var timers: map<nat, Timer>
    var nextHandle: nat
    var emitted: seq<View>
    var rejected: nat

    constructor()
      ensures AsEnv() == Env(multiset{}, map[], 0, [], 0)
    {
      calls, timers, nextHandle, emitted, rejected := multiset{}, map[], 0, [], 0;
    }

    function AsEnv(): Env
      reads this
    {
      Env(calls, timers, nextHandle, emitted, rejected)
    }

    method Begin(call: InFlight)
      modifies this`calls
      ensures calls == old(calls) + multiset{call}
    {
      calls := calls + multiset{call};
    }

    method SetTimer(t: Timer) returns (handle: nat)
      modifies this`timers, this`nextHandle
      ensures handle == old(nextHandle) && nextHandle == old(nextHandle) + 1 && timers == old(timers)[handle := t]
    {
      handle := nextHandle;
      timers := timers[handle := t];
      nextHandle := nextHandle + 1;
    }

    method ClearTimer(handle: nat)
      modifies this`timers
      ensures timers == old(timers) - {handle}
    {
      timers := timers - {handle};
    }
  }

  class GevController {
    const target: Target
    const page: Page
    var state: View
    var timer: Option<nat>
    var refreshTimer: Option<nat>
    var run: nat
    var stopped: bool
    var missedChecks: nat
    var autoReloads: seq<int>
    ghost var reloads: seq<int>

    constructor(target: Target, page: Page)
      ensures this.target == target && this.page == page
      ensures State() == INITIAL.(env := page.AsEnv())
    {
      this.target, this.page := target, page;
      state, timer, refreshTimer, run, stopped := INITIAL_VIEW, None, None, 0, true;
      missedChecks, autoReloads, reloads := 0, [], [];
    }

    ghost function State(): Ctl
      reads this, page
    {
      Ctl(state, timer, refreshTimer, run, stopped, missedChecks, autoReloads, reloads, page.AsEnv())
    }

    method Set(next: View)
      modifies this`state, page`emitted
      ensures State() == Emit(old(State()), next)
    {
      state := next;
      page.emitted := page.emitted + [next];
    }

    method ClearBoth()
      modifies this`timer, this`refreshTimer, page`timers
      ensures State() == ClearTimers(old(State()))
    {
      if timer.Some? {
        page.ClearTimer(timer.value);
      }
      if refreshTimer.Some? {
        page.ClearTimer(refreshTimer.value);
      }
      timer := None;
      refreshTimer := None;
    }

    method Start()
      modifies this, page
      ensures State() == Started(target, old(State()))
    {
      stopped := false;
      run := run + 1;
      var gen := run;
      match target {
        case NoHost(reason) =>
          Set(INITIAL_VIEW.(phase := Empty, emptyReason := Some(reason)));
        case Host(_) =>
          Set(INITIAL_VIEW);
          page.Begin(ProbeCall(gen));
      }
    }

    method Stop()
      modifies this, page
      ensures State() == Stopped(old(State()))
    {
      stopped := true;
      run := run + 1;
      ClearBoth();
    }

    /** Mint a fresh access link and remount the iframe. */
    method Reload()
      modifies this, page
      ensures State() == Reloaded(target, old(State()))
    {
      if stopped || target.NoHost? {
        return;
      }
      run := run + 1;
      var gen := run;
      ClearBoth();
      missedChecks := 0;
      Set(state.(phase := Checking, src := None, attempts := 0, message := None, sessionBlocked := false));
      page.Begin(ProbeCall(gen));
    }

    method ReportMessage(message: Message, now: int)
      modifies this, page
      ensures State() == Report(target, old(State()), message, now)
    {
      if stopped {
        return;
      }
      if message == SessionBlocked {
        Set(state.(sessionBlocked := true));
        return;
      }
      autoReloads := Recent(autoReloads, now);
      if |autoReloads| >= AUTO_RELOAD_LIMIT {
        ClearBoth();
        Set(state.(phase := Error, src := None, message := Some(BadLink)));
        return;
      }
      autoReloads := autoReloads + [now];
      reloads := reloads + [now];
      Reload();
    }

    /** `probe`, from its health check's answer on. */
    method ProbeResumes(gen: nat, health: Health)
      modifies this, page
      ensures State() == ProbeAnswered(old(State()), gen, health)
    {
      hide WaitingToWake;
      page.calls := page.calls - multiset{ProbeCall(gen)};
      if gen != run {
        return;
      }
      if health == Up {
        MintAndShow(gen);
        return;
      }
      WaitToWake(gen, health);
    }

    method WaitToWake(gen: nat, health: Health)
      modifies this`state, this`timer, page`emitted, page`timers, page`nextHandle
      ensures State() == WaitingToWake(old(State()), gen, health)
    {
      hide RetryDelayMs;
      var attempts := state.attempts + 1;
      Set(state.(phase := Waking, reachable := Some(false), attempts := attempts, message := None, src := None));
      var delay := if health == Timeout then TIMEOUT_RETRY_MS else RetryDelayMs(attempts);
      var handle := page.SetTimer(ProbeTimer(gen, delay));
      timer := Some(handle);
    }

    /** `mintAndShow`, up to its call of the Worker. */
    method MintAndShow(gen: nat)
      modifies this`state, page`emitted, page`calls
      ensures State() ==
              Calling(Emit(old(State()), old(state).(phase := Minting, reachable := Some(true), attempts := 0)),
                  MintCall(gen))
    {
      Set(state.(phase := Minting, reachable := Some(true), attempts := 0));
      page.Begin(MintCall(gen));
    }

    /** `mintAndShow`, from the Worker's answer on. */
    method MintResumes(origin: string, gen: nat, result: MintResult)
      modifies this, page
      ensures State() == MintAnswered(origin, old(State()), gen, result)
    {
      hide WithMint;
      page.calls := page.calls - multiset{MintCall(gen)};
      if gen != run {
        return;
      }
      UseMint(origin, gen, result);
    }

    method UseMint(origin: string, gen: nat, result: MintResult)
      modifies this, page
      ensures State() == WithMint(origin, old(State()), gen, result)
    {
      hide BuildGevSrc, Shown;
      match result {
        case Minted(token) =>
          Show(gen, BuildGevSrc(origin, token));
        case Unauthorized =>
          Set(state.(phase := Error, message := Some(BadAdminToken)));
          page.rejected := page.rejected + 1;
        case NotConfigured(what) =>
          Set(state.(phase := Unconfigured, missing := Some(what)));
        case MintError(message) =>
          Set(state.(phase := Error, message := Some(FromMint(message))));
          var handle := page.SetTimer(ProbeTimer(gen, MINT_RETRY_MS));
          timer := Some(handle);
      }
    }

    /** The frame is shown, watched, and renewed before the host ends the session. */
    method Show(gen: nat, src: string)
      modifies this`state, this`missedChecks, this`timer, this`refreshTimer, page`emitted, page`timers, page`nextHandle
      ensures State() == Shown(old(State()), gen, src)
    {
      missedChecks := 0;
      Set(state.(phase := Ready, src := Some(src), reachable := Some(true),
                 message := None, sessionBlocked := false, frameKey := state.frameKey + 1));
      ScheduleMonitor(gen);
      var handle := page.SetTimer(RefreshTimer);
      refreshTimer := Some(handle);
    }

    method ScheduleMonitor(gen: nat)
      modifies this`timer, page`timers, page`nextHandle
      ensures State() == ArmMain(old(State()), MonitorTimer(gen))
    {
      var handle := page.SetTimer(MonitorTimer(gen));
      timer := Some(handle);
    }

    /** The monitor's callback, from its health check's answer on. */
    method MonitorResumes(gen: nat, health: Health)
      modifies this, page
      ensures State() == MonitorAnswered(old(State()), gen, health)
    {
      hide Noted;
      page.calls := page.calls - multiset{MonitorCall(gen)};
      if gen != run {
        return;
      }
      NoteHealth(health);
      ScheduleMonitor(gen);
    }

    method NoteHealth(health: Health)
      modifies this`state, this`missedChecks, page`emitted
      ensures State() == Noted(old(State()), health)
    {
      if health == Up {
        missedChecks := 0;
        if state.reachable != Some(true) {
          Set(state.(reachable := Some(true)));
        }
      } else {
        missedChecks := missedChecks + 1;
        // One missed check is noise; two in a row are shown.
        if missedChecks >= 2 && state.reachable != Some(false) {
          Set(state.(reachable := Some(false)));
        }
      }
    }

    /** An armed timer fires and runs its callback. */
    method TimerFires(handle: nat)
      requires handle in page.timers
      modifies this, page
      ensures State() == Fire(target, old(State()), handle)
    {
      var t := page.timers[handle];
      page.timers := page.timers - {handle};
      match t {
        case ProbeTimer(gen, _) => page.Begin(ProbeCall(gen));
        case MonitorTimer(gen) => page.Begin(MonitorCall(gen));
        case RefreshTimer => Reload();
      }
    }
  }
}
