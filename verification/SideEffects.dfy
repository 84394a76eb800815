/** Side effects that survive crashes (src/engine/sideEffects.js).

    The engine is a machine of small steps: ledger check, remote check, the request itself, recording
    in memory, saving to disk. A crash is a `Restart` at any step: the memory ledger is reloaded from
    the disk and the step in progress is lost. The class at the end is the program; its methods are the
    machine's steps run back to back, so every crash of the program is a prefix of a method's events. */
module SideEffects {
  import opened Text
  import opened Markers
  import opened GitHub

  datatype Outcome = Posted | SkippedLedger | SkippedRemote | Suppressed | Noop | Closed | Ran

  datatype Effect =
    | PostComment(number: nat, key: string, body: string)
    | CloseIssue(number: nat, key: string)
    | Custom(key: string)

  /** Why the engine believes it may post: nobody looked, the listing showed no marker, or the listing failed. */
  datatype Via = Blind | Verified | Unverified

  datatype Pc =
    | Idle
    | Checking(effect: Effect)
    | Ready(effect: Effect, via: Via)
    | Unrecorded(key: string, outcome: Outcome)
    | Unsaved(key: string, outcome: Outcome)

  datatype Answered = Answered(key: string, outcome: Outcome)

  /** What one pulse holds besides its ledger: the two settings and the two counters. */
  datatype Pulse = Pulse(force: bool, suppressed: Option<string>, fired: nat, skipped: nat)

  /** What the rest of the world sees: issues, and the effects run by `once`, by key. */
  datatype Remote = Remote(issues: seq<Issue>, effects: seq<string>)

  datatype World = World(
    remote: Remote, mem: map<string, int>, disk: map<string, int>, pulse: Pulse, pc: Pc, answers: seq<Answered>)

  /** What a request did: took effect and said so, was refused, or took effect and failed to say so. */
  datatype Reply = Landed | Refused | Lost

  datatype Event =
    | Restart(force: bool, suppressed: Option<string>)
    | Call(effect: Effect)
    | ListReply(ok: bool)
    | EffectReply(reply: Reply, at: int)
    | Record(at: int)
    | Save(ok: bool)
    | Foreign(on: nat, body: string, at: int)

  function HasMarked(comments: seq<Comment>, key: string): bool {
    exists i | 0 <= i < |comments| :: Contains(comments[i].body, MarkerFor(key))
  }

  function CountMarked(comments: seq<Comment>, key: string): (n: nat)
    ensures n == 0 <==> !HasMarked(comments, key)
  {
    if comments == [] then 0
    else
      var last := |comments| - 1;
      assert HasMarked(comments, key) <==>
             HasMarked(comments[..last], key) || Contains(comments[last].body, MarkerFor(key));
      CountMarked(comments[..last], key) + if Contains(comments[last].body, MarkerFor(key)) then 1 else 0
  }

  /** How many comments of issue `number` carry the marker of `key`. */
  function Marked(w: World, number: nat, key: string): nat {
    CountMarked(CommentsOf(w.remote.issues, number), key)
  }

  function CountEffects(effects: seq<string>, key: string): nat {
    if effects == [] then 0
    else CountEffects(effects[..|effects| - 1], key) + if effects[|effects| - 1] == key then 1 else 0
  }

  function Answer(w: World, key: string, outcome: Outcome): World {
    w.(pc := Idle, answers := w.answers + [Answered(key, outcome)])
  }

  function Skipping(w: World): Pulse {
    w.pulse.(skipped := w.pulse.skipped + 1)
  }

  /** A missing issue number is 0 here, as `!issueNumber` treats both alike. */
  predicate Targeted(effect: Effect) {
    effect.Custom? || effect.number != 0
  }

  /** Does the engine look at GitHub before posting? */
  predicate LooksFirst(w: World) {
    w.mem != map[] || w.pulse.force
  }

  /** The request itself reaching the outside world. */
  function Apply(r: Remote, effect: Effect, at: int): Remote {
    match effect
    case PostComment(n, key, body) => r.(issues := WithComment(r.issues, n, Tagged(body, key), at))
    case CloseIssue(n, _) => r.(issues := WithClosed(r.issues, n, at))
    case Custom(key) => r.(effects := r.effects + [key])
  }

  function Success(effect: Effect): Outcome {
    match effect case PostComment(_, _, _) => Posted case CloseIssue(_, _) => Closed case Custom(_) => Ran
  }

  /** One step. An event that the machine is not waiting for changes nothing. */
  function Next(w: World, e: Event): World {
    match e
    case Restart(force, suppressed) =>
      w.(mem := w.disk, pulse := Pulse(force, suppressed, 0, 0), pc := Idle)
    case Call(effect) =>
      if w.pc != Idle then w
      else if !Targeted(effect) then Answer(w, effect.key, Noop)
      else if effect.key in w.mem then Answer(w, effect.key, SkippedLedger).(pulse := Skipping(w))
      else if w.pulse.suppressed.Some? then Answer(w, effect.key, Suppressed).(pulse := Skipping(w))
      else w.(pc := if effect.PostComment? && LooksFirst(w) then Checking(effect) else Ready(effect, Blind))
    case ListReply(ok) =>
      if !w.pc.Checking? then w
      else if ok && w.pc.effect.PostComment? &&
          HasMarked(CommentsOf(w.remote.issues, w.pc.effect.number), w.pc.effect.key)
      then w.(pc := Unrecorded(w.pc.effect.key, SkippedRemote), pulse := Skipping(w))
      else w.(pc := Ready(w.pc.effect, if ok then Verified else Unverified))
    case EffectReply(reply, at) =>
      if !w.pc.Ready? then w
      else if reply == Refused then w.(pc := Idle)
      else if reply == Lost then w.(remote := Apply(w.remote, w.pc.effect, at), pc := Idle)
      else w.(remote := Apply(w.remote, w.pc.effect, at),
              pc := Unrecorded(w.pc.effect.key, Success(w.pc.effect)),
              pulse := w.pulse.(fired := w.pulse.fired + 1))
    case Record(at) =>
      if !w.pc.Unrecorded? then w
      else w.(pc := Unsaved(w.pc.key, w.pc.outcome), mem := w.mem[w.pc.key := at])
    case Save(ok) =>
      if !w.pc.Unsaved? then w
      else if ok then Answer(w, w.pc.key, w.pc.outcome).(disk := w.mem)
      else w.(pc := Idle)
    case Foreign(number, body, at) =>
      w.(remote := w.remote.(issues := WithComment(w.remote.issues, number, body, at)))
  }

  function Exec(w: World, es: seq<Event>): World
    decreases |es|
  {
    if es == [] then w else Exec(Next(w, es[0]), es[1..])
  }

  /** The state a run starts from: nothing posted under the key yet, nothing recorded. */
  predicate Fresh(w: World, number: nat, key: string) {
    w.pc == Idle && w.mem == map[] && w.disk == map[] && w.answers == [] && Marked(w, number, key) == 0
  }

  // ------------------------------------------------------------------ how many comments

  /** The texts a run may carry: no body brings the key's marker in by itself, and posted keys have no space. */
  predicate CleanEffect(effect: Effect, key: string) {
    effect.PostComment? ==> SpaceFree(effect.key) && !Contains(effect.body, MarkerFor(key))
  }

  predicate CleanEvent(e: Event, key: string) {
    match e
    case Call(effect) => CleanEffect(effect, key)
    case Foreign(_, body, _) => !Contains(body, MarkerFor(key))
    case _ => true
  }

  ghost predicate Clean(es: seq<Event>, key: string) {
    SpaceFree(key) && forall e | e in es :: CleanEvent(e, key)
  }

  predicate CleanPc(pc: Pc, key: string) {
    pc.Checking? || pc.Ready? ==> CleanEffect(pc.effect, key)
  }

  predicate Posts(effect: Effect, number: nat, key: string) {
    effect.PostComment? && effect.number == number && effect.key == key
  }

  predicate Fired(w: World, key: string) {
    w.pc.Unrecorded? && w.pc.key == key && w.pc.outcome != SkippedRemote
  }

  /** This step throws away the last local trace of the comment: a crash, or a lost acknowledgement,
      while the disk ledger is still empty. */
  function Loss(w: World, e: Event, key: string): nat {
    if w.disk != map[] then 0
    else match e
         case Restart(_, _) => if key in w.mem || Fired(w, key) then 1 else 0
         case EffectReply(Lost, _) => if w.pc.Ready? && w.pc.effect.PostComment? && w.pc.effect.key == key then 1 else 0
         case _ => 0
  }

  /** This step takes a failed listing for an empty one. */
  function BlindSpot(w: World, e: Event, number: nat, key: string): nat {
    if e == ListReply(false) && w.pc.Checking? && Posts(w.pc.effect, number, key) then 1 else 0
  }

  function Losses(w: World, es: seq<Event>, key: string): nat
    decreases |es|
  {
    if es == [] then 0 else Loss(w, es[0], key) + Losses(Next(w, es[0]), es[1..], key)
  }

  function BlindSpots(w: World, es: seq<Event>, number: nat, key: string): nat
    decreases |es|
  {
    if es == [] then 0 else BlindSpot(w, es[0], number, key) + BlindSpots(Next(w, es[0]), es[1..], number, key)
  }

  /** The comment is remembered somewhere that the next attempt will consult. */
  predicate Remembered(w: World, key: string) {
    w.disk != map[] || key in w.mem || Fired(w, key)
  }

  predicate AboutToPost(pc: Pc, number: nat, key: string) {
    pc.Ready? && Posts(pc.effect, number, key)
  }

  /** With `k` losses and blind spots so far, there are at most `k` comments, or `k + 1` while one is remembered. */
  predicate Bounded(w: World, number: nat, key: string, k: nat) {
    && (forall k0 | k0 in w.disk :: k0 in w.mem)
    && CleanPc(w.pc, key)
    && Marked(w, number, key) <= k + (if Remembered(w, key) then 1 else 0)
    && (AboutToPost(w.pc, number, key) ==>
          match w.pc.via
          case Blind => w.mem == map[]
          case Verified => Marked(w, number, key) == 0
          case Unverified => Marked(w, number, key) + 1 <= k + (if Remembered(w, key) then 1 else 0))
  }

  lemma CountAppend(comments: seq<Comment>, c: Comment, key: string)
    ensures CountMarked(comments + [c], key) ==
            CountMarked(comments, key) + if Contains(c.body, MarkerFor(key)) then 1 else 0
  {
    assert (comments + [c])[..|comments|] == comments;
  }

  /** A clean request adds at most one marked comment, and only when it posts under this very key and issue. */
  lemma MarkedAfterApply(r: Remote, effect: Effect, at: int, number: nat, key: string)
    requires SpaceFree(key) && CleanEffect(effect, key)
    ensures var r' := Apply(r, effect, at);
            && Exists(r'.issues, number) == Exists(r.issues, number)
            && CountMarked(CommentsOf(r'.issues, number), key) == CountMarked(CommentsOf(r.issues, number), key) +
               if Posts(effect, number, key) && Exists(r.issues, number) then 1 else 0
  {
    match effect
    case PostComment(n, k, body) =>
      CommentsAfterPost(r.issues, n, Tagged(body, k), at, number);
      var cs := CommentsOf(r.issues, n);
      CountAppend(cs, Comment(|cs| + 1, Tagged(body, k), at), key);
      MarkerIsExact(body, key, k);
    case CloseIssue(n, _) =>
      CommentsAfterClose(r.issues, n, at, number);
    case Custom(_) =>
  }

  lemma MarkedAfterForeign(issues: seq<Issue>, n: nat, body: string, at: int, number: nat, key: string)
    requires !Contains(body, MarkerFor(key))
    ensures var issues' := WithComment(issues, n, body, at);
            && Exists(issues', number) == Exists(issues, number)
            && CountMarked(CommentsOf(issues', number), key) == CountMarked(CommentsOf(issues, number), key)
  {
    CommentsAfterPost(issues, n, body, at, number);
    var cs := CommentsOf(issues, n);
    CountAppend(cs, Comment(|cs| + 1, body, at), key);
  }

  lemma BoundedStep(w: World, e: Event, number: nat, key: string, k: nat)
    requires SpaceFree(key) && CleanEvent(e, key) && Bounded(w, number, key, k)
    ensures Bounded(Next(w, e), number, key, k + Loss(w, e, key) + BlindSpot(w, e, number, key))
  {
    hide Contains, HasMarked, SpaceFree, CommentsOf, WithComment, CountMarked, Tagged, MarkerFor, WithClosed;
    match e
    case EffectReply(_, at) =>
      if w.pc.Ready? {
        MarkedAfterApply(w.remote, w.pc.effect, at, number, key);
      }
    case Foreign(n, body, at) =>
      MarkedAfterForeign(w.remote.issues, n, body, at, number, key);
    case Record(_) =>
      assert w.pc.Unrecorded? ==> w.pc.key in Next(w, e).mem;
    case _ =>
  }

  lemma {:induction false} BoundedRun(w: World, es: seq<Event>, number: nat, key: string, k: nat)
    requires Clean(es, key) && Bounded(w, number, key, k)
    ensures Bounded(Exec(w, es), number, key, k + Losses(w, es, key) + BlindSpots(w, es, number, key))
    decreases |es|
  {
    if es != [] {
      BoundedStep(w, es[0], number, key, k);
      BoundedRun(Next(w, es[0]), es[1..], number, key, k + Loss(w, es[0], key) + BlindSpot(w, es[0], number, key));
    }
  }

  /** Main result, without any promise about restarts: over every run, with crashes anywhere, the number of
      comments carrying the key's marker is at most one more than the number of lost traces and failed listings. */
  lemma {:induction false} CommentsBounded(w: World, es: seq<Event>, number: nat, key: string)
    requires Fresh(w, number, key) && Clean(es, key)
    ensures Marked(Exec(w, es), number, key) <= 1 + Losses(w, es, key) + BlindSpots(w, es, number, key)
  {
    BoundedRun(w, es, number, key, 0);
  }

  /** Two steps at the head of a run. */
  lemma TwoSteps(w: World, a: Event, b: Event, rest: seq<Event>, number: nat, key: string)
    ensures var es, w1 := [a, b] + rest, Next(w, a);
            var w2 := Next(w1, b);
            && Exec(w, es) == Exec(w2, rest)
            && Losses(w, es, key) == Loss(w, a, key) + Loss(w1, b, key) + Losses(w2, rest, key)
            && BlindSpots(w, es, number, key) ==
               BlindSpot(w, a, number, key) + BlindSpot(w1, b, number, key) + BlindSpots(w2, rest, number, key)
  {
    var es := [a, b] + rest;
    assert es[1..] == [b] + rest;
    assert es[1..][1..] == rest;
  }

  /** The bound is reached: `n` crashes in the post-to-record window give `n + 1` comments. */
  function CrashyRun(number: nat, key: string, n: nat): seq<Event> {
    [Call(PostComment(number, key, "")), EffectReply(Landed, 0)] +
    if n == 0 then [] else [Restart(false, None)] + CrashyRun(number, key, n - 1)
  }

  predicate Blank(w: World) {
    w.mem == map[] && w.disk == map[] && !w.pulse.force && w.pulse.suppressed.None?
  }

  lemma PostBlindly(w: World, number: nat, key: string)
    requires w.pc == Idle && Blank(w) && number != 0 && Exists(w.remote.issues, number) && SpaceFree(key)
    ensures var call, reply := Call(PostComment(number, key, "")), EffectReply(Landed, 0);
            var w1 := Next(w, call);
            var w2 := Next(w1, reply);
            && Blank(w2) && Fired(w2, key) && Exists(w2.remote.issues, number)
            && Marked(w2, number, key) == Marked(w, number, key) + 1
            && Loss(w, call, key) == Loss(w1, reply, key) == 0
            && BlindSpot(w, call, number, key) == BlindSpot(w1, reply, number, key) == 0
  {
    assert !Contains("", MarkerFor(key));
    MarkedAfterApply(w.remote, PostComment(number, key, ""), 0, number, key);
  }

  lemma {:induction false} BoundIsReached(w: World, number: nat, key: string, n: nat)
    requires w.pc == Idle && Blank(w) && number != 0 && Exists(w.remote.issues, number) && SpaceFree(key)
    ensures var es := CrashyRun(number, key, n);
            && Losses(w, es, key) == n && BlindSpots(w, es, number, key) == 0
            && Marked(Exec(w, es), number, key) == Marked(w, number, key) + n + 1
    decreases n
  {
    hide Apply, CountMarked, CommentsOf, HasMarked, Contains, MarkerFor, SpaceFree, Exists;
    var call, reply, crash := Call(PostComment(number, key, "")), EffectReply(Landed, 0), Restart(false, None);
    var w2 := Next(Next(w, call), reply);
    var rest := if n == 0 then [] else [crash] + CrashyRun(number, key, n - 1);
    PostBlindly(w, number, key);
    TwoSteps(w, call, reply, rest, number, key);
    if n > 0 {
      var w3 := Next(w2, crash);
      assert w3 == w2.(pc := Idle, pulse := Pulse(false, None, 0, 0));
      assert Loss(w2, crash, key) == 1;
      BoundIsReached(w3, number, key, n - 1);
      assert rest[0] == crash && rest[1..] == CrashyRun(number, key, n - 1);
    }
  }

  // ------------------------------------------------------------------ exactly once

  /** Every restart looks at GitHub again and no listing fails. `lost` says that, since the last restart, a blind
      request under the key lost its acknowledgement: until the process looks first, it is not asked for the key
      again. */
  predicate Careful(w: World, e: Event, key: string, lost: bool) {
    match e
    case Restart(force, _) => force || w.disk != map[]
    case ListReply(ok) => ok
    case Call(effect) => lost && effect.PostComment? && effect.key == key ==> LooksFirst(w)
    case _ => true
  }

  predicate LostNow(w: World, e: Event, key: string, lost: bool) {
    match e
    case Restart(_, _) => false
    case EffectReply(Lost, _) => lost || (w.pc.Ready? && w.pc.effect.key == key && !LooksFirst(w))
    case _ => lost
  }

  predicate CarefulRun(w: World, es: seq<Event>, key: string, lost: bool)
    decreases |es|
  {
    es == [] || (Careful(w, es[0], key, lost) && CarefulRun(Next(w, es[0]), es[1..], key, LostNow(w, es[0], key, lost)))
  }

  predicate AtMostOne(w: World, number: nat, key: string, lost: bool) {
    && (forall k0 | k0 in w.disk :: k0 in w.mem)
    && CleanPc(w.pc, key)
    && Marked(w, number, key) <= 1
    && (Marked(w, number, key) == 1 ==> LooksFirst(w) || Fired(w, key) || lost)
    && (AboutToPost(w.pc, number, key) ==> Marked(w, number, key) == 0)
  }

  lemma AtMostOneStep(w: World, e: Event, number: nat, key: string, lost: bool)
    requires SpaceFree(key) && CleanEvent(e, key) && Careful(w, e, key, lost) && AtMostOne(w, number, key, lost)
    ensures AtMostOne(Next(w, e), number, key, LostNow(w, e, key, lost))
  {
    hide Contains, HasMarked, SpaceFree, CommentsOf, WithComment, CountMarked, Tagged, MarkerFor, WithClosed;
    match e
    case EffectReply(_, at) =>
      if w.pc.Ready? {
        MarkedAfterApply(w.remote, w.pc.effect, at, number, key);
      }
    case Foreign(n, body, at) =>
      MarkedAfterForeign(w.remote.issues, n, body, at, number, key);
    case Record(_) =>
      assert w.pc.Unrecorded? ==> w.pc.key in Next(w, e).mem;
    case _ =>
  }

  /** Main result, with re-runs that look first (the engine sets `forceRemoteCheck` whenever a checkpoint
      exists): at most one comment carries the key's marker, whatever the crashes. */
  lemma {:induction false} AtMostOneComment(w: World, es: seq<Event>, number: nat, key: string, lost: bool)
    requires Clean(es, key) && CarefulRun(w, es, key, lost)
    requires Fresh(w, number, key) || AtMostOne(w, number, key, lost)
    ensures Marked(Exec(w, es), number, key) <= 1
    decreases |es|
  {
    if es != [] {
      AtMostOneStep(w, es[0], number, key, lost);
      AtMostOneComment(Next(w, es[0]), es[1..], number, key, LostNow(w, es[0], key, lost));
    }
  }

  // ------------------------------------------------------------------ what an answer means

  /** The key belongs to comments on this one issue; no close and no custom effect shares it. */
  predicate OwnedEffect(effect: Effect, number: nat, key: string) {
    effect.key == key ==> Posts(effect, number, key)
  }

  predicate Owned(e: Event, number: nat, key: string) {
    e.Call? ==> OwnedEffect(e.effect, number, key)
  }

  predicate SaysPosted(outcome: Outcome) {
    outcome == Posted || outcome == SkippedLedger || outcome == SkippedRemote
  }

  predicate OwnedPc(pc: Pc, number: nat, key: string) {
    pc.Checking? || pc.Ready? ==> OwnedEffect(pc.effect, number, key)
  }

  /** A key that is recorded, or about to be, stands for a comment that is on the issue. */
  predicate HonestState(w: World, number: nat, key: string) {
    && (forall k0 | k0 in w.disk :: k0 in w.mem)
    && Exists(w.remote.issues, number)
    && CleanPc(w.pc, key) && OwnedPc(w.pc, number, key)
    && (key in w.mem || ((w.pc.Unrecorded? || w.pc.Unsaved?) && w.pc.key == key) ==> Marked(w, number, key) >= 1)
  }

  predicate HonestAnswers(w: World, number: nat, key: string) {
    forall r | r in w.answers :: r.key == key && SaysPosted(r.outcome) ==> Marked(w, number, key) >= 1
  }

  predicate Honest(w: World, number: nat, key: string) {
    HonestState(w, number, key) && HonestAnswers(w, number, key)
  }

  /** No step takes a marked comment away. */
  lemma MarkedNeverFalls(w: World, e: Event, number: nat, key: string)
    requires SpaceFree(key) && CleanEvent(e, key) && CleanPc(w.pc, key)
    ensures Marked(Next(w, e), number, key) >= Marked(w, number, key)
    ensures Exists(Next(w, e).remote.issues, number) == Exists(w.remote.issues, number)
  {
    hide Contains, HasMarked, SpaceFree, CommentsOf, WithComment, CountMarked, Tagged, MarkerFor, WithClosed, Apply,
         Exists;
    match e
    case EffectReply(_, at) =>
      if w.pc.Ready? {
        MarkedAfterApply(w.remote, w.pc.effect, at, number, key);
      }
    case Foreign(n, body, at) =>
      MarkedAfterForeign(w.remote.issues, n, body, at, number, key);
    case _ =>
  }

  lemma LandedIsMarked(w: World, e: Event, number: nat, key: string)
    requires SpaceFree(key) && e.EffectReply? && e.reply != Refused && w.pc.Ready? && CleanEffect(w.pc.effect, key)
    requires Posts(w.pc.effect, number, key) && Exists(w.remote.issues, number)
    ensures Marked(Next(w, e), number, key) >= 1
  {
    MarkedAfterApply(w.remote, w.pc.effect, e.at, number, key);
    hide CountMarked, CommentsOf, Apply, Exists, CleanEffect, Posts, SpaceFree;
  }

  /** A request that landed under this key put the comment on the issue. */
  lemma HonestReply(w: World, e: Event, number: nat, key: string)
    requires SpaceFree(key) && e.EffectReply? && HonestState(w, number, key)
    ensures HonestState(Next(w, e), number, key)
  {
    MarkedNeverFalls(w, e, number, key);
    if e.reply != Refused && w.pc.Ready? && w.pc.effect.key == key {
      LandedIsMarked(w, e, number, key);
    }
    hide Marked, SpaceFree, Apply, Exists, CleanEffect, Posts, CleanEvent;
  }

  /** A marker found in a listing is a comment on the issue. */
  lemma HonestListing(w: World, e: Event, number: nat, key: string)
    requires e.ListReply? && HonestState(w, number, key)
    ensures HonestState(Next(w, e), number, key)
  {
    hide Contains, HasMarked, CommentsOf, CountMarked, MarkerFor, Exists, CleanEffect;
  }

  lemma HonestStateStep(w: World, e: Event, number: nat, key: string)
    requires SpaceFree(key) && CleanEvent(e, key) && Owned(e, number, key) && HonestState(w, number, key)
    ensures HonestState(Next(w, e), number, key)
  {
    hide Contains, HasMarked, SpaceFree, CommentsOf, WithComment, CountMarked, Tagged, MarkerFor, Exists, CleanEffect,
         Apply;
    if e.EffectReply? {
      HonestReply(w, e, number, key);
    } else if e.ListReply? {
      HonestListing(w, e, number, key);
    } else {
      MarkedNeverFalls(w, e, number, key);
    }
  }

  /** What an answer may rest on: a recorded key, or one about to be, stands for a comment. */
  predicate Backed(w: World, number: nat, key: string) {
    key in w.mem || ((w.pc.Unrecorded? || w.pc.Unsaved?) && w.pc.key == key) ==> Marked(w, number, key) >= 1
  }

  lemma HonestAnswersStep(w: World, e: Event, number: nat, key: string)
    requires HonestAnswers(w, number, key) && Backed(w, number, key)
    requires Marked(Next(w, e), number, key) >= Marked(w, number, key)
    ensures HonestAnswers(Next(w, e), number, key)
  {
    hide Marked, Apply, HasMarked, CommentsOf, WithComment;
  }

  lemma HonestStep(w: World, e: Event, number: nat, key: string)
    requires SpaceFree(key) && CleanEvent(e, key) && Owned(e, number, key) && Honest(w, number, key)
    ensures Honest(Next(w, e), number, key)
  {
    HonestStateStep(w, e, number, key);
    MarkedNeverFalls(w, e, number, key);
    hide Marked, Next, CleanEvent, Owned, SpaceFree;
    assert Backed(w, number, key);
    hide HonestState, HonestAnswers;
    HonestAnswersStep(w, e, number, key);
  }

  lemma {:induction false} AnswersOnKnownIssue(w: World, es: seq<Event>, number: nat, key: string)
    requires Clean(es, key) && forall e | e in es :: Owned(e, number, key)
    requires Honest(w, number, key)
    ensures forall r | r in Exec(w, es).answers :: r.key == key && SaysPosted(r.outcome) ==>
            Marked(Exec(w, es), number, key) >= 1
    decreases |es|
  {
    if es != [] {
      HonestStep(w, es[0], number, key);
      hide Honest, Next, Marked;
      AnswersOnKnownIssue(Next(w, es[0]), es[1..], number, key);
    }
  }

  lemma ExistsStep(w: World, e: Event, number: nat)
    ensures Exists(Next(w, e).remote.issues, number) <==> Exists(w.remote.issues, number)
  {
    hide Exists, HasMarked, CommentsOf, WithComment, WithClosed;
    match e
    case EffectReply(_, at) =>
      if w.pc.Ready? {
        match w.pc.effect
        case PostComment(n, k, body) => CommentsAfterPost(w.remote.issues, n, Tagged(body, k), at, number);
        case CloseIssue(n, _) => CommentsAfterClose(w.remote.issues, n, at, number);
        case Custom(_) =>
      }
    case Foreign(n, body, at) => CommentsAfterPost(w.remote.issues, n, body, at, number);
    case _ =>
  }

  lemma {:induction false} UnknownStaysUnknown(w: World, es: seq<Event>, number: nat)
    requires !Exists(w.remote.issues, number)
    ensures !Exists(Exec(w, es).remote.issues, number)
    decreases |es|
  {
    if es != [] {
      ExistsStep(w, es[0], number);
      hide Next, Exists;
      UnknownStaysUnknown(Next(w, es[0]), es[1..], number);
    }
  }

  /** Whenever any pulse was told `posted`, `skipped-ledger` or `skipped-remote`, the comment is on the issue
      exactly when there is such an issue: on an unknown number GitHub's fake answers nothing and the engine still
      says `posted`. */
  lemma AnswersAreTrue(w: World, es: seq<Event>, number: nat, key: string)
    requires Clean(es, key) && forall e | e in es :: Owned(e, number, key)
    requires Fresh(w, number, key) || Honest(w, number, key)
    ensures forall r | r in Exec(w, es).answers && r.key == key && SaysPosted(r.outcome) ::
              Marked(Exec(w, es), number, key) >= 1 <==> Exists(w.remote.issues, number)
  {
    if Exists(w.remote.issues, number) {
      AnswersOnKnownIssue(w, es, number, key);
    } else {
      UnknownStaysUnknown(w, es, number);
      NoIssueNoComment(Exec(w, es), number, key);
    }
    hide Marked, Exists, Exec;
  }

  lemma NoIssueNoComment(w: World, number: nat, key: string)
    requires !Exists(w.remote.issues, number)
    ensures Marked(w, number, key) == 0
  {
  }

  /** The unknown number is not only imagined: posting to it from a fresh start is answered `posted`. */
  lemma UnknownIssueIsAnsweredPosted(w: World, number: nat, key: string, body: string, env: Env)
    requires Fresh(w, number, key) && number != 0 && !Exists(w.remote.issues, number)
    requires w.pulse.suppressed.None? && !w.pulse.force && env.reply == Landed && env.saveOk
    ensures var w' := Exec(w, Steps(PostComment(number, key, body), env));
            w'.answers == [Answered(key, Posted)] && Marked(w', number, key) == 0
  {
    var effect := PostComment(number, key, body);
    StepsAreUninterrupted(w, effect, env);
    UnknownStaysUnknown(w, Steps(effect, env), number);
    NoIssueNoComment(Exec(w, Steps(effect, env)), number, key);
    hide Exec, Steps, Marked, Apply, HasMarked, CommentsOf, Exists;
  }

  // ------------------------------------------------------------------ what `closed` and `ran` mean

  /** The key stands for closing this one issue and for nothing else. */
  predicate ClosesOnly(effect: Effect, number: nat, key: string) {
    effect.key == key ==> effect == Effect.CloseIssue(number, key)
  }

  /** Recorded, or about to be. */
  predicate Known(w: World, key: string) {
    key in w.mem || key in w.disk || ((w.pc.Unrecorded? || w.pc.Unsaved?) && w.pc.key == key)
  }

  predicate SaysClosed(outcome: Outcome) {
    outcome == Closed || outcome == SkippedLedger
  }

  predicate ClosedState(w: World, number: nat, key: string) {
    && (w.pc.Checking? || w.pc.Ready? ==> ClosesOnly(w.pc.effect, number, key))
    && (Known(w, key) ==> !IsOpen(w.remote.issues, number))
    && (forall r | r in w.answers :: r.key == key && SaysClosed(r.outcome) ==> !IsOpen(w.remote.issues, number))
  }

  /** Nothing here opens an issue again, and a close that takes effect closes its issue. */
  lemma NothingReopens(w: World, e: Event, number: nat)
    ensures IsOpen(Next(w, e).remote.issues, number) ==> IsOpen(w.remote.issues, number)
    ensures e.EffectReply? && e.reply != Refused &&
            w.pc.Ready? && w.pc.effect.CloseIssue? && w.pc.effect.number == number ==>
              !IsOpen(Next(w, e).remote.issues, number)
  {
    hide IsOpen, HasMarked, CommentsOf, WithComment, WithClosed, Tagged;
    match e
    case EffectReply(_, at) =>
      if w.pc.Ready? {
        match w.pc.effect
        case PostComment(n, k, body) => OpenAfterPost(w.remote.issues, n, Tagged(body, k), at, number);
        case CloseIssue(n, _) => OpenAfterClose(w.remote.issues, n, at, number);
        case Custom(_) =>
      }
    case Foreign(n, body, at) => OpenAfterPost(w.remote.issues, n, body, at, number);
    case _ =>
  }

  lemma ClosedStep(w: World, e: Event, number: nat, key: string)
    requires ClosedState(w, number, key) && (e.Call? ==> ClosesOnly(e.effect, number, key))
    ensures ClosedState(Next(w, e), number, key)
  {
    NothingReopens(w, e, number);
    hide IsOpen, HasMarked, CommentsOf, WithComment, Apply;
  }

  lemma {:induction false} ClosedRun(w: World, es: seq<Event>, number: nat, key: string)
    requires ClosedState(w, number, key) && forall e | e in es :: e.Call? ==> ClosesOnly(e.effect, number, key)
    ensures ClosedState(Exec(w, es), number, key)
    decreases |es|
  {
    if es != [] {
      assert es[0] in es;
      ClosedStep(w, es[0], number, key);
      hide Next, ClosedState, ClosesOnly;
      ClosedRun(Next(w, es[0]), es[1..], number, key);
    }
  }

  /** In every run whose only effect under the key is closing this issue, an answer `closed` or `skipped-ledger`
      under the key means that the issue is not open. */
  lemma ClosedMeansClosed(w: World, es: seq<Event>, number: nat, key: string)
    requires w.pc == Idle && w.answers == [] && !Known(w, key)
    requires forall e | e in es :: e.Call? ==> ClosesOnly(e.effect, number, key)
    ensures forall r | r in Exec(w, es).answers :: r.key == key && SaysClosed(r.outcome) ==>
              !IsOpen(Exec(w, es).remote.issues, number)
  {
    ClosedRun(w, es, number, key);
    hide Exec, ClosesOnly, IsOpen;
  }

  predicate RunsOnly(effect: Effect, key: string) {
    effect.key == key ==> effect == Custom(key)
  }

  predicate SaysRan(outcome: Outcome) {
    outcome == Ran || outcome == SkippedLedger
  }

  predicate RanState(w: World, key: string) {
    && (w.pc.Checking? || w.pc.Ready? ==> RunsOnly(w.pc.effect, key))
    && (Known(w, key) ==> CountEffects(w.remote.effects, key) >= 1)
    && (forall r | r in w.answers :: r.key == key && SaysRan(r.outcome) ==> CountEffects(w.remote.effects, key) >= 1)
  }

  lemma EffectsGrow(w: World, e: Event, key: string)
    ensures CountEffects(Next(w, e).remote.effects, key) >= CountEffects(w.remote.effects, key)
    ensures e.EffectReply? && e.reply != Refused && w.pc.Ready? && w.pc.effect == Custom(key) ==>
              CountEffects(Next(w, e).remote.effects, key) >= 1
  {
    if e.EffectReply? && w.pc.Ready? && w.pc.effect.Custom? {
      assert (w.remote.effects + [w.pc.effect.key])[..|w.remote.effects|] == w.remote.effects;
    }
  }

  lemma RanStep(w: World, e: Event, key: string)
    requires RanState(w, key) && (e.Call? ==> RunsOnly(e.effect, key))
    ensures RanState(Next(w, e), key)
  {
    EffectsGrow(w, e, key);
    hide CountEffects, HasMarked, CommentsOf, WithComment, Apply;
  }

  /** In every run whose only effect under the key is a custom one, an answer that it ran, or was skipped as
      recorded, means that it ran at least once. */
  lemma {:induction false} RanMeansRan(w: World, es: seq<Event>, key: string)
    requires RanState(w, key) || (w.pc == Idle && w.answers == [] && !Known(w, key))
    requires forall e | e in es :: e.Call? ==> RunsOnly(e.effect, key)
    ensures forall r | r in Exec(w, es).answers :: r.key == key && SaysRan(r.outcome) ==>
              CountEffects(Exec(w, es).remote.effects, key) >= 1
    decreases |es|
  {
    if es != [] {
      assert es[0] in es;
      RanStep(w, es[0], key);
      hide Next, RanState, RunsOnly, CountEffects;
      RanMeansRan(Next(w, es[0]), es[1..], key);
    }
  }

  // ------------------------------------------------------------------ effects that cannot be looked up

  /** A custom effect is forgotten when a crash or a lost acknowledgement comes before it is on the disk. */
  function Forgotten(w: World, e: Event, key: string): nat {
    match e
    case Restart(_, _) => if key !in w.disk && (key in w.mem || Fired(w, key)) then 1 else 0
    case EffectReply(Lost, _) => if w.pc.Ready? && w.pc.effect == Custom(key) then 1 else 0
    case _ => 0
  }

  function ForgottenIn(w: World, es: seq<Event>, key: string): nat
    decreases |es|
  {
    if es == [] then 0 else Forgotten(w, es[0], key) + ForgottenIn(Next(w, es[0]), es[1..], key)
  }

  predicate RunsBounded(w: World, key: string, k: nat) {
    && (forall k0 | k0 in w.disk :: k0 in w.mem)
    && CountEffects(w.remote.effects, key) <= k + (if key in w.mem || Fired(w, key) then 1 else 0)
    && (w.pc.Ready? || w.pc.Checking? ==> w.pc.effect.key !in w.mem)
  }

  lemma RunsBoundedStep(w: World, e: Event, key: string, k: nat)
    requires RunsBounded(w, key, k)
    ensures RunsBounded(Next(w, e), key, k + Forgotten(w, e, key))
  {
    if e.EffectReply? && w.pc.Ready? && w.pc.effect.Custom? {
      var k' := w.pc.effect.key;
      assert (w.remote.effects + [k'])[..|w.remote.effects|] == w.remote.effects;
    }
  }

  /** `once` has no remote check: its callback runs at most once plus the times it was forgotten. */
  lemma {:induction false} OnceBounded(w: World, es: seq<Event>, key: string, k: nat)
    requires RunsBounded(w, key, k)
    ensures CountEffects(Exec(w, es).remote.effects, key) <= k + 1 + ForgottenIn(w, es, key)
    decreases |es|
  {
    if es != [] {
      RunsBoundedStep(w, es[0], key, k);
      OnceBounded(Next(w, es[0]), es[1..], key, k + Forgotten(w, es[0], key));
    }
  }

  // ------------------------------------------------------------------ the program

  /** What the outside world answers during one call. */
  datatype Env = Env(listOk: bool, reply: Reply, saveOk: bool, at: int)

  /** The steps of one call, in order; those that do not apply change nothing. */
  function Steps(effect: Effect, env: Env): seq<Event> {
    [Call(effect), ListReply(env.listOk), EffectReply(env.reply, env.at), Record(env.at), Save(env.saveOk)]
  }

  function Recorded(w: World, key: string, outcome: Outcome, env: Env): World {
    var w' := w.(mem := w.mem[key := env.at], pc := Idle);
    if env.saveOk then Answer(w', key, outcome).(disk := w'.mem) else w'
  }

  /** One call that is not interrupted by a crash, as a single state change. */
  function Uninterrupted(w: World, effect: Effect, env: Env): World {
    if !Targeted(effect) then Answer(w, effect.key, Noop)
    else if effect.key in w.mem then Answer(w, effect.key, SkippedLedger).(pulse := Skipping(w))
    else if w.pulse.suppressed.Some? then Answer(w, effect.key, Suppressed).(pulse := Skipping(w))
    else if effect.PostComment? && LooksFirst(w) && env.listOk &&
        HasMarked(CommentsOf(w.remote.issues, effect.number), effect.key)
    then Recorded(w.(pulse := Skipping(w)), effect.key, SkippedRemote, env)
    else Attempted(w, effect, env)
  }

  /** The request itself, and what follows it. */
  function Attempted(w: World, effect: Effect, env: Env): World {
    match env.reply
    case Refused => w
    case Lost => w.(remote := Apply(w.remote, effect, env.at))
    case Landed =>
      Recorded(w.(remote := Apply(w.remote, effect, env.at), pulse := w.pulse.(fired := w.pulse.fired + 1)),
               effect.key, Success(effect), env)
  }

  function Rest(w: World, env: Env): World {
    Next(Next(Next(w, EffectReply(env.reply, env.at)), Record(env.at)), Save(env.saveOk))
  }

  lemma ExecSteps(w: World, effect: Effect, env: Env)
    ensures Exec(w, Steps(effect, env)) ==
            Rest(Next(Next(w, Call(effect)), ListReply(env.listOk)), env)
  {
    hide Next;
    var es := Steps(effect, env);
    var w1 := Next(w, es[0]);
    var w2 := Next(w1, es[1]);
    var w3 := Next(w2, es[2]);
    var w4 := Next(w3, es[3]);
    assert Exec(w1, es[1..]) == Exec(w2, es[2..]) by { assert es[1..][1..] == es[2..]; }
    assert Exec(w2, es[2..]) == Exec(w3, es[3..]) by { assert es[2..][1..] == es[3..]; }
    assert Exec(w3, es[3..]) == Exec(w4, es[4..]) by { assert es[3..][1..] == es[4..]; }
    assert Exec(w4, es[4..]) == Next(w4, es[4]) by { assert es[4..] == [es[4]]; }
  }

  /** Recording and saving from the step where the outcome is known. */
  lemma RecordAndSave(w: World, env: Env)
    requires w.pc.Unrecorded?
    ensures Next(Next(w, Record(env.at)), Save(env.saveOk)) == Recorded(w, w.pc.key, w.pc.outcome, env)
  {
  }

  lemma AfterIdle(w: World, env: Env)
    requires w.pc == Idle
    ensures Rest(Next(w, ListReply(env.listOk)), env) == w
  {
  }

  lemma AfterFound(w: World, found: World, effect: Effect, env: Env)
    requires w.pc == Idle && found == w.(pc := Unrecorded(effect.key, SkippedRemote), pulse := Skipping(w))
    ensures Rest(found, env) == Recorded(w.(pulse := Skipping(w)), effect.key, SkippedRemote, env)
  {
    RecordAndSave(found, env);
  }

  lemma StepsAreUninterrupted(w: World, effect: Effect, env: Env)
    requires w.pc == Idle
    ensures Exec(w, Steps(effect, env)) == Uninterrupted(w, effect, env)
  {
    ExecSteps(w, effect, env);
    hide Exec, Contains, HasMarked, CommentsOf, Apply, Recorded, Rest, Attempted;
    var w1 := Next(w, Call(effect));
    var w2 := Next(w1, ListReply(env.listOk));
    if w1.pc == Idle {
      AfterIdle(w1, env);
    } else if w2.pc.Unrecorded? {
      AfterFound(w, w2, effect, env);
    } else {
      AfterReady(w, w2, effect, env);
    }
  }

  lemma AfterReady(w: World, ready: World, effect: Effect, env: Env)
    requires w.pc == Idle && ready.pc.Ready? && ready == w.(pc := ready.pc) && ready.pc.effect == effect
    ensures Rest(ready, env) == Attempted(w, effect, env)
  {
    hide Apply;
    var w3 := Next(ready, EffectReply(env.reply, env.at));
    if env.reply == Landed {
      RecordAndSave(w3, env);
    }
  }

  /** One call that meets no fault tells the truth about itself: it gives one answer under its key, which says fired
      exactly when the one counter moves, skipped exactly when the other does, and names the kind of effect. */
  lemma OneCallTells(w: World, effect: Effect, env: Env)
    requires w.pc == Idle && env.reply == Landed && env.saveOk
    ensures var w' := Exec(w, Steps(effect, env));
            && |w'.answers| == |w.answers| + 1 && w'.answers[..|w.answers|] == w.answers
            && w'.answers[|w.answers|].key == effect.key
            && var o := w'.answers[|w.answers|].outcome;
               && (o in {Posted, Closed, Ran} <==> w'.pulse.fired == w.pulse.fired + 1)
               && (o in {SkippedLedger, SkippedRemote, Suppressed} <==> w'.pulse.skipped == w.pulse.skipped + 1)
               && (o == Noop <==> !Targeted(effect))
               && (o == SkippedLedger <==> Targeted(effect) && effect.key in w.mem)
               && (o == Posted ==> effect.PostComment?) && (o == Closed ==> effect.CloseIssue?)
               && (o == Ran ==> effect.Custom?)
               && (o in {Posted, Closed, Ran, SkippedRemote} ==> effect.key in w'.mem && w'.disk == w'.mem)
  {
    StepsAreUninterrupted(w, effect, env);
    hide Exec, Steps, HasMarked, CommentsOf, Apply;
  }

  /** The look at GitHub that would stop the effect: it is a comment, the process looks, the listing works and shows
      the marker. */
  predicate FoundOnGitHub(issues: seq<Issue>, effect: Effect, looks: bool, listOk: bool) {
    effect.PostComment? && looks && listOk && HasMarked(CommentsOf(issues, effect.number), effect.key)
  }

  /** A suppressed effect is not written to any ledger, although the field's description promises that a later pulse
      will not fire it. The next unsuppressed pulse fires it exactly when it does not find the marker, and it only
      looks when the restart says so or the ledger is not empty. */
  lemma SuppressedFiresLater(w: World, effect: Effect, env: Env, force: bool, later: Env)
    requires w.pc == Idle && w.pulse.suppressed.Some? && Targeted(effect)
    requires effect.key !in w.mem && effect.key !in w.disk && later.reply == Landed
    ensures var w1 := Uninterrupted(w, effect, env);
            var w2 := Uninterrupted(Next(w1, Restart(force, None)), effect, later);
            && w1 == Answer(w, effect.key, Suppressed).(pulse := Skipping(w))
            && (w2.pulse.fired == 1 <==>
               !FoundOnGitHub(w.remote.issues, effect, force || w.disk != map[], later.listOk))
            && w2.remote == if w2.pulse.fired == 1 then Apply(w.remote, effect, later.at) else w.remote
  {
    hide Contains, HasMarked, CommentsOf, Apply;
  }

  /** A stretch of suppressed pulses. */
  predicate AllSuppressed(es: seq<Event>) {
    forall e | e in es :: e.Restart? ==> e.suppressed.Some?
  }

  lemma {:induction false} SuppressionLeavesNoTrace(w: World, es: seq<Event>)
    requires w.pc == Idle && w.pulse.suppressed.Some? && AllSuppressed(es)
    ensures var s := Exec(w, es);
            s.pc == Idle && s.disk == w.disk && s.remote.effects == w.remote.effects
    decreases |es|
  {
    if es != [] {
      assert es[0] in es;
      hide HasMarked, CommentsOf, Apply, WithComment;
      var w1 := Next(w, es[0]);
      assert w1.pc == Idle && w1.pulse.suppressed.Some? && w1.disk == w.disk && w1.remote.effects == w.remote.effects;
      hide Next;
      SuppressionLeavesNoTrace(w1, es[1..]);
    }
  }

  /** Over every stretch of suppressed pulses, whatever was asked in it and whatever others did meanwhile, the next
      pulse under a looser policy fires an effect exactly as if it had never been asked for: it is targeted, not in
      the ledger from before, not found on GitHub, and the request lands. */
  lemma SuppressionIsForgotten(w: World, es: seq<Event>, force: bool, effect: Effect, env: Env)
    requires w.pc == Idle && w.pulse.suppressed.Some? && AllSuppressed(es)
    ensures var s := Exec(w, es);
            var s' := Exec(Next(s, Restart(force, None)), Steps(effect, env));
            && s'.pulse.fired <= 1
            && (s'.pulse.fired == 1 <==>
                  && Targeted(effect) && effect.key !in w.disk && env.reply == Landed
                  && !FoundOnGitHub(s.remote.issues, effect, force || w.disk != map[], env.listOk))
  {
    SuppressionLeavesNoTrace(w, es);
    var s := Exec(w, es);
    StepsAreUninterrupted(Next(s, Restart(force, None)), effect, env);
    hide Exec, Steps, HasMarked, CommentsOf, Apply, AllSuppressed;
  }

  /** What the checkpoint file holds. */
  class CheckpointFile {
    var sideEffects: map<string, int>

    constructor()
      ensures sideEffects == map[]
    {
      sideEffects := map[];
    }
  }

  class SideEffectLedger {
    const github: FakeGitHub
    const file: CheckpointFile
    var ledger: map<string, int>
    var skipped: nat
    var fired: nat
    var suppressed: Option<string>
    var forceRemoteCheck: bool
    /** The answers given so far, oldest first. */
    ghost var answers: seq<Answered>

    ghost function State(): World
      reads this, github, file
    {
      World(Remote(github.issues, github.effects), ledger, file.sideEffects,
            Pulse(forceRemoteCheck, suppressed, fired, skipped), Idle, answers)
    }

    /** A pulse starts from what the last one saved; this is the machine's `Restart`. */
    constructor(github: FakeGitHub, file: CheckpointFile, force: bool, suppressed: Option<string>)
      ensures this.github == github && this.file == file
      ensures State() == World(Remote(github.issues, github.effects), file.sideEffects, file.sideEffects,
                               Pulse(force, suppressed, 0, 0), Idle, [])
    {
      this.github, this.file := github, file;
      ledger := file.sideEffects;
      skipped, fired := 0, 0;
      this.suppressed, forceRemoteCheck := suppressed, force;
      answers := [];
    }

    /** `onRecord` saves the checkpoint, which may throw. */
    method RecordKey(key: string, env: Env) returns (saved: bool)
      modifies this`ledger, file
      ensures ledger == old(ledger)[key := env.at] && saved == env.saveOk
      ensures file.sideEffects == if saved then ledger else old(file.sideEffects)
    {
      ledger := ledger[key := env.at];
      saved := env.saveOk;
      if saved {
        file.sideEffects := ledger;
      }
    }

    method RemoteHas(number: nat, key: string, listOk: bool) returns (found: bool)
      modifies github
      ensures github.issues == old(github.issues) && github.effects == old(github.effects)
      ensures found == (listOk && HasMarked(CommentsOf(github.issues, number), key))
    {
      if !listOk {
        return false;
      }
      var comments := github.ListIssueComments(number, None);
      found := HasMarked(comments, key);
    }

    /** Post a comment once per key. `None` is an exception out of GitHub or of the save. */
    method Comment(number: nat, key: string, body: string, env: Env) returns (r: Option<Outcome>)
      requires github as object != file
      modifies this, github, file
      ensures State() == Exec(old(State()), Steps(PostComment(number, key, body), env))
      ensures answers == match r case Some(outcome) => old(answers) + [Answered(key, outcome)] case None => old(answers)
    {
      StepsAreUninterrupted(State(), PostComment(number, key, body), env);
      hide Exec, Steps, Contains, HasMarked, CommentsOf, WithComment, WithClosed, Tagged, MarkerFor, Attempted;
      if number == 0 {
        answers := answers + [Answered(key, Noop)];
        return Some(Noop);
      }
      if key in ledger {
        skipped := skipped + 1;
        answers := answers + [Answered(key, SkippedLedger)];
        return Some(SkippedLedger);
      }
      if suppressed.Some? {
        skipped := skipped + 1;
        answers := answers + [Answered(key, Suppressed)];
        return Some(Suppressed);
      }
      if ledger != map[] || forceRemoteCheck {
        var present := RemoteHas(number, key, env.listOk);
        if present {
          skipped := skipped + 1;
          var saved := RecordKey(key, env);
          if !saved {
            return None;
          }
          answers := answers + [Answered(key, SkippedRemote)];
          return Some(SkippedRemote);
        }
      }
      r := Post(number, key, body, env);
    }

    /** Send the comment and record it. */
    method Post(number: nat, key: string, body: string, env: Env) returns (r: Option<Outcome>)
      requires github as object != file
      modifies this, github, file
      ensures State() == Attempted(old(State()), PostComment(number, key, body), env)
      ensures answers == match r case Some(outcome) => old(answers) + [Answered(key, outcome)] case None => old(answers)
    {
      hide Contains, HasMarked, CommentsOf, WithComment, Tagged, MarkerFor;
      if env.reply == Refused {
        return None;
      }
      github.CommentOnIssue(number, Tagged(body, key), env.at);
      if env.reply == Lost {
        return None;
      }
      fired := fired + 1;
      var saved := RecordKey(key, env);
      if !saved {
        return None;
      }
      answers := answers + [Answered(key, Posted)];
      return Some(Posted);
    }

    method CloseIssue(number: nat, key: string, env: Env) returns (r: Option<Outcome>)
      requires github as object != file
      modifies this, github, file
      ensures State() == Exec(old(State()), Steps(Effect.CloseIssue(number, key), env))
      ensures answers == match r case Some(outcome) => old(answers) + [Answered(key, outcome)] case None => old(answers)
    {
      StepsAreUninterrupted(State(), Effect.CloseIssue(number, key), env);
      if number == 0 {
        answers := answers + [Answered(key, Noop)];
        return Some(Noop);
      }
      if key in ledger {
        skipped := skipped + 1;
        answers := answers + [Answered(key, SkippedLedger)];
        return Some(SkippedLedger);
      }
      if suppressed.Some? {
        skipped := skipped + 1;
        answers := answers + [Answered(key, Suppressed)];
        return Some(Suppressed);
      }
      if env.reply == Refused {
        return None;
      }
      github.CloseIssue(number, env.at);
      if env.reply == Lost {
        return None;
      }
      fired := fired + 1;
      var saved := RecordKey(key, env);
      if !saved {
        return None;
      }
      answers := answers + [Answered(key, Closed)];
      return Some(Closed);
    }

    method Once(key: string, env: Env) returns (r: Option<Outcome>)
      requires github as object != file
      modifies this, github, file
      ensures State() == Exec(old(State()), Steps(Custom(key), env))
      ensures answers == match r case Some(outcome) => old(answers) + [Answered(key, outcome)] case None => old(answers)
    {
      StepsAreUninterrupted(State(), Custom(key), env);
      if key in ledger {
        skipped := skipped + 1;
        answers := answers + [Answered(key, SkippedLedger)];
        return Some(SkippedLedger);
      }
      if suppressed.Some? {
        skipped := skipped + 1;
        answers := answers + [Answered(key, Suppressed)];
        return Some(Suppressed);
      }
      if env.reply == Refused {
        return None;
      }
      github.Perform(key);
      if env.reply == Lost {
        return None;
      }
      fired := fired + 1;
      var saved := RecordKey(key, env);
      if !saved {
        return None;
      }
      answers := answers + [Answered(key, Ran)];
      return Some(Ran);
    }
  }
}
