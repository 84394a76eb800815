/** Which steps a failed verification sends back (remediationTargets, src/engine/orchestrate.js). */
module Remediation {
  import opened Text

  datatype Issue = Issue(step: Option<string>, problem: string)

  /** What the retried step is told: the attempt number and the problems found. */
  datatype Hint = Hint(attempt: nat, feedback: seq<Issue>)

  datatype Step = Step(id: string, aspect: string, dependsOn: seq<string>, hint: Option<Hint>)

  type Graph = seq<Step>

  function Ids(graph: Graph): set<string> {
    set t | t in graph :: t.id
  }

  /** The steps the issues name, or every code-generation step, or every step. */
  function Seeds(graph: Graph, issues: seq<Issue>): (r: set<string>)
    ensures r <= Ids(graph)
    ensures graph != [] ==> r != {}
  {
    assert graph != [] ==> graph[0].id in Ids(graph);
    var named := set i | i in issues && i.step.Some? && i.step.value != "" && i.step.value in Ids(graph) ::
        i.step.value;
    if named != {} then named
    else
      var coding := set t | t in graph && t.aspect == "code-generation" :: t.id;
      if coding != {} then coding else Ids(graph)
  }

  /** Some issue names this step of the graph. */
  predicate NamedBy(graph: Graph, issues: seq<Issue>, id: string) {
    id != "" && id in Ids(graph) && exists i | i in issues :: i.step == Some(id)
  }

  predicate WritesCode(graph: Graph, id: string) {
    exists t | t in graph :: t.id == id && t.aspect == "code-generation"
  }

  /** Which steps are seeds: those that an issue names; if no issue names a step, those that write code; if none
      does, all. */
  lemma SeedsAre(graph: Graph, issues: seq<Issue>, id: string)
    ensures id in Seeds(graph, issues) <==>
            if exists other :: NamedBy(graph, issues, other) then NamedBy(graph, issues, id)
            else if exists other :: WritesCode(graph, other) then WritesCode(graph, id)
            else id in Ids(graph)
  {
    var named := set i | i in issues && i.step.Some? && i.step.value != "" && i.step.value in Ids(graph) ::
        i.step.value;
    forall other ensures other in named <==> NamedBy(graph, issues, other) {
      if NamedBy(graph, issues, other) {
        var i :| i in issues && i.step == Some(other);
      }
    }
    var coding := set t | t in graph && t.aspect == "code-generation" :: t.id;
    forall other ensures other in coding <==> WritesCode(graph, other) {}
    if named != {} {
      var other :| other in named;
      assert NamedBy(graph, issues, other);
    } else if coding != {} {
      var other :| other in coding;
      assert WritesCode(graph, other);
    }
    hide NamedBy, WritesCode, Ids;
  }

  /** `to` waits, directly, for `from`. */
  ghost predicate Feeds(graph: Graph, from: string, to: string) {
    exists t :: t in graph && t.id == to && from in t.dependsOn
  }

  /** A chain of dependencies from its first to its last element. */
  ghost predicate Chain(graph: Graph, path: seq<string>) {
    && path != []
    && forall i :: 0 < i < |path| ==> Feeds(graph, path[i - 1], path[i])
  }

  /** `id` is `seed` or lies downstream of it. */
  ghost predicate ChainBetween(graph: Graph, path: seq<string>, seed: string, id: string) {
    Chain(graph, path) && path[0] == seed && path[|path| - 1] == id
  }

  ghost predicate Downstream(graph: Graph, seeds: set<string>, id: string) {
    exists seed, path :: seed in seeds && ChainBetween(graph, path, seed, id)
  }

  ghost predicate Closed(graph: Graph, s: set<string>) {
    forall from, to :: from in s && Feeds(graph, from, to) ==> to in s
  }

  lemma DownstreamOfSeed(graph: Graph, seeds: set<string>, id: string)
    requires id in seeds
    ensures Downstream(graph, seeds, id)
  {
    assert ChainBetween(graph, [id], id, id);
  }

  lemma DownstreamStep(graph: Graph, seeds: set<string>, from: string, to: string)
    requires Downstream(graph, seeds, from) && Feeds(graph, from, to)
    ensures Downstream(graph, seeds, to)
  {
    var seed, path :| seed in seeds && ChainBetween(graph, path, seed, from);
    assert ChainBetween(graph, path + [to], seed, to);
  }

  lemma {:induction false} ChainStaysIn(graph: Graph, s: set<string>, path: seq<string>, n: nat)
    requires Closed(graph, s) && Chain(graph, path) && path[0] in s && n < |path|
    ensures path[n] in s
  {
    if n > 0 {
      ChainStaysIn(graph, s, path, n - 1);
      assert Feeds(graph, path[n - 1], path[n]);
    }
  }

  /** Everything downstream of the seeds lies in every closed set that holds the seeds. */
  lemma DownstreamIsLeast(graph: Graph, seeds: set<string>, s: set<string>, id: string)
    requires seeds <= s && Closed(graph, s) && Downstream(graph, seeds, id)
    ensures id in s
  {
    var seed, path :| seed in seeds && ChainBetween(graph, path, seed, id);
    ChainStaysIn(graph, s, path, |path| - 1);
  }

  /** The answer as a set: the steps that are a seed or lie downstream of one. */
  ghost function TargetSet(graph: Graph, issues: seq<Issue>): (r: set<string>)
    ensures Closed(graph, r) && Seeds(graph, issues) <= r
  {
    var r := set id | id in Ids(graph) && Downstream(graph, Seeds(graph, issues), id);
    assert Seeds(graph, issues) <= r by {
      forall id | id in Seeds(graph, issues) ensures id in r { DownstreamOfSeed(graph, Seeds(graph, issues), id); }
    }
    assert Closed(graph, r) by {
      forall from, to | from in r && Feeds(graph, from, to) ensures to in r {
        DownstreamStep(graph, Seeds(graph, issues), from, to);
      }
    }
    r
  }

  /** The order and repetition of steps do not matter. */
  lemma {:induction false} OrderIndependent(graph: Graph, graph': Graph, issues: seq<Issue>, id: string)
    requires forall t :: t in graph <==> t in graph'
    ensures Seeds(graph, issues) == Seeds(graph', issues)
    ensures Downstream(graph, Seeds(graph, issues), id) ==> Downstream(graph', Seeds(graph', issues), id)
  {
    assert Ids(graph) == Ids(graph');
    assert (set t | t in graph && t.aspect == "code-generation" :: t.id) ==
           (set t | t in graph' && t.aspect == "code-generation" :: t.id);
    if Downstream(graph, Seeds(graph, issues), id) {
      var seed, path :| seed in Seeds(graph, issues) && ChainBetween(graph, path, seed, id);
      forall i | 0 < i < |path|
        ensures Feeds(graph', path[i - 1], path[i])
      {
        assert Feeds(graph, path[i - 1], path[i]);
      }
      assert ChainBetween(graph', path, seed, id);
    }
  }

  /** Every target so far belongs to the result. */
  ghost predicate Sound(graph: Graph, seeds: set<string>, targets: set<string>) {
    seeds <= targets <= Ids(graph) && forall id :: id in targets ==> Downstream(graph, seeds, id)
  }

  /** One sweep over the steps: it added a target, or no step seen so far waits for one without being one. */
  ghost predicate Swept(steps: Graph, before: set<string>, targets: set<string>, grew: bool) {
    if grew then before < targets
    else targets == before && forall t, d :: t in steps && d in t.dependsOn && d in targets ==> t.id in targets
  }

  lemma Start(graph: Graph, issues: seq<Issue>)
    ensures Sound(graph, Seeds(graph, issues), Seeds(graph, issues))
  {
    forall id | id in Seeds(graph, issues) ensures Downstream(graph, Seeds(graph, issues), id) {
      DownstreamOfSeed(graph, Seeds(graph, issues), id);
    }
  }

  lemma Grow(graph: Graph, seeds: set<string>, before: set<string>, targets: set<string>, grew: bool, i: nat, d: string)
    requires Sound(graph, seeds, targets) && i < |graph| && Swept(graph[..i], before, targets, grew)
    requires d in graph[i].dependsOn && d in targets && graph[i].id !in targets
    ensures Sound(graph, seeds, targets + {graph[i].id}) && Swept(graph[..i + 1], before, targets + {graph[i].id}, true)
  {
    DownstreamStep(graph, seeds, d, graph[i].id);
  }

  lemma Pass(graph: Graph, before: set<string>, targets: set<string>, grew: bool, i: nat)
    requires i < |graph| && Swept(graph[..i], before, targets, grew)
    requires graph[i].id in targets || forall d :: d in graph[i].dependsOn ==> d !in targets
    ensures Swept(graph[..i + 1], before, targets, grew)
  {
    assert graph[..i + 1] == graph[..i] + [graph[i]];
  }

  /** A sweep that adds nothing has reached the result; one that adds something leaves fewer steps to add. */
  lemma EndOfSweep(graph: Graph, seeds: set<string>, before: set<string>, targets: set<string>, grew: bool)
    requires Sound(graph, seeds, targets) && Swept(graph[..|graph|], before, targets, grew)
    ensures if grew then |Ids(graph) - targets| < |Ids(graph) - before| else Closed(graph, targets)
  {
    assert graph[..|graph|] == graph;
    if grew {
      SmallerRest(Ids(graph), before, targets);
    }
  }

  lemma Finish(graph: Graph, seeds: set<string>, targets: set<string>)
    requires Sound(graph, seeds, targets) && Closed(graph, targets)
    ensures forall id :: id in targets <==> Downstream(graph, seeds, id)
  {
    forall id | Downstream(graph, seeds, id) ensures id in targets {
      DownstreamIsLeast(graph, seeds, targets, id);
    }
  }

  /** The steps to send back: exactly what is reachable downstream of the seeds, cycles or not. */
  method RemediationTargets(graph: Graph, issues: seq<Issue>) returns (targets: set<string>)
    ensures Seeds(graph, issues) <= targets <= Ids(graph)
    ensures Closed(graph, targets)
    ensures forall id :: id in targets <==> Downstream(graph, Seeds(graph, issues), id)
    ensures targets == TargetSet(graph, issues)
  {
    hide Seeds, Downstream, Closed, Swept, Sound, Ids;
    ghost var seeds := Seeds(graph, issues);
    targets := Seeds(graph, issues);
    Start(graph, issues);
    var grew := true;
    while grew
      invariant Sound(graph, seeds, targets)
      invariant !grew ==> Closed(graph, targets)
      decreases grew, |Ids(graph) - targets|
    {
      grew := false;
      ghost var before := targets;
      BeginSweep(graph, targets);
      for i := 0 to |graph|
        invariant Sound(graph, seeds, targets) && Swept(graph[..i], before, targets, grew)
      {
        var t := graph[i];
        if t.id in targets {
          Pass(graph, before, targets, grew, i);
          continue;
        }
        if exists d | d in t.dependsOn :: d in targets {
          ghost var d :| d in t.dependsOn && d in targets;
          Grow(graph, seeds, before, targets, grew, i, d);
          targets := targets + {t.id};
          grew := true;
        } else {
          Pass(graph, before, targets, grew, i);
        }
      }
      EndOfSweep(graph, seeds, before, targets, grew);
    }
    Finish(graph, seeds, targets);
    Within(graph, seeds, targets);
  }

  lemma BeginSweep(graph: Graph, targets: set<string>)
    ensures Swept(graph[..0], targets, targets, false)
  {
  }

  lemma Within(graph: Graph, seeds: set<string>, targets: set<string>)
    requires Sound(graph, seeds, targets)
    ensures seeds <= targets <= Ids(graph)
  {
  }

  lemma SmallerRest(all: set<string>, before: set<string>, after: set<string>)
    requires before < after <= all
    ensures |all - after| < |all - before|
  {
    assert exists x :: x in after && x !in before;
    var x :| x in after && x !in before;
    assert all - after <= (all - before) - {x};
    SubsetSize(all - after, (all - before) - {x});
  }

  lemma {:induction false} SubsetSize(a: set<string>, b: set<string>)
    requires a <= b
    ensures |a| <= |b|
  {
    if a != {} {
      var x :| x in a;
      SubsetSize(a - {x}, b - {x});
    }
  }
}
