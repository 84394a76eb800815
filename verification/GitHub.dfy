/** The in-memory GitHub that separate pulses share (src/fakes/fakeGitHub.js): issues,
    their comments, and a log of the calls made by this process. */
module GitHub {
  import opened Text

  datatype Comment = Comment(id: nat, body: string, createdAt: int)

  datatype Issue = Issue(number: nat, isOpen: bool, comments: seq<Comment>, updatedAt: int)

  datatype Request = Request(op: string, number: nat)

  /** The first issue with this number. */
  function Find(issues: seq<Issue>, number: nat): (r: Option<nat>)
    ensures r.Some? ==> r.value < |issues| && issues[r.value].number == number
    ensures r.None? ==> forall i :: 0 <= i < |issues| ==> issues[i].number != number
  {
    if issues == [] then None
    else if issues[0].number == number then Some(0)
    else match Find(issues[1..], number) case None => None case Some(i) => Some(i + 1)
  }

  predicate Exists(issues: seq<Issue>, number: nat) {
    Find(issues, number).Some?
  }

  function CommentsOf(issues: seq<Issue>, number: nat): seq<Comment> {
    match Find(issues, number) case None => [] case Some(i) => issues[i].comments
  }

  function WithComment(issues: seq<Issue>, number: nat, body: string, at: int): seq<Issue> {
    match Find(issues, number)
    case None => issues
    case Some(i) =>
      var issue := issues[i];
      issues[i := issue.(comments := issue.comments + [Comment(|issue.comments| + 1, body, at)], updatedAt := at)]
  }

  function WithClosed(issues: seq<Issue>, number: nat, at: int): seq<Issue> {
    match Find(issues, number)
    case None => issues
    case Some(i) => issues[i := issues[i].(isOpen := false, updatedAt := at)]
  }

  /** Replacing an issue by one with the same number does not change which issue any number finds. */
  lemma {:induction false} FindAfterUpdate(issues: seq<Issue>, i: nat, issue: Issue, number: nat)
    requires i < |issues| && issue.number == issues[i].number
    ensures Find(issues[i := issue], number) == Find(issues, number)
  {
    if i > 0 && issues[0].number != number {
      assert issues[i := issue][1..] == issues[1..][i - 1 := issue];
      FindAfterUpdate(issues[1..], i - 1, issue, number);
    } else {
      assert i == 0 ==> issues[i := issue][1..] == issues[1..];
    }
  }

  /** Posting appends one comment to the named issue, leaves every other issue's comments alone,
      and is silently ignored when the issue does not exist. */
  lemma {:induction false} CommentsAfterPost(issues: seq<Issue>, number: nat, body: string, at: int, other: nat)
    ensures var issues' := WithComment(issues, number, body, at);
            && Exists(issues', other) == Exists(issues, other)
            && CommentsOf(issues', other) ==
               if other == number && Exists(issues, number)
               then CommentsOf(issues, number) + [Comment(|CommentsOf(issues, number)| + 1, body, at)]
               else CommentsOf(issues, other)
  {
    match Find(issues, number)
    case None =>
    case Some(i) =>
      FindAfterUpdate(issues, i, WithComment(issues, number, body, at)[i], other);
  }

  lemma {:induction false} CommentsAfterClose(issues: seq<Issue>, number: nat, at: int, other: nat)
    ensures var issues' := WithClosed(issues, number, at);
            && Exists(issues', other) == Exists(issues, other)
            && CommentsOf(issues', other) == CommentsOf(issues, other)
            && (Exists(issues, number) ==> Exists(issues', number) && !issues'[Find(issues', number).value].isOpen)
  {
    match Find(issues, number)
    case None =>
    case Some(i) =>
      FindAfterUpdate(issues, i, WithClosed(issues, number, at)[i], other);
      FindAfterUpdate(issues, i, WithClosed(issues, number, at)[i], number);
  }

  predicate IsOpen(issues: seq<Issue>, number: nat) {
    Exists(issues, number) && issues[Find(issues, number).value].isOpen
  }

  /** When an issue was last updated. */
  function UpdatedAt(issues: seq<Issue>, number: nat): Option<int> {
    match Find(issues, number) case None => None case Some(i) => Some(issues[i].updatedAt)
  }

  /** Posting opens and closes nothing, and moves the update time of the named issue to the time of the comment. */
  lemma OpenAfterPost(issues: seq<Issue>, number: nat, body: string, at: int, other: nat)
    ensures var issues' := WithComment(issues, number, body, at);
            && IsOpen(issues', other) == IsOpen(issues, other)
            && UpdatedAt(issues', other) ==
               if other == number && Exists(issues, number) then Some(at) else UpdatedAt(issues, other)
  {
    match Find(issues, number)
    case None =>
    case Some(i) =>
      FindAfterUpdate(issues, i, WithComment(issues, number, body, at)[i], other);
  }

  /** Closing closes the named issue and no other, and moves its update time. */
  lemma OpenAfterClose(issues: seq<Issue>, number: nat, at: int, other: nat)
    ensures var issues' := WithClosed(issues, number, at);
            && (IsOpen(issues', other) <==> IsOpen(issues, other) && other != number)
            && UpdatedAt(issues', other) ==
               if other == number && Exists(issues, number) then Some(at) else UpdatedAt(issues, other)
  {
    match Find(issues, number)
    case None =>
    case Some(i) =>
      FindAfterUpdate(issues, i, WithClosed(issues, number, at)[i], other);
  }

  function Since(comments: seq<Comment>, since: int): (r: seq<Comment>)
    ensures forall c :: c in r <==> c in comments && c.createdAt >= since
    ensures |r| <= |comments|
  {
    if comments == [] then []
    else (if comments[0].createdAt >= since then [comments[0]] else []) + Since(comments[1..], since)
  }

  class FakeGitHub {
    var issues: seq<Issue>
    var calls: seq<Request>
    /** What the callbacks handed to `once` asked the outside world to do, by key. */
    var effects: seq<string>

    constructor(issues: seq<Issue>)
      ensures this.issues == issues && calls == [] && effects == []
    {
      this.issues, calls, effects := issues, [], [];
    }

    method CommentOnIssue(number: nat, body: string, at: int)
      modifies this
      ensures issues == WithComment(old(issues), number, body, at)
      ensures calls == old(calls) + [Request("commentOnIssue", number)] && effects == old(effects)
    {
      calls := calls + [Request("commentOnIssue", number)];
      var found := Find(issues, number);
      if found.None? {
        return;
      }
      var issue := issues[found.value];
      var comment := Comment(|issue.comments| + 1, body, at);
      issue := issue.(comments := issue.comments + [comment]);
      issue := issue.(updatedAt := comment.createdAt);
      issues := issues[found.value := issue];
    }

    method ListIssueComments(number: nat, since: Option<int>) returns (comments: seq<Comment>)
      modifies this
      ensures issues == old(issues) && effects == old(effects)
      ensures calls == old(calls) + [Request("listIssueComments", number)]
      ensures comments == match since
                          case None => CommentsOf(issues, number)
                          case Some(s) => Since(CommentsOf(issues, number), s)
    {
      calls := calls + [Request("listIssueComments", number)];
      var found := Find(issues, number);
      if found.None? {
        return [];
      }
      comments := issues[found.value].comments;
      if since.Some? {
        comments := Since(comments, since.value);
      }
    }

    method CloseIssue(number: nat, at: int)
      modifies this
      ensures issues == WithClosed(old(issues), number, at)
      ensures calls == old(calls) + [Request("closeIssue", number)] && effects == old(effects)
    {
      calls := calls + [Request("closeIssue", number)];
      var found := Find(issues, number);
      if found.None? {
        return;
      }
      issues := issues[found.value := issues[found.value].(isOpen := false, updatedAt := at)];
    }

    method Perform(key: string)
      modifies this
      ensures issues == old(issues) && calls == old(calls) && effects == old(effects) + [key]
    {
      effects := effects + [key];
    }
  }
}
