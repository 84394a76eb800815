/** The HTML marker that ties a posted comment to its side-effect key. */
module Markers {
  import opened Text

  const MARKER_PREFIX := "titan:"

  function MarkerFor(key: string): string
  {
    "<!-- " + MARKER_PREFIX + key + " -->"
  }

  /** The text that reaches GitHub when `body` is posted under `key`. */
  function Tagged(body: string, key: string): string
  {
    body + "\n" + MarkerFor(key)
  }

  predicate SpaceFree(key: string)
  {
    ' ' !in key
  }

  /** The characters that decide whether two markers can overlap: a space after the
      opening `<!--`, the key, and a space before the closing `-->`. */
  ghost predicate MarkerChars(t: string, i: nat, key: string)
  {
    && i + 15 + |key| <= |t|
    && t[i + 5] == 't' && t[i + 12 + |key|] == '-'
    && (forall p :: i <= p < i + 11 ==> (t[p] == ' ' <==> p == i + 4))
    && (forall p :: i + 11 + |key| <= p < i + 15 + |key| ==> (t[p] == ' ' <==> p == i + 11 + |key|))
    && (forall p :: i <= p < i + 11 || i + 11 + |key| <= p < i + 15 + |key| ==> t[p] != '\n')
    && t[i + 11..i + 11 + |key|] == key
  }

  lemma OccurrenceChars(t: string, key: string, i: nat)
    requires OccursAt(t, MarkerFor(key), i)
    ensures |MarkerFor(key)| == 15 + |key|
    ensures MarkerChars(t, i, key)
  {
    var m, n := MarkerFor(key), |key|;
    assert m == "<!-- titan:" + (key + " -->");
    assert forall j :: 0 <= j < |m| ==> t[i + j] == m[j];
    assert t[i..i + |m|][11..11 + n] == t[i + 11..i + 11 + n];
    assert m[11..11 + n] == key;
    assert m[11 + n..] == " -->";
    assert m[11 + n] == m[11 + n..][0] && m[12 + n] == m[11 + n..][1];
    forall p | i <= p < i + 11 || i + 11 + n <= p < i + 15 + n
      ensures t[p] != '\n'
      ensures t[p] == ' ' <==> p == i + 4 || p == i + 11 + n
    {
      assert t[p] == m[p - i];
      if p < i + 11 {
        assert m[p - i] == "<!-- titan:"[p - i];
      } else {
        assert m[p - i] == m[11 + n..][p - i - 11 - n];
      }
    }
  }

  lemma TaggedHasOwnMarker(body: string, key: string)
    ensures Contains(Tagged(body, key), MarkerFor(key))
  {
    assert OccursAt(Tagged(body, key), MarkerFor(key), |body| + 1);
  }

  lemma OccursInPrefix(body: string, rest: string, m: string, i: nat)
    requires i + |m| <= |body|
    ensures OccursAt(body + rest, m, i) <==> OccursAt(body, m, i)
  {
    assert (body + rest)[i..i + |m|] == body[i..i + |m|];
  }

  /** An occurrence of one marker that reaches past the body is the appended marker itself. */
  lemma {:induction false} StraddlingMarker(body: string, key: string, other: string, i: nat)
    requires SpaceFree(key) && SpaceFree(other)
    requires OccursAt(Tagged(body, other), MarkerFor(key), i)
    requires i + |MarkerFor(key)| > |body|
    ensures key == other
  {
    var t, s := Tagged(body, other), |body| + 1;
    assert t[|body|] == '\n';
    assert t[s..] == MarkerFor(other);
    assert OccursAt(t, MarkerFor(other), s);
    OccurrenceChars(t, key, i);
    OccurrenceChars(t, other, s);
    SameMarker(t, key, other, i, s);
  }

  lemma {:induction false} SameMarker(t: string, key: string, other: string, i: nat, s: nat)
    requires SpaceFree(key) && SpaceFree(other)
    requires MarkerChars(t, i, key) && MarkerChars(t, s, other) && |t| == s + 15 + |other|
    requires 0 < s && t[s - 1] == '\n'
    requires i + 15 + |key| >= s
    ensures key == other
  {
    assert forall p :: i + 11 <= p < i + 11 + |key| ==> t[p] == key[p - (i + 11)] && t[p] != ' ';
    assert forall p :: s + 11 <= p < s + 11 + |other| ==> t[p] == other[p - (s + 11)] && t[p] != ' ';
    var q, r := i + 11 + |key|, s + 11 + |other|;
    assert t[q] == ' ' && t[r] == ' ' && t[i + 4] == ' ' && t[s + 4] == ' ';
    // Each marker's first space is followed by 't' and its second by '-', so the spaces line up
    // only when the markers start together; starting earlier would put the line break in the key.
    assert t[q + 1] == '-' && t[r + 1] == '-' && t[i + 5] == 't' && t[s + 5] == 't';
    assert i == s && q == r;
  }

  /** With space-free keys, posting under `other` adds the marker of `key` exactly when the keys agree. */
  lemma {:induction false} MarkerIsExact(body: string, key: string, other: string)
    requires SpaceFree(key) && SpaceFree(other)
    ensures Contains(Tagged(body, other), MarkerFor(key)) <==> Contains(body, MarkerFor(key)) || key == other
  {
    var t, m := Tagged(body, other), MarkerFor(key);
    assert t == body + ("\n" + MarkerFor(other));
    TaggedHasOwnMarker(body, other);
    if Contains(t, m) {
      var i: nat :| OccursAt(t, m, i);
      if i + |m| <= |body| {
        OccursInPrefix(body, "\n" + MarkerFor(other), m, i);
        assert OccursAt(body, m, i);
      } else {
        StraddlingMarker(body, key, other, i);
      }
    }
    if Contains(body, m) {
      var i :| 0 <= i <= |body| && OccursAt(body, m, i);
      OccursInPrefix(body, "\n" + MarkerFor(other), m, i);
    }
  }

  /** A text without a line break occurs on one side of a line break or on the other. */
  lemma OccursBesideBreak(a: string, b: string, m: string, i: nat)
    requires '\n' !in m && OccursAt(a + ("\n" + b), m, i)
    ensures OccursAt(a, m, i) || (i > |a| && OccursAt(b, m, i - |a| - 1)) || m == ""
  {
    var t := a + ("\n" + b);
    assert t[|a|] == '\n';
    forall p | i <= p < i + |m| ensures t[p] != '\n' {
      assert m[p - i] == t[i..i + |m|][p - i] && m[p - i] in m;
    }
    if i + |m| <= |a| {
      OccursInPrefix(a, "\n" + b, m, i);
    } else if i > |a| {
      assert t[i..i + |m|] == b[i - |a| - 1..i - |a| - 1 + |m|];
    }
  }

  /** For every key without a line break, spaces or not: posting under `other` adds the marker of `key` exactly when the
      marker of `other` holds it, which a caller can look up before posting. */
  lemma MarkerOfAnyKey(body: string, key: string, other: string)
    requires '\n' !in key
    ensures Contains(Tagged(body, other), MarkerFor(key)) <==>
            Contains(body, MarkerFor(key)) || Contains(MarkerFor(other), MarkerFor(key))
  {
    var m, own := MarkerFor(key), MarkerFor(other);
    assert Tagged(body, other) == body + ("\n" + own);
    NoBreakInMarker(key);
    assert m != "";
    BesideBreak(body, own, m);
    hide *;
  }

  /** A text without a line break occurs around one exactly when it occurs on one side. */
  lemma BesideBreak(a: string, b: string, m: string)
    requires '\n' !in m && m != ""
    ensures Contains(a + ("\n" + b), m) <==> Contains(a, m) || Contains(b, m)
  {
    hide OccursAt;
    var t := a + ("\n" + b);
    if Contains(t, m) {
      var i: nat :| OccursAt(t, m, i);
      OccursBesideBreak(a, b, m, i);
      if OccursAt(a, m, i) { InRange(a, m, i); } else { InRange(b, m, i - |a| - 1); }
    }
    if Contains(a, m) {
      var i: nat :| i <= |a| && OccursAt(a, m, i);
      OccursBefore(a, "\n" + b, m, i);
    }
    if Contains(b, m) {
      var i: nat :| i <= |b| && OccursAt(b, m, i);
      OccursAfter(a + "\n", b, m, i);
      assert a + "\n" + b == t;
    }
  }

  lemma OccursBefore(a: string, b: string, m: string, i: nat)
    requires OccursAt(a, m, i)
    ensures Contains(a + b, m)
  {
    OccursInPrefix(a, b, m, i);
    InRange(a + b, m, i);
  }

  lemma OccursAfter(a: string, b: string, m: string, i: nat)
    requires OccursAt(b, m, i)
    ensures Contains(a + b, m)
  {
    assert (a + b)[|a| + i..|a| + i + |m|] == b[i..i + |m|];
    InRange(a + b, m, |a| + i);
  }

  lemma InRange(s: string, m: string, i: nat)
    requires OccursAt(s, m, i)
    ensures Contains(s, m)
  {
  }

  lemma NoBreakInMarker(key: string)
    requires '\n' !in key
    ensures '\n' !in MarkerFor(key)
  {
    assert '\n' !in "<!-- " && '\n' !in MARKER_PREFIX && '\n' !in " -->";
  }

  /** The restriction on keys is needed: a key with a space can carry another key's marker. */
  lemma SpacedKeyForgesMarker()
    ensures var forged := "done:r1 --> x";
            forged != "done:r1" && Contains(Tagged("", forged), MarkerFor("done:r1"))
  {
    var key, more := "done:r1", " --> x";
    var t := Tagged("", key + more);
    assert key + more == "done:r1 --> x";
    assert t[1..] == MarkerFor(key) + " x -->";
    assert OccursAt(t, MarkerFor(key), 1);
  }
}
