/** Recovering a JSON object from messy text (src/lib/jsonRepair.js): the balanced-brace scanner, the trailing-comma
    repair, and the search over opening braces. */
module JsonRepair {
  import opened Text

  // ------------------------------------------------------------------ the scanner

  datatype Scan = Scan(depth: int, inString: bool, escapeNext: bool)

  const START := Scan(0, false, false)

  function Step(s: Scan, ch: char): Scan {
    if s.escapeNext then s.(escapeNext := false)
    else if ch == '\\' && s.inString then s.(escapeNext := true)
    else if ch == '"' then s.(inString := !s.inString)
    else if s.inString then s
    else if ch == '{' then s.(depth := s.depth + 1)
    else if ch == '}' then s.(depth := s.depth - 1)
    else s
  }

  function After(s: Scan, t: string): Scan
    decreases |t|
  {
    if t == "" then s else After(Step(s, t[0]), t[1..])
  }

  lemma {:induction false} AfterConcat(s: Scan, a: string, b: string)
    ensures After(s, a + b) == After(After(s, a), b)
    decreases |a|
  {
    if a == "" {
      assert a + b == b;
    } else {
      assert (a + b)[0] == a[0] && (a + b)[1..] == a[1..] + b;
      AfterConcat(Step(s, a[0]), a[1..], b);
    }
  }

  /** The depth once the character at `k` has been read. */
  function DepthAt(text: string, start: nat, k: nat): int
    requires start <= k < |text|
  {
    After(START, text[start..k + 1]).depth
  }

  /** The object that opens at `start` ends at `e`: the first place where the depth is back at zero. */
  predicate EndsAt(text: string, start: nat, e: nat)
    requires start <= |text|
  {
    && start <= e < |text| && DepthAt(text, start, e) == 0
    && forall k | start <= k < e :: DepthAt(text, start, k) > 0
  }

  function EndFrom(text: string, i: nat, s: Scan): (r: Option<nat>)
    ensures r.Some? ==> i <= r.value < |text|
    decreases |text| - i
  {
    if i >= |text| then None
    else if text[i] == '}' && !s.inString && !s.escapeNext && s.depth == 1 then Some(i)
    else EndFrom(text, i + 1, Step(s, text[i]))
  }

  lemma AfterNext(text: string, start: nat, i: nat)
    requires start <= i < |text|
    ensures After(START, text[start..i + 1]) == Step(After(START, text[start..i]), text[i])
  {
    assert text[start..i + 1] == text[start..i] + [text[i]];
    AfterConcat(START, text[start..i], [text[i]]);
    assert [text[i]][1..] == "";
  }

  lemma {:induction false} EndFromIsFirst(text: string, start: nat, i: nat)
    requires start < i <= |text|
    requires forall k | start <= k < i :: DepthAt(text, start, k) > 0
    ensures var r := EndFrom(text, i, After(START, text[start..i]));
            && (r.Some? ==> EndsAt(text, start, r.value))
            && (r.None? ==> forall k | start <= k < |text| :: DepthAt(text, start, k) > 0)
    decreases |text| - i
  {
    hide After;
    if i < |text| {
      AfterNext(text, start, i);
      var s := After(START, text[start..i]);
      assert s.depth == DepthAt(text, start, i - 1) > 0;
      assert DepthAt(text, start, i) == Step(s, text[i]).depth;
      if text[i] == '}' && !s.inString && !s.escapeNext && s.depth == 1 {
      } else {
        EndFromIsFirst(text, start, i + 1);
      }
    }
  }

  predicate NoBrace(text: string, from: nat, upTo: nat) {
    forall i | from <= i < upTo && i < |text| :: text[i] != '{'
  }

  function BraceFrom(text: string, from: nat): (r: Option<nat>)
    ensures r.Some? ==> from <= r.value < |text| && text[r.value] == '{' && NoBrace(text, from, r.value)
    ensures r.None? ==> NoBrace(text, from, |text|)
    decreases |text| - from
  {
    if from >= |text| then None else if text[from] == '{' then Some(from) else BraceFrom(text, from + 1)
  }

  /** `extractBalancedObject`, as a function. */
  function Extract(text: string, from: nat): (r: Option<string>)
    ensures r.Some? ==> |r.value| > 0
  {
    match BraceFrom(text, from)
    case None => None
    case Some(start) =>
      match EndFrom(text, start, START) case None => None case Some(e) => Some(text[start..e + 1])
  }

  lemma EndOfBrace(text: string, start: nat)
    requires start < |text| && text[start] == '{'
    ensures var r := EndFrom(text, start, START);
            && (r.Some? ==> EndsAt(text, start, r.value))
            && (r.None? ==> Unclosed(text, start))
  {
    AfterNext(text, start, start);
    assert text[start..start] == "";
    assert text[start..start + 1] == [text[start]];
    EndFromIsFirst(text, start, start + 1);
  }

  lemma EndIsUnique(text: string, start: nat, a: nat, b: nat)
    requires start <= |text| && EndsAt(text, start, a) && EndsAt(text, start, b)
    ensures a == b
  {
    hide After;
  }

  predicate Unclosed(text: string, start: nat)
    requires start <= |text|
  {
    forall e | start <= e < |text| :: !EndsAt(text, start, e)
  }

  /** What the scanner finds, said without the scan: the text from the first opening brace to the first place where the
      depth is back at zero, and nothing exactly when there is no such brace or no such place. */
  lemma ExtractMeans(text: string, from: nat)
    requires from <= |text|
    ensures var r := Extract(text, from);
            && (r.Some? ==> exists start, e | from <= start <= e < |text| ::
                  && text[start] == '{' && NoBrace(text, from, start)
                  && EndsAt(text, start, e) && r.value == text[start..e + 1])
            && (r.None? ==>
                  || NoBrace(text, from, |text|)
                  || exists start | from <= start < |text| ::
                     text[start] == '{' && NoBrace(text, from, start) && Unclosed(text, start))
  {
    var b := BraceFrom(text, from);
    if b.Some? {
      EndOfBrace(text, b.value);
    }
    hide EndsAt, After;
  }

  // ------------------------------------------------------------------ trailing commas

  /** Whether what follows is white space and then a closing bracket; `next` says it of the text after `t`. */
  predicate Closes(t: string, next: bool) {
    if t == "" then next else if IsSpace(t[0]) then Closes(t[1..], next) else t[0] in "}]"
  }

  /** `t` without the commas that have nothing but white space between them and a closing bracket. */
  function Dropped(t: string, next: bool): (r: string)
    ensures |r| <= |t|
  {
    if t == "" then ""
    else (if t[0] == ',' && Closes(t[1..], next) then "" else [t[0]]) + Dropped(t[1..], next)
  }

  /** `/\s*[}\]]/` at the start of `t`: the length of the match. */
  function CloserLength(t: string): (r: Option<nat>)
    ensures r.Some? <==> Closes(t, false)
    ensures r.Some? ==> 0 < r.value <= |t| && ',' !in t[..r.value]
  {
    if t == "" then None
    else if t[0] in "}]" then Some(1)
    else if !IsSpace(t[0]) then None
    else match CloserLength(t[1..])
         case None => None
         case Some(n) => assert t[..n + 1] == [t[0]] + t[1..][..n]; Some(n + 1)
  }

  /** Replacing, left to right, every match of a comma, white space and a closing bracket by what follows the comma. */
  function StripTrailingCommas(t: string): string
    decreases |t|
  {
    if t == "" then ""
    else if t[0] == ',' && CloserLength(t[1..]).Some? then
      var n := CloserLength(t[1..]).value;
      t[1..1 + n] + StripTrailingCommas(t[1 + n..])
    else [t[0]] + StripTrailingCommas(t[1..])
  }

  lemma {:induction false} DroppedConcat(a: string, b: string, next: bool)
    ensures Dropped(a + b, next) == Dropped(a, Closes(b, next)) + Dropped(b, next)
    ensures Closes(a + b, next) == Closes(a, Closes(b, next))
    decreases |a|
  {
    if a == "" {
      assert a + b == b;
    } else {
      assert (a + b)[0] == a[0] && (a + b)[1..] == a[1..] + b;
      DroppedConcat(a[1..], b, next);
    }
  }

  lemma {:induction false} NothingToDrop(t: string, next: bool)
    requires ',' !in t
    ensures Dropped(t, next) == t
  {
    if t != "" {
      NothingToDrop(t[1..], next);
    }
  }

  /** The replacement removes the commas directly before a closing bracket, all of them at once, and nothing else. */
  lemma {:induction false} StripDropsDanglingCommas(t: string)
    ensures StripTrailingCommas(t) == Dropped(t, false)
    decreases |t|
  {
    if t != "" {
      if t[0] == ',' && CloserLength(t[1..]).Some? {
        var n := CloserLength(t[1..]).value;
        var a, b := t[1..1 + n], t[1 + n..];
        assert t[1..] == a + b && a == t[1..][..n];
        DroppedConcat(a, b, false);
        NothingToDrop(a, Closes(b, false));
        StripDropsDanglingCommas(b);
      } else {
        StripDropsDanglingCommas(t[1..]);
      }
    }
  }

  // ------------------------------------------------------------------ JSON texts

  /** A character of a string: itself, or a backslash and a character (`\u` is followed by plain digits). RFC 8259,
      section 7. */
  datatype Piece = Plain(c: char) | Escaped(c: char)

  /** A JSON text as written, white space included, with an optional comma before each closing bracket. RFC 8259,
      sections 2 to 7. */
  datatype Json =
    | Lit(text: string)
    | Str(pieces: seq<Piece>)
    | Arr(items: Items, comma: bool, pad: string)
    | Obj(items: Items, comma: bool, pad: string)

  datatype Items = Nil | Cons(lead: string, key: Option<Key>, value: Json, trail: string, rest: Items)

  datatype Key = Key(pieces: seq<Piece>, gap: string, gap2: string)

  predicate Blank(s: string) {
    forall c | c in s :: c in " \t\n\r"
  }

  predicate Structural(c: char) {
    c in "{}[],\"\\" || IsSpace(c)
  }

  predicate GoodPieces(ps: seq<Piece>) {
    forall p | p in ps :: p.Plain? ==> p.c != '"' && p.c != '\\'
  }

  predicate Good(v: Json) {
    match v
    case Lit(t) => t != "" && forall c | c in t :: !Structural(c)
    case Str(ps) => GoodPieces(ps)
    case Arr(items, _, pad) => GoodItems(items) && Blank(pad)
    case Obj(items, _, pad) => GoodItems(items) && Blank(pad)
  }

  predicate GoodItems(items: Items) {
    items.Cons? ==>
      && Blank(items.lead) && Blank(items.trail) && Good(items.value) && GoodItems(items.rest)
      && (items.key.Some? ==>
         GoodPieces(items.key.value.pieces) && Blank(items.key.value.gap) && Blank(items.key.value.gap2))
  }

  function Body(ps: seq<Piece>): string {
    if ps == [] then "" else (match ps[0] case Plain(c) => [c] case Escaped(c) => ['\\', c]) + Body(ps[1..])
  }

  /** How a text is written out: with its extra commas or not, and with the string bodies as they are or as the
      repair leaves them. */
  datatype Style = Style(commas: bool, repaired: bool)

  function Quoted(ps: seq<Piece>, style: Style): string {
    "\"" + (if style.repaired then Dropped(Body(ps), false) else Body(ps)) + "\""
  }

  function Written(v: Json, style: Style): string {
    match v
    case Lit(t) => t
    case Str(ps) => Quoted(ps, style)
    case Arr(items, comma, pad) => "[" + ItemsWritten(items, style) + Tail(comma && style.commas, pad, ']')
    case Obj(items, comma, pad) => "{" + ItemsWritten(items, style) + Tail(comma && style.commas, pad, '}')
  }

  function Tail(comma: bool, pad: string, close: char): string {
    (if comma then "," else "") + pad + [close]
  }

  function KeyWritten(key: Option<Key>, style: Style): string {
    match key
    case None => ""
    case Some(k) => Quoted(k.pieces, style) + k.gap + ":" + k.gap2
  }

  function ItemsWritten(items: Items, style: Style): string {
    match items
    case Nil => ""
    case Cons(lead, key, value, trail, rest) =>
      lead + KeyWritten(key, style) + Written(value, style) + trail +
          (if rest.Nil? then "" else "," + ItemsWritten(rest, style))
  }

  const AS_WRITTEN := Style(true, false)
  const PLAIN := Style(false, false)

  // ------------------------------------------------------------------ the scanner reads every JSON object back

  /** Scanning `t` comes back to the state it started in and goes no shallower on the way. */
  predicate Neutral(s: Scan, t: string) {
    After(s, t) == s && forall k | 0 <= k <= |t| :: After(s, t[..k]).depth >= s.depth
  }

  predicate Outside(s: Scan) {
    !s.inString && !s.escapeNext
  }

  lemma NeutralConcat(s: Scan, a: string, b: string)
    requires Neutral(s, a) && Neutral(s, b)
    ensures Neutral(s, a + b)
  {
    AfterConcat(s, a, b);
    forall k | 0 <= k <= |a + b| ensures After(s, (a + b)[..k]).depth >= s.depth {
      if k <= |a| {
        assert (a + b)[..k] == a[..k];
      } else {
        assert (a + b)[..k] == a + b[..k - |a|];
        AfterConcat(s, a, b[..k - |a|]);
      }
    }
  }

  /** Text without quotes or braces. */
  lemma {:induction false} DullIsNeutral(s: Scan, t: string)
    requires Outside(s) && forall c | c in t :: c !in "{}\""
    ensures Neutral(s, t)
  {
    if t != "" {
      DullIsNeutral(s, t[1..]);
      assert t[0] in t;
      assert After(s, t) == s;
      forall k | 0 <= k <= |t| ensures After(s, t[..k]).depth >= s.depth {
        if k > 0 {
          assert t[..k][0] == t[0] && t[..k][1..] == t[1..][..k - 1];
        }
      }
    }
  }

  lemma {:induction false} BodyStaysInside(s: Scan, ps: seq<Piece>)
    requires s.inString && !s.escapeNext && GoodPieces(ps)
    ensures Neutral(s, Body(ps))
  {
    if ps != [] {
      var p, rest := ps[0], ps[1..];
      BodyStaysInside(s, rest);
      if p.Plain? {
        OneInside(s, p.c);
        NeutralConcat(s, [p.c], Body(rest));
      } else {
        EscapeInside(s, p.c);
        NeutralConcat(s, ['\\', p.c], Body(rest));
      }
    }
  }

  lemma OneInside(s: Scan, c: char)
    requires s.inString && !s.escapeNext && c != '"' && c != '\\'
    ensures Neutral(s, [c])
  {
    assert [c][1..] == "" && [c][..0] == "" && [c][..1] == [c];
  }

  lemma EscapeInside(s: Scan, c: char)
    requires s.inString && !s.escapeNext
    ensures Neutral(s, ['\\', c])
  {
    var t, escaped := ['\\', c], s.(escapeNext := true);
    assert t[1..] == [c] && [c][1..] == "" && t[..0] == "" && t[..1] == ['\\'] && t[..2] == t && ['\\'][1..] == "";
    assert After(escaped, [c]) == After(s, "") == s;
    assert After(s, t[..1]) == After(escaped, "") == escaped;
  }

  /** Text between two characters, the first of which opens what the second closes. */
  lemma Wrapped(s: Scan, open: char, t: string, close: char)
    requires var inner := Step(s, open); Neutral(inner, t) && Step(inner, close) == s && inner.depth >= s.depth
    ensures Neutral(s, [open] + t + [close])
    ensures forall k | 1 <= k <= 1 + |t| :: After(s, ([open] + t + [close])[..k]).depth >= Step(s, open).depth
  {
    var inner, w := Step(s, open), [open] + t + [close];
    forall k | 1 <= k <= 1 + |t| ensures After(s, w[..k]) == After(inner, t[..k - 1]) {
      assert w[..k][0] == open && w[..k][1..] == t[..k - 1];
    }
    assert w == w[..1 + |t|] + [close] && t[..|t|] == t;
    AfterConcat(s, w[..1 + |t|], [close]);
    assert [close][1..] == "";
    assert w[..|w|] == w && w[..0] == "";
  }

  lemma QuotedIsNeutral(s: Scan, ps: seq<Piece>)
    requires Outside(s) && GoodPieces(ps)
    ensures Neutral(s, Quoted(ps, AS_WRITTEN))
  {
    BodyStaysInside(s.(inString := true), ps);
    hide Neutral;
    Wrapped(s, '"', Body(ps), '"');
  }

  /** What stands between the brackets of an array or object. */
  function Inside(items: Items, comma: bool, pad: string): string {
    ItemsWritten(items, AS_WRITTEN) + (if comma then "," else "") + pad
  }

  lemma BoxWritten(v: Json)
    requires v.Arr? || v.Obj?
    ensures Written(v, AS_WRITTEN) ==
            [if v.Obj? then '{' else '['] + Inside(v.items, v.comma, v.pad) + [if v.Obj? then '}' else ']']
  {
    hide ItemsWritten;
  }

  /** By induction on the value: scanning a printed value restores depth and string state. */
  lemma {:induction false} ValueIsNeutral(s: Scan, v: Json)
    requires Outside(s) && Good(v)
    ensures Neutral(s, Written(v, AS_WRITTEN))
    decreases v, 1
  {
    match v
    case Lit(t) => DullIsNeutral(s, t);
    case Str(ps) => QuotedIsNeutral(s, ps);
    case Arr(items, comma, pad) =>
      InsideIsNeutral(s, items, comma, pad);
      BoxWritten(v);
      hide Neutral, Written, Inside;
      Wrapped(s, '[', Inside(items, comma, pad), ']');
    case Obj(items, comma, pad) =>
      InsideIsNeutral(Step(s, '{'), items, comma, pad);
      BoxWritten(v);
      hide Neutral, Written, Inside;
      Wrapped(s, '{', Inside(items, comma, pad), '}');
  }

  lemma {:induction false} InsideIsNeutral(s: Scan, items: Items, comma: bool, pad: string)
    requires Outside(s) && GoodItems(items) && Blank(pad)
    ensures Neutral(s, Inside(items, comma, pad))
    decreases items, 1
  {
    var c := if comma then "," else "";
    DullIsNeutral(s, c);
    DullIsNeutral(s, pad);
    ItemsAreNeutral(s, items);
    hide Neutral, ItemsWritten, GoodItems, Blank;
    NeutralConcat(s, ItemsWritten(items, AS_WRITTEN), c);
    NeutralConcat(s, ItemsWritten(items, AS_WRITTEN) + c, pad);
  }

  lemma KeyIsNeutral(s: Scan, key: Option<Key>)
    requires Outside(s) && (key.Some? ==> GoodPieces(key.value.pieces) && Blank(key.value.gap) && Blank(key.value.gap2))
    ensures Neutral(s, KeyWritten(key, AS_WRITTEN))
  {
    match key
    case None => DullIsNeutral(s, "");
    case Some(k) =>
      QuotedIsNeutral(s, k.pieces);
      DullIsNeutral(s, k.gap + ":" + k.gap2);
      hide Neutral;
      var q := Quoted(k.pieces, AS_WRITTEN);
      NeutralConcat(s, q, k.gap + ":" + k.gap2);
      assert q + (k.gap + ":" + k.gap2) == q + k.gap + ":" + k.gap2;
  }

  lemma {:induction false} ItemsAreNeutral(s: Scan, items: Items)
    requires Outside(s) && GoodItems(items)
    ensures Neutral(s, ItemsWritten(items, AS_WRITTEN))
    decreases items, 0
  {
    match items
    case Nil => DullIsNeutral(s, "");
    case Cons(lead, key, value, trail, rest) =>
      var k, v, more := KeyWritten(key, AS_WRITTEN), Written(value, AS_WRITTEN), ItemsWritten(rest, AS_WRITTEN);
      DullIsNeutral(s, lead);
      DullIsNeutral(s, trail);
      DullIsNeutral(s, ",");
      KeyIsNeutral(s, key);
      ValueIsNeutral(s, value);
      ItemsAreNeutral(s, rest);
      hide Neutral, KeyWritten, Written;
      NeutralConcat(s, lead, k);
      NeutralConcat(s, lead + k, v);
      NeutralConcat(s, lead + k + v, trail);
      if rest.Cons? {
        NeutralConcat(s, ",", more);
        NeutralConcat(s, lead + k + v + trail, "," + more);
      } else {
        assert lead + k + v + trail + "" == lead + k + v + trail;
      }
  }

  /** Main result. Whatever text surrounds it, provided no opening brace precedes it, a printed JSON object is found
      exactly. */
  lemma RoundTrip(prefix: string, from: nat, v: Json, suffix: string)
    requires from <= |prefix| && NoBrace(prefix, from, |prefix|)
    requires v.Obj? && Good(v)
    ensures Extract(prefix + Written(v, AS_WRITTEN) + suffix, from) == Some(Written(v, AS_WRITTEN))
  {
    var w := Written(v, AS_WRITTEN);
    var text, start, e := prefix + w + suffix, |prefix|, |prefix| + |w| - 1;
    ObjectClosesAtEnd(v);
    hide Written;
    forall k | start <= k <= e ensures DepthAt(text, start, k) == After(START, w[..k + 1 - start]).depth {
      assert text[start..k + 1] == w[..k + 1 - start];
    }
    assert text[start..e + 1] == w == w[..|w|];
    assert EndsAt(text, start, e);
    FirstBraceIs(text, from, start);
    EndOfBrace(text, start);
    EndIsUnique(text, start, EndFrom(text, start, START).value, e);
  }

  lemma ObjectClosesAtEnd(v: Json)
    requires v.Obj? && Good(v)
    ensures var w := Written(v, AS_WRITTEN);
            && |w| >= 2 && w[0] == '{' && After(START, w).depth == 0
            && forall k | 1 <= k < |w| :: After(START, w[..k]).depth > 0
  {
    var inside := Inside(v.items, v.comma, v.pad);
    InsideIsNeutral(Step(START, '{'), v.items, v.comma, v.pad);
    BoxWritten(v);
    hide Neutral, Written, Inside;
    Wrapped(START, '{', inside, '}');
    NeutralReturns(START, Written(v, AS_WRITTEN));
  }

  lemma NeutralReturns(s: Scan, t: string)
    requires Neutral(s, t)
    ensures After(s, t) == s
  {
  }

  lemma {:induction false} FirstBraceIs(text: string, from: nat, start: nat)
    requires from <= start < |text| && text[start] == '{' && NoBrace(text, from, start)
    ensures BraceFrom(text, from) == Some(start)
    decreases start - from
  {
    if from < start {
      FirstBraceIs(text, from + 1, start);
    }
  }

  // ------------------------------------------------------------------ the repair undoes trailing commas

  const REPAIRED := Style(false, true)

  /** A text whose repair does not depend on what follows, and which is not itself the start of a closing. */
  predicate Solid(t: string, repaired: string) {
    forall next :: Dropped(t, next) == repaired && !Closes(t, next)
  }

  lemma BlankStaysPut(s: string, next: bool)
    requires Blank(s)
    ensures Dropped(s, next) == s && Closes(s, next) == next
  {
    NothingToDrop(s, next);
    if s != "" {
      assert s[0] in s;
      BlankStaysPut(s[1..], next);
    }
  }

  lemma QuotedIsSolid(ps: seq<Piece>)
    ensures Solid(Quoted(ps, AS_WRITTEN), Quoted(ps, REPAIRED))
  {
    var body := Body(ps);
    forall next
      ensures Dropped("\"" + body + "\"", next) == "\"" + Dropped(body, false) + "\""
      ensures !Closes("\"" + body + "\"", next)
    {
      DroppedConcat("\"" + body, "\"", next);
      DroppedConcat("\"", body, false);
      assert Dropped("\"", next) == "\"" && !Closes("\"", next);
      assert Dropped("\"", Closes(body, false)) == "\"" && !Closes("\"", Closes(body, false));
    }
  }

  lemma LitIsSolid(t: string)
    requires Good(Lit(t))
    ensures Solid(t, t)
  {
    forall next ensures Dropped(t, next) == t && !Closes(t, next) {
      assert ',' !in t;
      NothingToDrop(t, next);
      assert t[0] in t;
    }
  }

  lemma TailRepaired(comma: bool, pad: string, close: char, next: bool)
    requires Blank(pad) && close in "}]"
    ensures Dropped(Tail(comma, pad, close), next) == pad + [close] && Closes(Tail(comma, pad, close), next) == !comma
  {
    var t := pad + [close];
    assert Dropped([close], next) == [close] && Closes([close], next);
    DroppedConcat(pad, [close], next);
    BlankStaysPut(pad, true);
    if comma {
      assert Tail(true, pad, close)[1..] == t;
    } else {
      assert Tail(false, pad, close) == t;
    }
  }

  /** By induction on the value: the repair of a printed value is the value without its extra commas, strings
      repaired. */
  lemma {:induction false} ValueIsSolid(v: Json)
    requires Good(v)
    ensures Solid(Written(v, AS_WRITTEN), Written(v, REPAIRED))
    decreases v, 1
  {
    match v
    case Lit(t) => LitIsSolid(t);
    case Str(ps) => QuotedIsSolid(ps);
    case Arr(items, comma, pad) => BoxIsSolid('[', items, comma, pad, ']');
    case Obj(items, comma, pad) => BoxIsSolid('{', items, comma, pad, '}');
  }

  lemma {:induction false} BoxIsSolid(open: char, items: Items, comma: bool, pad: string, close: char)
    requires GoodItems(items) && Blank(pad) && close in "}]" && open in "{["
    ensures Solid([open] + ItemsWritten(items, AS_WRITTEN) + Tail(comma, pad, close),
                  [open] + ItemsWritten(items, REPAIRED) + Tail(false, pad, close))
    decreases items, 1
  {
    var i, r, t := ItemsWritten(items, AS_WRITTEN), ItemsWritten(items, REPAIRED), Tail(comma, pad, close);
    forall next
      ensures Dropped([open] + i + t, next) == [open] + r + Tail(false, pad, close) && !Closes([open] + i + t, next)
    {
      TailRepaired(comma, pad, close, next);
      ItemsRepaired(items, Closes(t, next));
      DroppedConcat([open] + i, t, next);
      DroppedConcat([open], i, Closes(t, next));
      var inner := Closes(i, Closes(t, next));
      assert Dropped([open], inner) == [open] && !Closes([open], inner);
      assert Tail(false, pad, close) == pad + [close];
    }
  }

  /** Items are repaired whether a bracket or a comma follows; only an empty list lets the bracket show through. */
  lemma {:induction false} ItemsRepaired(items: Items, next: bool)
    requires GoodItems(items)
    ensures Dropped(ItemsWritten(items, AS_WRITTEN), next) == ItemsWritten(items, REPAIRED)
    ensures items.Cons? ==> !Closes(ItemsWritten(items, AS_WRITTEN), next)
    decreases items, 0
  {
    match items
    case Nil =>
    case Cons(lead, key, value, trail, rest) =>
      var w, w' := Written(value, AS_WRITTEN), Written(value, REPAIRED);
      var k, k' := KeyWritten(key, AS_WRITTEN), KeyWritten(key, REPAIRED);
      var more := if rest.Nil? then "" else "," + ItemsWritten(rest, AS_WRITTEN);
      var more' := if rest.Nil? then "" else "," + ItemsWritten(rest, REPAIRED);
      assert Dropped(more, next) == more' by {
        if rest.Cons? {
          ItemsRepaired(rest, next);
          assert more[1..] == ItemsWritten(rest, AS_WRITTEN);
        }
      }
      ValueIsSolid(value);
      hide Written, ItemsWritten, KeyWritten;
      var after := Closes(more, next);
      DroppedConcat(lead + k + w + trail, more, next);
      DroppedConcat(lead + k + w, trail, after);
      BlankStaysPut(trail, after);
      DroppedConcat(lead + k, w, after);
      KeyRepaired(key, false);
      DroppedConcat(lead, k, false);
      BlankStaysPut(lead, false);
      ItemsAre(items, AS_WRITTEN, lead + k + w + trail + more);
      ItemsAre(items, REPAIRED, lead + k' + w' + trail + more');
  }

  lemma ItemsAre(items: Items, style: Style, t: string)
    requires items.Cons?
    requires t == items.lead + KeyWritten(items.key, style) + Written(items.value, style) + items.trail +
                  (if items.rest.Nil? then "" else "," + ItemsWritten(items.rest, style))
    ensures ItemsWritten(items, style) == t
  {
  }

  lemma KeyRepaired(key: Option<Key>, next: bool)
    requires !next && (key.Some? ==> Blank(key.value.gap) && Blank(key.value.gap2))
    ensures Dropped(KeyWritten(key, AS_WRITTEN), next) == KeyWritten(key, REPAIRED)
    ensures !Closes(KeyWritten(key, AS_WRITTEN), next)
  {
    if key.Some? {
      var k := key.value;
      var q := Quoted(k.pieces, AS_WRITTEN);
      QuotedIsSolid(k.pieces);
      hide Quoted;
      DroppedConcat(q + k.gap + ":", k.gap2, next);
      DroppedConcat(q + k.gap, ":", Closes(k.gap2, next));
      DroppedConcat(q, k.gap, Closes(":", Closes(k.gap2, next)));
      BlankStaysPut(k.gap2, next);
      BlankStaysPut(k.gap, false);
      assert Dropped(":", false) == ":" && !Closes(":", false);
    }
  }

  /** Some comma of `t` has only white space between it and a closing bracket. */
  predicate HasRun(t: string) {
    exists i | 0 <= i < |t| :: t[i] == ',' && Closes(t[i + 1..], false)
  }

  predicate Quiet(ps: seq<Piece>) {
    !HasRun(Body(ps))
  }

  predicate QuietStrings(v: Json) {
    match v
    case Lit(_) => true
    case Str(ps) => Quiet(ps)
    case Arr(items, _, _) => QuietItems(items)
    case Obj(items, _, _) => QuietItems(items)
  }

  predicate QuietItems(items: Items) {
    items.Cons? ==>
      && (items.key.Some? ==> Quiet(items.key.value.pieces))
      && QuietStrings(items.value) && QuietItems(items.rest)
  }

  lemma {:induction false} DroppedIsShorter(t: string)
    ensures HasRun(t) <==> |Dropped(t, false)| < |t|
    ensures !HasRun(t) ==> Dropped(t, false) == t
  {
    if t != "" {
      DroppedIsShorter(t[1..]);
      if HasRun(t[1..]) {
        var i :| 0 <= i < |t[1..]| && t[1..][i] == ',' && Closes(t[1..][i + 1..], false);
        assert t[1..][i + 1..] == t[i + 2..];
        assert t[i + 1] == ',' && Closes(t[(i + 1) + 1..], false);
      }
      if HasRun(t) {
        var i :| 0 <= i < |t| && t[i] == ',' && Closes(t[i + 1..], false);
        if i > 0 {
          assert t[1..][i - 1] == ',' && t[1..][i - 1 + 1..] == t[i + 1..];
        }
      }
    }
  }

  /** Removing commas from the strings shortens the printing exactly when there is one to remove. */
  lemma {:induction false} RepairShortens(v: Json)
    ensures |Written(v, REPAIRED)| <= |Written(v, PLAIN)|
    ensures QuietStrings(v) <==> |Written(v, REPAIRED)| == |Written(v, PLAIN)|
    ensures QuietStrings(v) ==> Written(v, REPAIRED) == Written(v, PLAIN)
    decreases v
  {
    match v
    case Lit(_) =>
    case Str(ps) => DroppedIsShorter(Body(ps));
    case Arr(items, _, _) => RepairShortensItems(items);
    case Obj(items, _, _) => RepairShortensItems(items);
  }

  lemma {:induction false} RepairShortensItems(items: Items)
    ensures |ItemsWritten(items, REPAIRED)| <= |ItemsWritten(items, PLAIN)|
    ensures QuietItems(items) <==> |ItemsWritten(items, REPAIRED)| == |ItemsWritten(items, PLAIN)|
    ensures QuietItems(items) ==> ItemsWritten(items, REPAIRED) == ItemsWritten(items, PLAIN)
    decreases items
  {
    if items.Cons? {
      if items.key.Some? {
        DroppedIsShorter(Body(items.key.value.pieces));
      }
      RepairShortens(items.value);
      RepairShortensItems(items.rest);
    }
  }

  /** Main result. The repair of a printed value gives its plain printing exactly when no string in it, keys
      included, holds a comma with only white space before a closing bracket; the trailing commas can be any subset
      of the containers. */
  lemma RepairIff(v: Json)
    requires Good(v)
    ensures StripTrailingCommas(Written(v, AS_WRITTEN)) == Written(v, PLAIN) <==> QuietStrings(v)
  {
    StripDropsDanglingCommas(Written(v, AS_WRITTEN));
    ValueIsSolid(v);
    RepairShortens(v);
    hide Written;
  }

  // ------------------------------------------------------------------ the search

  /** Parsing and coercing, as one: a value if `JSON.parse` succeeds and the caller accepts what it gives. */
  type Accept<T> = string -> Option<T>

  /** The object that opens at `p`, and what becomes of it. */
  function ObjectAt(text: string, p: nat): Option<string>
    requires p < |text|
  {
    match EndFrom(text, p, START) case None => None case Some(e) => Some(text[p..e + 1])
  }

  function Tried<T>(text: string, p: nat, accept: Accept<T>): Option<T>
    requires p < |text|
  {
    match ObjectAt(text, p) case None => None case Some(raw) => accept(StripTrailingCommas(raw))
  }

  function Lenient<T>(text: string, from: nat, accept: Accept<T>): Option<T>
    decreases |text| - from
  {
    match BraceFrom(text, from)
    case None => None
    case Some(p) =>
      if ObjectAt(text, p).None? then None
      else if Tried(text, p, accept).Some? then Tried(text, p, accept) else Lenient(text, p + 1, accept)
  }

  /** Every opening brace in the stretch is closed, and its object is not accepted. */
  predicate AllRefused<T>(text: string, from: nat, upTo: nat, accept: Accept<T>) {
    forall q | from <= q < upTo && q < |text| && text[q] == '{' ::
        ObjectAt(text, q).Some? && Tried(text, q, accept).None?
  }

  /** The first object accepted is the one that opens at `p`. */
  predicate FirstAccepted<T>(text: string, from: nat, p: nat, accept: Accept<T>) {
    from <= p < |text| && text[p] == '{' && AllRefused(text, from, p, accept) && Tried(text, p, accept).Some?
  }

  /** All are refused up to the brace at `p`, which is never closed. */
  predicate Stuck<T>(text: string, from: nat, p: nat, accept: Accept<T>) {
    from <= p < |text| && text[p] == '{' && AllRefused(text, from, p, accept) && ObjectAt(text, p).None?
  }

  lemma OneMoreRefused<T>(text: string, from: nat, p: nat, upTo: nat, accept: Accept<T>)
    requires from <= p < |text| && NoBrace(text, from, p) && ObjectAt(text, p).Some? && Tried(text, p, accept).None?
    requires AllRefused(text, p + 1, upTo, accept)
    ensures AllRefused(text, from, upTo, accept)
  {
    hide ObjectAt, Tried;
  }

  /** The answer is the first accepted object among the successive opening braces, and there is none exactly when
      all of them are refused up to the end or up to the first that is never closed. */
  lemma {:induction false} LenientIsFirstAccepted<T>(text: string, from: nat, accept: Accept<T>)
    ensures var r := Lenient(text, from, accept);
            if r.Some? then exists p: nat :: FirstAccepted(text, from, p, accept) && Tried(text, p, accept) == r
            else AllRefused(text, from, |text|, accept) || exists p: nat :: Stuck(text, from, p, accept)
    decreases |text| - from
  {
    hide ObjectAt, Tried;
    var b := BraceFrom(text, from);
    if b.Some? {
      var p := b.value;
      assert AllRefused(text, from, p, accept);
      if ObjectAt(text, p).None? {
        assert Stuck(text, from, p, accept);
      } else if Tried(text, p, accept).Some? {
        assert FirstAccepted(text, from, p, accept);
      } else {
        var r := Lenient(text, p + 1, accept);
        LenientIsFirstAccepted(text, p + 1, accept);
        assert Lenient(text, from, accept) == r;
        hide AllRefused, Lenient;
        if r.Some? {
          var q: nat :| FirstAccepted(text, p + 1, q, accept) && Tried(text, q, accept) == r;
          OneMoreRefused(text, from, p, q, accept);
          assert FirstAccepted(text, from, q, accept);
        } else if AllRefused(text, p + 1, |text|, accept) {
          OneMoreRefused(text, from, p, |text|, accept);
        } else {
          var q: nat :| Stuck(text, p + 1, q, accept);
          OneMoreRefused(text, from, p, q, accept);
          assert Stuck(text, from, q, accept);
        }
      }
    }
  }

  /** An opening brace that is never closed ends the search, so a later balanced object is not tried. */
  lemma UnclosedBraceHidesTheRest<T>(text: string, from: nat, p: nat, accept: Accept<T>)
    requires from <= p < |text| && text[p] == '{' && Unclosed(text, p) && AllRefused(text, from, p, accept)
    ensures Lenient(text, from, accept) == None
    decreases p - from
  {
    EndOfBrace(text, p);
    var b := BraceFrom(text, from).value;
    hide EndFrom, StripTrailingCommas;
    if b < p {
      UnclosedBraceHidesTheRest(text, b + 1, p, accept);
    }
  }

  lemma UnclosedBraceExample()
    ensures Lenient("{ {}", 0, (s: string) => Some(s)) == None
    ensures Extract("{ {}", 1) == Some("{}")
  {
    var t := "{ {}";
    var s1 := Scan(1, false, false);
    assert Step(START, '{') == s1 && Step(s1, ' ') == s1;
    assert EndFrom(t, 4, s1) == None;
    assert EndFrom(t, 3, Scan(2, false, false)) == EndFrom(t, 4, s1);
    assert EndFrom(t, 2, s1) == EndFrom(t, 3, Scan(2, false, false));
    assert EndFrom(t, 1, s1) == EndFrom(t, 2, s1);
    assert EndFrom(t, 0, START) == None;
    assert BraceFrom(t, 0) == Some(0);
    assert BraceFrom(t, 1) == BraceFrom(t, 2) == Some(2);
    assert EndFrom(t, 2, START) == EndFrom(t, 3, s1) == Some(3);
    assert t[2..4] == "{}";
  }

  /** Main result. An object written with trailing commas, in any text with no opening brace before it, is
      recovered: the caller gets what it accepts for the plain printing. */
  lemma LenientRecovers<T>(prefix: string, v: Json, suffix: string, accept: Accept<T>)
    requires NoBrace(prefix, 0, |prefix|) && v.Obj? && Good(v) && QuietStrings(v)
    requires accept(Written(v, PLAIN)).Some?
    ensures Lenient(prefix + Written(v, AS_WRITTEN) + suffix, 0, accept) == accept(Written(v, PLAIN))
  {
    RoundTrip(prefix, 0, v, suffix);
    RepairIff(v);
    hide Written, EndFrom, StripTrailingCommas;
  }

  // ------------------------------------------------------------------ the program

  method IndexOfBrace(text: string, from: nat) returns (r: int)
    ensures match BraceFrom(text, from) case None => r == -1 case Some(p) => r == p
  {
    var i := from;
    while i < |text|
      invariant from <= i
      invariant BraceFrom(text, from) == BraceFrom(text, i)
    {
      if text[i] == '{' {
        return i;
      }
      i := i + 1;
    }
    return -1;
  }

  method ExtractBalancedObject(text: string, from: nat) returns (r: Option<string>)
    ensures r == Extract(text, from)
  {
    var start := IndexOfBrace(text, from);
    if start == -1 {
      return None;
    }
    var depth, inString, escapeNext := 0, false, false;
    var i: nat := start;
    while i < |text|
      invariant start <= i <= |text| && depth >= 0
      invariant EndFrom(text, start, START) == EndFrom(text, i, Scan(depth, inString, escapeNext))
      invariant i == start ==> depth == 0 && !inString && !escapeNext
      invariant i > start ==> depth > 0
    {
      var ch := text[i];
      if escapeNext {
        escapeNext := false;
      } else if ch == '\\' && inString {
        escapeNext := true;
      } else if ch == '"' {
        inString := !inString;
      } else if !inString {
        if ch == '{' {
          depth := depth + 1;
        } else if ch == '}' {
          depth := depth - 1;
          if depth == 0 {
            return Some(text[start..i + 1]);
          }
        }
      }
      i := i + 1;
    }
    return None;
  }

  method TryLenientJson<T>(text: string, accept: Accept<T>) returns (r: Option<T>)
    ensures r == Lenient(text, 0, accept)
  {
    hide EndFrom, StripTrailingCommas;
    var searchFrom := 0;
    while searchFrom < |text|
      invariant Lenient(text, 0, accept) == Lenient(text, searchFrom, accept)
      decreases |text| - searchFrom
    {
      var raw := ExtractBalancedObject(text, searchFrom);
      if raw.None? {
        return None;
      }
      var result := accept(StripTrailingCommas(raw.value));
      if result.Some? {
        return result;
      }
      var p := IndexOfBrace(text, searchFrom);
      searchFrom := p + 1;
    }
    return None;
  }
}
