/**
 * The JSON text written into the hidden `form-errors` field: an array of
 * `{"field":…,"message":…}` objects, keys in that order, no whitespace.
 * Strings escape '"' and '\' with a backslash; every other character is
 * written as itself.
 */
module ErrorJson {
  import opened Wrappers
  import opened Validation

  function EscapeChar(c: char): string {
    if c == '"' || c == '\\' then ['\\', c] else [c]
  }

  function Escape(s: string): string {
    if s == [] then [] else Escape(s[..|s| - 1]) + EscapeChar(s[|s| - 1])
  }

  lemma {:induction false} EscapeAppend(a: string, b: string)
    ensures Escape(a + b) == Escape(a) + Escape(b)
    decreases |b|
  {
    if b == [] {
      assert a + b == a;
    } else {
      assert (a + b)[..|a + b| - 1] == a + b[..|b| - 1];
      EscapeAppend(a, b[..|b| - 1]);
    }
  }

  /** Escaping read from the front: the first character's escape, then the rest. */
  lemma EscapeFront(x: string)
    requires x != []
    ensures Escape(x) == EscapeChar(x[0]) + Escape(x[1..])
  {
    assert x == [x[0]] + x[1..];
    EscapeAppend([x[0]], x[1..]);
    assert Escape([x[0]]) == Escape([]) + EscapeChar(x[0]);
  }

  function Quote(s: string): string {
    "\"" + Escape(s) + "\""
  }

  const FieldKey := "{\"field\":"
  const MessageKey := ",\"message\":"

  function EncodeError(e: FieldError): string {
    FieldKey + Quote(FieldName(e.field)) + MessageKey + Quote(e.message) + "}"
  }

  function EncodeItems(es: seq<FieldError>): string {
    if es == [] then ""
    else if |es| == 1 then EncodeError(es[0])
    else EncodeError(es[0]) + "," + EncodeItems(es[1..])
  }

  /** `JSON.stringify(form_errors)` for the error list. */
  function Serialize(es: seq<FieldError>): string {
    "[" + EncodeItems(es) + "]"
  }

  // Reading the text back.

  /** Removes a literal prefix. */
  function Expect(prefix: string, s: string): (r: Option<string>)
    ensures r.Some? ==> |r.value| == |s| - |prefix|
  {
    if |prefix| <= |s| && s[..|prefix|] == prefix then Some(s[|prefix|..]) else None
  }

  /** Reads string characters up to the closing quote; returns them and what follows the quote. */
  function ParseStringBody(s: string): (r: Option<(string, string)>)
    ensures r.Some? ==> |r.value.1| < |s|
  {
    if s == [] then None
    else if s[0] == '"' then Some(([], s[1..]))
    else if s[0] == '\\' then
      if |s| >= 2 && (s[1] == '"' || s[1] == '\\') then
        match ParseStringBody(s[2..])
        case None => None
        case Some(p) => Some(([s[1]] + p.0, p.1))
      else None
    else
      match ParseStringBody(s[1..])
      case None => None
      case Some(p) => Some(([s[0]] + p.0, p.1))
  }

  function ParseString(s: string): (r: Option<(string, string)>)
    ensures r.Some? ==> |r.value.1| < |s|
  {
    if |s| > 0 && s[0] == '"' then ParseStringBody(s[1..]) else None
  }

  function ParseField(s: string): Option<Field> {
    if s == "name" then Some(Name)
    else if s == "email" then Some(Email)
    else if s == "comments" then Some(Comments)
    else None
  }

  function ParseError(s: string): (r: Option<(FieldError, string)>)
    ensures r.Some? ==> |r.value.1| < |s|
  {
    match Expect(FieldKey, s)
    case None => None
    case Some(s1) =>
      match ParseString(s1)
      case None => None
      case Some(f) =>
        match Expect(MessageKey, f.1)
        case None => None
        case Some(s2) =>
          match ParseString(s2)
          case None => None
          case Some(m) =>
            match Expect("}", m.1)
            case None => None
            case Some(s3) =>
              match ParseField(f.0)
              case None => None
              case Some(field) => Some((FieldError(field, m.0), s3))
  }

  /** Reads one or more objects separated by ',' and closed by ']'. */
  function ParseItems(s: string): (r: Option<(seq<FieldError>, string)>)
    decreases |s|
  {
    match ParseError(s)
    case None => None
    case Some(p) =>
      if |p.1| > 0 && p.1[0] == ']' then Some(([p.0], p.1[1..]))
      else if |p.1| > 0 && p.1[0] == ',' then
        match ParseItems(p.1[1..])
        case None => None
        case Some(q) => Some(([p.0] + q.0, q.1))
      else None
  }

  /** Reads a whole error list; anything after the closing ']' is refused. */
  function Deserialize(s: string): Option<seq<FieldError>> {
    match Expect("[", s)
    case None => None
    case Some(s1) =>
      if |s1| > 0 && s1[0] == ']' then (if s1[1..] == [] then Some([]) else None)
      else
        match ParseItems(s1)
        case None => None
        case Some(q) => if q.1 == [] then Some(q.0) else None
  }

  lemma ExpectPrefix(prefix: string, t: string)
    ensures Expect(prefix, prefix + t) == Some(t)
  {
    assert (prefix + t)[..|prefix|] == prefix;
    assert (prefix + t)[|prefix|..] == t;
  }

  lemma {:induction false} StringBodyRoundTrip(x: string, rest: string)
    ensures ParseStringBody(Escape(x) + "\"" + rest) == Some((x, rest))
  {
    if x == [] {
      assert Escape(x) + "\"" + rest == ['"'] + rest;
    } else {
      var tail := Escape(x[1..]) + "\"" + rest;
      StringBodyRoundTrip(x[1..], rest);
      EscapeFront(x);
      if x[0] == '"' || x[0] == '\\' {
        assert Escape(x) + "\"" + rest == ['\\', x[0]] + tail;
        assert (['\\', x[0]] + tail)[2..] == tail;
        assert [x[0]] + x[1..] == x;
      } else {
        assert Escape(x) + "\"" + rest == [x[0]] + tail;
        assert ([x[0]] + tail)[1..] == tail;
        assert [x[0]] + x[1..] == x;
      }
    }
  }

  lemma StringRoundTrip(x: string, rest: string)
    ensures ParseString(Quote(x) + rest) == Some((x, rest))
  {
    assert Quote(x) + rest == "\"" + (Escape(x) + "\"" + rest);
    StringBodyRoundTrip(x, rest);
  }

  lemma ErrorRoundTrip(e: FieldError, rest: string)
    ensures ParseError(EncodeError(e) + rest) == Some((e, rest))
  {
    var afterMessage := "}" + rest;
    var afterField := MessageKey + (Quote(e.message) + afterMessage);
    var s1 := Quote(FieldName(e.field)) + afterField;
    assert EncodeError(e) + rest == FieldKey + s1;
    ExpectPrefix(FieldKey, s1);
    StringRoundTrip(FieldName(e.field), afterField);
    ExpectPrefix(MessageKey, Quote(e.message) + afterMessage);
    StringRoundTrip(e.message, afterMessage);
    ExpectPrefix("}", rest);
  }

  lemma ParseItemsLast(s: string, e: FieldError, rest: string)
    requires ParseError(s) == Some((e, "]" + rest))
    ensures ParseItems(s) == Some(([e], rest))
  {
    assert ("]" + rest)[1..] == rest;
  }

  lemma ParseItemsNext(s: string, e: FieldError, t: string, es: seq<FieldError>, rest: string)
    requires ParseError(s) == Some((e, "," + t))
    requires ParseItems(t) == Some((es, rest))
    ensures ParseItems(s) == Some(([e] + es, rest))
  {
    assert ("," + t)[1..] == t;
  }

  lemma ItemsRoundTripLast(e: FieldError, rest: string)
    ensures ParseItems(EncodeItems([e]) + "]" + rest) == Some(([e], rest))
  {
    var s := EncodeError(e) + ("]" + rest);
    assert EncodeItems([e]) + "]" + rest == s;
    ErrorRoundTrip(e, "]" + rest);
    ParseItemsLast(s, e, rest);
  }

  lemma EncodeItemsCons(es: seq<FieldError>, rest: string)
    requires |es| > 1
    ensures EncodeItems(es) + "]" + rest == EncodeError(es[0]) + ("," + (EncodeItems(es[1..]) + "]" + rest))
  {
    var a, b := EncodeError(es[0]), EncodeItems(es[1..]);
    assert EncodeItems(es) == a + "," + b;
    Regroup(a, b, rest);
  }

  lemma Regroup(a: string, b: string, rest: string)
    ensures a + "," + b + "]" + rest == a + ("," + (b + "]" + rest))
  {
  }

  lemma ItemsRoundTripCons(es: seq<FieldError>, rest: string)
    requires |es| > 1
    requires ParseItems(EncodeItems(es[1..]) + "]" + rest) == Some((es[1..], rest))
    ensures ParseItems(EncodeItems(es) + "]" + rest) == Some((es, rest))
  {
    var tail := EncodeItems(es[1..]) + "]" + rest;
    EncodeItemsCons(es, rest);
    ErrorRoundTrip(es[0], "," + tail);
    ParseItemsNext(EncodeError(es[0]) + ("," + tail), es[0], tail, es[1..], rest);
    assert [es[0]] + es[1..] == es;
  }

  lemma {:induction false} ItemsRoundTrip(es: seq<FieldError>, rest: string)
    requires es != []
    ensures ParseItems(EncodeItems(es) + "]" + rest) == Some((es, rest))
  {
    if |es| == 1 {
      ItemsRoundTripLast(es[0], rest);
      assert [es[0]] == es;
    } else {
      ItemsRoundTrip(es[1..], rest);
      ItemsRoundTripCons(es, rest);
    }
  }

  lemma EncodeErrorStart(e: FieldError)
    ensures |EncodeError(e)| > 0 && EncodeError(e)[0] == '{'
  {
    assert EncodeError(e) == FieldKey + (Quote(FieldName(e.field)) + MessageKey + Quote(e.message) + "}");
  }

  /** The encoding of a non-empty list starts with the first object's '{'. */
  lemma EncodeItemsStart(es: seq<FieldError>)
    requires es != []
    ensures |EncodeItems(es) + "]"| > 0 && (EncodeItems(es) + "]")[0] == '{'
  {
    var e0 := EncodeError(es[0]);
    EncodeErrorStart(es[0]);
    var t := if |es| == 1 then "" else "," + EncodeItems(es[1..]);
    assert EncodeItems(es) == e0 + t;
    assert (e0 + t + "]")[0] == e0[0];
  }

  /** The hidden field's text reads back as exactly the error list it was written from. */
  lemma SerializeRoundTrip(es: seq<FieldError>)
    ensures Deserialize(Serialize(es)) == Some(es)
  {
    var body := EncodeItems(es) + "]";
    assert Serialize(es) == "[" + body;
    ExpectPrefix("[", body);
    if es == [] {
      assert body == "]";
    } else {
      EncodeItemsStart(es);
      ItemsRoundTrip(es, "");
      assert body + "" == body;
    }
  }

  /** The empty list is written as `[]`. */
  lemma SerializeEmpty()
    ensures Serialize([]) == "[]"
  {
  }
}
