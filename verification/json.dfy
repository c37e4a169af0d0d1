/**
 * The JSON objects the client exchanges, and a printer/parser pair standing in for
 * Newtonsoft's `JObject.ToString()` and `JObject.Parse`.
 *
 * An object is its ordered list of properties; a property value is null, a string or an
 * integer, the only kinds the envelopes carry. The printer writes the compact form
 * `{"k":"v","n":5,"z":null}`, escaping `"` and `\` inside strings; the parser accepts
 * exactly that form. What the rest of the model relies on is proved below: printing an
 * object and parsing the text back yields the same object, and the empty text never parses.
 */
module Json {
  import opened Wrappers
  import opened Text

  datatype JValue = JNull | JStr(s: string) | JInt(i: int)

  /** The properties of a `JObject`, in insertion order. */
  type JObject = seq<(string, JValue)>

  /** `JObject.TryGetValue`: the value of the first property named `key`. */
  function Lookup(o: JObject, key: string): (r: Option<JValue>)
    ensures r.None? <==> forall j :: 0 <= j < |o| ==> o[j].0 != key
    ensures r.Some? ==> (key, r.value) in o
  {
    if o == [] then None
    else if o[0].0 == key then Some(o[0].1)
    else Lookup(o[1..], key)
  }

  /** `token.ToObject<string>()`: a JSON null becomes a null string, an integer its decimal text. */
  function AsString(v: JValue): Option<string> {
    match v
    case JNull => None
    case JStr(s) => Some(s)
    case JInt(i) => Some(IntToDecimal(i))
  }

  /** `o.TryGetValue(key, out t); t?.ToObject<string>()`. */
  function GetString(o: JObject, key: string): Option<string> {
    match Lookup(o, key)
    case None => None
    case Some(v) => AsString(v)
  }

  /**
   * `token.ToObject<int>()`: an integer in range, or a string `Convert.ToInt32` accepts;
   * None where the conversion throws (a null, an out-of-range integer, any other text).
   */
  function AsInt32(v: JValue): (r: Option<Int32>)
    ensures v.JInt? && MinInt32 <= v.i <= MaxInt32 ==> r == Some(v.i)
    ensures v.JNull? ==> r.None?
  {
    match v
    case JNull => None
    case JStr(s) => ParseInt32(s)
    case JInt(i) => if MinInt32 <= i <= MaxInt32 then Some(i) else None
  }

  // ---------------------------------------------------------------- printing

  /** One character inside a string literal: `"` and `\` get a backslash before them. */
  function EscapeChar(c: char): string {
    if c == '"' || c == '\\' then ['\\', c] else [c]
  }

  function Concat(parts: seq<string>): string {
    if parts == [] then [] else parts[0] + Concat(parts[1..])
  }

  /** The body of a string literal: every character escaped, in order. */
  function Escape(s: string): string {
    Concat(seq(|s|, i requires 0 <= i < |s| => EscapeChar(s[i])))
  }

  /** `Escape` works one character at a time. */
  lemma EscapeCons(s: string)
    ensures s == [] ==> Escape(s) == []
    ensures s != [] ==> Escape(s) == EscapeChar(s[0]) + Escape(s[1..])
  {
    if s != [] {
      var parts := seq(|s|, i requires 0 <= i < |s| => EscapeChar(s[i]));
      assert parts[1..] == seq(|s| - 1, i requires 0 <= i < |s| - 1 => EscapeChar(s[1..][i]));
    }
  }

  function Quote(s: string): string {
    "\"" + Escape(s) + "\""
  }

  function PrintValue(v: JValue): string {
    match v
    case JNull => "null"
    case JStr(s) => Quote(s)
    case JInt(i) => IntToDecimal(i)
  }

  function PrintMember(m: (string, JValue)): string {
    Quote(m.0) + ":" + PrintValue(m.1)
  }

  /** The properties after the first, each preceded by a comma, and the closing brace. */
  function PrintRest(o: JObject): string
  {
    if o == [] then "}" else "," + PrintMember(o[0]) + PrintRest(o[1..])
  }

  /** `JObject.ToString()`. */
  function Print(o: JObject): string
  {
    if o == [] then "{}" else "{" + (PrintMember(o[0]) + PrintRest(o[1..]))
  }

  // ---------------------------------------------------------------- parsing

  /** The characters of a string literal after its opening quote, and the text after its closing one. */
  function ParseStringBody(s: string): (r: Option<(string, string)>)
    ensures r.Some? ==> |r.value.1| < |s|
  {
    if s == [] then None
    else if s[0] == '"' then Some(([], s[1..]))
    else if s[0] == '\\' then
      if |s| >= 2 && (s[1] == '"' || s[1] == '\\') then
        match ParseStringBody(s[2..])
        case None => None
        case Some(p) => Some(([s[1]] + p.0, p.1))
      else None
    else
      match ParseStringBody(s[1..])
      case None => None
      case Some(p) => Some(([s[0]] + p.0, p.1))
  }

  function ParseString(s: string): (r: Option<(string, string)>)
    ensures r.Some? ==> |r.value.1| < |s|
  {
    if s != [] && s[0] == '"' then ParseStringBody(s[1..]) else None
  }

  /** Splits off the longest prefix of decimal digits. */
  function SpanDigits(s: string): (r: (string, string))
    ensures r.0 + r.1 == s && AllDigits(r.0)
    ensures r.1 == [] || !IsDigit(r.1[0])
  {
    if s != [] && IsDigit(s[0]) then
      var p := SpanDigits(s[1..]);
      assert [s[0]] + p.0 + p.1 == s;
      ([s[0]] + p.0, p.1)
    else ([], s)
  }

  function ParseValue(s: string): (r: Option<(JValue, string)>)
    ensures r.Some? ==> |r.value.1| < |s|
  {
    if s == [] then None
    else if s[0] == '"' then
      match ParseString(s)
      case None => None
      case Some(p) => Some((JStr(p.0), p.1))
    else if |s| >= 4 && s[0] == 'n' && s[1] == 'u' && s[2] == 'l' && s[3] == 'l' then Some((JNull, s[4..]))
    else if s[0] == '-' then
      var p := SpanDigits(s[1..]);
      if p.0 == [] then None else Some((JInt(-(DecimalValue(p.0) as int)), p.1))
    else
      var p := SpanDigits(s);
      if p.0 == [] then None else Some((JInt(DecimalValue(p.0)), p.1))
  }

  function ParseMember(s: string): (r: Option<((string, JValue), string)>)
    ensures r.Some? ==> |r.value.1| < |s|
  {
    match ParseString(s)
    case None => None
    case Some(p) =>
      if p.1 != [] && p.1[0] == ':' then
        match ParseValue(p.1[1..])
        case None => None
        case Some(q) => Some(((p.0, q.0), q.1))
      else None
  }

  /** One or more properties separated by commas, and the closing brace. */
  function ParseMembers(s: string): (r: Option<(JObject, string)>)
    decreases |s|
  {
    match ParseMember(s)
    case None => None
    case Some(p) =>
      var rest := p.1;
      if rest != [] && rest[0] == '}' then Some(([p.0], rest[1..]))
      else if rest != [] && rest[0] == ',' then
        match ParseMembers(rest[1..])
        case None => None
        case Some(q) => Some(([p.0] + q.0, q.1))
      else None
  }

  /** `JObject.Parse`: None where Newtonsoft throws. */
  function Parse(s: string): (r: Option<JObject>)
    ensures r.Some? ==> |s| >= 2
  {
    if |s| >= 2 && s[0] == '{' then
      if s[1] == '}' then (if |s| == 2 then Some([]) else None)
      else
        match ParseMembers(s[1..])
        case Some(p) => if p.1 == [] then Some(p.0) else None
        case None => None
    else None
  }

  /** `JObject.Parse` of a possibly-null string: a null argument throws. */
  function ParseNullable(s: Option<string>): (r: Option<JObject>)
    ensures IsNullOrEmpty(s) ==> r.None?
  {
    match s
    case None => None
    case Some(t) => Parse(t)
  }

  // ---------------------------------------------------------------- round trip

  lemma {:induction false} EscapeRoundTrip(x: string, rest: string)
    ensures ParseStringBody(Escape(x) + "\"" + rest) == Some((x, rest))
  {
    EscapeCons(x);
    if x == [] {
      assert Escape(x) + "\"" + rest == "\"" + rest;
    } else {
      var s := Escape(x) + "\"" + rest;
      EscapeRoundTrip(x[1..], rest);
      if x[0] == '"' || x[0] == '\\' {
        assert s == ['\\', x[0]] + (Escape(x[1..]) + "\"" + rest);
        assert s[2..] == Escape(x[1..]) + "\"" + rest;
      } else {
        assert s == [x[0]] + (Escape(x[1..]) + "\"" + rest);
        assert s[1..] == Escape(x[1..]) + "\"" + rest;
      }
      assert [x[0]] + x[1..] == x;
    }
  }

  lemma ParseStringRoundTrip(x: string, rest: string)
    ensures ParseString(Quote(x) + rest) == Some((x, rest))
  {
    var s := Quote(x) + rest;
    assert s[1..] == Escape(x) + "\"" + rest;
    EscapeRoundTrip(x, rest);
  }

  lemma {:induction false} SpanDigitsOf(d: string, rest: string)
    requires AllDigits(d)
    requires rest == [] || !IsDigit(rest[0])
    ensures SpanDigits(d + rest) == (d, rest)
  {
    if d != [] {
      assert (d + rest)[1..] == d[1..] + rest;
      SpanDigitsOf(d[1..], rest);
      assert [d[0]] + d[1..] == d;
    } else {
      assert d + rest == rest;
    }
  }

  /** A text that may follow a value inside an object. */
  predicate FollowsValue(rest: string) {
    rest != [] && (rest[0] == ',' || rest[0] == '}')
  }

  lemma ParseValueRoundTrip(v: JValue, rest: string)
    requires FollowsValue(rest)
    ensures ParseValue(PrintValue(v) + rest) == Some((v, rest))
  {
    match v
    case JNull =>
      var s := PrintValue(v) + rest;
      assert s[..4] == "null" && s[4..] == rest;
    case JStr(x) =>
      ParseStringRoundTrip(x, rest);
    case JInt(i) =>
      if i < 0 {
        ParseNegativeRoundTrip(i, rest);
      } else {
        ParseNaturalRoundTrip(i, rest);
      }
  }

  lemma ParseNegativeRoundTrip(i: int, rest: string)
    requires i < 0 && FollowsValue(rest)
    ensures ParseValue(PrintValue(JInt(i)) + rest) == Some((JInt(i), rest))
  {
    var d := NatToDecimal(-i);
    assert PrintValue(JInt(i)) == "-" + d;
    ParseSignedDigits(d, rest);
    DecimalRoundTrip(-i);
  }

  lemma ParseNaturalRoundTrip(i: int, rest: string)
    requires i >= 0 && FollowsValue(rest)
    ensures ParseValue(PrintValue(JInt(i)) + rest) == Some((JInt(i), rest))
  {
    var d := NatToDecimal(i);
    assert PrintValue(JInt(i)) == d;
    ParseDigits(d, rest);
    DecimalRoundTrip(i);
  }

  /** A minus sign and a run of digits, followed by a separator, parse as the negated number. */
  lemma ParseSignedDigits(d: string, rest: string)
    requires d != [] && AllDigits(d) && FollowsValue(rest)
    ensures ParseValue("-" + d + rest) == Some((JInt(-(DecimalValue(d) as int)), rest))
  {
    Regroup("-", d, rest, []);
    assert "-" + d + rest == ['-'] + (d + rest);
    SpanDigitsOf(d, rest);
    ParseValueSigned("-" + d + rest, d, rest);
  }

  lemma ParseValueSigned(s: string, d: string, rest: string)
    requires s != [] && s[0] == '-' && d != [] && SpanDigits(s[1..]) == (d, rest)
    ensures ParseValue(s) == Some((JInt(-(DecimalValue(d) as int)), rest))
  {
  }

  /** A run of digits followed by a separator parses as the number it denotes. */
  lemma ParseDigits(d: string, rest: string)
    requires d != [] && AllDigits(d) && FollowsValue(rest)
    ensures ParseValue(d + rest) == Some((JInt(DecimalValue(d)), rest))
  {
    var s := d + rest;
    assert s[0] == d[0] && IsDigit(s[0]);
    SpanDigitsOf(d, rest);
    ParseValueDigits(s, d, rest);
  }

  lemma ParseValueDigits(s: string, d: string, rest: string)
    requires s != [] && IsDigit(s[0]) && d != [] && SpanDigits(s) == (d, rest)
    ensures ParseValue(s) == Some((JInt(DecimalValue(d)), rest))
  {
  }

  lemma ParseMemberRoundTrip(m: (string, JValue), rest: string)
    requires FollowsValue(rest)
    ensures ParseMember(PrintMember(m) + rest) == Some((m, rest))
  {
    var t := PrintValue(m.1) + rest;
    Regroup(Quote(m.0), ":", PrintValue(m.1), rest);
    ParseStringRoundTrip(m.0, ":" + t);
    ParseValueRoundTrip(m.1, rest);
    ParseMemberOf(PrintMember(m) + rest, m.0, t, m.1, rest);
  }

  /** Concatenation regrouped to the right, proved once for any four texts. */
  lemma Regroup(a: string, b: string, c: string, d: string)
    ensures a + b + c + d == a + (b + (c + d))
  {
  }

  /** A string literal, a colon and a value make a property. */
  lemma ParseMemberOf(s: string, key: string, t: string, v: JValue, rest: string)
    requires ParseString(s) == Some((key, ":" + t))
    requires ParseValue(t) == Some((v, rest))
    ensures ParseMember(s) == Some(((key, v), rest))
  {
    assert (":" + t)[1..] == t;
  }

  lemma ParseMembersClose(s: string, m: (string, JValue), rest: string)
    requires ParseMember(s) == Some((m, "}" + rest))
    ensures ParseMembers(s) == Some(([m], rest))
  {
    assert ("}" + rest)[1..] == rest;
  }

  lemma ParseMembersNext(s: string, m: (string, JValue), inner: string, tail: JObject, rest: string)
    requires ParseMember(s) == Some((m, "," + inner))
    requires ParseMembers(inner) == Some((tail, rest))
    ensures ParseMembers(s) == Some(([m] + tail, rest))
  {
    assert ("," + inner)[1..] == inner;
  }

  /** `PrintRest` of a non-empty list, with the text after it, is a comma and the rest. */
  lemma PrintRestCons(tail: JObject, rest: string)
    requires tail != []
    ensures PrintRest(tail) + rest == "," + (PrintMember(tail[0]) + PrintRest(tail[1..]) + rest)
  {
  }

  lemma {:induction false} ParseMembersRoundTrip(m: (string, JValue), tail: JObject, rest: string)
    ensures ParseMembers(PrintMember(m) + PrintRest(tail) + rest) == Some(([m] + tail, rest))
    decreases |tail|
  {
    var s := PrintMember(m) + PrintRest(tail) + rest;
    if tail == [] {
      assert s == PrintMember(m) + ("}" + rest);
      ParseMemberRoundTrip(m, "}" + rest);
      ParseMembersClose(s, m, rest);
      assert [m] + tail == [m];
    } else {
      var inner := PrintMember(tail[0]) + PrintRest(tail[1..]) + rest;
      PrintRestCons(tail, rest);
      assert s == PrintMember(m) + ("," + inner);
      ParseMemberRoundTrip(m, "," + inner);
      ParseMembersRoundTrip(tail[0], tail[1..], rest);
      assert [tail[0]] + tail[1..] == tail;
      ParseMembersNext(s, m, inner, tail, rest);
    }
  }

  /** What follows a printed property is a comma or the closing brace. */
  lemma {:induction false} PrintRestFollowsValue(o: JObject)
    ensures FollowsValue(PrintRest(o))
  {
    if o != [] {
      var head := "," + PrintMember(o[0]);
      assert PrintRest(o) == head + PrintRest(o[1..]);
      assert head[0] == ',';
    }
  }

  /** A printed object is never empty: it starts with an opening brace. */
  lemma PrintNonEmpty(o: JObject)
    ensures |Print(o)| >= 2 && Print(o)[0] == '{'
  {
    if o != [] {
      PrintRestFollowsValue(o[1..]);
    }
  }

  lemma ParseBraced(body: string, o: JObject)
    requires body != [] && body[0] == '"'
    requires ParseMembers(body) == Some((o, []))
    ensures Parse("{" + body) == Some(o)
  {
    assert ("{" + body)[1..] == body;
  }

  /** Parsing what the printer wrote yields the object that was printed. */
  lemma ParsePrint(o: JObject)
    ensures Parse(Print(o)) == Some(o)
  {
    if o != [] {
      var body := PrintMember(o[0]) + PrintRest(o[1..]);
      assert body + [] == body;
      ParseMembersRoundTrip(o[0], o[1..], []);
      assert [o[0]] + o[1..] == o;
      assert Print(o) == "{" + body;
      ParseBraced(body, o);
    }
  }
}
