/**
 * JSON text of the shape the web server's listing routes write by hand: an array of
 * flat objects whose values are unsigned integers, strings and booleans. The encoder
 * either escapes strings the way nlohmann::json's dump does or inserts them as they
 * are; the decoder reads that shape of JSON text back.
 */
module JsonText {
  import opened Wrappers
  import Strings

  datatype Value = Num(n: nat) | Str(s: string) | Bool(b: bool)

  datatype Field = Field(key: string, value: Value)

  type Object = seq<Field>

  // ---------------------------------------------------------------------------------
  // Escaping
  // ---------------------------------------------------------------------------------

  /** A lower-case hexadecimal digit. */
  function HexDigit(d: nat): (c: char)
    requires d < 16
  {
    if d < 10 then ('0' as int + d) as char else ('a' as int + d - 10) as char
  }

  /** The value of a hexadecimal digit of either case. */
  function HexValue(c: char): (r: Option<nat>)
    ensures r.Some? ==> r.value < 16
  {
    if '0' <= c <= '9' then Some(c as int - '0' as int)
    else if 'a' <= c <= 'f' then Some(c as int - 'a' as int + 10)
    else if 'A' <= c <= 'F' then Some(c as int - 'A' as int + 10)
    else None
  }

  lemma HexRoundTrip(d: nat)
    requires d < 16
    ensures HexValue(HexDigit(d)) == Some(d)
  {
  }

  /** The escape sequence dump writes for one character: the two-character escapes for
      the quote, the backslash, backspace, form feed, newline, carriage return and tab,
      `\u00XX` for every other control character, and the character itself otherwise. */
  function EscapeChar(c: char): (r: string)
    ensures |r| >= 1
    ensures r[0] != '"'
  {
    if c == '"' then "\\\""
    else if c == '\\' then "\\\\"
    else if c as int == 0x08 then "\\b"
    else if c as int == 0x0C then "\\f"
    else if c == '\n' then "\\n"
    else if c == '\r' then "\\r"
    else if c == '\t' then "\\t"
    else if c as int < 0x20 then "\\u00" + [HexDigit(c as int / 16), HexDigit(c as int % 16)]
    else [c]
  }

  function Escape(s: string): (r: string)
    ensures |r| >= |s|
  {
    if s == [] then [] else EscapeChar(s[0]) + Escape(s[1..])
  }

  /** A string that needs no escaping: no quote, no backslash, no control character. */
  predicate Plain(s: string) {
    forall i :: 0 <= i < |s| ==> s[i] != '"' && s[i] != '\\' && s[i] as int >= 0x20
  }

  /** Escaping leaves a plain string as it is. */
  lemma {:induction false} EscapePlain(s: string)
    requires Plain(s)
    ensures Escape(s) == s
  {
    if s != [] {
      assert Plain(s[1..]) by {
        forall i | 0 <= i < |s[1..]| ensures s[1..][i] != '"' && s[1..][i] != '\\' && s[1..][i] as int >= 0x20 {
          assert s[1..][i] == s[i + 1];
        }
      }
      EscapePlain(s[1..]);
      assert s == [s[0]] + s[1..];
    }
  }

  // ---------------------------------------------------------------------------------
  // Reading strings
  // ---------------------------------------------------------------------------------

  /** The character an escape sequence stands for, read after its backslash. */
  function ReadEscape(s: string): (r: Option<(char, string)>)
    ensures r.Some? ==> |r.value.1| < |s|
  {
    if s == [] then None
    else if s[0] == '"' || s[0] == '\\' || s[0] == '/' then Some((s[0], s[1..]))
    else if s[0] == 'b' then Some((0x08 as char, s[1..]))
    else if s[0] == 'f' then Some((0x0C as char, s[1..]))
    else if s[0] == 'n' then Some(('\n', s[1..]))
    else if s[0] == 'r' then Some(('\r', s[1..]))
    else if s[0] == 't' then Some(('\t', s[1..]))
    else if s[0] == 'u' && |s| >= 5 then
      var h0, h1, h2, h3 := HexValue(s[1]), HexValue(s[2]), HexValue(s[3]), HexValue(s[4]);
      if h0.None? || h1.None? || h2.None? || h3.None? then None
      else
        var code := ((h0.value * 16 + h1.value) * 16 + h2.value) * 16 + h3.value;
        if 0xD800 <= code < 0xE000 then None else Some((code as char, s[5..]))
    else None
  }

  /** One character of a string literal, escaped or not; a raw quote or control character is none. */
  function ReadChar(s: string): (r: Option<(char, string)>)
    ensures r.Some? ==> |r.value.1| < |s|
  {
    if s == [] then None
    else if s[0] == '\\' then ReadEscape(s[1..])
    else if s[0] == '"' || s[0] as int < 0x20 then None
    else Some((s[0], s[1..]))
  }

  /** The body of a string literal up to its closing quote, and what follows the quote. */
  function ReadStringBody(s: string): (r: Option<(string, string)>)
    ensures r.Some? ==> |r.value.1| < |s|
    decreases |s|
  {
    if s == [] then None
    else if s[0] == '"' then Some(([], s[1..]))
    else
      match ReadChar(s)
      case None => None
      case Some((c, t)) =>
        match ReadStringBody(t)
        case None => None
        case Some((body, rest)) => Some(([c] + body, rest))
  }

  /** Reading one escaped character gives it back. */
  lemma ReadEscapedChar(c: char, t: string)
    ensures ReadChar(EscapeChar(c) + t) == Some((c, t))
  {
    var e := EscapeChar(c);
    var s := e + t;
    if c == '"' || c == '\\' {
      assert s[1..][0] == c && s[1..][1..] == t;
    } else if c as int == 0x08 || c as int == 0x0C || c == '\n' || c == '\r' || c == '\t' {
      assert s[0] == '\\' && s[1..][1..] == t;
    } else if c as int < 0x20 {
      var hi, lo := c as int / 16, c as int % 16;
      assert s[1..] == ['u', '0', '0', HexDigit(hi), HexDigit(lo)] + t;
      HexRoundTrip(hi);
      HexRoundTrip(lo);
      assert s[1..][5..] == t;
    } else {
      assert s[1..] == t;
    }
  }

  /** Reading an escaped string and its closing quote gives the string and what follows. */
  lemma {:induction false} ReadEscapedString(s: string, rest: string)
    ensures ReadStringBody(Escape(s) + "\"" + rest) == Some((s, rest))
  {
    if s == [] {
      assert Escape(s) + "\"" + rest == ['"'] + rest;
    } else {
      var t := Escape(s[1..]) + "\"" + rest;
      assert Escape(s) + "\"" + rest == EscapeChar(s[0]) + t;
      ReadEscapedChar(s[0], t);
      ReadEscapedString(s[1..], rest);
      assert [s[0]] + s[1..] == s;
    }
  }

  // ---------------------------------------------------------------------------------
  // Reading values
  // ---------------------------------------------------------------------------------

  /** The length of the run of decimal digits `s` starts with. */
  function DigitRun(s: string): (k: nat)
    ensures k <= |s|
    ensures forall i :: 0 <= i < k ==> Strings.IsDigit(s[i])
    ensures k < |s| ==> !Strings.IsDigit(s[k])
  {
    if s == [] || !Strings.IsDigit(s[0]) then 0
    else
      var k := DigitRun(s[1..]);
      assert forall i :: 1 <= i < k + 1 ==> s[i] == s[1..][i - 1];
      1 + k
  }

  /** A run of digits followed by something else is read up to its end. */
  lemma {:induction false} DigitRunOf(p: string, rest: string)
    requires forall i :: 0 <= i < |p| ==> Strings.IsDigit(p[i])
    requires rest == [] || !Strings.IsDigit(rest[0])
    ensures DigitRun(p + rest) == |p|
  {
    if p != [] {
      assert (p + rest)[1..] == p[1..] + rest;
      DigitRunOf(p[1..], rest);
    }
  }

  /** A decimal number. */
  function ReadNumber(s: string): (r: Option<(nat, string)>)
    ensures r.Some? ==> |r.value.1| < |s|
  {
    var k := DigitRun(s);
    if k == 0 then None else Some((Strings.DigitsValue(s[..k]), s[k..]))
  }

  /** One value: a string literal, a number, or a boolean literal. */
  function ReadValue(s: string): (r: Option<(Value, string)>)
    ensures r.Some? ==> |r.value.1| < |s|
  {
    if s == [] then None
    else if s[0] == '"' then
      match ReadStringBody(s[1..])
      case None => None
      case Some((body, rest)) => Some((Str(body), rest))
    else if Strings.IsDigit(s[0]) then
      match ReadNumber(s)
      case None => None
      case Some((n, rest)) => Some((Num(n), rest))
    else if |s| >= 4 && s[..4] == "true" then Some((Bool(true), s[4..]))
    else if |s| >= 5 && s[..5] == "false" then Some((Bool(false), s[5..]))
    else None
  }

  /** `"key":value`. */
  function ReadField(s: string): (r: Option<(Field, string)>)
    ensures r.Some? ==> |r.value.1| < |s|
  {
    if s == [] || s[0] != '"' then None
    else
      match ReadStringBody(s[1..])
      case None => None
      case Some((key, t)) =>
        if t == [] || t[0] != ':' then None
        else
          match ReadValue(t[1..])
          case None => None
          case Some((v, rest)) => Some((Field(key, v), rest))
  }

  /** Fields separated by commas, up to and including the closing brace. */
  function ReadFieldList(s: string): (r: Option<(Object, string)>)
    ensures r.Some? ==> |r.value.1| < |s|
    decreases |s|
  {
    match ReadField(s)
    case None => None
    case Some((f, t)) =>
      if t != [] && t[0] == ',' then
        match ReadFieldList(t[1..])
        case None => None
        case Some((fs, rest)) => Some(([f] + fs, rest))
      else if t != [] && t[0] == '}' then Some(([f], t[1..]))
      else None
  }

  /** An object. */
  function ReadObject(s: string): (r: Option<(Object, string)>)
    ensures r.Some? ==> |r.value.1| < |s|
  {
    if |s| >= 2 && s[0] == '{' && s[1] == '}' then Some(([], s[2..]))
    else if s != [] && s[0] == '{' then ReadFieldList(s[1..])
    else None
  }

  /** Objects separated by commas, up to and including the closing bracket. */
  function ReadObjectList(s: string): (r: Option<(seq<Object>, string)>)
    ensures r.Some? ==> |r.value.1| < |s|
    decreases |s|
  {
    match ReadObject(s)
    case None => None
    case Some((o, t)) =>
      if t != [] && t[0] == ',' then
        match ReadObjectList(t[1..])
        case None => None
        case Some((os, rest)) => Some(([o] + os, rest))
      else if t != [] && t[0] == ']' then Some(([o], t[1..]))
      else None
  }

  /** A whole text: an array of objects and nothing after it. */
  function Decode(text: string): (r: Option<seq<Object>>)
    ensures r.Some? ==> |text| >= 2 && text[0] == '['
  {
    if |text| >= 2 && text[0] == '[' && text[1] == ']' then (if |text| == 2 then Some([]) else None)
    else if text != [] && text[0] == '[' then
      match ReadObjectList(text[1..])
      case None => None
      case Some((os, rest)) => if rest == [] then Some(os) else None
    else None
  }

  // ---------------------------------------------------------------------------------
  // Writing
  // ---------------------------------------------------------------------------------

  /** A string between quotes, escaped or as it is. */
  function Quote(s: string, escaped: bool): string {
    "\"" + (if escaped then Escape(s) else s) + "\""
  }

  function EncodeValue(v: Value, escaped: bool): string {
    match v
    case Num(n) => Strings.NatToString(n)
    case Str(s) => Quote(s, escaped)
    case Bool(b) => if b then "true" else "false"
  }

  function EncodeField(f: Field, escaped: bool): string {
    Quote(f.key, escaped) + ":" + EncodeValue(f.value, escaped)
  }

  /** The fields joined by commas, as the routes' `first` flag does. */
  function EncodeFields(fs: Object, escaped: bool): string {
    if fs == [] then ""
    else if |fs| == 1 then EncodeField(fs[0], escaped)
    else EncodeField(fs[0], escaped) + "," + EncodeFields(fs[1..], escaped)
  }

  function EncodeObject(o: Object, escaped: bool): string {
    "{" + EncodeFields(o, escaped) + "}"
  }

  function EncodeObjects(os: seq<Object>, escaped: bool): string {
    if os == [] then ""
    else if |os| == 1 then EncodeObject(os[0], escaped)
    else EncodeObject(os[0], escaped) + "," + EncodeObjects(os[1..], escaped)
  }

  /** `[` + the objects joined by commas + `]`. */
  function Encode(os: seq<Object>, escaped: bool): (text: string)
    ensures |text| >= 2 && text[0] == '[' && text[|text| - 1] == ']'
  {
    "[" + EncodeObjects(os, escaped) + "]"
  }

  // ---------------------------------------------------------------------------------
  // Round trip of the escaping encoder
  // ---------------------------------------------------------------------------------

  /** What may follow a value inside an object. */
  predicate AfterValue(rest: string) {
    rest != [] && (rest[0] == ',' || rest[0] == '}')
  }

  lemma ReadEncodedValue(v: Value, rest: string)
    requires AfterValue(rest)
    ensures ReadValue(EncodeValue(v, true) + rest) == Some((v, rest))
  {
    var s := EncodeValue(v, true) + rest;
    match v
    case Num(n) =>
      var p := Strings.NatToString(n);
      DigitRunOf(p, rest);
      assert s[..|p|] == p && s[|p|..] == rest;
      Strings.NatToStringRoundTrip(n);
    case Str(x) =>
      assert s[1..] == Escape(x) + "\"" + rest;
      ReadEscapedString(x, rest);
    case Bool(b) =>
      if b {
        assert s[..4] == "true" && s[4..] == rest;
      } else {
        assert s[..4] != "true";
        assert s[..5] == "false" && s[5..] == rest;
      }
  }

  lemma ReadEncodedField(f: Field, rest: string)
    requires AfterValue(rest)
    ensures ReadField(EncodeField(f, true) + rest) == Some((f, rest))
  {
    var value := EncodeValue(f.value, true) + rest;
    EncodeFieldSplit(f, rest);
    ReadEscapedString(f.key, ":" + value);
    ReadEncodedValue(f.value, rest);
    FieldOf("\"" + (Escape(f.key) + "\"" + (":" + value)), f.key, value, f.value, rest);
  }

  lemma EncodeFieldSplit(f: Field, rest: string)
    ensures EncodeField(f, true) + rest == "\"" + (Escape(f.key) + "\"" + (":" + (EncodeValue(f.value, true) + rest)))
  {
    var k, v := Escape(f.key), EncodeValue(f.value, true);
    assert EncodeField(f, true) == "\"" + k + "\"" + ":" + v;
    Regroup6("\"", k, "\"", ":", v, rest);
  }

  lemma Regroup6(a: string, b: string, c: string, d: string, e: string, g: string)
    ensures a + b + c + d + e + g == a + (b + c + (d + (e + g)))
  {
  }

  /** A quote, a key read up to a colon, and a value make a field. */
  lemma FieldOf(s: string, key: string, t: string, v: Value, rest: string)
    requires s != [] && s[0] == '"' && ReadStringBody(s[1..]) == Some((key, ":" + t))
    requires ReadValue(t) == Some((v, rest))
    ensures ReadField(s) == Some((Field(key, v), rest))
  {
    assert (":" + t)[0] == ':' && (":" + t)[1..] == t;
  }

  lemma FieldListStep(s: string, f: Field, t: string, fs: Object, rest: string)
    requires ReadField(s) == Some((f, "," + t))
    requires ReadFieldList(t) == Some((fs, rest))
    ensures ReadFieldList(s) == Some(([f] + fs, rest))
  {
    assert ("," + t)[0] == ',' && ("," + t)[1..] == t;
  }

  lemma FieldListLast(s: string, f: Field, rest: string)
    requires ReadField(s) == Some((f, "}" + rest))
    ensures ReadFieldList(s) == Some(([f], rest))
  {
    assert ("}" + rest)[0] == '}' && ("}" + rest)[1..] == rest;
  }

  lemma EncodeFieldsSplit(fs: Object, rest: string)
    requires |fs| > 1
    ensures EncodeFields(fs, true) + "}" + rest
         == EncodeField(fs[0], true) + ("," + (EncodeFields(fs[1..], true) + "}" + rest))
  {
    var a, b := EncodeField(fs[0], true), EncodeFields(fs[1..], true);
    assert EncodeFields(fs, true) == a + "," + b;
    Regroup(a, ",", b, "}", rest);
  }

  lemma {:induction false} ReadEncodedFields(fs: Object, rest: string)
    requires fs != []
    ensures ReadFieldList(EncodeFields(fs, true) + "}" + rest) == Some((fs, rest))
    decreases |fs|
  {
    if |fs| == 1 {
      ReadEncodedLastField(fs, rest);
    } else {
      var tail := EncodeFields(fs[1..], true) + "}" + rest;
      EncodeFieldsSplit(fs, rest);
      ReadEncodedField(fs[0], "," + tail);
      ReadEncodedFields(fs[1..], rest);
      FieldListStep(EncodeField(fs[0], true) + ("," + tail), fs[0], tail, fs[1..], rest);
      assert [fs[0]] + fs[1..] == fs;
    }
  }

  lemma ReadEncodedLastField(fs: Object, rest: string)
    requires |fs| == 1
    ensures ReadFieldList(EncodeFields(fs, true) + "}" + rest) == Some((fs, rest))
  {
    var s := EncodeFields(fs, true) + "}" + rest;
    assert s == EncodeField(fs[0], true) + ("}" + rest);
    ReadEncodedField(fs[0], "}" + rest);
    FieldListLast(s, fs[0], rest);
    assert [fs[0]] == fs;
  }

  /** What may follow an object inside the array. */
  predicate AfterObject(rest: string) {
    rest != [] && (rest[0] == ',' || rest[0] == ']')
  }

  lemma ReadEncodedObject(o: Object, rest: string)
    requires AfterObject(rest)
    ensures ReadObject(EncodeObject(o, true) + rest) == Some((o, rest))
  {
    if o == [] {
      var s := EncodeObject(o, true) + rest;
      assert s == "{}" + rest;
      assert s[2..] == rest;
    } else {
      var body := EncodeFields(o, true) + "}" + rest;
      assert EncodeObject(o, true) + rest == "{" + body;
      FieldsStartWithQuote(o, rest);
      ReadEncodedFields(o, rest);
      ObjectOf(body);
    }
  }

  /** A brace followed by a field list is read as that field list. */
  lemma ObjectOf(body: string)
    requires body != [] && body[0] == '"'
    ensures ReadObject("{" + body) == ReadFieldList(body)
  {
    var s := "{" + body;
    assert s[1..] == body && s[1] == '"';
  }

  lemma FieldsStartWithQuote(o: Object, rest: string)
    requires o != []
    ensures EncodeFields(o, true) != [] && EncodeFields(o, true)[0] == '"'
    ensures (EncodeFields(o, true) + "}" + rest)[0] == '"'
  {
    var f := EncodeField(o[0], true);
    assert f[0] == '"';
    if |o| > 1 {
      assert EncodeFields(o, true) == f + "," + EncodeFields(o[1..], true);
    }
  }

  lemma ObjectListStep(s: string, o: Object, t: string, os: seq<Object>, rest: string)
    requires ReadObject(s) == Some((o, "," + t))
    requires ReadObjectList(t) == Some((os, rest))
    ensures ReadObjectList(s) == Some(([o] + os, rest))
  {
    assert ("," + t)[0] == ',' && ("," + t)[1..] == t;
  }

  lemma ObjectListLast(s: string, o: Object, rest: string)
    requires ReadObject(s) == Some((o, "]" + rest))
    ensures ReadObjectList(s) == Some(([o], rest))
  {
    assert ("]" + rest)[0] == ']' && ("]" + rest)[1..] == rest;
  }

  lemma EncodeObjectsSplit(os: seq<Object>, rest: string)
    requires |os| > 1
    ensures EncodeObjects(os, true) + "]" + rest
         == EncodeObject(os[0], true) + ("," + (EncodeObjects(os[1..], true) + "]" + rest))
  {
    var a, b := EncodeObject(os[0], true), EncodeObjects(os[1..], true);
    assert EncodeObjects(os, true) == a + "," + b;
    Regroup(a, ",", b, "]", rest);
  }

  lemma Regroup(a: string, b: string, c: string, d: string, e: string)
    ensures a + b + c + d + e == a + (b + (c + d + e))
  {
  }

  lemma {:induction false} ReadEncodedObjects(os: seq<Object>, rest: string)
    requires os != []
    ensures ReadObjectList(EncodeObjects(os, true) + "]" + rest) == Some((os, rest))
    decreases |os|
  {
    if |os| == 1 {
      ReadEncodedLastObject(os, rest);
    } else {
      var tail := EncodeObjects(os[1..], true) + "]" + rest;
      EncodeObjectsSplit(os, rest);
      ReadEncodedObject(os[0], "," + tail);
      ReadEncodedObjects(os[1..], rest);
      ObjectListStep(EncodeObject(os[0], true) + ("," + tail), os[0], tail, os[1..], rest);
      assert [os[0]] + os[1..] == os;
    }
  }

  lemma ReadEncodedLastObject(os: seq<Object>, rest: string)
    requires |os| == 1
    ensures ReadObjectList(EncodeObjects(os, true) + "]" + rest) == Some((os, rest))
  {
    var s := EncodeObjects(os, true) + "]" + rest;
    assert s == EncodeObject(os[0], true) + ("]" + rest);
    ReadEncodedObject(os[0], "]" + rest);
    ObjectListLast(s, os[0], rest);
    assert [os[0]] == os;
  }

  /** The escaping encoder's text reads back as the objects it was given. */
  lemma DecodeEncode(os: seq<Object>)
    ensures Decode(Encode(os, true)) == Some(os)
  {
    var text := Encode(os, true);
    if os == [] {
      assert text == "[]";
    } else {
      assert text == "[" + (EncodeObjects(os, true) + "]" + []);
      ReadEncodedObjects(os, []);
      assert EncodeObject(os[0], true)[0] == '{';
      assert text[1] == '{';
    }
  }

  // ---------------------------------------------------------------------------------
  // Plain strings
  // ---------------------------------------------------------------------------------

  /** Every key and string value of the objects is plain. */
  predicate AllPlain(os: seq<Object>) {
    forall i, j :: 0 <= i < |os| && 0 <= j < |os[i]| ==>
      Plain(os[i][j].key) && (os[i][j].value.Str? ==> Plain(os[i][j].value.s))
  }

  lemma {:induction false} PlainFields(fs: Object)
    requires forall j :: 0 <= j < |fs| ==> Plain(fs[j].key) && (fs[j].value.Str? ==> Plain(fs[j].value.s))
    ensures EncodeFields(fs, false) == EncodeFields(fs, true)
    decreases |fs|
  {
    if fs != [] {
      EscapePlain(fs[0].key);
      if fs[0].value.Str? {
        EscapePlain(fs[0].value.s);
      }
      PlainFields(fs[1..]);
    }
  }

  /** Without escaping, the text is the same whenever no string needs escaping. */
  lemma {:induction false} PlainNeedsNoEscaping(os: seq<Object>)
    requires AllPlain(os)
    ensures Encode(os, false) == Encode(os, true)
  {
    PlainObjects(os);
  }

  lemma {:induction false} PlainObjects(os: seq<Object>)
    requires AllPlain(os)
    ensures EncodeObjects(os, false) == EncodeObjects(os, true)
    decreases |os|
  {
    if os != [] {
      PlainFields(os[0]);
      assert AllPlain(os[1..]) by {
        forall i, j | 0 <= i < |os[1..]| && 0 <= j < |os[1..][i]|
          ensures Plain(os[1..][i][j].key) && (os[1..][i][j].value.Str? ==> Plain(os[1..][i][j].value.s))
        {
          assert os[1..][i] == os[i + 1];
        }
      }
      PlainObjects(os[1..]);
    }
  }
}
