/** Canonical JSON: the printer for compact, key-sorted, non-ASCII-preserving
    `dumps`, a parser for RFC 8259 texts without fractions or exponents, and the
    round trip between them. Texts are sequences of Unicode scalar values. */
module CanonicalJson {
  import opened Wrappers
  import opened Text

  /** A normalized value. Mappings have no order, as dictionary equality has none. */
  datatype Json =
    | Null
    | Bool(flag: bool)
    | Int(number: int)
    | Str(text: string)
    | Arr(items: seq<Json>)
    | Obj(fields: map<string, Json>)

  // ---------- Printer ----------

  function HexDigit(d: nat): char
    requires d < 16
  {
    if d < 10 then ('0' as int + d) as char else ('a' as int + (d - 10)) as char
  }

  /** How `dumps(..., ensure_ascii=False)` writes one character inside a string. */
  function EscapeChar(c: char): string {
    if c == '"' then "\\\""
    else if c == '\\' then "\\\\"
    else if c == '\n' then "\\n"
    else if c == '\r' then "\\r"
    else if c == '\t' then "\\t"
    else if c == '\U{0C}' then "\\f"
    else if c == '\U{08}' then "\\b"
    else if c as int < 0x20 then "\\u00" + [HexDigit(c as int / 16), HexDigit(c as int % 16)]
    else [c]
  }

  // Each writer puts its piece of text in front of the text that follows it.

  function WriteText(s: string, rest: string): string {
    if |s| == 0 then "\"" + rest else EscapeChar(s[0]) + WriteText(s[1..], rest)
  }

  function WriteString(s: string, rest: string): string {
    "\"" + WriteText(s, rest)
  }

  function WriteInt(n: int, rest: string): string {
    if n < 0 then "-" + (Decimal(-n) + rest) else Decimal(n) + rest
  }

  function Write(v: Json, rest: string): string
    decreases v
  {
    match v
    case Null => "null" + rest
    case Bool(b) => if b then "true" + rest else "false" + rest
    case Int(n) => WriteInt(n, rest)
    case Str(s) => WriteString(s, rest)
    case Arr(items) =>
      if |items| == 0 then "[]" + rest
      else "[" + Write(items[0], WriteItems(items[1..], rest))
    case Obj(fields) =>
      var keys := SortedKeys(fields.Keys);
      if |keys| == 0 then "{}" + rest
      else "{" + WriteField(v, keys[0], WriteFields(v, keys[1..], rest))
  }

  /** The items after the first, each behind its comma, and the closing bracket. */
  function WriteItems(items: seq<Json>, rest: string): string
    decreases items
  {
    if |items| == 0 then "]" + rest
    else "," + Write(items[0], WriteItems(items[1..], rest))
  }

  function WriteFields(v: Json, keys: seq<string>, rest: string): string
    requires v.Obj? && forall k | k in keys :: k in v.fields
    decreases v, |keys|, 1
  {
    if |keys| == 0 then "}" + rest
    else "," + WriteField(v, keys[0], WriteFields(v, keys[1..], rest))
  }

  function WriteField(v: Json, key: string, rest: string): string
    requires v.Obj? && key in v.fields
    decreases v, 0, 0
  {
    WriteString(key, ":" + Write(v.fields[key], rest))
  }

  /** The canonical text of a value. */
  function Print(v: Json): string {
    Write(v, "")
  }

  // ---------- Parser ----------

  /** A parsed prefix together with the text that follows it. */
  datatype Parsed<T> = Fail | Parse(value: T, rest: string)

  predicate IsSpace(c: char) {
    c == ' ' || c == '\t' || c == '\n' || c == '\r'
  }

  function SkipSpace(s: string): (r: string)
    ensures |r| <= |s|
    ensures |r| > 0 ==> !IsSpace(r[0])
  {
    if |s| > 0 && IsSpace(s[0]) then SkipSpace(s[1..]) else s
  }

  function HexValue(c: char): Option<nat> {
    if '0' <= c <= '9' then Some(c as int - '0' as int)
    else if 'a' <= c <= 'f' then Some(c as int - 'a' as int + 10)
    else if 'A' <= c <= 'F' then Some(c as int - 'A' as int + 10)
    else None
  }

  /** Four hexadecimal digits at the head of `s`. */
  function HexQuad(s: string): Option<nat> {
    if |s| < 4 then None
    else
      match (HexValue(s[0]), HexValue(s[1]), HexValue(s[2]), HexValue(s[3]))
      case (Some(a), Some(b), Some(c), Some(d)) => Some(((a * 16 + b) * 16 + c) * 16 + d)
      case _ => None
  }

  /** The text after `\u`: one scalar value, written as one escape or as a
      surrogate pair of two. A lone surrogate is not a scalar value. */
  function ParseUnicodeEscape(s: string): (r: Parsed<char>)
    ensures r.Parse? ==> |r.rest| < |s|
  {
    match HexQuad(s)
    case None => Fail
    case Some(unit) =>
      if 0xD800 <= unit < 0xDC00 then
        if |s| >= 10 && s[4] == '\\' && s[5] == 'u' then
          match HexQuad(s[6..])
          case Some(low) =>
            if 0xDC00 <= low < 0xE000 then
              var scalar := 0x10000 + (unit - 0xD800) * 0x400 + (low - 0xDC00);
              if scalar < 0x11_0000 then Parse(scalar as char, s[10..]) else Fail
            else Fail
          case None => Fail
        else Fail
      else if unit < 0xD800 || 0xE000 <= unit < 0x11_0000 then Parse(unit as char, s[4..])
      else Fail
  }

  /** The text after a backslash. */
  function ParseEscape(s: string): (r: Parsed<char>)
    ensures r.Parse? ==> |r.rest| < |s|
  {
    if |s| == 0 then Fail
    else if s[0] == '"' then Parse('"', s[1..])
    else if s[0] == '\\' then Parse('\\', s[1..])
    else if s[0] == '/' then Parse('/', s[1..])
    else if s[0] == 'b' then Parse('\U{08}', s[1..])
    else if s[0] == 'f' then Parse('\U{0C}', s[1..])
    else if s[0] == 'n' then Parse('\n', s[1..])
    else if s[0] == 'r' then Parse('\r', s[1..])
    else if s[0] == 't' then Parse('\t', s[1..])
    else if s[0] == 'u' then ParseUnicodeEscape(s[1..])
    else Fail
  }

  /** The body of a string, after its opening quote, up to its closing quote. */
  function ParseText(s: string): (r: Parsed<string>)
    ensures r.Parse? ==> |r.rest| < |s|
    decreases |s|
  {
    if |s| == 0 || (s[0] as int) < 0x20 then Fail
    else if s[0] == '"' then Parse("", s[1..])
    else
      var head := if s[0] == '\\' then ParseEscape(s[1..]) else Parse(s[0], s[1..]);
      match head
      case Fail => Fail
      case Parse(c, rest) =>
        match ParseText(rest)
        case Fail => Fail
        case Parse(tail, after) => Parse([c] + tail, after)
  }

  function DigitRun(s: string): (n: nat)
    ensures n <= |s| && AllDigits(s[..n])
    ensures n < |s| ==> !IsDigit(s[n])
  {
    if |s| > 0 && IsDigit(s[0]) then
      var n := 1 + DigitRun(s[1..]);
      assert forall i | 0 < i < n :: s[i] == s[1..][i - 1];
      n
    else 0
  }

  /** A number without sign. A leading zero must stand alone, and a fraction or an
      exponent makes the number a float, which no contract value may hold. */
  function ParseNatural(s: string): (r: Parsed<nat>)
    ensures r.Parse? ==> |r.rest| < |s|
  {
    var n := DigitRun(s);
    if n == 0 || (s[0] == '0' && n > 1) then Fail
    else if n < |s| && (s[n] == '.' || s[n] == 'e' || s[n] == 'E') then Fail
    else Parse(Numeral(s[..n]), s[n..])
  }

  function ParseNumber(s: string): (r: Parsed<Json>)
    ensures r.Parse? ==> |r.rest| < |s|
  {
    if |s| > 0 && s[0] == '-' then
      match ParseNatural(s[1..])
      case Fail => Fail
      case Parse(n, rest) => Parse(Int(0 - n), rest)
    else
      match ParseNatural(s)
      case Fail => Fail
      case Parse(n, rest) => Parse(Int(n), rest)
  }

  function ParseValue(s: string): (r: Parsed<Json>)
    ensures r.Parse? ==> |r.rest| < |s|
    decreases |s|, 0
  {
    if "null" <= s then Parse(Null, s[4..])
    else if "true" <= s then Parse(Bool(true), s[4..])
    else if "false" <= s then Parse(Bool(false), s[5..])
    else if |s| == 0 then Fail
    else if s[0] == '"' then
      match ParseText(s[1..])
      case Fail => Fail
      case Parse(text, rest) => Parse(Str(text), rest)
    else if s[0] == '[' then
      var body := SkipSpace(s[1..]);
      if |body| > 0 && body[0] == ']' then Parse(Arr([]), body[1..])
      else
        match ParseItems(body)
        case Fail => Fail
        case Parse(items, rest) => Parse(Arr(items), rest)
    else if s[0] == '{' then
      var body := SkipSpace(s[1..]);
      if |body| > 0 && body[0] == '}' then Parse(Obj(map[]), body[1..])
      else
        match ParseMembers(body)
        case Fail => Fail
        case Parse(fields, rest) => Parse(Obj(fields), rest)
    else ParseNumber(s)
  }

  /** One or more array items and the closing bracket. */
  function ParseItems(s: string): (r: Parsed<seq<Json>>)
    ensures r.Parse? ==> |r.rest| < |s|
    decreases |s|, 1
  {
    match ParseValue(s)
    case Fail => Fail
    case Parse(item, after) =>
      var rest := SkipSpace(after);
      if |rest| > 0 && rest[0] == ']' then Parse([item], rest[1..])
      else if |rest| > 0 && rest[0] == ',' then
        match ParseItems(SkipSpace(rest[1..]))
        case Fail => Fail
        case Parse(items, end) => Parse([item] + items, end)
      else Fail
  }

  /** A quoted key, a colon and a value. */
  function ParseField(s: string): (r: Parsed<(string, Json)>)
    ensures r.Parse? ==> |r.rest| < |s|
    decreases |s|, 1
  {
    if |s| == 0 || s[0] != '"' then Fail
    else
      match ParseText(s[1..])
      case Fail => Fail
      case Parse(key, afterKey) =>
        var colon := SkipSpace(afterKey);
        if |colon| == 0 || colon[0] != ':' then Fail
        else
          match ParseValue(SkipSpace(colon[1..]))
          case Fail => Fail
          case Parse(value, after) => Parse((key, value), after)
  }

  /** One or more object members and the closing brace. A repeated key keeps its
      last value. */
  function ParseMembers(s: string): (r: Parsed<map<string, Json>>)
    ensures r.Parse? ==> |r.rest| < |s|
    decreases |s|, 2
  {
    match ParseField(s)
    case Fail => Fail
    case Parse(field, after) =>
      var rest := SkipSpace(after);
      if |rest| > 0 && rest[0] == '}' then Parse(map[field.0 := field.1], rest[1..])
      else if |rest| > 0 && rest[0] == ',' then
        match ParseMembers(SkipSpace(rest[1..]))
        case Fail => Fail
        case Parse(fields, end) => Parse(map[field.0 := field.1] + fields, end)
      else Fail
  }

  /** `loads` on a whole document: one value with white space around it. */
  function Loads(s: string): Option<Json> {
    match ParseValue(SkipSpace(s))
    case Fail => None
    case Parse(v, rest) => if SkipSpace(rest) == "" then Some(v) else None
  }

  // ---------- Round trip ----------

  lemma EscapeCharParses(c: char, rest: string)
    requires ParseText(rest).Parse?
    ensures ParseText(EscapeChar(c) + rest) == Parse([c] + ParseText(rest).value, ParseText(rest).rest)
  {
    var s := EscapeChar(c) + rest;
    if c == '"' || c == '\\' || c == '\n' || c == '\r' || c == '\t' || c == '\U{0C}' || c == '\U{08}' {
      assert s[1..][1..] == rest;
    } else if c as int < 0x20 {
      var h, l := c as int / 16, c as int % 16;
      assert s[1..][1..] == ['0', '0', HexDigit(h), HexDigit(l)] + rest;
      assert s[1..][1..][4..] == rest;
      assert HexValue('0') == Some(0) && HexValue(HexDigit(h)) == Some(h) && HexValue(HexDigit(l)) == Some(l);
      assert HexQuad(s[1..][1..]) == Some(h * 16 + l);
    } else {
      assert s[1..] == rest;
    }
  }

  lemma {:induction false} TextRoundTrip(s: string, rest: string)
    ensures ParseText(WriteText(s, rest)) == Parse(s, rest)
  {
    if |s| == 0 {
      assert WriteText(s, rest)[1..] == rest;
    } else {
      TextRoundTrip(s[1..], rest);
      EscapeCharParses(s[0], WriteText(s[1..], rest));
      assert s == [s[0]] + s[1..];
    }
  }

  /** What may follow a value inside a canonical text. */
  predicate Delimited(rest: string) {
    |rest| == 0 || rest[0] == ',' || rest[0] == ']' || rest[0] == '}'
  }

  lemma {:induction false} DigitRunExact(digits: string, rest: string)
    requires AllDigits(digits) && (|rest| == 0 || !IsDigit(rest[0]))
    ensures DigitRun(digits + rest) == |digits|
  {
    if |digits| == 0 {
      assert digits + rest == rest;
    } else {
      assert (digits + rest)[1..] == digits[1..] + rest;
      DigitRunExact(digits[1..], rest);
    }
  }

  lemma NaturalRoundTrip(n: nat, rest: string)
    requires Delimited(rest)
    ensures ParseNatural(Decimal(n) + rest) == Parse(n, rest)
  {
    var s := Decimal(n) + rest;
    DigitRunExact(Decimal(n), rest);
    assert s[..|Decimal(n)|] == Decimal(n) && s[|Decimal(n)|..] == rest;
    DecimalRoundTrip(n);
  }

  lemma Cons(c: char, rest: string)
    ensures ([c] + rest)[0] == c && ([c] + rest)[1..] == rest
  {
  }

  lemma NumberRoundTrip(n: int, rest: string)
    requires Delimited(rest)
    ensures ParseNumber(WriteInt(n, rest)) == Parse(Int(n), rest)
  {
    if n < 0 {
      Cons('-', Decimal(-n) + rest);
      NaturalRoundTrip(-n, rest);
    } else {
      assert IsDigit((Decimal(n) + rest)[0]);
      NaturalRoundTrip(n, rest);
    }
  }

  lemma NotWord(word: string, s: string)
    requires |word| > 0 && |s| > 0 && word[0] != s[0]
    ensures !(word <= s)
  {
    assert word <= s ==> s[0] == word[0];
  }

  /** Which branch the parser takes is decided by the first character. */
  lemma ParserBranch(c: char, rest: string)
    ensures c == '"' && ParseText(rest).Parse? ==>
              ParseValue([c] + rest) == Parse(Str(ParseText(rest).value), ParseText(rest).rest)
    ensures c == '[' && |rest| > 0 && !IsSpace(rest[0]) && rest[0] != ']' && ParseItems(rest).Parse? ==>
              ParseValue([c] + rest) == Parse(Arr(ParseItems(rest).value), ParseItems(rest).rest)
    ensures c == '{' && |rest| > 0 && !IsSpace(rest[0]) && rest[0] != '}' && ParseMembers(rest).Parse? ==>
              ParseValue([c] + rest) == Parse(Obj(ParseMembers(rest).value), ParseMembers(rest).rest)
    ensures c == '-' || IsDigit(c) ==> ParseValue([c] + rest) == ParseNumber([c] + rest)
  {
    Cons(c, rest);
    if c == '"' || c == '[' || c == '{' || c == '-' || IsDigit(c) {
      NotWord("null", [c] + rest);
      NotWord("true", [c] + rest);
      NotWord("false", [c] + rest);
    }
  }

  lemma WordRoundTrip(rest: string)
    ensures ParseValue("null" + rest) == Parse(Null, rest)
    ensures ParseValue("true" + rest) == Parse(Bool(true), rest)
    ensures ParseValue("false" + rest) == Parse(Bool(false), rest)
  {
    assert ("null" + rest)[4..] == rest;
    NotWord("null", "true" + rest);
    assert ("true" + rest)[4..] == rest;
    NotWord("null", "false" + rest);
    NotWord("true", "false" + rest);
    assert ("false" + rest)[5..] == rest;
  }

  lemma EmptyRoundTrip(rest: string)
    ensures ParseValue("[]" + rest) == Parse(Arr([]), rest)
    ensures ParseValue("{}" + rest) == Parse(Obj(map[]), rest)
  {
    var a, o := "[]" + rest, "{}" + rest;
    assert a[1..] == "]" + rest && o[1..] == "}" + rest;
    Cons(']', rest);
    Cons('}', rest);
    NotWord("null", a);
    NotWord("true", a);
    NotWord("false", a);
    NotWord("null", o);
    NotWord("true", o);
    NotWord("false", o);
  }

  lemma IntRoundTrip(n: int, rest: string)
    requires Delimited(rest)
    ensures ParseValue(WriteInt(n, rest)) == Parse(Int(n), rest)
  {
    var s := WriteInt(n, rest);
    assert s[0] == '-' || IsDigit(s[0]);
    assert s == [s[0]] + s[1..];
    NumberRoundTrip(n, rest);
    ParserBranch(s[0], s[1..]);
  }

  /** A written value starts with a character that no white-space or closing
      bracket test of the parser can mistake. */
  lemma WriteHead(v: Json, rest: string)
    ensures |Write(v, rest)| > 0 && !IsSpace(Write(v, rest)[0])
    ensures Write(v, rest)[0] != ']' && Write(v, rest)[0] != '}'
  {
    if v.Int? { assert IsDigit(WriteInt(v.number, rest)[0]) || WriteInt(v.number, rest)[0] == '-'; }
  }

  lemma NoSkip(s: string)
    requires |s| == 0 || !IsSpace(s[0])
    ensures SkipSpace(s) == s
  {
  }

  lemma {:induction false} ValueRoundTrip(v: Json, rest: string)
    requires Delimited(rest)
    ensures ParseValue(Write(v, rest)) == Parse(v, rest)
    decreases v, 1
  {
    match v {
      case Null => WordRoundTrip(rest);
      case Bool(b) => WordRoundTrip(rest);
      case Int(n) => IntRoundTrip(n, rest);
      case Str(t) =>
        TextRoundTrip(t, rest);
        ParserBranch('"', WriteText(t, rest));
      case Arr(items) =>
        if |items| == 0 {
          EmptyRoundTrip(rest);
        } else {
          var body := Write(items[0], WriteItems(items[1..], rest));
          WriteHead(items[0], WriteItems(items[1..], rest));
          ItemsRoundTrip(items, rest);
          ParserBranch('[', body);
        }
      case Obj(fields) =>
        var keys := SortedKeys(fields.Keys);
        if |keys| == 0 {
          assert fields == map[];
          EmptyRoundTrip(rest);
        } else {
          var body := WriteField(v, keys[0], WriteFields(v, keys[1..], rest));
          assert body[0] == '"';
          MembersRoundTrip(v, keys, rest);
          RestrictAll(fields, keys);
          ParserBranch('{', body);
        }
    }
  }

  lemma {:induction false} ItemsRoundTrip(items: seq<Json>, rest: string)
    requires |items| > 0
    ensures ParseItems(Write(items[0], WriteItems(items[1..], rest))) == Parse(items, rest)
    decreases items
  {
    var tail := WriteItems(items[1..], rest);
    if |items| == 1 {
      Cons(']', rest);
      assert items == [items[0]];
    } else {
      var next := Write(items[1], WriteItems(items[2..], rest));
      assert items[1..][0] == items[1] && items[1..][1..] == items[2..];
      Cons(',', next);
      WriteHead(items[1], WriteItems(items[2..], rest));
      NoSkip(next);
      ItemsRoundTrip(items[1..], rest);
      assert items == [items[0]] + items[1..];
    }
    NoSkip(tail);
    ValueRoundTrip(items[0], tail);
  }

  /** The part of a mapping with the listed keys. */
  function Restrict(fields: map<string, Json>, keys: seq<string>): map<string, Json> {
    map k | k in fields && k in keys :: fields[k]
  }

  lemma RestrictAll(fields: map<string, Json>, keys: seq<string>)
    requires forall k :: k in keys <==> k in fields
    ensures Restrict(fields, keys) == fields
  {
  }

  lemma RestrictCons(fields: map<string, Json>, keys: seq<string>)
    requires |keys| > 0 && forall k | k in keys :: k in fields
    ensures |keys| == 1 ==> Restrict(fields, keys) == map[keys[0] := fields[keys[0]]]
    ensures Restrict(fields, keys) == map[keys[0] := fields[keys[0]]] + Restrict(fields, keys[1..])
  {
    assert forall k :: k in keys <==> k == keys[0] || k in keys[1..];
  }

  lemma {:induction false} FieldRoundTrip(v: Json, key: string, tail: string)
    requires v.Obj? && key in v.fields && Delimited(tail)
    ensures ParseField(WriteField(v, key, tail)) == Parse((key, v.fields[key]), tail)
    decreases v, 0, 0
  {
    var value := Write(v.fields[key], tail);
    var colon := ":" + value;
    Cons('"', WriteText(key, colon));
    TextRoundTrip(key, colon);
    Cons(':', value);
    NoSkip(colon);
    WriteHead(v.fields[key], tail);
    NoSkip(value);
    ValueRoundTrip(v.fields[key], tail);
  }

  lemma {:induction false} MembersRoundTrip(v: Json, keys: seq<string>, rest: string)
    requires v.Obj? && |keys| > 0 && forall k | k in keys :: k in v.fields
    ensures ParseMembers(WriteField(v, keys[0], WriteFields(v, keys[1..], rest)))
         == Parse(Restrict(v.fields, keys), rest)
    decreases v, 0, |keys|
  {
    var tail := WriteFields(v, keys[1..], rest);
    if |keys| == 1 {
      Cons('}', rest);
    } else {
      var next := WriteField(v, keys[1], WriteFields(v, keys[2..], rest));
      assert keys[1..][0] == keys[1] && keys[1..][1..] == keys[2..];
      Cons(',', next);
      assert next[0] == '"';
      NoSkip(next);
      MembersRoundTrip(v, keys[1..], rest);
    }
    NoSkip(tail);
    FieldRoundTrip(v, keys[0], tail);
    RestrictCons(v.fields, keys);
  }

  /** Parsing the canonical text of any value gives that value back. */
  lemma RoundTrip(v: Json)
    ensures Loads(Print(v)) == Some(v)
  {
    WriteHead(v, "");
    NoSkip(Print(v));
    ValueRoundTrip(v, "");
  }

  /** Canonical text decides structural equality: `True` and `1` differ at every
      depth, and the order in which mappings were filled is irrelevant. */
  lemma PrintExact(v: Json, w: Json)
    ensures Print(v) == Print(w) <==> v == w
  {
    RoundTrip(v);
    RoundTrip(w);
  }

  /** The read-time check "parse, print, compare" accepts exactly the canonical
      texts, whatever else the parser accepts. */
  lemma CanonicalTextCheck(raw: string)
    ensures (Loads(raw).Some? && Print(Loads(raw).value) == raw) <==> exists v :: Print(v) == raw
  {
    if v :| Print(v) == raw {
      RoundTrip(v);
    }
  }
}
