/** Which of the many JSON texts of a value is the canonical one, told without the writer:
    the separators, the order of the members, the escapes and the digits. */
module PrintedText {
  import opened Text
  import opened CanonicalJson

  // ---------- Texts are put together from the texts of their parts ----------

  lemma {:induction false} TextSplits(s: string, rest: string)
    ensures WriteText(s, rest) == WriteText(s, "") + rest
  {
    if |s| > 0 {
      TextSplits(s[1..], rest);
      assert WriteText(s, rest) == EscapeChar(s[0]) + (WriteText(s[1..], "") + rest);
    } else {
      assert WriteText(s, "") == "\"";
    }
  }

  lemma StringSplits(s: string, rest: string)
    ensures WriteString(s, rest) == WriteString(s, "") + rest
  {
    TextSplits(s, rest);
  }

  lemma IntSplits(n: int, rest: string)
    ensures WriteInt(n, rest) == WriteInt(n, "") + rest
  {
    if n < 0 {
      assert Decimal(-n) + "" == Decimal(-n);
      assert "-" + (Decimal(-n) + rest) == ("-" + Decimal(-n)) + rest;
    } else {
      assert Decimal(n) + "" == Decimal(n);
    }
  }

  lemma {:induction false} WriteSplits(v: Json, rest: string)
    ensures Write(v, rest) == Print(v) + rest
    decreases v, 1, 0
  {
    match v {
      case Null => assert "null" + "" == "null";
      case Bool(b) => assert "true" + "" == "true" && "false" + "" == "false";
      case Int(n) => IntSplits(n, rest);
      case Str(s) => StringSplits(s, rest);
      case Arr(items) =>
        if |items| > 0 {
          ItemsSplit(items[1..], rest);
          ItemsSplit(items[1..], "");
          WriteSplits(items[0], WriteItems(items[1..], rest));
          WriteSplits(items[0], WriteItems(items[1..], ""));
        } else {
          assert "[]" + "" == "[]";
        }
      case Obj(fields) =>
        var keys := SortedKeys(fields.Keys);
        if |keys| > 0 {
          FieldsSplit(v, keys[1..], rest);
          FieldsSplit(v, keys[1..], "");
          FieldSplits(v, keys[0], WriteFields(v, keys[1..], rest));
          FieldSplits(v, keys[0], WriteFields(v, keys[1..], ""));
        } else {
          assert "{}" + "" == "{}";
        }
    }
  }

  lemma {:induction false} ItemsSplit(items: seq<Json>, rest: string)
    ensures WriteItems(items, rest) == WriteItems(items, "") + rest
    decreases items, 1, 0
  {
    if |items| > 0 {
      ItemsSplit(items[1..], rest);
      WriteSplits(items[0], WriteItems(items[1..], rest));
      WriteSplits(items[0], WriteItems(items[1..], ""));
    } else {
      assert "]" + "" == "]";
    }
  }

  lemma {:induction false} FieldSplits(v: Json, key: string, rest: string)
    requires v.Obj? && key in v.fields
    ensures WriteField(v, key, rest) == Print(Str(key)) + ":" + Print(v.fields[key]) + rest
    decreases v, 0, 0
  {
    WriteSplits(v.fields[key], rest);
    StringSplits(key, ":" + Write(v.fields[key], rest));
  }

  lemma {:induction false} FieldsSplit(v: Json, keys: seq<string>, rest: string)
    requires v.Obj? && forall k | k in keys :: k in v.fields
    ensures WriteFields(v, keys, rest) == WriteFields(v, keys, "") + rest
    decreases v, 0, |keys| + 1
  {
    if |keys| > 0 {
      FieldsSplit(v, keys[1..], rest);
      FieldSplits(v, keys[0], WriteFields(v, keys[1..], rest));
      FieldSplits(v, keys[0], WriteFields(v, keys[1..], ""));
    } else {
      assert "}" + "" == "}";
    }
  }

  // ---------- Lists and mappings ----------

  /** The pieces with commas between them. */
  function Joined(pieces: seq<string>): string {
    if |pieces| == 0 then ""
    else if |pieces| == 1 then pieces[0]
    else Joined(pieces[..|pieces| - 1]) + "," + pieces[|pieces| - 1]
  }

  lemma {:induction false} JoinedFront(piece: string, pieces: seq<string>)
    requires |pieces| > 0
    ensures Joined([piece] + pieces) == piece + "," + Joined(pieces)
  {
    var all := [piece] + pieces;
    if |pieces| > 1 {
      var init := pieces[..|pieces| - 1];
      assert all[..|all| - 1] == [piece] + init;
      JoinedFront(piece, init);
    } else {
      assert all[..1] == [piece];
    }
  }

  function ItemTexts(items: seq<Json>): seq<string> {
    seq(|items|, i requires 0 <= i < |items| => Print(items[i]))
  }

  lemma Regroup(first: string, others: string, end: string)
    ensures first + ("," + (others + end)) == first + "," + others + end
  {
  }

  lemma {:induction false} ItemsJoined(items: seq<Json>)
    requires |items| > 0
    ensures Write(items[0], WriteItems(items[1..], "")) == Joined(ItemTexts(items)) + "]"
  {
    hide Joined, ItemTexts, Write;
    var tail := items[1..];
    WriteSplits(items[0], WriteItems(tail, ""));
    if |tail| == 0 {
      OneJoined(Print(items[0]));
      assert ItemTexts(items) == [Print(items[0])] by { FirstText(items); }
      assert WriteItems(tail, "") == "]";
    } else {
      ItemsJoined(tail);
      FirstText(items);
      JoinedFront(Print(items[0]), ItemTexts(tail));
      assert WriteItems(tail, "") == "," + (Joined(ItemTexts(tail)) + "]");
      Regroup(Print(items[0]), Joined(ItemTexts(tail)), "]");
    }
  }

  lemma OneJoined(piece: string)
    ensures Joined([piece]) == piece
  {
  }

  lemma FirstText(items: seq<Json>)
    requires |items| > 0
    ensures ItemTexts(items) == [Print(items[0])] + ItemTexts(items[1..])
    ensures |items| == 1 ==> ItemTexts(items) == [Print(items[0])]
    ensures |ItemTexts(items[1..])| == |items| - 1
  {
    hide Print;
  }

  /** A list prints as its items' texts between brackets, with a comma and no space
      between them. */
  lemma ListPrinted(items: seq<Json>)
    ensures Print(Arr(items)) == "[" + Joined(ItemTexts(items)) + "]"
  {
    if |items| > 0 {
      ItemsJoined(items);
    } else {
      assert ItemTexts(items) == [];
      assert Write(Arr(items), "") == "[]" + "";
    }
  }

  /** Code-point order: where the texts first differ the first has the smaller character,
      or it ends there. */
  predicate Precedes(a: string, b: string) {
    exists n | 0 <= n <= |a| && n < |b| ::
      a[..n] == b[..n] && (n == |a| || a[n] as int < b[n] as int)
  }

  lemma SameHead(a: string, b: string, n: nat)
    requires 0 < n <= |a| && n <= |b| && a[..n] == b[..n]
    ensures a[0] == b[0]
  {
    assert a[..n][0] == b[..n][0];
  }

  lemma {:induction false} LessExact(a: string, b: string)
    ensures Less(a, b) <==> Precedes(a, b)
  {
    if |a| > 0 && |b| > 0 && a[0] == b[0] {
      LessExact(a[1..], b[1..]);
      if Precedes(a[1..], b[1..]) {
        var n :| 0 <= n <= |a[1..]| && n < |b[1..]| && a[1..][..n] == b[1..][..n]
          && (n == |a[1..]| || a[1..][n] as int < b[1..][n] as int);
        assert a[..n + 1] == [a[0]] + a[1..][..n] && b[..n + 1] == [b[0]] + b[1..][..n];
      }
      if Precedes(a, b) {
        var n :| 0 <= n <= |a| && n < |b| && a[..n] == b[..n] && (n == |a| || a[n] as int < b[n] as int);
        assert a[1..][..n - 1] == a[..n][1..] && b[1..][..n - 1] == b[..n][1..];
        assert n - 1 == |a[1..]| || a[1..][n - 1] as int < b[1..][n - 1] as int;
      }
    } else if |b| > 0 {
      if |a| == 0 || a[0] < b[0] {
        assert a[..0] == b[..0];
      }
      if Precedes(a, b) {
        var n :| 0 <= n <= |a| && n < |b| && a[..n] == b[..n] && (n == |a| || a[n] as int < b[n] as int);
        if n > 0 { SameHead(a, b, n); }
      }
    }
  }

  predicate Ascends(keys: seq<string>) {
    forall i | 0 < i < |keys| :: Precedes(keys[i - 1], keys[i])
  }

  /** The keys of the mapping, each before the next in code-point order. */
  predicate ListsKeys(keys: seq<string>, m: map<string, Json>) {
    && (forall k | k in keys :: k in m)
    && (forall k | k in m :: k in keys)
    && Ascends(keys)
  }

  lemma {:induction false} AdjacentSorted(keys: seq<string>, i: nat, j: nat)
    requires (forall n | 0 < n < |keys| :: Less(keys[n - 1], keys[n])) && i < j < |keys|
    ensures Less(keys[i], keys[j])
  {
    if i < j - 1 {
      AdjacentSorted(keys, i, j - 1);
      LessTransitive(keys[i], keys[j - 1], keys[j]);
    }
  }

  lemma KeysListedOnce(keys: seq<string>, m: map<string, Json>)
    requires ListsKeys(keys, m)
    ensures keys == SortedKeys(m.Keys)
  {
    hide Precedes;
    forall n | 0 < n < |keys| ensures Less(keys[n - 1], keys[n]) {
      LessExact(keys[n - 1], keys[n]);
    }
    forall i, j | 0 <= i < j < |keys| ensures Less(keys[i], keys[j]) {
      AdjacentSorted(keys, i, j);
    }
    SortedListingUnique(keys);
    assert Elements(keys) == m.Keys;
  }

  function MemberText(m: map<string, Json>, key: string): string
    requires key in m
  {
    Print(Str(key)) + ":" + Print(m[key])
  }

  function MemberTexts(m: map<string, Json>, keys: seq<string>): seq<string>
    requires forall k | k in keys :: k in m
  {
    seq(|keys|, i requires 0 <= i < |keys| => MemberText(m, keys[i]))
  }

  lemma FirstMember(m: map<string, Json>, keys: seq<string>)
    requires |keys| > 0 && forall k | k in keys :: k in m
    ensures MemberTexts(m, keys) == [MemberText(m, keys[0])] + MemberTexts(m, keys[1..])
    ensures |keys| == 1 ==> MemberTexts(m, keys) == [MemberText(m, keys[0])]
    ensures |MemberTexts(m, keys[1..])| == |keys| - 1
  {
    hide MemberText;
  }

  lemma {:induction false} FieldsJoined(m: map<string, Json>, keys: seq<string>)
    requires |keys| > 0 && forall k | k in keys :: k in m
    ensures WriteField(Obj(m), keys[0], WriteFields(Obj(m), keys[1..], ""))
         == Joined(MemberTexts(m, keys)) + "}"
    decreases |keys|
  {
    hide Joined, MemberTexts, WriteField, Print;
    var v, tail := Obj(m), keys[1..];
    FieldSplits(v, keys[0], WriteFields(v, tail, ""));
    FirstMember(m, keys);
    if |tail| == 0 {
      OneJoined(MemberText(m, keys[0]));
      assert WriteFields(v, tail, "") == "}";
    } else {
      FieldsJoined(m, tail);
      JoinedFront(MemberText(m, keys[0]), MemberTexts(m, tail));
      assert WriteFields(v, tail, "") == "," + (Joined(MemberTexts(m, tail)) + "}");
      Regroup(MemberText(m, keys[0]), Joined(MemberTexts(m, tail)), "}");
    }
  }

  /** A mapping prints as its members between braces, in code-point order of their keys,
      each as key, colon and value, with a comma and no space between them. */
  lemma MappingPrinted(m: map<string, Json>, keys: seq<string>)
    requires ListsKeys(keys, m)
    ensures Print(Obj(m)) == "{" + Joined(MemberTexts(m, keys)) + "}"
  {
    KeysListedOnce(keys, m);
    if |keys| > 0 {
      FieldsJoined(m, keys);
    } else {
      assert Write(Obj(m), "") == "{}" + "";
    }
  }

  lemma AscendsBehind(k: string, rest: seq<string>)
    requires Ascends(rest) && (|rest| > 0 ==> Precedes(k, rest[0]))
    ensures Ascends([k] + rest)
  {
    hide Precedes;
    var keys := [k] + rest;
    forall i | 0 < i < |keys| ensures Precedes(keys[i - 1], keys[i]) {
      if i > 1 {
        var j := i - 1;
        assert Precedes(rest[j - 1], rest[j]);
      }
    }
  }

  /** There is such a listing for every mapping. */
  lemma {:induction false} SortedAscends(s: set<string>)
    ensures Ascends(SortedKeys(s))
  {
    hide Precedes;
    if s != {} {
      var k := Least(s);
      var rest := SortedKeys(s - {k});
      SortedAscends(s - {k});
      if |rest| > 0 {
        assert rest[0] in rest;
        LessExact(k, rest[0]);
      }
      AscendsBehind(k, rest);
    }
  }

  lemma KeysCanBeListed(m: map<string, Json>)
    ensures ListsKeys(SortedKeys(m.Keys), m)
  {
    hide Precedes;
    SortedAscends(m.Keys);
  }

  // ---------- Strings ----------

  /** The characters that are not written as they are. */
  predicate Special(c: char) {
    c as int == 34 || c as int == 92 || (c as int) < 32
  }

  const HEX_DIGITS := "0123456789abcdef"

  /** What stands for a special character: the short escape where there is one, otherwise
      four lower-case hexadecimal digits. */
  function EscapeOf(c: char): string
    requires Special(c)
  {
    if c as int == 34 then ['\\', '"']
    else if c as int == 92 then ['\\', '\\']
    else if c as int == 8 then ['\\', 'b']
    else if c as int == 9 then ['\\', 't']
    else if c as int == 10 then ['\\', 'n']
    else if c as int == 12 then ['\\', 'f']
    else if c as int == 13 then ['\\', 'r']
    else ['\\', 'u', '0', '0', HEX_DIGITS[c as int / 16], HEX_DIGITS[c as int % 16]]
  }

  lemma EscapeExact(c: char)
    ensures EscapeChar(c) == if Special(c) then EscapeOf(c) else [c]
  {
    if c as int < 32 {
      assert forall d: nat | d < 16 :: HexDigit(d) == HEX_DIGITS[d];
    }
  }

  /** A text with its special characters escaped. */
  function Spelled(s: string): string {
    if |s| == 0 then "" else (if Special(s[0]) then EscapeOf(s[0]) else [s[0]]) + Spelled(s[1..])
  }

  lemma {:induction false} TextSpelled(s: string)
    ensures WriteText(s, "") == Spelled(s) + "\""
  {
    hide EscapeChar, EscapeOf, Special;
    if |s| > 0 {
      TextSpelled(s[1..]);
      EscapeExact(s[0]);
      assert EscapeChar(s[0]) + (Spelled(s[1..]) + "\"") == (EscapeChar(s[0]) + Spelled(s[1..])) + "\"";
    } else {
      assert WriteText(s, "") == "\"";
    }
  }

  /** A string prints between quotes, character by character, the special ones escaped. */
  lemma StringPrinted(s: string)
    ensures Print(Str(s)) == "\"" + Spelled(s) + "\""
  {
    TextSpelled(s);
  }

  lemma {:induction false} PlainSpelled(s: string)
    requires forall i | 0 <= i < |s| :: !Special(s[i])
    ensures Spelled(s) == s
  {
    if |s| > 0 {
      PlainSpelled(s[1..]);
      assert s == [s[0]] + s[1..];
    }
  }

  /** Text without special characters stands between its quotes as it is. */
  lemma PlainPrinted(s: string)
    requires forall i | 0 <= i < |s| :: !Special(s[i])
    ensures Print(Str(s)) == "\"" + s + "\""
  {
    PlainSpelled(s);
    StringPrinted(s);
  }

  // ---------- Numbers and words ----------

  /** A number below ten prints as its digit, a larger one as its tens followed by its last
      digit, and a negative one as a hyphen and its opposite. */
  lemma NumberPrinted(n: int)
    ensures var s := Print(Int(n));
            if n < 0 then s == "-" + Print(Int(-n))
            else if n < 10 then s == [(48 + n) as char]
            else s == Print(Int(n / 10)) + [(48 + n % 10) as char]
  {
    if n < 0 {
      assert Decimal(-n) + "" == Decimal(-n);
    } else {
      assert Decimal(n) + "" == Decimal(n);
      assert Decimal(n / 10) + "" == Decimal(n / 10);
    }
  }

  lemma WordsPrinted()
    ensures Print(Null) == "null" && Print(Bool(true)) == "true" && Print(Bool(false)) == "false"
  {
    assert "null" + "" == "null" && "true" + "" == "true" && "false" + "" == "false";
  }
}
