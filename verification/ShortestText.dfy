/** No JSON text of a value is shorter than its canonical one, whatever white space, escapes,
    numerals or repeated keys it is written with. */
module ShortestText {
  import opened Text
  import opened CanonicalJson
  import opened PrintedText

  // ---------- Strings and numbers ----------

  lemma {:induction false} SpelledCons(c: char, s: string)
    ensures |Spelled([c] + s)| == (if Special(c) then |EscapeOf(c)| else 1) + |Spelled(s)|
  {
    assert ([c] + s)[1..] == s;
  }

  /** An escape is never shorter than how its character is printed. */
  lemma EscapeNotShorter(s: string)
    requires ParseEscape(s).Parse?
    ensures var c := ParseEscape(s).value;
            |s| + 1 - |ParseEscape(s).rest| >= if Special(c) then |EscapeOf(c)| else 1
  {
    if s[0] == 'u' { LongEscape(s[1..]); }
  }

  lemma LongEscape(s: string)
    requires ParseUnicodeEscape(s).Parse?
    ensures |s| - |ParseUnicodeEscape(s).rest| >= 4
  {
    hide HexValue;
  }

  lemma {:induction false} TextNotShorter(s: string)
    requires ParseText(s).Parse?
    ensures |s| - |ParseText(s).rest| >= |Spelled(ParseText(s).value)| + 1
    decreases |s|
  {
    hide ParseEscape, EscapeOf;
    if s[0] != '"' {
      var head := if s[0] == '\\' then ParseEscape(s[1..]) else Parse(s[0], s[1..]);
      TextNotShorter(head.rest);
      SpelledCons(head.value, ParseText(head.rest).value);
      if s[0] == '\\' { EscapeNotShorter(s[1..]); }
    }
  }

  lemma {:induction false} NumeralBound(s: string)
    requires AllDigits(s)
    ensures Numeral(s) < PowerOfTen(|s|)
  {
    if |s| > 0 {
      NumeralBound(s[..|s| - 1]);
    }
  }

  lemma NaturalNotShorter(s: string)
    requires ParseNatural(s).Parse?
    ensures |s| - |ParseNatural(s).rest| >= |Decimal(ParseNatural(s).value)|
  {
    var n := DigitRun(s);
    NumeralBound(s[..n]);
    DecimalLength(Numeral(s[..n]), n, PowerOfTen(n));
  }

  lemma NumberNotShorter(s: string)
    requires ParseNumber(s).Parse?
    ensures |s| - |ParseNumber(s).rest| >= |Print(ParseNumber(s).value)|
  {
    hide ParseNatural, Decimal;
    if |s| > 0 && s[0] == '-' {
      NaturalNotShorter(s[1..]);
    } else {
      NaturalNotShorter(s);
    }
  }

  // ---------- Joined pieces ----------

  function Total(pieces: seq<string>): nat {
    if |pieces| == 0 then 0 else |pieces[0]| + 1 + Total(pieces[1..])
  }

  lemma {:induction false} JoinedLength(pieces: seq<string>)
    requires |pieces| > 0
    ensures |Joined(pieces)| + 1 == Total(pieces)
  {
    if |pieces| == 1 {
      assert pieces == [pieces[0]];
      assert Total(pieces[1..]) == 0;
    } else {
      JoinedLength(pieces[1..]);
      assert pieces == [pieces[0]] + pieces[1..];
      JoinedFront(pieces[0], pieces[1..]);
    }
  }

  lemma ListLength(items: seq<Json>)
    ensures |Print(Arr(items))| == if |items| == 0 then 2 else Total(ItemTexts(items)) + 1
  {
    hide Print, Joined, Total;
    ListPrinted(items);
    if |items| > 0 {
      JoinedLength(ItemTexts(items));
    } else {
      NothingJoined(ItemTexts(items));
    }
  }

  lemma NothingJoined(pieces: seq<string>)
    requires |pieces| == 0
    ensures |Joined(pieces)| == 0
  {
  }

  lemma TotalCons(item: Json, items: seq<Json>)
    ensures Total(ItemTexts([item] + items)) == |Print(item)| + 1 + Total(ItemTexts(items))
  {
    hide Print;
    FirstText([item] + items);
    assert ([item] + items)[1..] == items;
    assert ItemTexts([item] + items)[1..] == ItemTexts(items);
  }

  // ---------- Mappings, member by member ----------

  function MemberLength(m: map<string, Json>, key: string): nat
    requires key in m
  {
    |MemberText(m, key)| + 1
  }

  function Weight(m: map<string, Json>, keys: seq<string>): nat
    requires forall k | k in keys :: k in m
  {
    if |keys| == 0 then 0 else MemberLength(m, keys[0]) + Weight(m, keys[1..])
  }

  lemma {:induction false} WeightIsTotal(m: map<string, Json>, keys: seq<string>)
    requires forall k | k in keys :: k in m
    ensures Total(MemberTexts(m, keys)) == Weight(m, keys)
  {
    hide MemberText;
    if |keys| > 0 {
      WeightIsTotal(m, keys[1..]);
      FirstMember(m, keys);
      assert MemberTexts(m, keys)[1..] == MemberTexts(m, keys[1..]);
    }
  }

  /** What a mapping's members take, with the comma or brace behind each. */
  function MapWeight(m: map<string, Json>): nat {
    Weight(m, SortedKeys(m.Keys))
  }

  lemma MappingLength(m: map<string, Json>)
    ensures |Print(Obj(m))| == if m == map[] then 2 else MapWeight(m) + 1
  {
    hide Print, Joined, Total, Weight, ListsKeys, MemberText;
    var keys := SortedKeys(m.Keys);
    KeysCanBeListed(m);
    MappingPrinted(m, keys);
    if m == map[] {
      assert |keys| == 0;
      NothingJoined(MemberTexts(m, keys));
    } else {
      assert |keys| > 0 by { assert |m.Keys| > 0 by { var k :| k in m; assert k in m.Keys; } }
      JoinedLength(MemberTexts(m, keys));
      WeightIsTotal(m, keys);
    }
  }

  lemma {:induction false} WeightIgnores(m: map<string, Json>, key: string, value: Json, keys: seq<string>)
    requires key !in m && key !in keys && forall k | k in keys :: k in m
    ensures Weight(m[key := value], keys) == Weight(m, keys)
  {
    hide Print;
    if |keys| > 0 {
      WeightIgnores(m, key, value, keys[1..]);
    }
  }

  lemma {:induction false} WeightInserted(m: map<string, Json>, key: string, keys: seq<string>)
    requires key in m && forall k | k in keys :: k in m
    ensures forall k | k in InsertKey(key, keys) :: k in m
    ensures Weight(m, InsertKey(key, keys)) == MemberLength(m, key) + Weight(m, keys)
  {
    hide MemberLength;
    if |keys| == 0 || Less(key, keys[0]) {
      assert ([key] + keys)[1..] == keys;
    } else {
      WeightInserted(m, key, keys[1..]);
      var more := [keys[0]] + InsertKey(key, keys[1..]);
      assert more[1..] == InsertKey(key, keys[1..]);
    }
  }

  lemma SortedIsSorted(s: set<string>)
    ensures StrictlySorted(SortedKeys(s))
  {
    hide Precedes;
    var keys := SortedKeys(s);
    SortedAscends(s);
    forall n | 0 < n < |keys| ensures Less(keys[n - 1], keys[n]) {
      LessExact(keys[n - 1], keys[n]);
    }
    forall i, j | 0 <= i < j < |keys| ensures Less(keys[i], keys[j]) {
      AdjacentSorted(keys, i, j);
    }
  }

  lemma ElementsExactly(keys: seq<string>, s: set<string>)
    requires forall k :: k in keys <==> k in s
    ensures Elements(keys) == s
  {
  }

  lemma InsertedListing(keys: set<string>, key: string)
    requires key !in keys
    ensures SortedKeys(keys + {key}) == InsertKey(key, SortedKeys(keys))
  {
    hide InsertKey, StrictlySorted, SortedKeys, Elements;
    var listed := SortedKeys(keys);
    SortedIsSorted(keys);
    InsertKeySorted(key, listed);
    SortedListingUnique(InsertKey(key, listed));
    ElementsExactly(InsertKey(key, listed), keys + {key});
  }

  lemma WeightAdds(m: map<string, Json>, key: string, value: Json)
    requires key !in m
    ensures MapWeight(m[key := value]) == MapWeight(m) + MemberLength(m[key := value], key)
  {
    hide MemberLength, Weight, InsertKey;
    var keys, more := SortedKeys(m.Keys), m[key := value];
    InsertedListing(m.Keys, key);
    assert more.Keys == m.Keys + {key};
    WeightInserted(more, key, keys);
    WeightIgnores(m, key, value, keys);
  }

  /** One more member, new or overridden by a later one, weighs at most its own text. */
  lemma OverrideNotHeavier(m: map<string, Json>, key: string, value: Json)
    ensures MapWeight(map[key := value] + m) <= MapWeight(m) + |Print(Str(key))| + |Print(value)| + 2
  {
    hide MapWeight, Print;
    if key in m {
      assert map[key := value] + m == m;
    } else {
      assert map[key := value] + m == m[key := value];
      WeightAdds(m, key, value);
    }
  }

  lemma OneMember(key: string, value: Json)
    ensures MapWeight(map[key := value]) <= |Print(Str(key))| + |Print(value)| + 2
  {
    hide Print;
    assert map[key := value] + map[] == map[key := value];
    OverrideNotHeavier(map[], key, value);
    assert MapWeight(map[]) == 0;
  }

  // ---------- Whole texts ----------

  lemma {:induction false} ValueNotShorter(s: string)
    requires ParseValue(s).Parse?
    ensures |s| - |ParseValue(s).rest| >= |Print(ParseValue(s).value)|
    decreases |s|, 4
  {
    hide Print, ParseText, ParseNumber, ParseItems, ParseMembers;
    WordsPrinted();
    if "null" <= s || "true" <= s || "false" <= s {
    } else if s[0] == '"' {
      TextNotShorter(s[1..]);
      StringPrinted(ParseText(s[1..]).value);
    } else if s[0] == '[' {
      ListNotShorter(s);
    } else if s[0] == '{' {
      MappingNotShorter(s);
    } else {
      NumberNotShorter(s);
    }
  }

  lemma {:induction false} ListNotShorter(s: string)
    requires |s| > 0 && s[0] == '['
    ensures var body := SkipSpace(s[1..]);
            && (|body| > 0 && body[0] == ']' ==> |s| - |body[1..]| >= |Print(Arr([]))|)
            && (ParseItems(body).Parse? ==>
                  |s| - |ParseItems(body).rest| >= |Print(Arr(ParseItems(body).value))|)
    decreases |s|, 2
  {
    hide Print, Total, ItemTexts, ParseItems;
    var body := SkipSpace(s[1..]);
    ListLength([]);
    if ParseItems(body).Parse? {
      ItemsNotShorter(body);
      ListLength(ParseItems(body).value);
    }
  }

  lemma {:induction false} ItemsNotShorter(s: string)
    requires ParseItems(s).Parse?
    ensures |ParseItems(s).value| > 0
    ensures |s| - |ParseItems(s).rest| >= Total(ItemTexts(ParseItems(s).value))
    decreases |s|, 5
  {
    hide Print, Total, ItemTexts, ParseValue;
    ValueNotShorter(s);
    var item := ParseValue(s).value;
    var rest := SkipSpace(ParseValue(s).rest);
    TotalCons(item, []);
    assert [item] + [] == [item];
    assert Total(ItemTexts([])) == 0 by { NoTotal(); }
    if rest[0] != ']' {
      ItemsNotShorter(SkipSpace(rest[1..]));
      TotalCons(item, ParseItems(SkipSpace(rest[1..])).value);
    }
  }

  lemma NoTotal()
    ensures Total(ItemTexts([])) == 0
  {
  }

  lemma {:induction false} MappingNotShorter(s: string)
    requires |s| > 0 && s[0] == '{'
    ensures var body := SkipSpace(s[1..]);
            && (|body| > 0 && body[0] == '}' ==> |s| - |body[1..]| >= |Print(Obj(map[]))|)
            && (ParseMembers(body).Parse? ==>
                  |s| - |ParseMembers(body).rest| >= |Print(Obj(ParseMembers(body).value))|)
    decreases |s|, 3
  {
    hide Print, MapWeight, ParseMembers;
    var body := SkipSpace(s[1..]);
    MappingLength(map[]);
    if ParseMembers(body).Parse? {
      MembersNotShorter(body);
      MappingLength(ParseMembers(body).value);
    }
  }

  lemma {:induction false} MembersNotShorter(s: string)
    requires ParseMembers(s).Parse?
    ensures ParseMembers(s).value != map[]
    ensures |s| - |ParseMembers(s).rest| >= MapWeight(ParseMembers(s).value)
    decreases |s|, 6
  {
    hide Print, MapWeight, ParseField;
    FieldNotShorter(s);
    var (key, value) := ParseField(s).value;
    assert key in ParseMembers(s).value;
    var rest := SkipSpace(ParseField(s).rest);
    if rest[0] == '}' {
      OneMember(key, value);
    } else {
      var others := SkipSpace(rest[1..]);
      MembersNotShorter(others);
      OverrideNotHeavier(ParseMembers(others).value, key, value);
    }
  }

  lemma {:induction false} FieldNotShorter(s: string)
    requires ParseField(s).Parse?
    ensures var (key, value) := ParseField(s).value;
            |s| - |ParseField(s).rest| >= |Print(Str(key))| + 1 + |Print(value)|
    decreases |s|, 5
  {
    hide Print, ParseText, ParseValue;
    TextNotShorter(s[1..]);
    StringPrinted(ParseText(s[1..]).value);
    var colon := SkipSpace(ParseText(s[1..]).rest);
    ValueNotShorter(SkipSpace(colon[1..]));
  }

  /** Every text that reads as a value is at least as long as the value's canonical text. */
  lemma CanonicalIsShortest(text: string)
    requires Loads(text).Some?
    ensures |text| >= |Print(Loads(text).value)|
  {
    hide Print, ParseValue;
    ValueNotShorter(SkipSpace(text));
  }
}
