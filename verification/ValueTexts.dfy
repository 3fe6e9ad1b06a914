/** The canonical text of program values, put together from the texts of their parts. */
module ValueTexts {
  import opened Wrappers
  import opened CanonicalJson
  import opened PrintedText
  import opened Normalization

  lemma ScalarText(v: PyValue, meaning: Json)
    requires v.PyNone? || v.PyBool? || v.PyInt? || v.PyStr?
    requires meaning == Meaning(v)
    ensures CanonicalText(v) == Ok(Print(meaning))
  {
    CanonicalTextOfMeaning(v);
  }

  /** None, the two Booleans, integers and strings. */
  lemma ScalarTexts(n: int, s: string)
    ensures CanonicalText(PyNone) == Ok("null")
    ensures CanonicalText(PyBool(true)) == Ok("true")
    ensures CanonicalText(PyBool(false)) == Ok("false")
    ensures CanonicalText(PyInt(n)) == Ok(Print(Int(n)))
    ensures CanonicalText(PyStr(s)) == Ok("\"" + Spelled(s) + "\"")
  {
    ScalarText(PyNone, Null);
    ScalarText(PyBool(true), Bool(true));
    ScalarText(PyBool(false), Bool(false));
    ScalarText(PyInt(n), Int(n));
    ScalarText(PyStr(s), Str(s));
    WordsPrinted();
    StringPrinted(s);
  }

  /** The text of a value that has one. */
  function TextOf(v: PyValue): string {
    match CanonicalText(v)
    case Ok(text) => text
    case Err(_) => ""
  }

  function TextsOf(items: seq<PyValue>): seq<string> {
    seq(|items|, i requires 0 <= i < |items| => TextOf(items[i]))
  }

  lemma TextMeans(v: PyValue)
    requires Canonical(v)
    ensures Clean(v) && CanonicalText(v) == Ok(Print(Meaning(v))) && TextOf(v) == Print(Meaning(v))
  {
    hide CanonicalText, Print, Meaning, Canonical, Clean;
    CanonicalTextOfMeaning(v);
  }

  /** A list and the tuple of the same items have the same text: their items' texts between
      brackets. */
  lemma SequenceText(items: seq<PyValue>)
    requires forall i | 0 <= i < |items| :: Canonical(items[i])
    ensures CanonicalText(PyList(items)) == Ok("[" + Joined(TextsOf(items)) + "]")
    ensures CanonicalText(PyTuple(items)) == Ok("[" + Joined(TextsOf(items)) + "]")
  {
    assert Canonical(PyList(items)) && Canonical(PyTuple(items));
    hide Print, TextOf, Joined, CanonicalText, Canonical;
    CanonicalIsClean(PyList(items));
    var meanings := Meaning(PyList(items)).items;
    forall i | 0 <= i < |items| ensures TextsOf(items)[i] == ItemTexts(meanings)[i] {
      TextMeans(items[i]);
    }
    assert TextsOf(items) == ItemTexts(meanings);
    ListPrinted(meanings);
    CanonicalTextOfMeaning(PyList(items));
    CanonicalTextOfMeaning(PyTuple(items));
  }

  /** The places of the dictionary's fields, in code-point order of their keys. */
  predicate InKeyOrder(fields: seq<Field>, places: seq<nat>) {
    && (forall i | 0 <= i < |fields| :: fields[i].StrField?)
    && (forall i | 0 <= i < |places| :: places[i] < |fields|)
    && (forall p | 0 <= p < |fields| :: p in places)
    && (forall i | 0 < i < |places| :: Precedes(fields[places[i - 1]].key, fields[places[i]].key))
  }

  function MemberAt(f: Field): string {
    match f
    case StrField(key, value) => "\"" + Spelled(key) + "\"" + ":" + TextOf(value)
    case OtherField => ""
  }

  function MembersAt(fields: seq<Field>, places: seq<nat>): seq<string>
    requires forall i | 0 <= i < |places| :: places[i] < |fields|
  {
    seq(|places|, i requires 0 <= i < |places| => MemberAt(fields[places[i]]))
  }

  lemma {:induction false} FieldMeans(fields: seq<Field>, p: nat)
    requires forall i | 0 <= i < |fields| :: fields[i].StrField? && Clean(fields[i].value)
    requires p < |fields| && forall i | p < i < |fields| :: fields[i].key != fields[p].key
    ensures fields[p].key in FieldsMeaning(fields)
    ensures FieldsMeaning(fields)[fields[p].key] == Meaning(fields[p].value)
    decreases |fields|
  {
    hide Meaning, Clean;
    if p > 0 {
      FieldMeans(fields[1..], p - 1);
    } else {
      KeysMeant(fields[1..]);
      assert fields[0].key !in FieldsMeaning(fields[1..]);
    }
  }

  lemma {:induction false} KeysMeant(fields: seq<Field>)
    requires forall i | 0 <= i < |fields| :: fields[i].StrField? && Clean(fields[i].value)
    ensures forall k | k in FieldsMeaning(fields) :: exists i :: 0 <= i < |fields| && fields[i].key == k
    decreases |fields|
  {
    hide Meaning, Clean;
    if |fields| > 0 {
      KeysMeant(fields[1..]);
      forall k | k in FieldsMeaning(fields) ensures exists i :: 0 <= i < |fields| && fields[i].key == k {
        if k != fields[0].key {
          assert k in FieldsMeaning(fields[1..]);
          var i :| 0 <= i < |fields[1..]| && fields[1..][i].key == k;
          assert fields[i + 1].key == k;
        }
      }
    }
  }

  lemma KeysOfPlaces(fields: seq<Field>, places: seq<nat>) returns (keys: seq<string>)
    requires CanonicalFields(fields) && InKeyOrder(fields, places)
    ensures forall i | 0 <= i < |fields| :: Clean(fields[i].value)
    ensures |keys| == |places| && forall i | 0 <= i < |keys| :: keys[i] == fields[places[i]].key
    ensures ListsKeys(keys, FieldsMeaning(fields))
    ensures forall i | 0 <= i < |keys| ::
              keys[i] in FieldsMeaning(fields)
              && FieldsMeaning(fields)[keys[i]] == Meaning(fields[places[i]].value)
  {
    hide Meaning, Clean, Canonical, Precedes, FieldsMeaning;
    keys := seq(|places|, i requires 0 <= i < |places| => fields[places[i]].key);
    forall i | 0 <= i < |fields| ensures Clean(fields[i].value) {
      CanonicalIsClean(fields[i].value);
    }
    forall p | 0 <= p < |fields|
      ensures fields[p].key in FieldsMeaning(fields)
      ensures FieldsMeaning(fields)[fields[p].key] == Meaning(fields[p].value)
    {
      forall i | p < i < |fields| ensures fields[i].key != fields[p].key {
        assert NamesOf(fields)[p] != NamesOf(fields)[i];
      }
      FieldMeans(fields, p);
    }
    KeysMeant(fields);
    forall k | k in FieldsMeaning(fields) ensures k in keys {
      var p :| 0 <= p < |fields| && fields[p].key == k;
      assert p in places;
      var i :| 0 <= i < |places| && places[i] == p;
      assert keys[i] == k;
    }
  }

  lemma MemberMeans(f: Field, m: map<string, Json>)
    requires f.StrField? && Canonical(f.value) && Clean(f.value) && f.key in m && m[f.key] == Meaning(f.value)
    ensures MemberText(m, f.key) == MemberAt(f)
  {
    hide Print, Meaning, Canonical, Clean, TextOf;
    TextMeans(f.value);
    StringPrinted(f.key);
  }

  lemma MappingMeans(fields: seq<Field>)
    requires CanonicalFields(fields)
    ensures forall i | 0 <= i < |fields| :: fields[i].StrField? && Clean(fields[i].value)
    ensures CanonicalText(PyDict(fields)) == Ok(Print(Obj(FieldsMeaning(fields))))
    ensures CanonicalText(PyFrozenMap(fields)) == Ok(Print(Obj(FieldsMeaning(fields))))
  {
    assert Canonical(PyDict(fields)) && Canonical(PyFrozenMap(fields));
    hide Print, CanonicalText, Canonical, FieldsMeaning;
    CanonicalTextOfMeaning(PyDict(fields));
    CanonicalTextOfMeaning(PyFrozenMap(fields));
  }

  lemma MembersMean(fields: seq<Field>, places: seq<nat>, m: map<string, Json>, keys: seq<string>)
    requires CanonicalFields(fields) && |keys| == |places| && forall i | 0 <= i < |places| :: places[i] < |fields|
    requires forall i | 0 <= i < |fields| :: Clean(fields[i].value)
    requires forall i | 0 <= i < |keys| ::
               keys[i] == fields[places[i]].key && keys[i] in m && m[keys[i]] == Meaning(fields[places[i]].value)
    ensures MemberTexts(m, keys) == MembersAt(fields, places)
  {
    hide Print, Meaning, Canonical, Clean, MemberText, MemberAt;
    forall i | 0 <= i < |keys| ensures MemberTexts(m, keys)[i] == MembersAt(fields, places)[i] {
      MemberMeans(fields[places[i]], m);
    }
  }

  /** A dictionary and the frozen map of the same fields have the same text, in whatever
      order they were filled: their members in code-point order of the keys, each as key,
      colon and value, between braces. */
  lemma MappingText(fields: seq<Field>, places: seq<nat>)
    requires CanonicalFields(fields) && InKeyOrder(fields, places)
    ensures CanonicalText(PyDict(fields)) == Ok("{" + Joined(MembersAt(fields, places)) + "}")
    ensures CanonicalText(PyFrozenMap(fields)) == Ok("{" + Joined(MembersAt(fields, places)) + "}")
  {
    hide Print, Meaning, Canonical, Clean, FieldsMeaning, ListsKeys, Joined, MembersAt, MemberTexts, CanonicalText,
         Precedes;
    var keys := KeysOfPlaces(fields, places);
    MappingMeans(fields);
    MappingPrinted(FieldsMeaning(fields), keys);
    MembersMean(fields, places, FieldsMeaning(fields), keys);
  }
}
