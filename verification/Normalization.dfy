/** From program values to canonical text: normalization with its errors, dictionaries in
    insertion order, the sort the printer applies to them, and freezing for contracts. */
module Normalization {
  import opened Wrappers
  import opened Text
  import opened CanonicalJson

  /** A dictionary entry: under a string key, or under a key of some other type, in which
      case its value is never reached. */
  datatype Field = StrField(key: string, value: PyValue) | OtherField

  /** `PyObject` is any value of a type canonical JSON does not support. */
  datatype PyValue =
    | PyNone
    | PyBool(flag: bool)
    | PyInt(number: int)
    | PyStr(text: string)
    | PyFloat
    | PyList(items: seq<PyValue>)
    | PyTuple(items: seq<PyValue>)
    | PyDict(fields: seq<Field>)
    | PyFrozenMap(fields: seq<Field>)
    | PyObject

  datatype PlainField = PlainField(key: string, value: Plain)

  /** A normalized value; dictionaries still remember their insertion order. */
  datatype Plain =
    | PlainNull
    | PlainBool(flag: bool)
    | PlainInt(number: int)
    | PlainStr(text: string)
    | PlainList(items: seq<Plain>)
    | PlainDict(fields: seq<PlainField>)

  datatype CanonicalError = FloatForbidden(path: string) | NonStringKey(path: string) | Unsupported(path: string)

  // ---------- Normalization ----------

  function Normalize(v: PyValue, path: string): Result<Plain, CanonicalError>
    decreases v
  {
    match v
    case PyNone => Ok(PlainNull)
    case PyBool(b) => Ok(PlainBool(b))
    case PyInt(n) => Ok(PlainInt(n))
    case PyStr(s) => Ok(PlainStr(s))
    case PyFloat => Err(FloatForbidden(path))
    case PyList(items) => var plain :- NormalizeItems(items, path, 0); Ok(PlainList(plain))
    case PyTuple(items) => var plain :- NormalizeItems(items, path, 0); Ok(PlainList(plain))
    case PyDict(fields) => var plain :- NormalizeFields(fields, path); Ok(PlainDict(plain))
    case PyFrozenMap(fields) => var plain :- NormalizeFields(fields, path); Ok(PlainDict(plain))
    case PyObject => Err(Unsupported(path))
  }

  function NormalizeItems(items: seq<PyValue>, path: string, index: nat): Result<seq<Plain>, CanonicalError>
    decreases items
  {
    if |items| == 0 then Ok([])
    else
      var first :- Normalize(items[0], path + "[" + Decimal(index) + "]");
      var rest :- NormalizeItems(items[1..], path, index + 1);
      Ok([first] + rest)
  }

  function NormalizeFields(fields: seq<Field>, path: string): Result<seq<PlainField>, CanonicalError>
    decreases fields
  {
    if |fields| == 0 then Ok([])
    else
      match fields[0]
      case OtherField => Err(NonStringKey(path))
      case StrField(key, value) =>
        var first :- Normalize(value, path + "." + key);
        var rest :- NormalizeFields(fields[1..], path);
        Ok([PlainField(key, first)] + rest)
  }

  /** No float, no unsupported value and no non-string key at any depth. */
  predicate Clean(v: PyValue)
    decreases v
  {
    match v
    case PyFloat => false
    case PyObject => false
    case PyList(items) => forall i | 0 <= i < |items| :: Clean(items[i])
    case PyTuple(items) => forall i | 0 <= i < |items| :: Clean(items[i])
    case PyDict(fields) => forall i | 0 <= i < |fields| :: fields[i].StrField? && Clean(fields[i].value)
    case PyFrozenMap(fields) => forall i | 0 <= i < |fields| :: fields[i].StrField? && Clean(fields[i].value)
    case _ => true
  }

  /** What a clean value means as JSON, with lists and tuples alike and mappings unordered. */
  function Meaning(v: PyValue): Json
    requires Clean(v)
    decreases v
  {
    match v
    case PyNone => Null
    case PyBool(b) => Bool(b)
    case PyInt(n) => Int(n)
    case PyStr(s) => Str(s)
    case PyList(items) => Arr(seq(|items|, i requires 0 <= i < |items| => Meaning(items[i])))
    case PyTuple(items) => Arr(seq(|items|, i requires 0 <= i < |items| => Meaning(items[i])))
    case PyDict(fields) => Obj(FieldsMeaning(fields))
    case PyFrozenMap(fields) => Obj(FieldsMeaning(fields))
  }

  function FieldsMeaning(fields: seq<Field>): map<string, Json>
    requires forall i | 0 <= i < |fields| :: fields[i].StrField? && Clean(fields[i].value)
    decreases fields
  {
    if |fields| == 0 then map[]
    else
      map[fields[0].key := Meaning(fields[0].value)] + FieldsMeaning(fields[1..])
  }

  function PlainMeaning(p: Plain): Json
    decreases p
  {
    match p
    case PlainNull => Null
    case PlainBool(b) => Bool(b)
    case PlainInt(n) => Int(n)
    case PlainStr(s) => Str(s)
    case PlainList(items) => Arr(seq(|items|, i requires 0 <= i < |items| => PlainMeaning(items[i])))
    case PlainDict(fields) => Obj(PlainFieldsMeaning(fields))
  }

  function PlainFieldsMeaning(fields: seq<PlainField>): map<string, Json>
    decreases fields
  {
    if |fields| == 0 then map[]
    else
      var PlainField(key, value) := fields[0];
      map[key := PlainMeaning(value)] + PlainFieldsMeaning(fields[1..])
  }

  /** Normalization succeeds exactly on clean values, wherever it started, and keeps their
      meaning. */
  lemma {:induction false} NormalizeExact(v: PyValue, path: string)
    ensures Normalize(v, path).Ok? <==> Clean(v)
    ensures Clean(v) ==> PlainMeaning(Normalize(v, path).value) == Meaning(v)
    decreases v
  {
    match v {
      case PyList(items) => ItemsExact(items, path, 0);
      case PyTuple(items) => ItemsExact(items, path, 0);
      case PyDict(fields) => FieldsExact(fields, path);
      case PyFrozenMap(fields) => FieldsExact(fields, path);
      case _ =>
    }
  }

  lemma {:induction false} ItemsExact(items: seq<PyValue>, path: string, index: nat)
    ensures var r := NormalizeItems(items, path, index);
            && (r.Ok? <==> forall i | 0 <= i < |items| :: Clean(items[i]))
            && (r.Ok? ==>
                  && |r.value| == |items|
                  && forall i | 0 <= i < |items| :: PlainMeaning(r.value[i]) == Meaning(items[i]))
    decreases items
  {
    if |items| > 0 {
      NormalizeExact(items[0], path + "[" + Decimal(index) + "]");
      ItemsExact(items[1..], path, index + 1);
      assert items == [items[0]] + items[1..];
    }
  }

  lemma {:induction false} FieldsExact(fields: seq<Field>, path: string)
    ensures var r := NormalizeFields(fields, path);
            && (r.Ok? <==> forall i | 0 <= i < |fields| :: fields[i].StrField? && Clean(fields[i].value))
            && (r.Ok? ==> PlainFieldsMeaning(r.value) == FieldsMeaning(fields))
    decreases fields
  {
    if |fields| > 0 {
      if fields[0].StrField? { NormalizeExact(fields[0].value, path + "." + fields[0].key); }
      FieldsExact(fields[1..], path);
      assert fields == [fields[0]] + fields[1..];
    }
  }

  /** The value first goes wrong, in reading order, at the place and for the reason the
      error names: everything before that place is clean. */
  ghost predicate FirstFault(v: PyValue, path: string, e: CanonicalError)
    decreases v
  {
    match v
    case PyFloat => e == FloatForbidden(path)
    case PyObject => e == Unsupported(path)
    case PyList(items) => exists i :: ItemFault(items, i, path, 0, e)
    case PyTuple(items) => exists i :: ItemFault(items, i, path, 0, e)
    case PyDict(fields) => exists i :: FieldFault(fields, i, path, e)
    case PyFrozenMap(fields) => exists i :: FieldFault(fields, i, path, e)
    case _ => false
  }

  ghost predicate ItemFault(items: seq<PyValue>, i: int, path: string, index: nat, e: CanonicalError)
    decreases items
  {
    && 0 <= i < |items| && FirstFault(items[i], path + "[" + Decimal(index + i) + "]", e)
    && forall j | 0 <= j < i :: Clean(items[j])
  }

  ghost predicate FieldFault(fields: seq<Field>, i: int, path: string, e: CanonicalError)
    decreases fields
  {
    && 0 <= i < |fields|
    && (match fields[i]
        case OtherField => e == NonStringKey(path)
        case StrField(key, value) => FirstFault(value, path + "." + key, e))
    && forall j | 0 <= j < i :: fields[j].StrField? && Clean(fields[j].value)
  }

  /** A refused value is refused for its first fault, named by kind and path. */
  lemma {:induction false} ErrorNamesFirstFault(v: PyValue, path: string)
    requires Normalize(v, path).Err?
    ensures FirstFault(v, path, Normalize(v, path).error)
    decreases v
  {
    match v {
      case PyList(items) => var i := FirstItemFault(items, path, 0);
      case PyTuple(items) => var i := FirstItemFault(items, path, 0);
      case PyDict(fields) => var i := FirstFieldFault(fields, path);
      case PyFrozenMap(fields) => var i := FirstFieldFault(fields, path);
      case _ =>
    }
  }

  lemma {:induction false} FirstItemFault(items: seq<PyValue>, path: string, index: nat) returns (i: nat)
    requires NormalizeItems(items, path, index).Err?
    ensures ItemFault(items, i, path, index, NormalizeItems(items, path, index).error)
    decreases items
  {
    var place := path + "[" + Decimal(index) + "]";
    NormalizeExact(items[0], place);
    if Normalize(items[0], place).Err? {
      ErrorNamesFirstFault(items[0], place);
      i := 0;
    } else {
      var k := FirstItemFault(items[1..], path, index + 1);
      i := k + 1;
      assert items[i] == items[1..][k];
      assert forall j | 0 < j < i :: items[j] == items[1..][j - 1];
    }
  }

  lemma {:induction false} FirstFieldFault(fields: seq<Field>, path: string) returns (i: nat)
    requires NormalizeFields(fields, path).Err?
    ensures FieldFault(fields, i, path, NormalizeFields(fields, path).error)
    decreases fields
  {
    match fields[0] {
      case OtherField => i := 0;
      case StrField(key, value) =>
        var place := path + "." + key;
        NormalizeExact(value, place);
        if Normalize(value, place).Err? {
          ErrorNamesFirstFault(value, place);
          i := 0;
        } else {
          var k := FirstFieldFault(fields[1..], path);
          i := k + 1;
          assert fields[i] == fields[1..][k];
          assert forall j | 0 < j < i :: fields[j] == fields[1..][j - 1];
        }
    }
  }

  // ---------- Printing with sorted keys ----------

  function KeysOf(fields: seq<PlainField>): seq<string> {
    seq(|fields|, i requires 0 <= i < |fields| => fields[i].key)
  }

  /** Where a dictionary holds a key. */
  function IndexOf(fields: seq<PlainField>, key: string): (i: nat)
    requires key in KeysOf(fields)
    ensures i < |fields| && fields[i].key == key
  {
    if fields[0].key == key then 0
    else
      assert KeysOf(fields)[1..] == KeysOf(fields[1..]);
      1 + IndexOf(fields[1..], key)
  }

  lemma {:induction false} InsertKeyMembers(key: string, keys: seq<string>)
    ensures forall k :: k in InsertKey(key, keys) <==> k == key || k in keys
  {
    if |keys| > 0 && !Less(key, keys[0]) {
      InsertKeyMembers(key, keys[1..]);
      assert forall k :: k in keys <==> k == keys[0] || k in keys[1..];
    }
  }

  lemma {:induction false} SortKeysMembers(keys: seq<string>)
    ensures forall k :: k in SortKeys(keys) <==> k in keys
  {
    if |keys| > 0 {
      SortKeysMembers(keys[1..]);
      InsertKeyMembers(keys[0], SortKeys(keys[1..]));
      assert forall k :: k in keys <==> k == keys[0] || k in keys[1..];
    }
  }

  /** `dumps` with sorted keys, over dictionaries in insertion order. */
  function Dump(p: Plain, rest: string): string
    decreases p
  {
    match p
    case PlainNull => "null" + rest
    case PlainBool(b) => if b then "true" + rest else "false" + rest
    case PlainInt(n) => WriteInt(n, rest)
    case PlainStr(s) => WriteString(s, rest)
    case PlainList(items) =>
      if |items| == 0 then "[]" + rest
      else "[" + Dump(items[0], DumpItems(items[1..], rest))
    case PlainDict(fields) =>
      var keys := SortKeys(KeysOf(fields));
      SortKeysMembers(KeysOf(fields));
      if |keys| == 0 then "{}" + rest
      else "{" + DumpField(p, keys[0], DumpFields(p, keys[1..], rest))
  }

  function DumpItems(items: seq<Plain>, rest: string): string
    decreases items
  {
    if |items| == 0 then "]" + rest
    else "," + Dump(items[0], DumpItems(items[1..], rest))
  }

  function DumpFields(p: Plain, keys: seq<string>, rest: string): string
    requires p.PlainDict? && forall k | k in keys :: k in KeysOf(p.fields)
    decreases p, |keys|, 1
  {
    if |keys| == 0 then "}" + rest
    else "," + DumpField(p, keys[0], DumpFields(p, keys[1..], rest))
  }

  function DumpField(p: Plain, key: string, rest: string): string
    requires p.PlainDict? && key in KeysOf(p.fields)
    decreases p, 0, 0
  {
    WriteString(key, ":" + Dump(p.fields[IndexOf(p.fields, key)].value, rest))
  }

  /** The keys of every dictionary are distinct, as a dictionary keeps them. */
  predicate KeyedOnce(p: Plain)
    decreases p
  {
    match p
    case PlainList(items) => forall i | 0 <= i < |items| :: KeyedOnce(items[i])
    case PlainDict(fields) => Distinct(KeysOf(fields)) && forall i | 0 <= i < |fields| :: KeyedOnce(fields[i].value)
    case _ => true
  }

  lemma {:induction false} PlainFieldAt(fields: seq<PlainField>, i: nat)
    requires Distinct(KeysOf(fields)) && i < |fields|
    ensures fields[i].key in PlainFieldsMeaning(fields)
    ensures PlainFieldsMeaning(fields)[fields[i].key] == PlainMeaning(fields[i].value)
  {
    hide PlainMeaning;
    var keys := KeysOf(fields);
    assert KeysOf(fields[1..]) == keys[1..];
    if i > 0 {
      assert Distinct(keys[1..]);
      PlainFieldAt(fields[1..], i - 1);
    } else {
      PlainKeys(fields[1..]);
      assert forall j | 0 < j < |keys| :: keys[0] != keys[j];
    }
  }

  lemma {:induction false} PlainKeys(fields: seq<PlainField>)
    ensures PlainFieldsMeaning(fields).Keys == Elements(KeysOf(fields))
  {
    hide PlainMeaning;
    if |fields| > 0 {
      PlainKeys(fields[1..]);
      assert KeysOf(fields) == [fields[0].key] + KeysOf(fields[1..]);
    }
  }

  /** The insertion order of dictionaries cannot show: the text is the canonical text of
      the unordered meaning. */
  lemma {:induction false} DumpIsWrite(p: Plain, rest: string)
    requires KeyedOnce(p)
    ensures Dump(p, rest) == Write(PlainMeaning(p), rest)
    decreases p, 1
  {
    match p {
      case PlainList(items) =>
        if |items| > 0 {
          DumpItemsIsWrite(items[1..], rest);
          DumpIsWrite(items[0], DumpItems(items[1..], rest));
          var values := PlainMeaning(p).items;
          assert values[1..] == seq(|items[1..]|, i requires 0 <= i < |items[1..]| => PlainMeaning(items[1..][i]));
        }
      case PlainDict(fields) =>
        var keys := SortKeys(KeysOf(fields));
        SortKeysMembers(KeysOf(fields));
        SortKeysCanonical(KeysOf(fields));
        PlainKeys(fields);
        if |keys| > 0 {
          DumpFieldsIsWrite(p, keys[1..], rest);
          DumpFieldIsWrite(p, keys[0], DumpFields(p, keys[1..], rest));
        }
      case _ =>
    }
  }

  lemma {:induction false} DumpItemsIsWrite(items: seq<Plain>, rest: string)
    requires forall i | 0 <= i < |items| :: KeyedOnce(items[i])
    ensures DumpItems(items, rest)
              == WriteItems(seq(|items|, i requires 0 <= i < |items| => PlainMeaning(items[i])), rest)
    decreases items
  {
    if |items| > 0 {
      DumpItemsIsWrite(items[1..], rest);
      DumpIsWrite(items[0], DumpItems(items[1..], rest));
      var values := seq(|items|, i requires 0 <= i < |items| => PlainMeaning(items[i]));
      assert values[1..] == seq(|items[1..]|, i requires 0 <= i < |items[1..]| => PlainMeaning(items[1..][i]));
    }
  }

  lemma {:induction false} DumpFieldIsWrite(p: Plain, key: string, rest: string)
    requires KeyedOnce(p) && p.PlainDict? && key in KeysOf(p.fields)
    ensures key in PlainFieldsMeaning(p.fields)
    ensures DumpField(p, key, rest) == WriteField(PlainMeaning(p), key, rest)
    decreases p, 0, 0
  {
    var i := IndexOf(p.fields, key);
    PlainFieldAt(p.fields, i);
    DumpIsWrite(p.fields[i].value, rest);
  }

  lemma {:induction false} DumpFieldsIsWrite(p: Plain, keys: seq<string>, rest: string)
    requires KeyedOnce(p) && p.PlainDict? && forall k | k in keys :: k in KeysOf(p.fields)
    ensures forall k | k in keys :: k in PlainFieldsMeaning(p.fields)
    ensures DumpFields(p, keys, rest) == WriteFields(PlainMeaning(p), keys, rest)
    decreases p, 0, |keys|
  {
    PlainKeys(p.fields);
    if |keys| > 0 {
      DumpFieldsIsWrite(p, keys[1..], rest);
      DumpFieldIsWrite(p, keys[0], DumpFields(p, keys[1..], rest));
    }
  }

  // ---------- Canonical text of program values ----------

  function NamesOf(fields: seq<Field>): seq<string>
    requires forall i | 0 <= i < |fields| :: fields[i].StrField?
  {
    seq(|fields|, i requires 0 <= i < |fields| => fields[i].key)
  }

  /** A clean value whose mappings hold each key once, as every mapping does. */
  predicate Canonical(v: PyValue)
    decreases v
  {
    match v
    case PyFloat => false
    case PyObject => false
    case PyList(items) => forall i | 0 <= i < |items| :: Canonical(items[i])
    case PyTuple(items) => forall i | 0 <= i < |items| :: Canonical(items[i])
    case PyDict(fields) => CanonicalFields(fields)
    case PyFrozenMap(fields) => CanonicalFields(fields)
    case _ => true
  }

  predicate CanonicalFields(fields: seq<Field>)
    decreases fields
  {
    && (forall i | 0 <= i < |fields| :: fields[i].StrField? && Canonical(fields[i].value))
    && Distinct(NamesOf(fields))
  }

  lemma {:induction false} CanonicalIsClean(v: PyValue)
    requires Canonical(v)
    ensures Clean(v)
    decreases v
  {
    match v {
      case PyList(items) => forall i | 0 <= i < |items| { CanonicalIsClean(items[i]); }
      case PyTuple(items) => forall i | 0 <= i < |items| { CanonicalIsClean(items[i]); }
      case PyDict(fields) => forall i | 0 <= i < |fields| { CanonicalIsClean(fields[i].value); }
      case PyFrozenMap(fields) => forall i | 0 <= i < |fields| { CanonicalIsClean(fields[i].value); }
      case _ =>
    }
  }

  lemma {:induction false} NormalizeKeyed(v: PyValue, path: string)
    requires Canonical(v)
    ensures Normalize(v, path).Ok? && KeyedOnce(Normalize(v, path).value)
    decreases v, 1
  {
    match v {
      case PyList(items) => ItemsKeyed(items, path, 0);
      case PyTuple(items) => ItemsKeyed(items, path, 0);
      case PyDict(fields) => FieldsKeyed(fields, path);
      case PyFrozenMap(fields) => FieldsKeyed(fields, path);
      case _ =>
    }
  }

  lemma {:induction false} ItemsKeyed(items: seq<PyValue>, path: string, index: nat)
    requires forall i | 0 <= i < |items| :: Canonical(items[i])
    ensures var r := NormalizeItems(items, path, index);
            r.Ok? && forall i | 0 <= i < |r.value| :: KeyedOnce(r.value[i])
    decreases items
  {
    if |items| > 0 {
      NormalizeKeyed(items[0], path + "[" + Decimal(index) + "]");
      ItemsKeyed(items[1..], path, index + 1);
    }
  }

  lemma {:induction false} FieldsKeyed(fields: seq<Field>, path: string)
    requires forall i | 0 <= i < |fields| :: fields[i].StrField? && Canonical(fields[i].value)
    ensures var r := NormalizeFields(fields, path);
            && r.Ok? && KeysOf(r.value) == NamesOf(fields) && |r.value| == |fields|
            && forall i | 0 <= i < |r.value| :: KeyedOnce(r.value[i].value)
    decreases fields
  {
    if |fields| > 0 {
      NormalizeKeyed(fields[0].value, path + "." + fields[0].key);
      FieldsKeyed(fields[1..], path);
      var plain := NormalizeFields(fields, path).value;
      assert plain[1..] == NormalizeFields(fields[1..], path).value;
      assert KeysOf(plain) == [plain[0].key] + KeysOf(plain[1..]);
      assert NamesOf(fields) == [fields[0].key] + NamesOf(fields[1..]);
    }
  }

  function CanonicalText(v: PyValue): Result<string, CanonicalError> {
    var plain :- Normalize(v, "$");
    Ok(Dump(plain, ""))
  }

  /** The text of a canonical value is the canonical text of its meaning. */
  lemma CanonicalTextOfMeaning(v: PyValue)
    requires Canonical(v)
    ensures Clean(v) && CanonicalText(v) == Ok(Print(Meaning(v)))
  {
    hide Normalize, Dump, Clean, Canonical, KeyedOnce, Meaning, PlainMeaning;
    CanonicalIsClean(v);
    NormalizeExact(v, "$");
    NormalizeKeyed(v, "$");
    DumpIsWrite(Normalize(v, "$").value, "");
  }

  /** Two values have equal text exactly when they mean the same JSON value: the same up to
      the order of mappings and the difference between lists and tuples, but with `True`
      and `1` apart at every depth. */
  lemma CanonicalTextExact(v: PyValue, w: PyValue)
    requires Canonical(v) && Canonical(w)
    ensures Clean(v) && Clean(w)
    ensures CanonicalText(v) == CanonicalText(w) <==> Meaning(v) == Meaning(w)
  {
    hide CanonicalText, Meaning, Clean, Canonical;
    CanonicalTextOfMeaning(v);
    CanonicalTextOfMeaning(w);
    PrintExact(Meaning(v), Meaning(w));
  }

  // ---------- Freezing ----------

  /** What a contract map may hold before it is frozen: no tuple and no frozen map yet. */
  predicate Thawed(v: PyValue)
    decreases v
  {
    match v
    case PyTuple(_) => false
    case PyFrozenMap(_) => false
    case PyList(items) => forall i | 0 <= i < |items| :: Thawed(items[i])
    case PyDict(fields) => forall i | 0 <= i < |fields| :: fields[i].StrField? ==> Thawed(fields[i].value)
    case _ => true
  }

  function Freeze(v: PyValue): PyValue
    decreases v
  {
    match v
    case PyList(items) => PyTuple(seq(|items|, i requires 0 <= i < |items| => Freeze(items[i])))
    case PyDict(fields) => PyFrozenMap(FreezeFields(fields))
    case _ => v
  }

  function FreezeFields(fields: seq<Field>): (frozen: seq<Field>)
    ensures |frozen| == |fields|
    decreases fields
  {
    if |fields| == 0 then []
    else
      match fields[0]
      case StrField(key, value) => [StrField(key, Freeze(value))] + FreezeFields(fields[1..])
      case OtherField => [OtherField] + FreezeFields(fields[1..])
  }

  function Thaw(v: PyValue): PyValue
    decreases v
  {
    match v
    case PyTuple(items) => PyList(seq(|items|, i requires 0 <= i < |items| => Thaw(items[i])))
    case PyFrozenMap(fields) => PyDict(ThawFields(fields))
    case _ => v
  }

  function ThawFields(fields: seq<Field>): (thawed: seq<Field>)
    ensures |thawed| == |fields|
    decreases fields
  {
    if |fields| == 0 then []
    else
      match fields[0]
      case StrField(key, value) => [StrField(key, Thaw(value))] + ThawFields(fields[1..])
      case OtherField => [OtherField] + ThawFields(fields[1..])
  }

  /** Thawing a frozen contract value gives back the value that was frozen. */
  lemma {:induction false} FreezeRoundTrip(v: PyValue)
    requires Thawed(v)
    ensures Thaw(Freeze(v)) == v
    decreases v
  {
    match v {
      case PyList(items) =>
        forall i | 0 <= i < |items| ensures Thaw(Freeze(items[i])) == items[i] { FreezeRoundTrip(items[i]); }
        assert Thaw(Freeze(v)).items == items;
      case PyDict(fields) => FreezeFieldsRoundTrip(fields);
      case _ =>
    }
  }

  lemma {:induction false} FreezeFieldsRoundTrip(fields: seq<Field>)
    requires forall i | 0 <= i < |fields| :: fields[i].StrField? ==> Thawed(fields[i].value)
    ensures ThawFields(FreezeFields(fields)) == fields
    decreases fields
  {
    if |fields| > 0 {
      match fields[0] {
        case StrField(key, value) => FreezeRoundTrip(value);
        case OtherField =>
      }
      FreezeFieldsRoundTrip(fields[1..]);
      assert FreezeFields(fields)[1..] == FreezeFields(fields[1..]);
      assert fields == [fields[0]] + fields[1..];
    }
  }

  /** Freezing does not show in the canonical meaning. */
  lemma {:induction false} FreezeKeepsMeaning(v: PyValue)
    requires Clean(v)
    ensures Clean(Freeze(v)) && Meaning(Freeze(v)) == Meaning(v)
    decreases v
  {
    match v {
      case PyList(items) =>
        forall i | 0 <= i < |items| ensures Clean(Freeze(items[i])) && Meaning(Freeze(items[i])) == Meaning(items[i]) {
          FreezeKeepsMeaning(items[i]);
        }
        assert Meaning(Freeze(v)).items == Meaning(v).items;
      case PyDict(fields) => FreezeFieldsKeepMeaning(fields);
      case _ =>
    }
  }

  lemma {:induction false} FreezeFieldsKeepMeaning(fields: seq<Field>)
    requires forall i | 0 <= i < |fields| :: fields[i].StrField? && Clean(fields[i].value)
    ensures var frozen := FreezeFields(fields);
            && (forall i | 0 <= i < |frozen| :: frozen[i].StrField? && Clean(frozen[i].value))
            && FieldsMeaning(frozen) == FieldsMeaning(fields)
    decreases fields
  {
    if |fields| > 0 {
      FreezeKeepsMeaning(fields[0].value);
      FreezeFieldsKeepMeaning(fields[1..]);
      assert FreezeFields(fields)[1..] == FreezeFields(fields[1..]);
    }
  }

  lemma {:induction false} FreezeKeepsCanonical(v: PyValue)
    requires Canonical(v)
    ensures Canonical(Freeze(v))
    decreases v
  {
    match v {
      case PyList(items) => forall i | 0 <= i < |items| { FreezeKeepsCanonical(items[i]); }
      case PyDict(fields) =>
        FreezeFieldsKeepCanonical(fields);
        FreezeKeepsNames(fields);
      case _ =>
    }
  }

  lemma {:induction false} FreezeFieldsKeepCanonical(fields: seq<Field>)
    requires forall i | 0 <= i < |fields| :: fields[i].StrField? && Canonical(fields[i].value)
    ensures var frozen := FreezeFields(fields);
            forall i | 0 <= i < |frozen| :: frozen[i].StrField? && Canonical(frozen[i].value)
    decreases fields
  {
    if |fields| > 0 {
      FreezeKeepsCanonical(fields[0].value);
      FreezeFieldsKeepCanonical(fields[1..]);
      FrozenHead(fields);
    }
  }

  lemma FrozenHead(fields: seq<Field>)
    requires |fields| > 0 && fields[0].StrField?
    ensures FreezeFields(fields)
         == [StrField(fields[0].key, Freeze(fields[0].value))] + FreezeFields(fields[1..])
  {
  }

  lemma {:induction false} FreezeKeepsNames(fields: seq<Field>)
    requires forall i | 0 <= i < |fields| :: fields[i].StrField?
    ensures var frozen := FreezeFields(fields);
            (forall i | 0 <= i < |frozen| :: frozen[i].StrField?) && NamesOf(frozen) == NamesOf(fields)
  {
    if |fields| > 0 {
      FreezeKeepsNames(fields[1..]);
      assert FreezeFields(fields)[1..] == FreezeFields(fields[1..]);
      assert NamesOf(fields) == [fields[0].key] + NamesOf(fields[1..]);
    }
  }

  /** Freezing a canonical value changes neither its text nor, with it, its digest. */
  lemma FreezeKeepsText(v: PyValue)
    requires Canonical(v)
    ensures Canonical(Freeze(v)) && CanonicalText(Freeze(v)) == CanonicalText(v)
  {
    hide CanonicalText, Meaning, Clean, Canonical, Freeze;
    FreezeKeepsCanonical(v);
    CanonicalIsClean(v);
    FreezeKeepsMeaning(v);
    CanonicalTextOfMeaning(v);
    CanonicalTextOfMeaning(Freeze(v));
  }
}
