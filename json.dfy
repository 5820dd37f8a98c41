/**
 * Values produced by `json.loads`, and the Python operations the audit code applies to
 * them (`in`, `.get`, `[key]`, slicing, truthiness, `str()`), including the exceptions
 * those operations raise when a value has an unexpected type.
 */
module Json {
  import opened Outcomes
  import opened Text

  datatype Json =
    | JNull
    | JBool(b: bool)
    | JInt(i: int)
    | JFloat(f: real)
    | JStr(s: string)
    | JArr(items: seq<Json>)
    | JObj(fields: seq<(string, Json)>)

  /** Result of `json.loads(text)`: a value, or the message of a `json.JSONDecodeError`. */
  datatype Decoded = Parsed(value: Json) | DecodeError(msg: string)

  /** `json.loads`, which the model does not implement. */
  type Decoder = string -> Decoded

  /** `type(v).__name__`. */
  function TypeName(v: Json): string {
    match v
    case JNull => "NoneType"
    case JBool(_) => "bool"
    case JInt(_) => "int"
    case JFloat(_) => "float"
    case JStr(_) => "str"
    case JArr(_) => "list"
    case JObj(_) => "dict"
  }

  /**
   * The value a decoded object holds for `key`. A JSON text may repeat a key;
   * `json.loads` keeps the last value, and so does this lookup.
   */
  function Lookup(fields: seq<(string, Json)>, key: string): (r: Option<Json>)
    ensures r.None? <==> forall i :: 0 <= i < |fields| ==> fields[i].0 != key
    ensures r.Some? ==> exists i :: 0 <= i < |fields| && fields[i] == (key, r.value)
  {
    if |fields| == 0 then None
    else if fields[|fields| - 1].0 == key then Some(fields[|fields| - 1].1)
    else
      var r := Lookup(fields[..|fields| - 1], key);
      if r.Some? then
        var i :| 0 <= i < |fields| - 1 && fields[..|fields| - 1][i] == (key, r.value);
        assert fields[i] == (key, r.value);
        r
      else r
  }

  predicate HasKey(fields: seq<(string, Json)>, key: string) {
    Lookup(fields, key).Some?
  }

  /** `d[key] = value` on a dict: the entry keeps its place if present, else goes last. */
  function Put(fields: seq<(string, Json)>, key: string, value: Json): (r: seq<(string, Json)>)
    ensures Lookup(r, key) == Some(value)
  {
    if HasKey(fields, key) then
      var r := seq(|fields|, i requires 0 <= i < |fields| =>
                     if fields[i].0 == key then (key, value) else fields[i]);
      assert r[|r| - 1].0 == key || r[|r| - 1] == fields[|fields| - 1];
      PutLookup(fields, key, value, r);
      r
    else fields + [(key, value)]
  }

  lemma {:induction false} PutLookup(fields: seq<(string, Json)>, key: string, value: Json,
                                     r: seq<(string, Json)>)
    requires HasKey(fields, key)
    requires |r| == |fields|
    requires forall i :: 0 <= i < |fields| ==>
               r[i] == if fields[i].0 == key then (key, value) else fields[i]
    ensures Lookup(r, key) == Some(value)
    decreases |fields|
  {
    if fields[|fields| - 1].0 != key {
      var f := fields[..|fields| - 1];
      assert HasKey(f, key);
      PutLookup(f, key, value, r[..|r| - 1]);
    }
  }

  /** `d[key] = value` leaves the lookup of every other key as it was. */
  lemma PutKeepsOthers(fields: seq<(string, Json)>, key: string, value: Json, other: string)
    requires other != key
    ensures Lookup(Put(fields, key, value), other) == Lookup(fields, other)
  {
    var r := Put(fields, key, value);
    if HasKey(fields, key) {
      ReplaceKeepsOthers(fields, key, value, r, other);
    } else {
      assert r[..|fields|] == fields;
    }
  }

  lemma {:induction false} ReplaceKeepsOthers(fields: seq<(string, Json)>, key: string, value: Json,
                                              r: seq<(string, Json)>, other: string)
    requires other != key
    requires |r| == |fields|
    requires forall i :: 0 <= i < |fields| ==>
               r[i] == if fields[i].0 == key then (key, value) else fields[i]
    ensures Lookup(r, other) == Lookup(fields, other)
    decreases |fields|
  {
    if |fields| > 0 {
      ReplaceKeepsOthers(fields[..|fields| - 1], key, value, r[..|r| - 1], other);
    }
  }

  /** `d[key] = value` never moves the first entry of a non-empty dict. */
  lemma PutKeepsFirst(fields: seq<(string, Json)>, key: string, value: Json)
    requires |fields| > 0
    ensures |Put(fields, key, value)| > 0 && Put(fields, key, value)[0].0 == fields[0].0
  {
  }

  /** A leading entry under another key does not change a lookup. */
  lemma {:induction false} LookupSkipHead(fields: seq<(string, Json)>, key: string)
    requires |fields| > 0 && fields[0].0 != key
    ensures Lookup(fields, key) == Lookup(fields[1..], key)
    decreases |fields|
  {
    if |fields| > 1 && fields[|fields| - 1].0 != key {
      LookupSkipHead(fields[..|fields| - 1], key);
      assert fields[..|fields| - 1][1..] == fields[1..][..|fields[1..]| - 1];
    }
  }

  /** The entries left after dropping every one under `key`. */
  function Without(fields: seq<(string, Json)>, key: string): (r: seq<(string, Json)>)
    ensures |r| <= |fields|
    ensures forall i :: 0 <= i < |r| ==> r[i].0 != key
    ensures forall k :: k != key ==> Lookup(r, k) == Lookup(fields, k)
    decreases |fields|
  {
    if |fields| == 0 then []
    else
      var last := fields[|fields| - 1];
      var rest := Without(fields[..|fields| - 1], key);
      if last.0 == key then rest
      else
        assert (rest + [last])[..|rest|] == rest;
        rest + [last]
  }

  /**
   * `d.items()` of the dict `json.loads` builds: every key once, in the order it first
   * appears, with the value it was given last (see the three lemmas below).
   */
  function Items(fields: seq<(string, Json)>): (r: seq<(string, Json)>)
    ensures |r| <= |fields|
    decreases |fields|
  {
    if |fields| == 0 then []
    else
      var key := fields[0].0;
      assert fields[0] == (key, fields[0].1);
      [(key, Lookup(fields, key).value)] + Items(Without(fields[1..], key))
  }

  /** Each item holds the value a lookup of its key finds. */
  lemma {:induction false} ItemsHoldLookups(fields: seq<(string, Json)>)
    ensures forall i :: 0 <= i < |Items(fields)| ==> Lookup(fields, Items(fields)[i].0) == Some(Items(fields)[i].1)
    decreases |fields|
  {
    if |fields| > 0 {
      var key := fields[0].0;
      var others := Without(fields[1..], key);
      var rest := Items(others);
      ItemsHoldLookups(others);
      var r := Items(fields);
      assert r == [(key, Lookup(fields, key).value)] + rest;
      forall i | 1 <= i < |r| ensures Lookup(fields, r[i].0) == Some(r[i].1) {
        assert rest[i - 1] == r[i];
        assert Lookup(others, rest[i - 1].0) == Some(rest[i - 1].1);
        LookupSkipHead(fields, r[i].0);
      }
    }
  }

  /** No key is listed twice. */
  lemma {:induction false} ItemsKeysDistinct(fields: seq<(string, Json)>)
    ensures forall i, j :: 0 <= i < j < |Items(fields)| ==> Items(fields)[i].0 != Items(fields)[j].0
    decreases |fields|
  {
    if |fields| > 0 {
      var key := fields[0].0;
      var others := Without(fields[1..], key);
      var rest := Items(others);
      ItemsKeysDistinct(others);
      ItemsHoldLookups(others);
      var r := Items(fields);
      assert r == [(key, Lookup(fields, key).value)] + rest;
      forall i | 1 <= i < |r| ensures r[i].0 != key {
        assert rest[i - 1] == r[i];
        assert HasKey(others, rest[i - 1].0);
      }
    }
  }

  /** `key` is the key of one of `items`. */
  predicate Listed(items: seq<(string, Json)>, key: string) {
    exists i :: 0 <= i < |items| && items[i].0 == key
  }

  /** Every key of the object is listed. */
  lemma {:induction false} ItemsCoverKeys(fields: seq<(string, Json)>)
    ensures forall k :: HasKey(fields, k) ==> Listed(Items(fields), k)
    decreases |fields|
  {
    if |fields| > 0 {
      var key := fields[0].0;
      var others := Without(fields[1..], key);
      var rest := Items(others);
      ItemsCoverKeys(others);
      var r := Items(fields);
      assert r == [(key, Lookup(fields, key).value)] + rest;
      forall k | HasKey(fields, k) ensures Listed(r, k) {
        if k != key {
          LookupSkipHead(fields, k);
          assert HasKey(others, k);
          var j :| 0 <= j < |rest| && rest[j].0 == k;
          assert r[j + 1] == rest[j];
        } else {
          assert r[0].0 == k;
        }
      }
    }
  }

  /** Python `key in v`. */
  function In(key: string, v: Json): (r: Outcome<bool>)
    ensures v.JObj? ==> r == Ok(HasKey(v.fields, key))
    ensures r.Raised? <==> !(v.JObj? || v.JArr? || v.JStr?)
  {
    match v
    case JObj(fs) => Ok(HasKey(fs, key))
    case JArr(items) => Ok(JStr(key) in items)
    case JStr(s) => Ok(Contains(s, key))
    case _ => Raised("argument of type '" + TypeName(v) + "' is not iterable")
  }

  /** Python `v.get(key, default)`: only a dict has `.get`. */
  function Get(v: Json, key: string, default: Json): (r: Outcome<Json>)
    ensures r.Ok? <==> v.JObj?
    ensures v.JObj? ==> r.value == Lookup(v.fields, key).GetOr(default)
  {
    match v
    case JObj(fs) => Ok(Lookup(fs, key).GetOr(default))
    case _ => Raised("'" + TypeName(v) + "' object has no attribute 'get'")
  }

  /** Python `v[key]` with a string key. */
  function Index(v: Json, key: string): (r: Outcome<Json>)
    ensures r.Ok? <==> v.JObj? && HasKey(v.fields, key)
    ensures r.Ok? ==> Lookup(v.fields, key) == Some(r.value)
  {
    match v
    case JObj(fs) => if HasKey(fs, key) then Ok(Lookup(fs, key).value) else Raised("'" + key + "'")
    case JArr(_) => Raised("list indices must be integers or slices, not str")
    case JStr(_) => Raised("string indices must be integers, not 'str'")
    case _ => Raised("'" + TypeName(v) + "' object is not subscriptable")
  }

  /** Python `v[:n]`: a list or a string keeps its type; a dict or a scalar raises. */
  function Slice(v: Json, n: nat): (r: Outcome<Json>)
    ensures r.Ok? <==> v.JArr? || v.JStr?
    ensures v.JArr? ==> r == Ok(JArr(Take(v.items, n)))
    ensures v.JStr? ==> r == Ok(JStr(Take(v.s, n)))
  {
    match v
    case JArr(items) => Ok(JArr(Take(items, n)))
    case JStr(s) => Ok(JStr(Take(s, n)))
    case JObj(_) => Raised("unhashable type: 'slice'")
    case _ => Raised("'" + TypeName(v) + "' object is not subscriptable")
  }

  /** The values a `for x in v` loop visits: list items, one-character strings, or dict keys. */
  function Iterate(v: Json): (r: Outcome<seq<Json>>)
    ensures v.JArr? ==> r == Ok(v.items)
    ensures r.Ok? <==> v.JArr? || v.JStr? || v.JObj?
  {
    match v
    case JArr(items) => Ok(items)
    case JStr(s) => Ok(seq(|s|, i requires 0 <= i < |s| => JStr([s[i]])))
    case JObj(fs) => Ok(seq(|fs|, i requires 0 <= i < |fs| => JStr(fs[i].0)))
    case _ => Raised("'" + TypeName(v) + "' object is not iterable")
  }

  /** The values `for x in v[:n]` visits. */
  function SliceItems(v: Json, n: nat): (r: Outcome<seq<Json>>)
    ensures r.Ok? <==> v.JArr? || v.JStr?
    ensures r.Ok? ==> |r.value| <= n
    ensures v.JArr? ==> r == Ok(Take(v.items, n))
  {
    match Slice(v, n)
    case Raised(m) => Raised(m)
    case Ok(w) => Iterate(w)
  }

  /** `len(v)` for a list or a string. */
  function Len(v: Json): Outcome<nat> {
    match v
    case JArr(items) => Ok(|items|)
    case JStr(s) => Ok(|s|)
    case JObj(fs) => Ok(|fs|)
    case _ => Raised("object of type '" + TypeName(v) + "' has no len()")
  }

  /**
   * Python `int(t)` for a str, base 10: surrounding whitespace is ignored, a sign may
   * lead, and the rest must be a run of ASCII digits that single underscores may separate.
   * The error message shows at most 200 characters of the text's repr.
   */
  function IntOfText(t: string): (r: Outcome<int>)
    ensures r.Ok? ==> Strip(t) != ""
  {
    match SignedValue(Strip(t))
    case Some(v) => Ok(v)
    case None => Raised(InvalidLiteral(t))
  }

  /** The number stripped text spells: an optional sign, then a run of digits. */
  function SignedValue(u: string): Option<int> {
    var signed := |u| > 0 && (u[0] == '+' || u[0] == '-');
    var body := if signed then u[1..] else u;
    if !IsDigitRun(body) then None
    else
      var magnitude: int := DigitsValue(Digits(body));
      Some(if signed && u[0] == '-' then -magnitude else magnitude)
  }

  /** The message of the `ValueError` `int(t)` raises. */
  function InvalidLiteral(t: string): string {
    "invalid literal for int() with base 10: " + Take(Quote(t), 200)
  }

  /** `int(str(i)) == i`. */
  lemma IntOfTextRoundTrip(i: int)
    ensures IntOfText(IntToString(i)) == Ok(i)
  {
    if i < 0 {
      NegativeRoundTrip(-i);
    } else {
      NaturalRoundTrip(i);
    }
  }

  lemma NaturalRoundTrip(n: nat)
    ensures IntOfText(NatToString(n)) == Ok(n)
  {
    NatToStringValue(n);
    DigitsRead(NatToString(n), n);
  }

  lemma NegativeRoundTrip(n: nat)
    requires n > 0
    ensures IntOfText("-" + NatToString(n)) == Ok(-(n as int))
  {
    NatToStringValue(n);
    MinusDigitsRead(NatToString(n), n);
  }

  /** `int()` reads a plain run of digits as its value. */
  lemma DigitsRead(digits: string, value: nat)
    requires |digits| > 0 && AllDigits(digits) && DigitsValue(digits) == value
    ensures IntOfText(digits) == Ok(value)
  {
    DigitIsNoSpace(digits[0]);
    DigitIsNoSpace(digits[|digits| - 1]);
    StripUnchanged(digits);
    assert digits == "" + digits;
    IntOfSignedDigits(digits, digits, false);
  }

  /** `int()` reads a minus sign followed by digits as the negated value. */
  lemma MinusDigitsRead(digits: string, value: nat)
    requires |digits| > 0 && AllDigits(digits) && DigitsValue(digits) == value
    ensures IntOfText("-" + digits) == Ok(-(value as int))
  {
    var t := "-" + digits;
    assert t[|t| - 1] == digits[|digits| - 1];
    DigitIsNoSpace(digits[|digits| - 1]);
    StripUnchanged(t);
    IntOfSignedDigits(t, digits, true);
  }

  /** `int()` of an optional minus sign followed by digits. */
  lemma IntOfSignedDigits(t: string, digits: string, negative: bool)
    requires Strip(t) == t && t == (if negative then "-" else "") + digits
    requires |digits| > 0 && AllDigits(digits)
    ensures IntOfText(t) == Ok(if negative then -(DigitsValue(digits) as int) else DigitsValue(digits))
  {
    SignedDigitsValue(t, digits, negative);
  }

  lemma SignedDigitsValue(u: string, digits: string, negative: bool)
    requires u == (if negative then "-" else "") + digits
    requires |digits| > 0 && AllDigits(digits)
    ensures SignedValue(u) == Some(if negative then -(DigitsValue(digits) as int) else DigitsValue(digits))
  {
    DigitsOfDigits(digits);
    DigitsAreRun(digits);
    if negative {
      assert u[0] == '-' && u[1..] == digits;
      MinusDigitsValue(u, digits);
    } else {
      assert u == digits;
      DigitIsNoSpace(digits[0]);
      PlainDigitsValue(digits);
    }
  }

  lemma PlainDigitsValue(digits: string)
    requires IsDigitRun(digits) && AllDigits(digits) && Digits(digits) == digits
    requires digits[0] != '+' && digits[0] != '-'
    ensures SignedValue(digits) == Some(DigitsValue(digits))
  {
  }

  lemma MinusDigitsValue(u: string, digits: string)
    requires IsDigitRun(digits) && AllDigits(digits) && Digits(digits) == digits
    requires |u| > 0 && u[0] == '-' && u[1..] == digits
    ensures SignedValue(u) == Some(-(DigitsValue(digits) as int))
  {
  }

  /** Everything `int()` accepts is whitespace, a sign, a digit or an underscore. */
  lemma IntOfTextChars(t: string, j: nat)
    requires j < |t| && IntOfText(t).Ok?
    ensures IsSpace(t[j]) || IsDigit(t[j]) || t[j] == '_' || t[j] == '+' || t[j] == '-'
  {
    if !IsSpace(t[j]) {
      StripKeepsChar(t, j);
      var u := Strip(t);
      var k :| 0 <= k < |u| && u[k] == t[j];
      var signed := |u| > 0 && (u[0] == '+' || u[0] == '-');
      var body := if signed then u[1..] else u;
      if !(signed && k == 0) {
        var b := if signed then k - 1 else k;
        assert body[b] == t[j];
      }
    }
  }

  /** Python truthiness. */
  predicate Truthy(v: Json) {
    match v
    case JNull => false
    case JBool(b) => b
    case JInt(i) => i != 0
    case JFloat(f) => f != 0.0
    case JStr(s) => s != ""
    case JArr(items) => items != []
    case JObj(fs) => fs != []
  }

  /** The number a numeric value stands for (`True` is 1); other values are not numbers. */
  function Number(v: Json): Option<real> {
    match v
    case JBool(b) => Some(if b then 1.0 else 0.0)
    case JInt(i) => Some(i as real)
    case JFloat(f) => Some(f)
    case _ => None
  }

  /** `table.get(v, default)` on a dict whose keys are strings. */
  function TableGet<T>(table: seq<(string, T)>, v: Json, default: T): (r: Outcome<T>)
    ensures r.Raised? <==> v.JArr? || v.JObj?
  {
    match v
    case JStr(s) => Ok(TableLookup(table, s, default))
    case JArr(_) => Raised("unhashable type: 'list'")
    case JObj(_) => Raised("unhashable type: 'dict'")
    case _ => Ok(default)
  }

  function TableLookup<T>(table: seq<(string, T)>, key: string, default: T): (r: T)
    ensures r == default || exists i :: 0 <= i < |table| && table[i].1 == r
    ensures (forall i :: 0 <= i < |table| ==> table[i].0 != key) ==> r == default
  {
    if |table| == 0 then default
    else if table[0].0 == key then table[0].1
    else TableLookup(table[1..], key, default)
  }

  /** Python `repr` of a string, for strings without quotes or backslashes. */
  function Quote(s: string): string {
    "'" + s + "'"
  }

  /**
   * `str(v)` as an f-string renders it: exact for strings, integers, booleans and `None`;
   * floats are written with one decimal, lists and dicts in Python's display form.
   */
  function StrOf(v: Json): string {
    match v
    case JStr(s) => s
    case _ => ReprOf(v)
  }

  function ScalarText(v: Json): string {
    match v
    case JBool(b) => if b then "True" else "False"
    case JInt(i) => IntToString(i)
    case JFloat(f) => FormatFixed(f, 1)
    case _ => "None"
  }

  function ReprOf(v: Json): string {
    match v
    case JStr(s) => Quote(s)
    case JArr(items) => "[" + RenderItems(items) + "]"
    case JObj(fs) => "{" + RenderFields(fs) + "}"
    case _ => ScalarText(v)
  }

  function RenderItems(items: seq<Json>): string
    decreases items
  {
    if |items| == 0 then ""
    else if |items| == 1 then ReprOf(items[0])
    else ReprOf(items[0]) + ", " + RenderItems(items[1..])
  }

  function RenderFields(fs: seq<(string, Json)>): string
    decreases fs
  {
    if |fs| == 0 then ""
    else
      assert fs[0].1 < fs[0];
      var head := Quote(fs[0].0) + ": " + ReprOf(fs[0].1);
      if |fs| == 1 then head else head + ", " + RenderFields(fs[1..])
  }

  /** The dict `{"error": msg}`. */
  function ErrorObject(msg: string): Json {
    JObj([("error", JStr(msg))])
  }

  /** The strings of `items`; the first non-string (at index `offset + i`) raises. */
  function StringItems(items: seq<Json>, offset: nat): (r: Outcome<seq<string>>)
    ensures r.Ok? <==> forall i :: 0 <= i < |items| ==> items[i].JStr?
    ensures r.Ok? ==> |r.value| == |items| && forall i :: 0 <= i < |items| ==> r.value[i] == items[i].s
    ensures r.Ok? ==> r.value == Texts(items)
    decreases |items|
  {
    if |items| == 0 then Ok([])
    else if !items[0].JStr? then
      Raised("sequence item " + NatToString(offset) + ": expected str instance, " + TypeName(items[0]) + " found")
    else
      var rest := StringItems(items[1..], offset + 1);
      assert forall i :: 1 <= i < |items| ==> items[i] == items[1..][i - 1];
      match rest
      case Raised(m) => Raised(m)
      case Ok(parts) => Ok([items[0].s] + parts)
  }

  /** The strings a list of JSON strings holds, in order. */
  function Texts(items: seq<Json>): (r: seq<string>)
    requires forall i :: 0 <= i < |items| ==> items[i].JStr?
    ensures |r| == |items| && forall i :: 0 <= i < |items| ==> r[i] == items[i].s
  {
    seq(|items|, i requires 0 <= i < |items| => items[i].s)
  }
}
