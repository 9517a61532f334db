/**
  JSON as Python's `json.loads` hands it to the helpers, together with the few
  Python operations the core applies to it: subscripting (`body["key"]`,
  `body[0]`), `int(...)`, `str(n)` and `"prefix" + value`. An operation that
  raises in Python returns `Err` with the exception's kind; nothing in the core
  catches these, so each one ends the run.
*/
module Json {
  import opened Wrappers

  /** A parsed JSON value. `Null` is Python's `None`; an `Obj` is a dict, its
      pairs in insertion order. JSON floating-point numbers are not modelled. */
  datatype Value =
    | Null
    | Bool(b: bool)
    | Int(n: int)
    | Str(s: string)
    | Arr(items: seq<Value>)
    | Obj(fields: seq<(string, Value)>)

  /** A JSON object's fields: one record of a list-shaped response. */
  type Record = seq<(string, Value)>

  /** The Python exceptions the core can raise on an unexpected response. */
  datatype PyError = KeyError | IndexError | TypeError | ValueError

  /** The value stored under `key`: the first pair with that key (a parsed
      dict has distinct keys, so this is the dict's lookup). */
  function Lookup(r: Record, key: string): (v: Option<Value>)
    ensures v.None? <==> forall i :: 0 <= i < |r| ==> r[i].0 != key
    ensures v.Some? ==>
      exists i :: 0 <= i < |r| && r[i] == (key, v.value) && forall j :: 0 <= j < i ==> r[j].0 != key
  {
    if r == [] then None
    else if r[0].0 == key then Some(r[0].1)
    else
      var v := Lookup(r[1..], key);
      assert forall j :: 1 <= j < |r| ==> r[j] == r[1..][j - 1];
      v
  }

  /** The keys of a record are distinct, as in every dict `json.loads`
      returns (for a repeated key it keeps only the last pair). */
  ghost predicate DistinctKeys(r: Record) {
    forall i, j :: 0 <= i < j < |r| ==> r[i].0 != r[j].0
  }

  /** On distinct keys the lookup finds exactly the stored pairs, so taking
      the first pair with the key is the dict's lookup. */
  lemma LookupDistinct(r: Record, key: string, v: Value)
    requires DistinctKeys(r)
    ensures Lookup(r, key) == Some(v) <==> (key, v) in r
  {
    if (key, v) in r {
      var i :| 0 <= i < |r| && r[i] == (key, v);
      var w := Lookup(r, key);
      assert w.Some?;
      var j :| 0 <= j < |r| && r[j] == (key, w.value) && forall m :: 0 <= m < j ==> r[m].0 != key;
      if i < j { assert r[i].0 == key; }
      if j < i { assert r[j].0 == r[i].0; }
    }
  }

  /** `record[key]` on a dict: `KeyError` when the key is absent. */
  function Get(r: Record, key: string): (res: Result<Value, PyError>)
    ensures res.Ok? <==> Lookup(r, key).Some?
    ensures res.Ok? ==> Lookup(r, key) == Some(res.value)
    ensures res.Err? ==> res.error == KeyError
  {
    match Lookup(r, key)
    case Some(v) => Ok(v)
    case None => Err(KeyError)
  }

  /** `v[key]` with a string key: a dict looks the key up, every other value
      raises `TypeError`. */
  function Field(v: Value, key: string): (res: Result<Value, PyError>)
    ensures res.Ok? ==> v.Obj? && Lookup(v.fields, key) == Some(res.value)
    ensures v.Obj? ==> res == Get(v.fields, key)
    ensures !v.Obj? ==> res == Err(TypeError)
  {
    if v.Obj? then Get(v.fields, key) else Err(TypeError)
  }

  /** `v[0]`: the first item of a list or the first character of a string;
      `IndexError` when empty, `KeyError` on a dict (JSON keys are strings),
      `TypeError` on a scalar. */
  function First(v: Value): (res: Result<Value, PyError>)
    ensures res.Ok? <==> (v.Arr? && v.items != []) || (v.Str? && v.s != [])
    ensures v.Arr? && v.items != [] ==> res == Ok(v.items[0])
  {
    match v
    case Arr(items) => if items == [] then Err(IndexError) else Ok(items[0])
    case Str(s) => if s == [] then Err(IndexError) else Ok(Str([s[0]]))
    case Obj(_) => Err(KeyError)
    case _ => Err(TypeError)
  }

  /** A list of dicts, seen as records: what `for index in body: for key in
      index` walks. Any other shape is reported as `TypeError`. */
  function AsRecords(v: Value): (res: Result<seq<Record>, PyError>)
    ensures res.Ok? <==> v.Arr? && forall i :: 0 <= i < |v.items| ==> v.items[i].Obj?
    ensures res.Ok? ==>
      |res.value| == |v.items| && forall i :: 0 <= i < |v.items| ==> v.items[i] == Obj(res.value[i])
  {
    if v.Arr? && forall i :: 0 <= i < |v.items| ==> v.items[i].Obj? then
      Ok(seq(|v.items|, i requires 0 <= i < |v.items| => v.items[i].fields))
    else Err(TypeError)
  }

  /** `prefix + v` where `v` came out of a response: Python only
      concatenates a `str` with a `str`. */
  function Concat(prefix: string, v: Value): (res: Result<string, PyError>)
    ensures res.Ok? <==> v.Str?
    ensures res.Ok? ==> res.value == prefix + v.s
  {
    if v.Str? then Ok(prefix + v.s) else Err(TypeError)
  }

  // ---------------------------------------------------------------------------
  // Decimal numerals: Python's str(n) for n >= 0, and int(...)

  predicate IsDigit(c: char) { '0' <= c <= '9' }

  predicate AllDigits(s: string) { forall i :: 0 <= i < |s| ==> IsDigit(s[i]) }

  function DigitChar(d: nat): (c: char)
    requires d < 10
    ensures IsDigit(c) && c as int - '0' as int == d
  {
    ['0', '1', '2', '3', '4', '5', '6', '7', '8', '9'][d]
  }

  /** The number a string of decimal digits denotes. */
  function DigitsValue(s: string): nat
    requires AllDigits(s)
  {
    if s == [] then 0
    else DigitsValue(s[..|s| - 1]) * 10 + (s[|s| - 1] as int - '0' as int)
  }

  /** `str(n)` for a non-negative integer: its canonical decimal numeral. */
  function Decimal(n: nat): (s: string)
    ensures s != [] && AllDigits(s)
    ensures |s| > 1 ==> s[0] != '0'
  {
    if n < 10 then [DigitChar(n)] else Decimal(n / 10) + [DigitChar(n % 10)]
  }

  /** `int(s)` on a string: an optional sign and at least one digit. */
  function ParseDecimal(s: string): (r: Option<int>)
    ensures r.Some? ==> s != []
  {
    if s != [] && (s[0] == '-' || s[0] == '+') then
      if |s| > 1 && AllDigits(s[1..]) then
        Some(if s[0] == '-' then 0 - DigitsValue(s[1..]) as int else DigitsValue(s[1..]))
      else None
    else if s != [] && AllDigits(s) then Some(DigitsValue(s))
    else None
  }

  /** `int(v)` on a JSON value: integers and booleans convert, a string is
      parsed (`ValueError` when it is not a numeral), anything else raises
      `TypeError`. */
  function ParseInt(v: Value): (res: Result<int, PyError>)
    ensures v.Int? ==> res == Ok(v.n)
    ensures v.Str? ==> (res.Ok? <==> ParseDecimal(v.s).Some?)
    ensures res.Ok? ==> v.Int? || v.Bool? || v.Str?
  {
    match v
    case Int(n) => Ok(n)
    case Bool(b) => Ok(if b then 1 else 0)
    case Str(s) => (match ParseDecimal(s) case Some(n) => Ok(n) case None => Err(ValueError))
    case _ => Err(TypeError)
  }

  /** `int(str(n)) == n`: the numeral `str` prints reads back as the same number. */
  lemma {:induction false} DecimalRoundTrip(n: nat)
    ensures DigitsValue(Decimal(n)) == n
    ensures ParseInt(Str(Decimal(n))) == Ok(n)
  {
    var s := Decimal(n);
    if n >= 10 {
      DecimalRoundTrip(n / 10);
      assert s[..|s| - 1] == Decimal(n / 10);
    }
  }

  /** Distinct numbers print as distinct numerals. */
  lemma DecimalInjective(m: nat, n: nat)
    requires Decimal(m) == Decimal(n)
    ensures m == n
  {
    DecimalRoundTrip(m);
    DecimalRoundTrip(n);
  }
}
