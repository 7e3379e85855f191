/** JSON-like values and the two Decimal converters of api.py: `decimalize`
    (values under numeric keys to Decimal) and `undecimalize` (Decimal back to
    strings). Both map lists element by element; `decimalize` looks into the
    lists a dict holds but not into the dicts it holds, and `undecimalize`
    converts only the Decimals a dict holds directly. */
module Codec {
  import opened Wrappers
  import opened Decimals

  /** A value as Python holds a parsed JSON document or a payload: None,
      str, int, bool, Decimal, list or dict. */
  datatype Json =
    | Null
    | Str(s: string)
    | Num(n: int)
    | Bool(b: bool)
    | Dec(d: Decimal)
    | Arr(items: seq<Json>)
    | Obj(fields: map<string, Json>)

  /** `Decimal(val)` for a value that is neither None nor a list. */
  function ToDecimal(v: Json): (r: Result<Json>)
    requires !v.Null? && !v.Arr?
    ensures r.Ok? ==> r.value.Dec?
    ensures r.Ok? && !v.Dec? ==> Valid(r.value.d)
    ensures r.Ok? <==> (v.Str? ==> FromString(v.s).Some?) && !v.Obj?
    ensures v.Str? && r.Ok? ==> r.value == Dec(FromString(v.s).value)
    ensures v.Num? ==> r == Ok(Dec(FromInt(v.n)))
    ensures v.Bool? ==> r == Ok(Dec(FromInt(if v.b then 1 else 0)))
    ensures v.Dec? ==> r == Ok(v)
    ensures r.Err? ==> r.error == NotConvertible
  {
    match v
    case Str(s) => if FromString(s).Some? then Ok(Dec(FromString(s).value)) else Err(NotConvertible)
    case Num(n) => Ok(Dec(FromInt(n)))
    case Bool(b) => Ok(Dec(FromInt(if b then 1 else 0)))
    case Dec(_) => Ok(v)
    case Obj(_) => Err(NotConvertible)
  }

  /** `decimalize(obj, keys)`: lists are converted element by element, a dict
      entry by entry (ConvertEntry), anything else is returned unchanged. */
  function Decimalize(obj: Json, keys: set<string>): (r: Result<Json>)
    ensures !obj.Arr? && !obj.Obj? ==> r == Ok(obj)
    ensures obj.Arr? ==> (r.Ok? <==> forall i | 0 <= i < |obj.items| :: Decimalize(obj.items[i], keys).Ok?)
    ensures obj.Arr? && r.Ok? ==>
              && r.value.Arr? && |r.value.items| == |obj.items|
              && forall i | 0 <= i < |obj.items| :: Decimalize(obj.items[i], keys) == Ok(r.value.items[i])
    ensures obj.Obj? ==> (r.Ok? <==> forall k | k in obj.fields :: ConvertEntry(k, obj.fields[k], keys).Ok?)
    ensures obj.Obj? && r.Ok? ==>
              && r.value.Obj? && r.value.fields.Keys == obj.fields.Keys
              && forall k | k in obj.fields :: ConvertEntry(k, obj.fields[k], keys) == Ok(r.value.fields[k])
    ensures r.Err? ==> r.error == NotConvertible
    decreases obj, 0
  {
    match obj
    case Arr(xs) =>
      if forall i | 0 <= i < |xs| :: Decimalize(xs[i], keys).Ok? then
        Ok(Arr(seq(|xs|, i requires 0 <= i < |xs| => Decimalize(xs[i], keys).value)))
      else
        Err(NotConvertible)
    case Obj(m) =>
      if forall k | k in m :: ConvertEntry(k, m[k], keys).Ok? then
        Ok(Obj(map k | k in m :: ConvertEntry(k, m[k], keys).value))
      else
        Err(NotConvertible)
    case _ => Ok(obj)
  }

  /** The inner `to_decimal(k, val)`: None stays None; a list is decimalized
      element by element whatever its key; otherwise a value under one of the
      keys goes through `Decimal(val)` (which refuses a dict) and a value under
      any other key, a dict included, is kept as it is. */
  function ConvertEntry(k: string, v: Json, keys: set<string>): (r: Result<Json>)
    ensures v.Null? ==> r == Ok(Null)
    ensures v.Arr? ==> r == Decimalize(v, keys)
    ensures !v.Null? && !v.Arr? && k !in keys ==> r == Ok(v)
    ensures !v.Null? && !v.Arr? && k in keys ==> r == ToDecimal(v)
    decreases v, 1
  {
    if v.Null? then Ok(Null)
    else if v.Arr? then Decimalize(v, keys)  // the same list comprehension as decimalize's own
    else if k in keys then ToDecimal(v)
    else Ok(v)
  }

  /** The inner `from_decimal(val)`. */
  function FromDecimal(v: Json): (r: Json)
    ensures v.Dec? ==> r == Str(ToString(v.d))
    ensures !v.Dec? ==> r == v
  {
    if v.Dec? then Str(ToString(v.d)) else v
  }

  /** `undecimalize(obj)`: a list is mapped element by element; in a dict,
      only the Decimals held directly as values become strings; anything else,
      a top-level Decimal included, is returned unchanged. */
  function Undecimalize(obj: Json): (r: Json)
    ensures !obj.Arr? && !obj.Obj? ==> r == obj
    ensures obj.Arr? ==> r.Arr? && |r.items| == |obj.items|
    ensures obj.Arr? ==> forall i | 0 <= i < |obj.items| :: r.items[i] == Undecimalize(obj.items[i])
    ensures obj.Obj? ==> r.Obj? && r.fields.Keys == obj.fields.Keys
    ensures obj.Obj? ==> forall k | k in obj.fields ::
              r.fields[k] == if obj.fields[k].Dec? then Str(ToString(obj.fields[k].d)) else obj.fields[k]
    ensures obj.Obj? ==> forall k | k in r.fields :: !r.fields[k].Dec?
  {
    match obj
    case Arr(xs) => Arr(seq(|xs|, i requires 0 <= i < |xs| => Undecimalize(xs[i])))
    case Obj(m) => Obj(map k | k in m :: FromDecimal(m[k]))
    case _ => obj
  }

  /** Converting twice is converting once: a Decimal under a numeric key stays
      the same Decimal and lists are converted again element by element. */
  lemma {:induction false} DecimalizeIdempotent(obj: Json, keys: set<string>)
    requires Decimalize(obj, keys).Ok?
    ensures Decimalize(Decimalize(obj, keys).value, keys) == Decimalize(obj, keys)
    decreases obj, 0
  {
    match obj
    case Arr(xs) =>
      var ys := Decimalize(obj, keys).value.items;
      forall i | 0 <= i < |xs| ensures Decimalize(ys[i], keys) == Ok(ys[i]) {
        DecimalizeIdempotent(xs[i], keys);
      }
      assert seq(|ys|, i requires 0 <= i < |ys| => Decimalize(ys[i], keys).value) == ys;
    case Obj(m) =>
      var n := Decimalize(obj, keys).value.fields;
      forall k | k in n ensures ConvertEntry(k, n[k], keys) == Ok(n[k]) {
        ConvertEntryIdempotent(k, m[k], keys);
      }
      assert (map k | k in n :: ConvertEntry(k, n[k], keys).value) == n;
    case _ =>
  }

  lemma {:induction false} ConvertEntryIdempotent(k: string, v: Json, keys: set<string>)
    requires ConvertEntry(k, v, keys).Ok?
    ensures ConvertEntry(k, ConvertEntry(k, v, keys).value, keys) == ConvertEntry(k, v, keys)
    decreases v, 1
  {
    if v.Arr? {
      DecimalizeIdempotent(v, keys);
    }
  }

  /** Undoing twice is undoing once. */
  lemma {:induction false} UndecimalizeIdempotent(obj: Json)
    ensures Undecimalize(Undecimalize(obj)) == Undecimalize(obj)
  {
    match obj
    case Arr(xs) =>
      var ys := Undecimalize(obj).items;
      forall i | 0 <= i < |xs| ensures Undecimalize(ys[i]) == ys[i] {
        UndecimalizeIdempotent(xs[i]);
      }
      assert Undecimalize(Arr(ys)) == Arr(ys);
    case Obj(m) =>
      var n := Undecimalize(obj).fields;
      assert Undecimalize(Obj(n)).fields == n;
    case _ =>
  }

  /** A dict with no list and no Decimal among its values, in which every value
      under a numeric key is None or a canonical decimal numeral. */
  predicate FlatWithNumerals(m: map<string, Json>, keys: set<string>) {
    forall k | k in m ::
      && !m[k].Arr? && !m[k].Dec?
      && (k in keys ==> m[k].Null? || (m[k].Str? && Canonical(m[k].s)))
  }

  /** Such a dict is restored exactly by `undecimalize(decimalize(d, keys))`. */
  lemma {:induction false} FlatRoundTrip(m: map<string, Json>, keys: set<string>)
    requires FlatWithNumerals(m, keys)
    ensures Decimalize(Obj(m), keys).Ok?
    ensures Undecimalize(Decimalize(Obj(m), keys).value) == Obj(m)
  {
    forall k | k in m ensures ConvertEntry(k, m[k], keys).Ok? && FromDecimal(ConvertEntry(k, m[k], keys).value) == m[k] {
      if k in keys && m[k].Str? {
        StringRoundTrip(m[k].s);
      }
    }
    var n := Decimalize(Obj(m), keys).value.fields;
    assert Undecimalize(Obj(n)).fields == m;
  }

  /** A list of such dicts, as the trade and lending histories are, is restored too. */
  lemma {:induction false} FlatListRoundTrip(ds: seq<map<string, Json>>, keys: set<string>)
    requires forall i | 0 <= i < |ds| :: FlatWithNumerals(ds[i], keys)
    ensures var xs := seq(|ds|, i requires 0 <= i < |ds| => Obj(ds[i]));
            Decimalize(Arr(xs), keys).Ok? && Undecimalize(Decimalize(Arr(xs), keys).value) == Arr(xs)
  {
    var xs := seq(|ds|, i requires 0 <= i < |ds| => Obj(ds[i]));
    forall i | 0 <= i < |xs| ensures Decimalize(xs[i], keys).Ok? && Undecimalize(Decimalize(xs[i], keys).value) == xs[i] {
      FlatRoundTrip(ds[i], keys);
    }
    var ys := Decimalize(Arr(xs), keys).value.items;
    assert Undecimalize(Arr(ys)).items == xs;
  }

  /** A dict nested under a non-numeric key is not searched: its numeral stays a string. */
  lemma NestedDictKept(outer: string, inner: string, numeral: string, keys: set<string>)
    requires outer !in keys && inner in keys
    ensures var v := Obj(map[outer := Obj(map[inner := Str(numeral)])]);
            Decimalize(v, keys) == Ok(v)
  {
    var v := Obj(map[outer := Obj(map[inner := Str(numeral)])]);
    assert Decimalize(v, keys).Ok?;
    assert Decimalize(v, keys).value.fields == v.fields;
  }

  /** A Decimal inside a list held by a dict survives `undecimalize`. */
  lemma NestedDecimalKept(k: string, d: Decimal)
    ensures var v := Obj(map[k := Arr([Dec(d)])]);
            Undecimalize(v) == v
  {
    var v := Obj(map[k := Arr([Dec(d)])]);
    assert Undecimalize(v).fields == v.fields;
  }
}
