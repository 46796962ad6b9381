// JavaScript values as the plugin sees them, and the shallow merge that
// jQuery's `$.extend({}, a, b)` performs on option objects.

module Values {

  /** The JavaScript values an option, an argument or a handler can hold in
      this model; arrays and objects with their own string conversion are
      not among them. Numbers are modelled by their integer values; a
      function value is an identity together with its full source text, from
      the `function` keyword to the closing brace (what String() yields). */
  datatype Value =
    | Undefined
    | Null
    | Bool(b: bool)
    | Num(n: int)
    | Text(s: string)
    | Func(id: nat, source: string)
    | Obj(fields: map<string, Value>)

  /** An option object: option name to value. */
  type Settings = map<string, Value>

  /** Reading `s[k]`: a missing property reads as undefined. */
  function Lookup(s: Settings, k: string): Value
  {
    if k in s then s[k] else Undefined
  }

  /** JavaScript truthiness (`!v` is its negation). */
  predicate Truthy(v: Value)
    ensures v.Undefined? || v.Null? ==> !Truthy(v)
    ensures v.Bool? ==> (Truthy(v) <==> v.b)
    ensures v.Num? ==> (Truthy(v) <==> v.n != 0)
    ensures v.Text? ==> (Truthy(v) <==> |v.s| > 0)
    ensures v.Func? || v.Obj? ==> Truthy(v)
  {
    match v
    case Undefined => false
    case Null => false
    case Bool(b) => b
    case Num(n) => n != 0
    case Text(s) => s != ""
    case Func(_, _) => true
    case Obj(_) => true
  }

  /** `typeof v === 'object'`: objects and null. */
  predicate IsObject(v: Value)
    ensures v.Obj? || v.Null? ==> IsObject(v)
    ensures v.Undefined? || v.Bool? || v.Num? || v.Text? || v.Func? ==> !IsObject(v)
    ensures IsObject(v) ==> Truthy(v) || v == Null
  {
    v.Obj? || v.Null?
  }

  /** The character for a decimal digit. */
  function DigitChar(d: nat): (c: char)
    requires d < 10
    ensures '0' <= c <= '9'
    ensures c as int - '0' as int == d
  {
    "0123456789"[d]
  }

  /** A non-empty string of decimal digits. */
  predicate IsNumeral(s: string)
  {
    |s| >= 1 && forall i :: 0 <= i < |s| ==> '0' <= s[i] <= '9'
  }

  /** The number a string of decimal digits denotes, most significant first. */
  function DecimalValue(s: string): nat
    requires forall i :: 0 <= i < |s| ==> '0' <= s[i] <= '9'
  {
    if s == [] then 0
    else 10 * DecimalValue(s[..|s| - 1]) + (s[|s| - 1] as int - '0' as int)
  }

  /** Decimal text of a natural number, most significant digit first. */
  function Digits(n: nat): (r: string)
    ensures |r| >= 1
    ensures forall i :: 0 <= i < |r| ==> '0' <= r[i] <= '9'
    ensures DecimalValue(r) == n
    decreases n
  {
    if n < 10 then
      var r := [DigitChar(n)];
      assert r[..0] == [];
      r
    else
      var r := Digits(n / 10) + [DigitChar(n % 10)];
      assert r[..|r| - 1] == Digits(n / 10);
      r
  }

  /** String(v): the property name a value stands for when it is used as a key,
      and the text it contributes to a string concatenation. */
  function KeyOf(v: Value): (r: string)
    ensures v.Text? ==> r == v.s
    ensures v.Num? ==> |r| >= 1 && (r[0] == '-' <==> v.n < 0)
    ensures v.Num? && v.n >= 0 ==> IsNumeral(r) && DecimalValue(r) == v.n
    ensures v.Num? && v.n < 0 ==> IsNumeral(r[1..]) && DecimalValue(r[1..]) == -v.n
  {
    match v
    case Undefined => "undefined"
    case Null => "null"
    case Bool(b) => if b then "true" else "false"
    case Num(n) => if n < 0 then "-" + Digits(-n) else Digits(n)
    case Text(s) => s
    case Func(_, source) => source
    case Obj(_) => "[object Object]"
  }

  /** Two different numbers name two different properties, so
      `setOption(5, …)` is never read back by `getOption(6)`. */
  lemma NumberKeysDistinct(a: int, b: int)
    requires a != b
    ensures KeyOf(Num(a)) != KeyOf(Num(b))
  {
    var ka, kb := KeyOf(Num(a)), KeyOf(Num(b));
    if a < 0 && b < 0 {
      assert ka[1..] != kb[1..];
    }
  }

  /** No property of the object holds undefined. */
  ghost predicate Defined(s: Settings)
  {
    forall k :: k in s ==> s[k] != Undefined
  }

  /** Copying the own properties of `s` into a fresh object, as `$.extend`
      does for one source: properties whose value is undefined are skipped. */
  function Copy(s: Settings): (r: Settings)
    ensures Defined(r)
    ensures r.Keys <= s.Keys
    ensures forall k :: Lookup(r, k) == Lookup(s, k)
  {
    map k | k in s && s[k] != Undefined :: s[k]
  }

  /** The value found under `k` in `opts`, falling back to `base` when `opts`
      has none (or has undefined there). */
  function Prefer(opts: Settings, base: Settings, k: string): Value
  {
    if Lookup(opts, k) != Undefined then Lookup(opts, k) else Lookup(base, k)
  }

  /** `$.extend({}, base, opts)`: a new object holding the defined properties
      of `base`, overridden by the defined properties of `opts`. */
  function Extend(base: Settings, opts: Settings): (r: Settings)
    ensures Defined(r)
    ensures r.Keys <= base.Keys + opts.Keys
    ensures forall k :: Lookup(opts, k) != Undefined ==> Lookup(r, k) == Lookup(opts, k)
    ensures forall k :: Lookup(opts, k) == Undefined ==> Lookup(r, k) == Lookup(base, k)
  {
    Copy(base) + Copy(opts)
  }

  /** The properties `$.extend` reads from an options argument: those of an
      object; null, undefined, booleans, numbers and functions contribute none. */
  function OptionsOf(v: Value): (r: Settings)
    ensures v.Obj? ==> r == v.fields
    ensures !v.Obj? ==> r == map[]
  {
    if v.Obj? then v.fields else map[]
  }

  /** Copying an object that holds no undefined property gives it back. */
  lemma CopyDefined(s: Settings)
    requires Defined(s)
    ensures Copy(s) == s
  {
    assert Copy(s).Keys == s.Keys;
  }

  /** Extending with no options changes nothing once undefined properties
      are gone, so a second merge with no options is the identity. */
  lemma ExtendNoOptions(base: Settings)
    ensures Defined(base) ==> Extend(base, map[]) == base
    ensures Extend(Extend(base, map[]), map[]) == Extend(base, map[])
  {
    if Defined(base) {
      CopyDefined(base);
    }
    CopyDefined(Extend(base, map[]));
  }
}
