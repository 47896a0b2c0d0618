/** The values the YAML parser produces and the JSON-shaped tool descriptions the
    detectors read: Python `None`, `bool`, `int`, `float`, `str`, `dict` and `list`. */
module Values {
  import opened Assoc
  import opened Numerals

  /** A `float` is kept as the literal text it was read from; its numeric value is not modelled. */
  datatype Value =
    | Null
    | Bool(b: bool)
    | Int(i: int)
    | Float(text: string)
    | Str(s: string)
    | Map(entries: Entries<Value>)
    | List(items: seq<Value>)

  /** Neither a `dict` nor a `list`. */
  predicate IsScalar(v: Value)
  {
    !v.Map? && !v.List?
  }

  /** Every `dict` in `v`, at any depth, has unique keys. */
  ghost predicate WellKeyed(v: Value)
  {
    match v
    case Map(m) => UniqueKeys(m) && forall i :: 0 <= i < |m| ==> WellKeyed(m[i].1)
    case List(xs) => forall i :: 0 <= i < |xs| ==> WellKeyed(xs[i])
    case _ => true
  }

  lemma ScalarWellKeyed(v: Value)
    requires IsScalar(v)
    ensures WellKeyed(v)
  {
  }

  /** Storing into a dict keeps every dict free of repeated keys. */
  lemma PutWellKeyed(m: Entries<Value>, k: string, v: Value)
    requires WellKeyed(Map(m)) && WellKeyed(v)
    ensures WellKeyed(Map(Put(m, k, v)))
  {
    var r := Put(m, k, v);
    forall i | 0 <= i < |r|
      ensures WellKeyed(r[i].1)
    {
      if HasKey(m, k) {
        assert r == m[IndexOf(m, k) := (k, v)];
        if i != IndexOf(m, k) {
          assert r[i] == m[i];
        }
      } else {
        assert r == m + [(k, v)];
        if i < |m| {
          assert r[i] == m[i];
        }
      }
    }
  }

  /** Python truthiness: `None`, `False`, zero, and empty strings and containers are false.
      A float is false when `float()` of its text is 0.0, which includes a literal
      too small to represent, such as `1e-400`. */
  predicate Truthy(v: Value)
  {
    match v
    case Null => false
    case Bool(b) => b
    case Int(i) => i != 0
    case Float(t) => !IsZeroFloat(t)
    case Str(s) => s != ""
    case Map(m) => m != []
    case List(xs) => xs != []
  }

  /** The truth of `float(t)` and of `int(t)` agree on every integer literal `t`. */
  lemma FloatTruthMatchesInt(t: string)
    requires IsIntLiteral(t)
    ensures Truthy(Float(t)) == Truthy(Int(IntValue(t)))
  {
    IntLiteralZero(t);
  }

  /** A float that underflows is false although its digit is not 0: `1e-n` for `n >= 400`. */
  lemma TinyFloatFalse(n: nat)
    requires n >= 400
    ensures IsFloatLiteral("1e-" + ShowNat(n)) && !Truthy(Float("1e-" + ShowNat(n)))
  {
    TinyExponentZero(n);
  }

  /** `1e-n` stays true up to `n = 300`. */
  lemma SmallFloatTrue(n: nat)
    requires n <= 300
    ensures IsFloatLiteral("1e-" + ShowNat(n)) && Truthy(Float("1e-" + ShowNat(n)))
  {
    SmallExponentNonzero(n);
  }

  /** Python `v.get(k, default)` on a value known to be a `dict`. */
  function Field(v: Value, k: string, default: Value): (r: Value)
    requires v.Map?
    ensures HasKey(v.entries, k) ==> r == Get(v.entries, k)
    ensures !HasKey(v.entries, k) ==> r == default
  {
    GetOr(v.entries, k, default)
  }
}
