/** The values `json.loads` produces, seen as Python values: JSON null is
    Python's `None`, a JSON object is a Python `dict`.  Objects keep their
    members in document order; looking a key up follows Python's dict
    semantics for a decoded object, where a later duplicate key wins. */
module JsonValue {
  import opened Wrappers

  /** A JSON number, kept as the decimal it was written as: `mantissa` holds
      all its digits and `exponent` the written exponent less the number of
      fraction digits, so an integer literal has exponent 0.  The pipeline
      only copies numbers; the one thing it asks of them is whether Python
      reads them as zero (truthiness). */
  datatype Number = Decimal(mantissa: int, exponent: int)

  function Pow(b: nat, e: nat): nat {
    if e == 0 then 1 else b * Pow(b, e - 1)
  }

  /** Whether Python reads the literal as zero.  An integer literal is read
      exactly.  A literal with a fraction or an exponent is read as the
      nearest double, ties to even, so any magnitude up to 2^-1075 (half the
      least subnormal) becomes 0.0.  For `m * 10^e` with e < 0 that is
      `|m| * 2^1075 <= 10^-e`. */
  predicate ReadsAsZero(n: Number) {
    || n.mantissa == 0
    || (n.exponent < 0 &&
        (if n.mantissa < 0 then -n.mantissa else n.mantissa) * Pow(2, 1075) <= Pow(10, -n.exponent))
  }

  datatype Json =
    | JNull
    | JBool(b: bool)
    | JNumber(n: Number)
    | JString(s: string)
    | JArray(items: seq<Json>)
    | JObject(members: seq<(string, Json)>)

  /** A decoded object, or a Python dict built from a literal: key/value pairs in order. */
  type Members = seq<(string, Json)>

  predicate HasKey(m: Members, k: string) {
    exists i :: 0 <= i < |m| && m[i].0 == k
  }

  /** `d[k]` on a dict: the value of the last member named `k`, or None when
      there is none (where `d[k]` raises KeyError and `d.get(k)` gives None). */
  function Lookup(m: Members, k: string): (r: Option<Json>)
    ensures r.None? <==> !HasKey(m, k)
    ensures r.Some? ==> exists i :: 0 <= i < |m| && m[i] == (k, r.value)
                          && forall j :: i < j < |m| ==> m[j].0 != k
  {
    if |m| == 0 then None
    else if m[|m| - 1].0 == k then Some(m[|m| - 1].1)
    else Lookup(m[..|m| - 1], k)
  }

  /** `d.get(k, default)`. */
  function GetOr(m: Members, k: string, default: Json): (r: Json)
    ensures !HasKey(m, k) ==> r == default
    ensures HasKey(m, k) ==> Lookup(m, k) == Some(r)
  {
    match Lookup(m, k)
    case None => default
    case Some(v) => v
  }

  /** `d.get(k)` read as a Python value: None both when the key is absent and
      when it holds JSON null, which Python cannot tell apart; otherwise the
      stored value, unchanged. */
  function GetField(m: Members, k: string): (r: Option<Json>)
    ensures r.None? <==> !HasKey(m, k) || Lookup(m, k) == Some(JNull)
    ensures r.Some? ==> r.value != JNull && Lookup(m, k) == r
  {
    match Lookup(m, k)
    case None => None
    case Some(JNull) => None
    case Some(v) => Some(v)
  }

  /** Python's `bool(v)`. */
  function Truthy(v: Json): (r: bool)
    ensures !r <==> || v == JNull || v == JBool(false) || (v.JNumber? && ReadsAsZero(v.n))
                    || v == JString("") || v == JArray([]) || v == JObject([])
  {
    match v
    case JNull => false
    case JBool(b) => b
    case JNumber(n) => !ReadsAsZero(n)
    case JString(s) => |s| > 0
    case JArray(a) => |a| > 0
    case JObject(m) => |m| > 0
  }

  lemma PowStep(b: nat, e: nat)
    requires b > 0
    ensures Pow(b, e) <= Pow(b, e + 1)
  {
    var x := Pow(b, e);
    var y: nat := (b - 1) * x;
    assert Pow(b, e + 1) == x + y;
  }

  lemma {:induction false} PowMonotone(b: nat, e: nat, e': nat)
    requires b > 0 && e <= e'
    ensures Pow(b, e) <= Pow(b, e')
    decreases e' - e
  {
    if e < e' {
      PowMonotone(b, e, e' - 1);
      PowStep(b, e' - 1);
    }
  }

  /** 2^(3k) = 8^k <= 10^k. */
  lemma {:induction false} EightPowersBelowTen(k: nat)
    ensures Pow(2, 3 * k) <= Pow(10, k)
  {
    if k > 0 {
      EightPowersBelowTen(k - 1);
      var j := 3 * (k - 1);
      assert Pow(2, j + 3) == 2 * Pow(2, j + 2) == 4 * Pow(2, j + 1) == 8 * Pow(2, j);
    }
  }

  /** A literal such as `1e-400`, below the least double, reads as 0.0 and
      is falsy although its mantissa is not zero. */
  lemma UnderflowIsFalsy()
    ensures !Truthy(JNumber(Decimal(1, -400)))
  {
    PowMonotone(2, 1075, 3 * 359);
    EightPowersBelowTen(359);
    PowMonotone(10, 359, 400);
  }

  /** A member appended after the others, under a different key, does not
      change what any other key looks up to. */
  lemma LookupAppendOther(m: Members, k: string, v: Json, k': string)
    requires k != k'
    ensures Lookup(m + [(k, v)], k') == Lookup(m, k')
  {
  }

  /** Two dicts that end in the same member and agree on a key before it
      agree on that key. */
  lemma LookupSameLast(m: Members, m': Members, k: string)
    requires |m| > 0 && |m'| > 0
    requires m[|m| - 1] == m'[|m'| - 1]
    requires Lookup(m[..|m| - 1], k) == Lookup(m'[..|m'| - 1], k)
    ensures Lookup(m, k) == Lookup(m', k)
  {
  }

  /** A member inserted anywhere, under a different key, does not change
      what any other key looks up to. */
  lemma {:induction false} LookupInsertOther(front: Members, k: string, v: Json, back: Members, k': string)
    requires k != k'
    ensures Lookup(front + [(k, v)] + back, k') == Lookup(front + back, k')
    decreases |back|
  {
    if |back| == 0 {
      assert front + [(k, v)] + back == front + [(k, v)];
      assert front + back == front;
      LookupAppendOther(front, k, v, k');
    } else {
      var m := front + [(k, v)] + back;
      var m' := front + back;
      var back' := back[..|back| - 1];
      assert m[..|m| - 1] == front + [(k, v)] + back';
      assert m'[..|m'| - 1] == front + back';
      LookupInsertOther(front, k, v, back', k');
      LookupSameLast(m, m', k');
    }
  }

  predicate DistinctKeys(m: Members) {
    forall i, j :: 0 <= i < j < |m| ==> m[i].0 != m[j].0
  }

  /** In a dict whose keys are distinct (a dict literal with distinct keys),
      each key looks up to the value written beside it. */
  lemma LookupDistinct(m: Members, i: nat)
    requires DistinctKeys(m)
    requires i < |m|
    ensures Lookup(m, m[i].0) == Some(m[i].1)
  {
  }
}
