/** Small shared vocabulary: optional values, outcomes of vendor SDK calls,
    and the sequence pipelines (filter, slice, find) the app builds on. */
module Common {

  /** A JavaScript value that may be `null` or `undefined`. */
  datatype Option<T> = None | Some(value: T) {
    function GetOr(default: T): T {
      if Some? then value else default
    }
  }

  /** JavaScript truthiness of an optional string: present and non-empty. */
  predicate Truthy(s: Option<string>) {
    s.Some? && s.value != ""
  }

  /** `x || d` for an optional number: `d` when `x` is missing or zero. */
  function OrNumber(x: Option<int>, d: int): (r: int)
    ensures r == d || (x.Some? && r == x.value && r != 0)
    ensures x.Some? && x.value != 0 ==> r == x.value
  {
    if x.Some? && x.value != 0 then x.value else d
  }

  /** `s || d` for an optional string. */
  function OrText(s: Option<string>, d: string): (r: string)
    ensures Truthy(s) ==> r == s.value
    ensures !Truthy(s) ==> r == d
  {
    if Truthy(s) then s.value else d
  }

  /** The outcome of an awaited vendor call: its value, or the error it threw
      (Firebase errors carry a `code` and a `message`). */
  datatype SdkError = SdkError(code: string, message: string)
  datatype Sdk<T> = Done(value: T) | Threw(error: SdkError)

  /** `s.filter(p)`: the elements satisfying `p`, in their original order. */
  function Filter<T(!new)>(s: seq<T>, p: T -> bool): (r: seq<T>)
    ensures |r| <= |s|
    ensures forall x :: x in r <==> x in s && p(x)
  {
    if s == [] then [] else (if p(s[0]) then [s[0]] else []) + Filter(s[1..], p)
  }

  /** Filtering distributes over concatenation, so it keeps relative order. */
  lemma {:induction false} FilterConcat<T(!new)>(a: seq<T>, b: seq<T>, p: T -> bool)
    ensures Filter(a + b, p) == Filter(a, p) + Filter(b, p)
  {
    if a == [] {
      assert a + b == b;
    } else {
      assert (a + b)[1..] == a[1..] + b;
      FilterConcat(a[1..], b, p);
    }
  }

  /** A filter that keeps every element is the identity. */
  lemma {:induction false} FilterAll<T(!new)>(s: seq<T>, p: T -> bool)
    requires forall x :: x in s ==> p(x)
    ensures Filter(s, p) == s
  {
    if s != [] {
      FilterAll(s[1..], p);
    }
  }

  /** Filtering twice with the same predicate changes nothing the second time. */
  lemma FilterIdempotent<T(!new)>(s: seq<T>, p: T -> bool)
    ensures Filter(Filter(s, p), p) == Filter(s, p)
  {
    FilterAll(Filter(s, p), p);
  }

  /** `s.slice(0, n)`. */
  function Take<T>(s: seq<T>, n: nat): (r: seq<T>)
    ensures |r| == if |s| < n then |s| else n
    ensures r <= s
  {
    if |s| <= n then s else s[..n]
  }

  /** `s.findIndex(p)`, as an optional index: the first position satisfying `p`. */
  function FindIndex<T>(s: seq<T>, p: T -> bool): (r: Option<nat>)
    ensures r.Some? ==> r.value < |s| && p(s[r.value])
    ensures r.Some? ==> forall j :: 0 <= j < r.value ==> !p(s[j])
    ensures r.None? <==> forall j :: 0 <= j < |s| ==> !p(s[j])
  {
    if s == [] then None
    else if p(s[0]) then Some(0)
    else match FindIndex(s[1..], p)
      case None => None
      case Some(i) => Some(i + 1)
  }

  /** `s.some(p)`. */
  function Any<T>(s: seq<T>, p: T -> bool): (r: bool)
    ensures r <==> exists i :: 0 <= i < |s| && p(s[i])
  {
    if s == [] then false
    else if p(s[0]) then true
    else
      var r := Any(s[1..], p);
      assert forall i :: 1 <= i < |s| ==> s[i] == s[1..][i - 1];
      r
  }

  /** `s.find(p)`: the first element satisfying `p`, if any. */
  function Find<T(!new)>(s: seq<T>, p: T -> bool): (r: Option<T>)
    ensures r.Some? <==> exists x :: x in s && p(x)
    ensures r.Some? ==> r.value in s && p(r.value)
    ensures r.Some? ==> exists i :: 0 <= i < |s| && s[i] == r.value && forall j :: 0 <= j < i ==> !p(s[j])
  {
    match FindIndex(s, p)
    case None => None
    case Some(i) => Some(s[i])
  }

  // ---------------------------------------------------------------- floor division

  /** Integer division by a positive divisor is floor division, and taking a
      floor twice is taking it once by the product. */
  lemma DivDiv(a: int, b: int, c: int)
    requires b > 0 && c > 0
    ensures (a / b) / c == a / (b * c)
  {
    var q, r := a / b, a % b;
    var q2, r2 := q / c, q % c;
    assert a == b * q + r;
    assert q == c * q2 + r2;
    assert a == (b * c) * q2 + (b * r2 + r) by {
      assert b * q == b * (c * q2 + r2) == (b * c) * q2 + b * r2;
    }
    MulBelow(b, r2, c);
    DivUnique(a, b * c, q2, b * r2 + r);
  }

  /** `b * x + r` stays below `b * c` when `x < c` and `r < b`. */
  lemma MulBelow(b: int, x: int, c: int)
    requires b > 0 && 0 <= x < c
    ensures 0 <= b * x && b * x + b <= b * c
  {
    MulNonneg(b, x);
    MulNonneg(b, c - x - 1);
    assert b * c == b * x + b * (c - x - 1) + b;
  }

  lemma {:induction false} MulNonneg(p: int, q: int)
    requires p >= 0 && q >= 0
    ensures p * q >= 0
    decreases q
  {
    if q > 0 {
      MulNonneg(p, q - 1);
      assert p * q == p * (q - 1) + p;
    }
  }

  /** The quotient is the one `q` that leaves a remainder in `[0, d)`. */
  lemma DivUnique(a: int, d: int, q: int, r: int)
    requires d > 0 && a == d * q + r && 0 <= r < d
    ensures a / d == q
  {
    var k := a / d - q;
    assert d * k == r - a % d;
  }
}
