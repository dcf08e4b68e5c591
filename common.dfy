/** Value types and sequence/text helpers shared by the acquisition layer and the table transforms. */
module Common {

  datatype Option<+T> = None | Some(value: T) {
    function GetOr(default: T): T {
      match this
      case Some(v) => v
      case None => default
    }
  }

  datatype Result<+T, +E> = Ok(value: T) | Err(error: E)

  /** One cell of an incoming record, as the pandas coercions see it:
      `Absent` (the record has no such key), `Null` (None/NaN),
      `Value` (a value the coercion accepts) or `Malformed` (one it cannot parse). */
  datatype Field<+T> = Absent | Null | Value(v: T) | Malformed

  /** `pd.to_numeric(..., errors='coerce')`: anything that is not a number becomes missing. */
  function Numeric(f: Field<real>): (r: Option<real>)
    ensures r.Some? <==> f.Value?
    ensures r.Some? ==> r.value == f.v
  {
    if f.Value? then Some(f.v) else None
  }

  /** The cell after a coercion that did not raise: missing unless it held a value. */
  function Parsed<T>(f: Field<T>): (r: Option<T>)
    ensures r.Some? <==> f.Value?
  {
    if f.Value? then Some(f.v) else None
  }

  /** Keeps, in order, the images of the elements that `f` maps to `Some`. */
  function FilterMap<A, B>(s: seq<A>, f: A -> Option<B>): (r: seq<B>)
    ensures |r| <= |s|
    ensures forall b :: b in r ==> exists i :: 0 <= i < |s| && f(s[i]) == Some(b)
  {
    if |s| == 0 then []
    else
      var rest := FilterMap(s[1..], f);
      assert forall b :: b in rest ==> exists i :: 0 <= i < |s| && f(s[i]) == Some(b) by {
        forall b | b in rest ensures exists i :: 0 <= i < |s| && f(s[i]) == Some(b) {
          var j :| 0 <= j < |s[1..]| && f(s[1..][j]) == Some(b);
          assert f(s[j + 1]) == Some(b);
        }
      }
      match f(s[0])
      case Some(b) => [b] + rest
      case None => rest
  }

  /** Every element that `f` keeps appears in the result: nothing else is dropped. */
  lemma {:induction false} FilterMapKeeps<A, B>(s: seq<A>, f: A -> Option<B>, i: nat)
    requires i < |s| && f(s[i]).Some?
    ensures f(s[i]).value in FilterMap(s, f)
  {
    if i > 0 {
      FilterMapKeeps(s[1..], f, i - 1);
      assert s[1..][i - 1] == s[i];
    }
  }

  /** When `f` keeps everything, nothing is dropped: no de-duplication happens. */
  lemma {:induction false} FilterMapKeepsAll<A, B>(s: seq<A>, f: A -> Option<B>)
    requires forall i :: 0 <= i < |s| ==> f(s[i]).Some?
    ensures |FilterMap(s, f)| == |s|
  {
    if |s| > 0 {
      FilterMapKeepsAll(s[1..], f);
    }
  }

  /** How many elements of `s` that `f` maps to `Some(b)`. */
  ghost function Hits<A, B>(s: seq<A>, f: A -> Option<B>, b: B): nat {
    if |s| == 0 then 0
    else (if f(s[0]) == Some(b) then 1 else 0) + Hits(s[1..], f, b)
  }

  /** Each kept value occurs in the result as often as `f` produces it: nothing is merged. */
  lemma {:induction false} FilterMapCounts<A, B>(s: seq<A>, f: A -> Option<B>, b: B)
    ensures multiset(FilterMap(s, f))[b] == Hits(s, f, b)
  {
    if |s| > 0 {
      FilterMapCounts(s[1..], f, b);
      match f(s[0])
      case Some(c) => assert multiset(FilterMap(s, f)) == multiset{c} + multiset(FilterMap(s[1..], f));
      case None =>
    }
  }

  /** Two sequences that `f` and `g` map alike, position by position, give the same counts. */
  lemma {:induction false} HitsPointwise<A, C, B>(s: seq<A>, f: A -> Option<B>, t: seq<C>, g: C -> Option<B>, b: B)
    requires |s| == |t|
    requires forall i :: 0 <= i < |s| ==> f(s[i]) == g(t[i])
    ensures Hits(s, f, b) == Hits(t, g, b)
  {
    if |s| > 0 {
      assert f(s[0]) == g(t[0]);
      HitsPointwise(s[1..], f, t[1..], g, b);
    }
  }

  // ---------------------------------------------------------------- decimal text

  predicate IsDigit(c: char) { '0' <= c <= '9' }

  function DigitChar(d: nat): (c: char)
    requires d < 10
    ensures IsDigit(c) && c as int - '0' as int == d
  {
    ('0' as int + d) as char
  }

  /** Ten to the power `n`: the first number that needs `n + 1` digits. */
  function Pow10(n: nat): nat {
    if n == 0 then 1 else 10 * Pow10(n - 1)
  }

  /** `n` in decimal with exactly `width` digits, zero-padded on the left (`%0<width>d`). */
  function Padded(n: nat, width: nat): (r: string)
    ensures |r| == width
    ensures forall k :: 0 <= k < |r| ==> IsDigit(r[k])
  {
    if width == 0 then [] else Padded(n / 10, width - 1) + [DigitChar(n % 10)]
  }

  /** Distinct numbers that fit in `width` digits have distinct padded forms. */
  lemma {:induction false} PaddedInjective(a: nat, b: nat, width: nat)
    requires a < Pow10(width) && b < Pow10(width)
    requires Padded(a, width) == Padded(b, width)
    ensures a == b
  {
    if width > 0 {
      var pa, pb := Padded(a, width), Padded(b, width);
      assert pa[width - 1] == pb[width - 1];
      assert a % 10 == b % 10;
      assert pa[..width - 1] == Padded(a / 10, width - 1);
      assert pb[..width - 1] == Padded(b / 10, width - 1);
      PaddedInjective(a / 10, b / 10, width - 1);
    }
  }

  /** `str(n)` for a natural number: decimal without leading zeros. */
  function Decimal(n: nat): (r: string)
    ensures |r| >= 1
    ensures n >= 10 ==> |r| >= 2
    ensures forall k :: 0 <= k < |r| ==> IsDigit(r[k])
  {
    if n < 10 then [DigitChar(n)] else Decimal(n / 10) + [DigitChar(n % 10)]
  }

  /** Different numbers print differently. */
  lemma {:induction false} DecimalInjective(a: nat, b: nat)
    requires Decimal(a) == Decimal(b)
    ensures a == b
  {
    var da, db := Decimal(a), Decimal(b);
    assert da[|da| - 1] == db[|db| - 1];
    assert a % 10 == b % 10;
    if a >= 10 && b >= 10 {
      assert da[..|da| - 1] == Decimal(a / 10);
      assert db[..|db| - 1] == Decimal(b / 10);
      DecimalInjective(a / 10, b / 10);
    }
  }
}
