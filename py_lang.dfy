/** Python's integer conversion, slicing and indexing, stated exactly. */
module PyLang {
  import opened Outcomes

  /** `int(x)` of a number: truncation toward zero. */
  function Trunc(x: real): (r: int)
    ensures 0.0 <= x ==> r as real <= x < r as real + 1.0
    ensures x < 0.0 ==> r as real - 1.0 < x <= r as real
  {
    if x >= 0.0 then x.Floor else -((-x).Floor)
  }

  /** `int(a / d)` for integers: truncation toward zero (Dafny's own `/` is Euclidean). */
  function TruncDiv(a: int, d: nat): (r: int)
    requires d > 0
    ensures 0 <= a ==> r * d <= a < r * d + d
    ensures a < 0 ==> r * d - d < a <= r * d
  {
    if a >= 0 then a / d else -((-a) / d)
  }

  /** Where a slice bound `i` lands in a sequence of length `n`: negative
      bounds count from the end, then the bound is clamped to `[0, n]`. */
  function Bound(i: int, n: nat): (r: nat)
    ensures r <= n
  {
    if i < 0 then (if n + i < 0 then 0 else n + i) else if i > n then n else i
  }

  /** `s[start:stop]`. */
  function Slice<T>(s: seq<T>, start: int, stop: int): (r: seq<T>)
    ensures |r| == if Bound(start, |s|) <= Bound(stop, |s|) then Bound(stop, |s|) - Bound(start, |s|) else 0
  {
    var a := Bound(start, |s|);
    var b := Bound(stop, |s|);
    if a <= b then s[a..b] else []
  }

  /** `s[start:]`. */
  function From<T>(s: seq<T>, start: int): (r: seq<T>)
    ensures |r| == |s| - Bound(start, |s|)
  {
    Slice(s, start, |s|)
  }

  /** `s[:stop]`. */
  function Upto<T>(s: seq<T>, stop: int): (r: seq<T>)
    ensures |r| == Bound(stop, |s|)
  {
    Slice(s, 0, stop)
  }

  /** The position `s[i]` reads for a Python index `i`, or None where Python
      raises IndexError. */
  function Index(i: int, n: nat): (r: Option<nat>)
    ensures r.Some? <==> 0 <= n + i && i < n
    ensures r.Some? ==> r.value < n && (r.value == i || r.value == n + i)
  {
    if 0 <= i < n then Some(i) else if 0 <= n + i && i < 0 then Some(n + i) else None
  }

  lemma UptoNonNegative<T>(s: seq<T>, k: int)
    requires 0 <= k
    ensures Upto(s, k) == if k <= |s| then s[..k] else s
  {
  }

  lemma UptoNegative<T>(s: seq<T>, k: int)
    requires 0 < k
    ensures Upto(s, -k) == if k <= |s| then s[..|s| - k] else []
  {
  }

  lemma FromNonNegative<T>(s: seq<T>, k: int)
    requires 0 <= k
    ensures From(s, k) == if k <= |s| then s[k..] else []
  {
  }

  lemma FromNegative<T>(s: seq<T>, k: int)
    requires 0 < k
    ensures From(s, -k) == if k <= |s| then s[|s| - k..] else s
  {
  }
}
