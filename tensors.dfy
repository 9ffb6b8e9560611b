/** Tensors as nested sequences over an abstract element type, and the
    slicing, reshaping and concatenation steps the dataset code applies to
    them. A matrix is a sequence of rows (channels), each a sequence over
    time. */
module Tensors {
  import opened PyLang

  type Matrix<T> = seq<seq<T>>
  type Tensor3<T> = seq<Matrix<T>>

  /** A rectangular matrix with at least one row (a nested sequence cannot
      record the width of a tensor that has no rows). */
  predicate IsMatrix<T>(m: Matrix<T>)
  {
    |m| > 0 && forall c :: 0 <= c < |m| ==> |m[c]| == |m[0]|
  }

  function Width<T>(m: Matrix<T>): nat
    requires |m| > 0
  {
    |m[0]|
  }

  /** A (subjects, channels, time) tensor: every subject has the same number
      of channels and every channel the same length. */
  predicate IsTensor3<T>(x: Tensor3<T>)
  {
    && |x| > 0
    && IsMatrix(x[0])
    && forall s :: 0 <= s < |x| ==> IsMatrix(x[s]) && |x[s]| == |x[0]| && Width(x[s]) == Width(x[0])
  }

  function TimeLen<T>(x: Tensor3<T>): nat
    requires IsTensor3(x)
  {
    Width(x[0])
  }

  /** `m[:, start:stop]`. */
  function ColsSlice<T>(m: Matrix<T>, start: int, stop: int): (r: Matrix<T>)
    ensures |r| == |m|
  {
    seq(|m|, c requires 0 <= c < |m| => Slice(m[c], start, stop))
  }

  /** `m[:, start:]`. */
  function ColsFrom<T>(m: Matrix<T>, start: int): (r: Matrix<T>)
    ensures |r| == |m|
  {
    seq(|m|, c requires 0 <= c < |m| => From(m[c], start))
  }

  /** `m[:, :stop]`. */
  function ColsUpto<T>(m: Matrix<T>, stop: int): (r: Matrix<T>)
    ensures |r| == |m|
  {
    seq(|m|, c requires 0 <= c < |m| => Upto(m[c], stop))
  }

  /** Columns `[start, start + len)` of every row. */
  function Window<T>(m: Matrix<T>, start: nat, len: nat): (r: Matrix<T>)
    requires IsMatrix(m) && start + len <= Width(m)
    ensures |r| == |m| && forall c :: 0 <= c < |m| ==> |r[c]| == len
  {
    seq(|m|, c requires 0 <= c < |m| => m[c][start..start + len])
  }

  lemma WindowFits(w: nat, count: nat, len: nat)
    requires w < count
    ensures 0 <= w * len && w * len + len <= count * len
  {
    assert (w + 1) * len <= count * len by {
      assert w + 1 <= count;
    }
  }

  lemma MulCancelLess(a: int, b: int, c: int)
    requires c > 0 && a * c < b * c
    ensures a < b
  {
  }

  /** The time axis cut into `count` consecutive windows of length `len`:
      torch's `reshape(..., count, len)` followed by moving the window axis
      to the front. */
  function Windows<T>(m: Matrix<T>, len: nat, count: nat): (r: seq<Matrix<T>>)
    requires IsMatrix(m) && count * len <= Width(m)
    ensures |r| == count
    ensures forall w :: 0 <= w < count ==> |r[w]| == |m| && forall c :: 0 <= c < |m| ==> |r[w][c]| == len
  {
    seq(count, w requires 0 <= w < count => WindowAt(m, len, count, w))
  }

  /** Window `w` of `count` windows of length `len`. */
  function WindowAt<T>(m: Matrix<T>, len: nat, count: nat, w: nat): (r: Matrix<T>)
    requires IsMatrix(m) && count * len <= Width(m) && w < count
    ensures |r| == |m| && forall c :: 0 <= c < |m| ==> |r[c]| == len
  {
    WindowFits(w, count, len);
    Window(m, w * len, len)
  }

  /** Concatenation of blocks: torch's flattening of two leading axes into one. */
  function Flatten<X>(blocks: seq<seq<X>>): seq<X>
  {
    if |blocks| == 0 then [] else blocks[0] + Flatten(blocks[1..])
  }

  /** Flattening blocks of equal size `n` puts element `w` of block `s` at
      position `s * n + w`. */
  lemma {:induction false} FlattenAt<X>(blocks: seq<seq<X>>, n: nat, s: nat, w: nat)
    requires forall b :: 0 <= b < |blocks| ==> |blocks[b]| == n
    requires s < |blocks| && w < n
    ensures |Flatten(blocks)| == |blocks| * n
    ensures s * n + w < |Flatten(blocks)| && Flatten(blocks)[s * n + w] == blocks[s][w]
  {
    FlattenLength(blocks, n);
    if s > 0 {
      FlattenAt(blocks[1..], n, s - 1, w);
      assert s * n + w == n + ((s - 1) * n + w);
    }
  }

  lemma {:induction false} FlattenLength<X>(blocks: seq<seq<X>>, n: nat)
    requires forall b :: 0 <= b < |blocks| ==> |blocks[b]| == n
    ensures |Flatten(blocks)| == |blocks| * n
  {
    if |blocks| > 0 {
      FlattenLength(blocks[1..], n);
    }
  }

  lemma {:induction false} FlattenAppend<X>(a: seq<seq<X>>, b: seq<seq<X>>)
    ensures Flatten(a + b) == Flatten(a) + Flatten(b)
  {
    if |a| > 0 {
      assert (a + b)[1..] == a[1..] + b;
      FlattenAppend(a[1..], b);
    } else {
      assert a + b == b;
    }
  }

  /** Every window has a row `c`. */
  predicate HasRow<T>(windows: seq<Matrix<T>>, c: nat)
  {
    forall w :: 0 <= w < |windows| ==> c < |windows[w]|
  }

  /** Row `c` of consecutive windows joined back along time. */
  function JoinRow<T>(windows: seq<Matrix<T>>, c: nat): seq<T>
    requires HasRow(windows, c)
  {
    Flatten(seq(|windows|, w requires 0 <= w < |windows| => windows[w][c]))
  }

  /** Row `c` of the windows joined back along time is the row's first
      `count * len` samples: windowing only drops the tail. */
  lemma WindowsRejoin<T>(m: Matrix<T>, len: nat, count: nat, c: nat)
    requires IsMatrix(m) && count * len <= Width(m) && c < |m|
    ensures HasRow(Windows(m, len, count), c)
    ensures JoinRow(Windows(m, len, count), c) == m[c][..count * len]
  {
    var ws := Windows(m, len, count);
    assert |m[c]| == Width(m);
    assert seq(|ws|, w requires 0 <= w < |ws| => ws[w][c]) == RowWindows(m[c], len, count);
    JoinWindows(m[c], len, count);
  }

  /** `s.reshape(-1, len)` of a flat sequence whose length is a multiple of `len`. */
  function Chunks<X>(s: seq<X>, len: nat): (r: seq<seq<X>>)
    requires len > 0 && |s| % len == 0
    ensures |r| == |s| / len
    ensures forall j :: 0 <= j < |r| ==> |r[j]| == len
  {
    ExactQuotient(|s|, len);
    RowWindows(s, len, |s| / len)
  }

  /** Flattening the chunks gives the sequence back: `reshape` neither
      drops nor reorders anything. */
  lemma FlattenChunks<X>(s: seq<X>, len: nat)
    requires len > 0 && |s| % len == 0
    ensures Flatten(Chunks(s, len)) == s
  {
    ExactQuotient(|s|, len);
    JoinWindows(s, len, |s| / len);
  }

  /** The first `n` windows of length `len` of a row. */
  function RowWindows<X>(row: seq<X>, len: nat, n: nat): (r: seq<seq<X>>)
    requires n * len <= |row|
    ensures |r| == n
    ensures forall j :: 0 <= j < n ==> |r[j]| == len
  {
    seq(n, j requires 0 <= j < n => Chunk(row, len, n, j))
  }

  /** Chunk `j` of `n` chunks of length `len`. */
  function Chunk<X>(s: seq<X>, len: nat, n: nat, j: nat): (r: seq<X>)
    requires j < n && n * len <= |s|
    ensures |r| == len
  {
    WindowFits(j, n, len);
    s[j * len..j * len + len]
  }

  lemma ExactQuotient(a: nat, len: nat)
    requires len > 0 && a % len == 0
    ensures a / len * len == a
  {
  }

  /** Row-wise concatenation of two matrices with the same number of rows:
      numpy's `concatenate(..., axis=1)`. */
  function HCat<T>(a: Matrix<T>, b: Matrix<T>): (r: Matrix<T>)
    requires |a| == |b|
    ensures |r| == |a|
  {
    seq(|a|, c requires 0 <= c < |a| => a[c] + b[c])
  }

  /** `m[:, :k]` for `0 <= k <= width` keeps a rectangular matrix of width `k`. */
  lemma ColsUptoShape<T>(m: Matrix<T>, k: int)
    requires IsMatrix(m) && 0 <= k <= Width(m)
    ensures IsMatrix(ColsUpto(m, k)) && Width(ColsUpto(m, k)) == k
    ensures forall c :: 0 <= c < |m| ==> ColsUpto(m, k)[c] == m[c][..k]
  {
    forall c | 0 <= c < |m|
      ensures ColsUpto(m, k)[c] == m[c][..k]
    {
      UptoNonNegative(m[c], k);
    }
  }

  /** Joining the first `n` windows of length `len` of a row gives back the
      row's first `n * len` samples: windowing loses nothing but the tail. */
  lemma {:induction false} JoinWindows<X>(row: seq<X>, len: nat, n: nat)
    requires n * len <= |row|
    ensures Flatten(RowWindows(row, len, n)) == row[..n * len]
  {
    if n > 0 {
      var m := (n - 1) * len;
      var last := WindowsSnoc(row, len, n);
      JoinWindows(row, len, n - 1);
      FlattenAppend(RowWindows(row, len, n - 1), [last]);
      assert Flatten([last]) == last;
      assert row[..m] + last == row[..n * len];
    }
  }

  /** The first `n` windows of a row are the first `n - 1` followed by the
      window `[(n - 1) * len, n * len)`. */
  lemma WindowsSnoc<X>(row: seq<X>, len: nat, n: nat) returns (last: seq<X>)
    requires 0 < n && n * len <= |row|
    ensures (n - 1) * len + len == n * len && last == row[(n - 1) * len..n * len]
    ensures RowWindows(row, len, n) == RowWindows(row, len, n - 1) + [last]
  {
    assert (n - 1) * len + len == n * len;
    last := row[(n - 1) * len..n * len];
    assert RowWindows(row, len, n)[n - 1] == Chunk(row, len, n, n - 1);
  }
}
