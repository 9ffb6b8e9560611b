/** The cross-modal latency shift of `shift_brain_signal`: the brain signal
    loses its first `k` samples and the audio its last `k`, where `k` is the
    latency expressed in samples. */
module Alignment {
  import opened PyLang
  import opened Tensors

  /** `int(srate * (shift / 1000))`: the latency in samples, truncated toward zero. */
  function LatencySamples(srate: real, shiftMs: real): (k: int)
    ensures 0.0 <= srate * (shiftMs / 1000.0) ==> 0 <= k
  {
    Trunc(srate * (shiftMs / 1000.0))
  }

  /** `shift_brain_signal(X, Y, srate, shift)`: `X[:, :, k:]` and `Y[:, :-k]`. */
  function ShiftBrainSignal<T>(X: Tensor3<T>, Y: Matrix<T>, srate: real, shiftMs: real): (r: (Tensor3<T>, Matrix<T>))
    ensures |r.0| == |X| && |r.1| == |Y|
    ensures forall s :: 0 <= s < |X| ==> |r.0[s]| == |X[s]|
    ensures IsTensor3(X) ==> IsTensor3(r.0)
    ensures IsMatrix(Y) ==> IsMatrix(r.1)
  {
    var k := LatencySamples(srate, shiftMs);
    (seq(|X|, s requires 0 <= s < |X| => ColsFrom(X[s], k)), ColsUpto(Y, -k))
  }

  /** With a positive offset `k` and equal time lengths `t`, the brain keeps
      samples `k..t`, the audio keeps samples `0..t-k`, and both end with
      length `t - k` (nothing at all when `k` exceeds `t`). */
  lemma PositiveShiftAligns<T>(X: Tensor3<T>, Y: Matrix<T>, srate: real, shiftMs: real)
    requires IsTensor3(X) && IsMatrix(Y) && TimeLen(X) == Width(Y)
    requires LatencySamples(srate, shiftMs) > 0
    ensures var k, t, r := LatencySamples(srate, shiftMs), Width(Y), ShiftBrainSignal(X, Y, srate, shiftMs);
      && TimeLen(r.0) == Width(r.1) == (if k <= t then t - k else 0)
      && (k <= t ==> forall s, c :: 0 <= s < |X| && 0 <= c < |X[s]| ==> r.0[s][c] == X[s][c][k..])
      && (k <= t ==> forall e :: 0 <= e < |Y| ==> r.1[e] == Y[e][..t - k])
  {
    var k, t, r := LatencySamples(srate, shiftMs), Width(Y), ShiftBrainSignal(X, Y, srate, shiftMs);
    FromNonNegative(X[0][0], k);
    UptoNegative(Y[0], k);
    forall s, c | 0 <= s < |X| && 0 <= c < |X[s]|
      ensures r.0[s][c] == if k <= t then X[s][c][k..] else []
    {
      FromNonNegative(X[s][c], k);
    }
    forall e | 0 <= e < |Y|
      ensures r.1[e] == if k <= t then Y[e][..t - k] else []
    {
      UptoNegative(Y[e], k);
    }
  }

  /** A latency that truncates to zero samples leaves the brain signal
      untouched but empties the audio, because `Y[:, :-0]` is `Y[:, :0]`. */
  lemma ZeroShiftEmptiesAudio<T>(X: Tensor3<T>, Y: Matrix<T>, srate: real, shiftMs: real)
    requires LatencySamples(srate, shiftMs) == 0
    ensures ShiftBrainSignal(X, Y, srate, shiftMs).0 == X
    ensures forall e :: 0 <= e < |Y| ==> ShiftBrainSignal(X, Y, srate, shiftMs).1[e] == []
  {
    var r := ShiftBrainSignal(X, Y, srate, shiftMs);
    forall s | 0 <= s < |X|
      ensures r.0[s] == X[s]
    {
      forall c | 0 <= c < |X[s]|
        ensures r.0[s][c] == X[s][c]
      {
        FromNonNegative(X[s][c], 0);
      }
    }
  }

  /** A negative offset `-m` keeps the last `m` brain samples and the first
      `m` audio samples, so the two still end with equal lengths. */
  lemma NegativeShiftAligns<T>(X: Tensor3<T>, Y: Matrix<T>, srate: real, shiftMs: real)
    requires IsTensor3(X) && IsMatrix(Y) && TimeLen(X) == Width(Y)
    requires LatencySamples(srate, shiftMs) < 0
    ensures var m, t, r := -LatencySamples(srate, shiftMs), Width(Y), ShiftBrainSignal(X, Y, srate, shiftMs);
      && TimeLen(r.0) == Width(r.1) == (if m <= t then m else t)
      && (m <= t ==> forall s, c :: 0 <= s < |X| && 0 <= c < |X[s]| ==> r.0[s][c] == X[s][c][t - m..])
      && (m <= t ==> forall e :: 0 <= e < |Y| ==> r.1[e] == Y[e][..m])
  {
    var m, t, r := -LatencySamples(srate, shiftMs), Width(Y), ShiftBrainSignal(X, Y, srate, shiftMs);
    FromNegative(X[0][0], m);
    UptoNonNegative(Y[0], m);
    forall s, c | 0 <= s < |X| && 0 <= c < |X[s]|
      ensures r.0[s][c] == if m <= t then X[s][c][t - m..] else X[s][c]
    {
      FromNegative(X[s][c], m);
    }
    forall e | 0 <= e < |Y|
      ensures r.1[e] == if m <= t then Y[e][..m] else Y[e]
    {
      UptoNonNegative(Y[e], m);
    }
  }
}
