/** The single-audio-track corpus (`Brennan2018Dataset`): every subject heard
    the same audio, so one audio track is cut into windows and paired with
    every subject's brain windows. */
module Brennan {
  import opened Outcomes
  import opened PyLang
  import opened Tensors
  import opened Alignment

  /** The dataset's three parallel tensors: brain windows, audio windows and
      the subject index of each item. */
  datatype Batches<T> = Batches(x: seq<Matrix<T>>, y: seq<Matrix<T>>, subjectIdxs: seq<int>)

  /** The item at flat position `i` of `S * W` items (W windows per subject)
      is window `i % W` of subject `i / W`, and that window lies inside the
      first `W * seq_len` samples. */
  lemma ItemFits(i: nat, subjects: nat, count: nat, seqLen: nat, t: nat)
    requires i < subjects * count && count * seqLen <= t
    ensures count > 0 && i / count < subjects
    ensures 0 <= i % count * seqLen && i % count * seqLen + seqLen <= t
  {
    assert count > 0;
    assert i / count * count <= i;
    MulCancelLess(i / count, subjects, count);
    WindowFits(i % count, count, seqLen);
  }

  /** Position `s * W + w` with `w < W` splits back into subject `s` and window `w`. */
  lemma SplitItemIndex(s: nat, w: nat, count: nat)
    requires w < count
    ensures (s * count + w) / count == s && (s * count + w) % count == w
  {
    var i := s * count + w;
    var q, r := i / count, i % count;
    assert (q - s) * count == w - r;
    MulCancelLess(q - s, 1, count);
    MulCancelLess(-1, q - s, count);
  }

  /** `Brennan2018Dataset.batchfy(X, Y, seq_len)`: the brain tensor is
      (subjects, channels, time), the audio (embedding channels, time). The
      time axis is cut to a multiple of `seq_len`, split into windows, the
      audio windows are broadcast to every subject, and the subject and
      window axes are flattened into one item axis. */
  function Batchfy<T>(X: Tensor3<T>, Y: Matrix<T>, seqLen: int): (r: Result<Batches<T>>)
    requires IsTensor3(X) && IsMatrix(Y)
    ensures r.Err? <==> TimeLen(X) != Width(Y) || seqLen <= 0
    ensures TimeLen(X) != Width(Y) ==> r == Err(AssertionError)
    ensures r.Ok? ==> var n := |X| * (TimeLen(X) / seqLen);
      |r.value.x| == n && |r.value.y| == n && |r.value.subjectIdxs| == n
  {
    if TimeLen(X) != Width(Y) then Err(AssertionError)
    else if seqLen == 0 then Err(ZeroDivisionError)
    else if seqLen < 0 then Err(RuntimeError)
    else
      var count := TimeLen(X) / seqLen;
      var n := |X| * count;
      Ok(Batches(
        seq(n, i requires 0 <= i < n => BrainItem(X, seqLen, i)),
        seq(n, i requires 0 <= i < n => AudioItem(X, Y, seqLen, i)),
        seq(n, i requires 0 <= i < n => SubjectItem(X, seqLen, i))))
  }

  /** The brain window at flat position `i`: window `i % W` of subject `i / W`. */
  function BrainItem<T>(X: Tensor3<T>, seqLen: nat, i: nat): Matrix<T>
    requires IsTensor3(X) && seqLen > 0 && i < |X| * (TimeLen(X) / seqLen)
  {
    var t := TimeLen(X);
    var count := t / seqLen;
    ItemFits(i, |X|, count, seqLen, t);
    Window(X[i / count], i % count * seqLen, seqLen)
  }

  /** The audio window at flat position `i`: window `i % W`, whatever the subject. */
  function AudioItem<T>(X: Tensor3<T>, Y: Matrix<T>, seqLen: nat, i: nat): Matrix<T>
    requires IsTensor3(X) && IsMatrix(Y) && TimeLen(X) == Width(Y) && seqLen > 0 && i < |X| * (TimeLen(X) / seqLen)
  {
    var t := TimeLen(X);
    var count := t / seqLen;
    ItemFits(i, |X|, count, seqLen, t);
    Window(Y, i % count * seqLen, seqLen)
  }

  /** The subject index at flat position `i`. */
  function SubjectItem<T>(X: Tensor3<T>, seqLen: nat, i: nat): int
    requires IsTensor3(X) && seqLen > 0 && i < |X| * (TimeLen(X) / seqLen)
  {
    var t := TimeLen(X);
    var count := t / seqLen;
    ItemFits(i, |X|, count, seqLen, t);
    i / count
  }

  /** Item `s * W + w` (W windows per subject) pairs subject `s`'s brain
      window `w` with audio window `w`, the same audio for every subject,
      and carries subject index `s`. */
  lemma BatchfyItem<T>(X: Tensor3<T>, Y: Matrix<T>, seqLen: int, s: nat, w: nat)
    requires IsTensor3(X) && IsMatrix(Y) && TimeLen(X) == Width(Y) && seqLen > 0
    requires s < |X| && w < TimeLen(X) / seqLen
    ensures var W, b := TimeLen(X) / seqLen, Batchfy(X, Y, seqLen).value;
      var i, lo, hi := s * W + w, w * seqLen, (w + 1) * seqLen;
      && hi <= TimeLen(X)
      && i < |b.x|
      && |b.x[i]| == |X[s]| && (forall c :: 0 <= c < |X[s]| ==> b.x[i][c] == X[s][c][lo..hi])
      && |b.y[i]| == |Y| && (forall e :: 0 <= e < |Y| ==> b.y[i][e] == Y[e][lo..hi])
      && b.subjectIdxs[i] == s
  {
    ItemIndex(s, w, |X|, TimeLen(X) / seqLen, seqLen, TimeLen(X));
  }

  /** Position `s * W + w` is one of the `S * W` items, names subject `s`
      and window `w`, and window `w` lies inside the first `W * seq_len`
      samples. */
  lemma ItemIndex(s: nat, w: nat, subjects: nat, count: nat, seqLen: nat, t: nat)
    requires s < subjects && w < count && count * seqLen <= t
    ensures s * count + w < subjects * count
    ensures (s * count + w) / count == s && (s * count + w) % count == w
    ensures 0 <= w * seqLen && w * seqLen + seqLen == (w + 1) * seqLen <= t
  {
    SplitItemIndex(s, w, count);
    WindowFits(w, count, seqLen);
    ItemBelow(s, w, subjects, count);
  }

  lemma ItemBelow(s: nat, w: nat, subjects: nat, count: nat)
    requires s < subjects && w < count
    ensures s * count + w < subjects * count
  {
    assert (s + 1) * count <= subjects * count;
  }

  /** Joining a subject's brain windows back together along time gives the
      subject's recording up to the dropped remainder of fewer than
      `seq_len` samples: windowing never pads. */
  lemma BatchfyRejoinsBrain<T>(X: Tensor3<T>, Y: Matrix<T>, seqLen: int, s: nat, c: nat)
    requires IsTensor3(X) && IsMatrix(Y) && TimeLen(X) == Width(Y) && seqLen > 0
    requires s < |X| && c < |X[s]|
    ensures var W, b := TimeLen(X) / seqLen, Batchfy(X, Y, seqLen).value;
      && (s + 1) * W <= |b.x|
      && HasRow(b.x[s * W..(s + 1) * W], c)
      && JoinRow(b.x[s * W..(s + 1) * W], c) == X[s][c][..W * seqLen]
  {
    var W, b := TimeLen(X) / seqLen, Batchfy(X, Y, seqLen).value;
    assert (s + 1) * W <= |X| * W;
    var mine := b.x[s * W..(s + 1) * W];
    var row := X[s][c];
    var joined := RowWindows(row, seqLen, W);
    forall w | 0 <= w < W
      ensures c < |mine[w]| && mine[w][c] == joined[w]
    {
      BatchfyItem(X, Y, seqLen, s, w);
    }
    assert seq(W, w requires 0 <= w < W => mine[w][c]) == joined;
    JoinWindows(row, seqLen, W);
  }

  /** The audio windows every subject receives join back into the audio
      track up to the dropped remainder. */
  lemma BatchfyRejoinsAudio<T>(X: Tensor3<T>, Y: Matrix<T>, seqLen: int, s: nat, e: nat)
    requires IsTensor3(X) && IsMatrix(Y) && TimeLen(X) == Width(Y) && seqLen > 0
    requires s < |X| && e < |Y|
    ensures var W, b := TimeLen(X) / seqLen, Batchfy(X, Y, seqLen).value;
      && (s + 1) * W <= |b.y|
      && HasRow(b.y[s * W..(s + 1) * W], e)
      && JoinRow(b.y[s * W..(s + 1) * W], e) == Y[e][..W * seqLen]
  {
    var W, b := TimeLen(X) / seqLen, Batchfy(X, Y, seqLen).value;
    assert (s + 1) * W <= |X| * W;
    var mine := b.y[s * W..(s + 1) * W];
    var row := Y[e];
    var joined := RowWindows(row, seqLen, W);
    forall w | 0 <= w < W
      ensures e < |mine[w]| && mine[w][e] == joined[w]
    {
      BatchfyItem(X, Y, seqLen, s, w);
    }
    assert seq(W, w requires 0 <= w < W => mine[w][e]) == joined;
    JoinWindows(row, seqLen, W);
  }

  /** The dataset as `Brennan2018Dataset.__init__` leaves it once the cached
      brain and audio tensors are loaded: latency shift, then windowing. */
  function Build<T>(X: Tensor3<T>, Y: Matrix<T>, srate: real, shiftMs: real, seqLen: int): (r: Result<Batches<T>>)
    requires IsTensor3(X) && IsMatrix(Y)
    ensures r.Ok? ==> |r.value.x| == |r.value.y| == |r.value.subjectIdxs|
  {
    var shifted := ShiftBrainSignal(X, Y, srate, shiftMs);
    Batchfy(shifted.0, shifted.1, seqLen)
  }

  /** With a positive latency offset `k` and equal time lengths `t`, the
      dataset holds `S * ((t - k) / seq_len)` items (none when `k > t`). */
  lemma BuildCount<T>(X: Tensor3<T>, Y: Matrix<T>, srate: real, shiftMs: real, seqLen: int)
    requires IsTensor3(X) && IsMatrix(Y) && TimeLen(X) == Width(Y) && seqLen > 0
    requires LatencySamples(srate, shiftMs) > 0
    ensures var k, t := LatencySamples(srate, shiftMs), Width(Y);
      var r := Build(X, Y, srate, shiftMs, seqLen);
      r.Ok? && |r.value.x| == |X| * ((if k <= t then t - k else 0) / seqLen)
  {
    PositiveShiftAligns(X, Y, srate, shiftMs);
  }

  /** A latency offset that truncates to zero samples makes the dataset
      unbuildable whenever there is any data: the audio is emptied by
      `Y[:, :-0]`, so `batchfy`'s length assertion fails. */
  lemma ZeroLatencyFailsBuild<T>(X: Tensor3<T>, Y: Matrix<T>, srate: real, shiftMs: real, seqLen: int)
    requires IsTensor3(X) && IsMatrix(Y) && TimeLen(X) == Width(Y) > 0
    requires LatencySamples(srate, shiftMs) == 0
    ensures Build(X, Y, srate, shiftMs, seqLen) == Err(AssertionError)
  {
    ZeroShiftEmptiesAudio(X, Y, srate, shiftMs);
  }

  /** `len(dataset)`. */
  function Len<T>(d: Batches<T>): (n: nat)
    ensures |d.x| == |d.y| == |d.subjectIdxs| ==> forall i :: GetItem(d, i).Ok? <==> -(n as int) <= i < n
  {
    |d.x|
  }

  /** `dataset[i]`, with Python's negative indexing and IndexError. */
  function GetItem<T>(d: Batches<T>, i: int): (r: Result<(Matrix<T>, Matrix<T>, int)>)
    requires |d.x| == |d.y| == |d.subjectIdxs|
    ensures r.Ok? <==> 0 <= |d.x| + i && i < |d.x|
    ensures r.Err? ==> r.error == IndexError
    ensures 0 <= i < |d.x| ==> r == Ok((d.x[i], d.y[i], d.subjectIdxs[i]))
    ensures i < 0 && r.Ok? ==> r == Ok((d.x[|d.x| + i], d.y[|d.x| + i], d.subjectIdxs[|d.x| + i]))
  {
    match Index(i, |d.x|)
    case None => Err(IndexError)
    case Some(j) => Ok((d.x[j], d.y[j], d.subjectIdxs[j]))
  }

  /** Reading item `s * W + w` of a freshly windowed dataset returns window
      `w` of subject `s`'s brain signal, the matching audio window and the
      subject index `s`. */
  lemma GetItemPairsWindows<T>(X: Tensor3<T>, Y: Matrix<T>, seqLen: int, s: nat, w: nat)
    requires IsTensor3(X) && IsMatrix(Y) && TimeLen(X) == Width(Y) && seqLen > 0
    requires s < |X| && w < TimeLen(X) / seqLen
    ensures var W, lo := TimeLen(X) / seqLen, w * seqLen;
      && lo + seqLen <= TimeLen(X)
      && GetItem(Batchfy(X, Y, seqLen).value, s * W + w) == Ok((Window(X[s], lo, seqLen), Window(Y, lo, seqLen), s))
  {
    var W := TimeLen(X) / seqLen;
    BatchfyItem(X, Y, seqLen, s, w);
    SplitItemIndex(s, w, W);
  }
}
