/** The multi-recording corpus (`Gwilliams2022Dataset`): recordings keyed
    by subject, session and task are windowed one after the other and their
    items concatenated; the real duration of every stimulus is kept per task
    and used to cut the stimulus audio. */
module Gwilliams {
  import opened Outcomes
  import opened PyLang
  import opened Tensors
  import opened Keys
  import opened RecordingWindows

  /** Every recording is a rectangular (channels, time) matrix. */
  predicate RecordingsShaped<T>(recordings: seq<(string, Matrix<T>)>)
  {
    forall k :: 0 <= k < |recordings| ==> IsMatrix(recordings[k].1)
  }

  /** `torch.cat` along the item axis needs every brain tensor to have the
      same number of channels. */
  predicate SameChannels<T>(recordings: seq<(string, Matrix<T>)>)
  {
    forall k :: 0 <= k < |recordings| ==> |recordings[k].1| == |recordings[0].1|
  }

  /** The outcome of each recording's turn of the `batchfy` loop, in the dict's iteration order. */
  function Results<T>(recordings: seq<(string, Matrix<T>)>, audio: map<string, Matrix<T>>, megLen: int, audioLen: int): (r: seq<Result<Batch<T>>>)
    requires RecordingsShaped(recordings) && AudioShaped(audio)
    ensures |r| == |recordings|
  {
    seq(|recordings|, k requires 0 <= k < |recordings| => RecordingBatch(recordings[k].0, recordings[k].1, audio, megLen, audioLen))
  }

  /** The loop's accumulation: the items of every turn appended one after
      the other, or the exception of the first turn that raises one. */
  function Collect<T>(results: seq<Result<Batch<T>>>): (r: Result<Batch<T>>)
    ensures r.Ok? <==> forall k :: 0 <= k < |results| ==> results[k].Ok?
    ensures r.Err? ==> exists k :: 0 <= k < |results| && results[k] == Err(r.error) && forall j :: 0 <= j < k ==> results[j].Ok?
  {
    if |results| == 0 then Ok(Batch([], [], []))
    else
      var last := |results| - 1;
      var before := results[..last];
      assert forall k :: 0 <= k < last ==> before[k] == results[k];
      match Collect(before)
      case Err(e) => Err(e)
      case Ok(acc) =>
        match results[last]
        case Err(e) =>
          assert results[last] == Err(e) && forall j :: 0 <= j < last ==> results[j].Ok?;
          Err(e)
        case Ok(b) => Ok(Batch(acc.x + b.x, acc.y + b.y, acc.subjectIdxs + b.subjectIdxs))
  }

  /** The loop of `batchfy` over the recordings in the dict's iteration order. */
  function Windowed<T>(recordings: seq<(string, Matrix<T>)>, audio: map<string, Matrix<T>>, megLen: int, audioLen: int): (r: Result<Batch<T>>)
    requires RecordingsShaped(recordings) && AudioShaped(audio)
    ensures var turns := Results(recordings, audio, megLen, audioLen);
      && (r.Ok? <==> forall k :: 0 <= k < |turns| ==> turns[k].Ok?)
      && (r.Err? ==> exists k :: 0 <= k < |turns| && turns[k] == Err(r.error) && forall j :: 0 <= j < k ==> turns[j].Ok?)
  {
    Collect(Results(recordings, audio, megLen, audioLen))
  }

  /** The number of windows the recordings yield. */
  function TotalWindows<T>(recordings: seq<(string, Matrix<T>)>, megLen: nat): nat
    requires RecordingsShaped(recordings) && megLen > 0
  {
    if |recordings| == 0 then 0
    else TotalWindows(recordings[..|recordings| - 1], megLen) + WindowCount(Width(recordings[|recordings| - 1].1), megLen)
  }

  /** What `batchfy` leaves in `self.X`, `self.Y` and `self.subject_idxs`:
      the windowed recordings, or the first exception; `torch.cat` raises
      RuntimeError on an empty list and on recordings with different
      channel counts. */
  function BatchfyOf<T>(recordings: seq<(string, Matrix<T>)>, audio: map<string, Matrix<T>>, megLen: int, audioLen: int): (r: Result<Batch<T>>)
    requires RecordingsShaped(recordings) && AudioShaped(audio)
    ensures r.Ok? <==> Windowed(recordings, audio, megLen, audioLen).Ok? && 0 < |recordings| && SameChannels(recordings)
    ensures r.Ok? || Windowed(recordings, audio, megLen, audioLen).Err? ==> r == Windowed(recordings, audio, megLen, audioLen)
    ensures r.Ok? ==> megLen > 0 && |r.value.x| == |r.value.y| == |r.value.subjectIdxs| == TotalWindows(recordings, megLen)
  {
    match Windowed(recordings, audio, megLen, audioLen)
    case Err(e) => Err(e)
    case Ok(b) =>
      if |recordings| == 0 || !SameChannels(recordings) then Err(RuntimeError)
      else
        WindowedPositive(recordings, audio, megLen, audioLen);
        WindowedLengths(recordings, audio, megLen, audioLen);
        Ok(b)
  }

  /** The turns of the loop over a prefix of the recordings are a prefix
      of the turns over all of them. */
  lemma ResultsPrefix<T>(recordings: seq<(string, Matrix<T>)>, i: nat, audio: map<string, Matrix<T>>, megLen: int, audioLen: int)
    requires RecordingsShaped(recordings) && AudioShaped(audio) && i <= |recordings|
    ensures Results(recordings[..i], audio, megLen, audioLen) == Results(recordings, audio, megLen, audioLen)[..i]
  {
  }

  /** The three tensors `batchfy` builds have one entry per window, as many
      as the windows of all recordings together. */
  lemma {:induction false} WindowedLengths<T>(recordings: seq<(string, Matrix<T>)>, audio: map<string, Matrix<T>>, megLen: int, audioLen: int)
    requires RecordingsShaped(recordings) && AudioShaped(audio)
    requires Windowed(recordings, audio, megLen, audioLen).Ok? && megLen > 0
    ensures var b := Windowed(recordings, audio, megLen, audioLen).value;
      |b.x| == |b.y| == |b.subjectIdxs| == TotalWindows(recordings, megLen)
  {
    if |recordings| > 0 {
      var last := |recordings| - 1;
      var before, mine := WindowedAround(recordings, audio, megLen, audioLen, last);
      WindowedLengths(recordings[..last], audio, megLen, audioLen);
      WindowedStep(recordings, last, audio, megLen, audioLen);
      assert recordings[..last + 1] == recordings;
    }
  }

  /** A loop over at least one recording succeeds only with a positive
      window length. */
  lemma WindowedPositive<T>(recordings: seq<(string, Matrix<T>)>, audio: map<string, Matrix<T>>, megLen: int, audioLen: int)
    requires RecordingsShaped(recordings) && AudioShaped(audio)
    requires Windowed(recordings, audio, megLen, audioLen).Ok? && 0 < |recordings|
    ensures megLen > 0
  {
    var before, mine := WindowedAround(recordings, audio, megLen, audioLen, |recordings| - 1);
  }

  /** One more turn of the loop: the items so far followed by the next
      turn's, or that turn's exception. */
  lemma CollectStep<T>(results: seq<Result<Batch<T>>>, i: nat)
    requires i < |results| && Collect(results[..i]).Ok?
    ensures var acc := Collect(results[..i]).value;
      Collect(results[..i + 1]) ==
        match results[i]
        case Err(e) => Err(e)
        case Ok(b) => Ok(Batch(acc.x + b.x, acc.y + b.y, acc.subjectIdxs + b.subjectIdxs))
  {
    assert results[..i + 1][..i] == results[..i];
  }

  /** Once one turn raises, the whole loop raises the same exception. */
  lemma {:induction false} CollectFailureSticks<T>(results: seq<Result<Batch<T>>>, i: nat)
    requires i <= |results| && Collect(results[..i]).Err?
    ensures Collect(results) == Collect(results[..i])
    decreases |results| - i
  {
    if i < |results| {
      var last := |results| - 1;
      assert results[..last][..i] == results[..i];
      CollectFailureSticks(results[..last], i);
    } else {
      assert results[..i] == results;
    }
  }

  /** When the whole loop succeeds, so does every prefix of it, and its
      items extend the prefix's. */
  lemma {:induction false} CollectPrefix<T>(results: seq<Result<Batch<T>>>, i: nat)
    requires i <= |results| && Collect(results).Ok?
    ensures Collect(results[..i]).Ok?
    ensures var whole, part := Collect(results).value, Collect(results[..i]).value;
      && |part.x| <= |whole.x| && |part.y| <= |whole.y| && |part.subjectIdxs| <= |whole.subjectIdxs|
      && whole.x[..|part.x|] == part.x && whole.y[..|part.y|] == part.y && whole.subjectIdxs[..|part.subjectIdxs|] == part.subjectIdxs
    decreases |results| - i
  {
    if i < |results| {
      var last := |results| - 1;
      CollectPrefix(results[..last], i);
      assert results[..last][..i] == results[..i];
    } else {
      assert results[..i] == results;
    }
  }

  /** The items of a successful loop start with those of the turns before
      `k` followed by those of turn `k`. */
  lemma CollectAround<T>(results: seq<Result<Batch<T>>>, k: nat) returns (before: Batch<T>, mine: Batch<T>)
    requires k < |results| && Collect(results).Ok?
    ensures Collect(results[..k]) == Ok(before) && results[k] == Ok(mine)
    ensures var whole, n := Collect(results).value, |before.x| + |mine.x|;
      && n <= |whole.x| && |before.y| + |mine.y| <= |whole.y| && |before.subjectIdxs| + |mine.subjectIdxs| <= |whole.subjectIdxs|
      && whole.x[..n] == before.x + mine.x && whole.y[..|before.y| + |mine.y|] == before.y + mine.y
      && whole.subjectIdxs[..|before.subjectIdxs| + |mine.subjectIdxs|] == before.subjectIdxs + mine.subjectIdxs
  {
    CollectPrefix(results, k);
    CollectPrefix(results, k + 1);
    CollectStep(results, k);
    before := Collect(results[..k]).value;
    mine := results[k].value;
  }

  /** One more turn of the `batchfy` loop over the recordings. */
  lemma WindowedStep<T>(recordings: seq<(string, Matrix<T>)>, i: nat, audio: map<string, Matrix<T>>, megLen: int, audioLen: int)
    requires RecordingsShaped(recordings) && AudioShaped(audio) && i < |recordings|
    requires Windowed(recordings[..i], audio, megLen, audioLen).Ok?
    ensures var acc, next := Windowed(recordings[..i], audio, megLen, audioLen).value,
                            RecordingBatch(recordings[i].0, recordings[i].1, audio, megLen, audioLen);
      Windowed(recordings[..i + 1], audio, megLen, audioLen) ==
        match next
        case Err(e) => Err(e)
        case Ok(b) => Ok(Batch(acc.x + b.x, acc.y + b.y, acc.subjectIdxs + b.subjectIdxs))
  {
    ResultsPrefix(recordings, i, audio, megLen, audioLen);
    ResultsPrefix(recordings, i + 1, audio, megLen, audioLen);
    CollectStep(Results(recordings, audio, megLen, audioLen), i);
  }

  /** Once one recording raises, the `batchfy` loop raises its exception. */
  lemma WindowedFailureSticks<T>(recordings: seq<(string, Matrix<T>)>, i: nat, audio: map<string, Matrix<T>>, megLen: int, audioLen: int)
    requires RecordingsShaped(recordings) && AudioShaped(audio) && i <= |recordings|
    requires Windowed(recordings[..i], audio, megLen, audioLen).Err?
    ensures Windowed(recordings, audio, megLen, audioLen) == Windowed(recordings[..i], audio, megLen, audioLen)
  {
    ResultsPrefix(recordings, i, audio, megLen, audioLen);
    CollectFailureSticks(Results(recordings, audio, megLen, audioLen), i);
  }

  /** The items of a successful loop over the recordings start with those
      of the recordings before `k` followed by those of recording `k`. */
  lemma WindowedAround<T>(recordings: seq<(string, Matrix<T>)>, audio: map<string, Matrix<T>>, megLen: int, audioLen: int, k: nat)
    returns (before: Batch<T>, mine: Batch<T>)
    requires RecordingsShaped(recordings) && AudioShaped(audio)
    requires Windowed(recordings, audio, megLen, audioLen).Ok? && k < |recordings|
    ensures Windowed(recordings[..k], audio, megLen, audioLen) == Ok(before)
    ensures RecordingBatch(recordings[k].0, recordings[k].1, audio, megLen, audioLen) == Ok(mine)
    ensures var whole := Windowed(recordings, audio, megLen, audioLen).value;
      && |before.x| + |mine.x| <= |whole.x| && |before.y| + |mine.y| <= |whole.y|
      && |before.subjectIdxs| + |mine.subjectIdxs| <= |whole.subjectIdxs|
      && whole.x[..|before.x| + |mine.x|] == before.x + mine.x
      && whole.y[..|before.y| + |mine.y|] == before.y + mine.y
      && whole.subjectIdxs[..|before.subjectIdxs| + |mine.subjectIdxs|] == before.subjectIdxs + mine.subjectIdxs
  {
    ResultsPrefix(recordings, k, audio, megLen, audioLen);
    before, mine := CollectAround(Results(recordings, audio, megLen, audioLen), k);
  }

  /** A batch that starts with `before` followed by `mine` holds item `w`
      of `mine` at `i == |before.x| + w`. */
  lemma ItemOfConcat<T>(whole: Batch<T>, before: Batch<T>, mine: Batch<T>, w: nat, i: int,
                        brain: seq<Matrix<T>>, sound: seq<seq<T>>, subject: int)
    requires i == |before.x| + w && |before.x| == |before.y| == |before.subjectIdxs|
    requires w < |mine.x| && |mine.x| == |mine.y| == |mine.subjectIdxs|
    requires && |before.x| + |mine.x| <= |whole.x| && |before.y| + |mine.y| <= |whole.y|
      && |before.subjectIdxs| + |mine.subjectIdxs| <= |whole.subjectIdxs|
      && whole.x[..|before.x| + |mine.x|] == before.x + mine.x
      && whole.y[..|before.y| + |mine.y|] == before.y + mine.y
      && whole.subjectIdxs[..|before.subjectIdxs| + |mine.subjectIdxs|] == before.subjectIdxs + mine.subjectIdxs
    requires mine.x == brain && mine.y == sound && forall j :: 0 <= j < |mine.subjectIdxs| ==> mine.subjectIdxs[j] == subject
    ensures i < |whole.x| && i < |whole.y| && i < |whole.subjectIdxs|
    ensures whole.x[i] == brain[w] && whole.y[i] == sound[w] && whole.subjectIdxs[i] == subject
  {
    var n := |before.x| + |mine.x|;
    assert whole.x[i] == whole.x[..n][i] == (before.x + mine.x)[i];
    assert whole.y[i] == whole.y[..n][i] == (before.y + mine.y)[i];
    assert whole.subjectIdxs[i] == whole.subjectIdxs[..n][i] == (before.subjectIdxs + mine.subjectIdxs)[i];
  }

  /** Item `i == TotalWindows(recordings[..k]) + w` of a successful `batchfy` is
      brain window `w` of recording `k` (which `BrainWindowAt` places at
      samples `[w * meg_len, (w + 1) * meg_len)` of each channel), paired
      with audio window `w` of that recording's task and tagged with the
      subject its key names. */
  lemma BatchfyItem<T>(recordings: seq<(string, Matrix<T>)>, audio: map<string, Matrix<T>>, megLen: int, audioLen: int, k: nat, w: nat, i: int)
    requires RecordingsShaped(recordings) && AudioShaped(audio)
    requires BatchfyOf(recordings, audio, megLen, audioLen).Ok?
    requires k < |recordings| && megLen > 0 && w < WindowCount(Width(recordings[k].1), megLen)
    requires i == TotalWindows(recordings[..k], megLen) + w
    ensures var (key, X) := recordings[k];
      var b := BatchfyOf(recordings, audio, megLen, audioLen).value;
      && w < |BrainWindows(X, megLen)|
      && TaskOf(key) in audio && audioLen > 0 && SubjectOf(key).Ok?
      && w < |AudioWindows(audio[TaskOf(key)], audioLen)|
      && i < |b.x| && i < |b.y| && i < |b.subjectIdxs|
      && b.x[i] == BrainWindows(X, megLen)[w]
      && b.y[i] == AudioWindows(audio[TaskOf(key)], audioLen)[w]
      && b.subjectIdxs[i] == AsUint8(SubjectOf(key).value)
  {
    var (key, X) := recordings[k];
    var before, mine := WindowedAround(recordings, audio, megLen, audioLen, k);
    WindowedLengths(recordings[..k], audio, megLen, audioLen);
    RecordingBatchParts(key, X, audio, megLen, audioLen);
    ItemOfConcat(BatchfyOf(recordings, audio, megLen, audioLen).value, before, mine, w, i,
                 BrainWindows(X, megLen), AudioWindows(audio[TaskOf(key)], audioLen), AsUint8(SubjectOf(key).value));
  }

  /** `np.allclose(a, b)` with the tolerance taken as exact equality: the
      two lists are compared after numpy broadcasting, so a list of one
      value is compared with every entry of the other; lists of other
      unequal lengths cannot be broadcast and raise ValueError (None). */
  function AllClose(a: seq<int>, b: seq<int>): (r: Option<bool>)
    ensures r.Some? <==> |a| == |b| || |a| == 1 || |b| == 1
    ensures |a| == |b| ==> r == Some(a == b)
  {
    if |a| == |b| then Some(forall i :: 0 <= i < |a| ==> a[i] == b[i])
    else if |a| == 1 then Some(forall i :: 0 <= i < |b| ==> b[i] == a[0])
    else if |b| == 1 then Some(forall i :: 0 <= i < |a| ==> a[i] == b[0])
    else None
  }

  /** Comparing with `np.allclose` does not depend on the order of the
      arguments, and a list is close to itself. */
  lemma AllCloseSymmetric(a: seq<int>, b: seq<int>)
    ensures AllClose(a, b) == AllClose(b, a)
    ensures AllClose(a, a) == Some(true)
  {
  }

  /** A one-element list is close to any list all of whose entries equal
      that element, although the two lists differ whenever the other list
      has another length. */
  lemma BroadcastHidesLength(v: int, b: seq<int>)
    requires forall i :: 0 <= i < |b| ==> b[i] == v
    ensures AllClose([v], b) == Some(true)
    ensures |b| != 1 ==> [v] != b
  {
  }

  /** `int(sample_rate * real_durations[f"task{t}"][f])` with the duration in
      microseconds: the stimulus length in samples, truncated toward zero;
      KeyError for a task without durations and IndexError for a stimulus
      number the list does not reach. */
  function Cutoff(realDurations: map<string, seq<int>>, sampleRate: nat, taskIdx: nat, f: int): (r: Result<int>)
    ensures r.Err? <==> AudioKey(taskIdx) !in realDurations || Index(f, |realDurations[AudioKey(taskIdx)]|).None?
    ensures r.Err? ==> r.error == (if AudioKey(taskIdx) !in realDurations then KeyError else IndexError)
  {
    var key := AudioKey(taskIdx);
    if key !in realDurations then Err(KeyError)
    else match Index(f, |realDurations[key]|)
      case None => Err(IndexError)
      case Some(j) => Ok(TruncDiv(sampleRate * realDurations[key][j], 1000000))
  }

  /** The cutoff rule of `audio_preproc`: a waveform longer than the cutoff
      keeps its first `cutoff` samples; otherwise it is kept whole and the
      flag records the "No audio cutoff" warning. */
  function CutWaveform<T>(waveform: Matrix<T>, cutoff: int): (r: (Matrix<T>, bool))
    requires IsMatrix(waveform)
    ensures IsMatrix(r.0) && |r.0| == |waveform|
    ensures r.1 <==> Width(waveform) <= cutoff
    ensures r.1 ==> r.0 == waveform
    ensures !r.1 && 0 <= cutoff ==> Width(r.0) == cutoff && forall c :: 0 <= c < |waveform| ==> r.0[c] == waveform[c][..cutoff]
  {
    if Width(waveform) > cutoff then
      var cut := ColsUpto(waveform, cutoff);
      assert IsMatrix(cut) by {
        forall c | 0 <= c < |waveform|
          ensures |cut[c]| == |cut[0]|
        {
          assert |waveform[c]| == Width(waveform);
        }
      }
      if 0 <= cutoff then
        ColsUptoShape(waveform, cutoff);
        (cut, false)
      else (cut, false)
    else (waveform, true)
  }

  /** A negative cutoff (a negative real duration) is read by the slice as
      counting from the end: the waveform loses its last `-cutoff` samples
      instead of being cut to nothing. */
  lemma NegativeCutoffCountsFromEnd<T>(waveform: Matrix<T>, cutoff: int)
    requires IsMatrix(waveform) && cutoff < 0 && -cutoff <= Width(waveform)
    ensures Width(CutWaveform(waveform, cutoff).0) == Width(waveform) + cutoff
  {
    UptoNegative(waveform[0], -cutoff);
  }

  /** The dataset. Before `batchfy` the recordings are a dict
      from `subject{NN}_sess{s}_task{t}` to a (channels, time) matrix and
      the audio a dict from `task{t}` to a (channels, samples) matrix; after
      it `x`, `y` and `subjectIdxs` hold the windowed items. */
  class Gwilliams2022Dataset<T> {
    const megLen: int
    const audioLen: int
    var recordings: seq<(string, Matrix<T>)>
    var audio: map<string, Matrix<T>>
    var realDurations: map<string, seq<int>>
    var x: seq<Matrix<T>>
    var y: seq<seq<T>>
    var subjectIdxs: seq<int>

    predicate Shaped()
      reads this
    {
      RecordingsShaped(recordings) && AudioShaped(audio)
    }

    /** `__init__` up to `batchfy`, with the recordings, the audio and the
        real durations given as loaded: the window lengths in samples are
        the sampling rates times the window length in seconds. */
    constructor(resampleRate: int, audioUpsample: int, seqLen: int,
                recordings: seq<(string, Matrix<T>)>, audio: map<string, Matrix<T>>, realDurations: map<string, seq<int>>)
      ensures megLen == resampleRate * seqLen && audioLen == audioUpsample * seqLen
      ensures this.recordings == recordings && this.audio == audio && this.realDurations == realDurations
      ensures x == [] && y == [] && subjectIdxs == []
    {
      megLen := resampleRate * seqLen;
      audioLen := audioUpsample * seqLen;
      this.recordings := recordings;
      this.audio := audio;
      this.realDurations := realDurations;
      x, y, subjectIdxs := [], [], [];
    }

    /** `self.subject_idxs = self.batchfy()`: window every recording in the
        dict's iteration order, concatenate the items and store them; on an exception the
        dataset is left as it was. */
    method Batchfy() returns (r: Result<seq<int>>)
      requires Shaped()
      modifies this`x, this`y, this`subjectIdxs
      ensures BatchfyOf(recordings, audio, megLen, audioLen).Ok? <==> r.Ok?
      ensures r.Ok? ==> BatchfyOf(recordings, audio, megLen, audioLen) == Ok(Batch(x, y, subjectIdxs)) && r.value == subjectIdxs
      ensures r.Err? ==> BatchfyOf(recordings, audio, megLen, audioLen) == Err(r.error)
      ensures r.Err? ==> x == old(x) && y == old(y) && subjectIdxs == old(subjectIdxs)
      ensures r.Ok? ==> megLen > 0 && |x| == |y| == |subjectIdxs| == TotalWindows(recordings, megLen)
    {
      var xs: seq<Matrix<T>>, ys: seq<seq<T>>, subs: seq<int> := [], [], [];
      var i := 0;
      while i < |recordings|
        invariant 0 <= i <= |recordings|
        invariant Windowed(recordings[..i], audio, megLen, audioLen) == Ok(Batch(xs, ys, subs))
        invariant x == old(x) && y == old(y) && subjectIdxs == old(subjectIdxs)
      {
        var (key, X) := recordings[i];
        var items := RecordingBatch(key, X, audio, megLen, audioLen);
        WindowedStep(recordings, i, audio, megLen, audioLen);
        if items.Err? {
          WindowedFailureSticks(recordings, i + 1, audio, megLen, audioLen);
          return Err(items.error);
        }
        xs, ys, subs := xs + items.value.x, ys + items.value.y, subs + items.value.subjectIdxs;
        i := i + 1;
      }
      assert recordings[..i] == recordings;
      if |recordings| == 0 || !SameChannels(recordings) {
        return Err(RuntimeError);
      }
      x, y, subjectIdxs := xs, ys, subs;
      r := Ok(subs);
    }

    /** `len(dataset)`. */
    function Len(): (n: nat)
      reads this
      ensures |x| == |y| == |subjectIdxs| ==> forall i :: GetItem(i).Ok? <==> -(n as int) <= i < n
    {
      |x|
    }

    /** `dataset[i]`: the brain window, the audio window and the subject
        index of item `i`, with negative indices counted from the end and
        IndexError past either end. */
    function GetItem(i: int): (r: Result<(Matrix<T>, seq<T>, int)>)
      reads this
      ensures r.Ok? <==> -|x| <= i < |x| && -|y| <= i < |y| && -|subjectIdxs| <= i < |subjectIdxs|
      ensures r.Err? ==> r.error == IndexError
      ensures r.Ok? && 0 <= i ==> r == Ok((x[i], y[i], subjectIdxs[i]))
      ensures r.Ok? && i < 0 ==> r == Ok((x[|x| + i], y[|y| + i], subjectIdxs[|subjectIdxs| + i]))
    {
      match (Index(i, |x|), Index(i, |y|), Index(i, |subjectIdxs|))
      case (Some(a), Some(b), Some(c)) => Ok((x[a], y[b], subjectIdxs[c]))
      case _ => Err(IndexError)
    }

    /** `update_real_durations(real_durations, task_idx)`: store the
        durations under `task{t}`, last write wins. The flag is the
        "Real durations are different" warning: it is raised only when the
        key already held durations `np.allclose` finds different;
        ValueError when the two lists cannot be broadcast together. */
    method UpdateRealDurations(durations: seq<int>, taskIdx: nat) returns (r: Result<bool>)
      modifies this`realDurations
      ensures var key := AudioKey(taskIdx);
        r.Err? <==> key in old(realDurations) && AllClose(old(realDurations)[key], durations).None?
      ensures r.Err? ==> r.error == ValueError && realDurations == old(realDurations)
      ensures r.Ok? ==> realDurations == old(realDurations)[AudioKey(taskIdx) := durations]
      ensures r.Ok? ==> (r.value <==> AudioKey(taskIdx) in old(realDurations) && AllClose(old(realDurations)[AudioKey(taskIdx)], durations) == Some(false))
    {
      var key := AudioKey(taskIdx);
      var warned := false;
      if key in realDurations {
        var close := AllClose(realDurations[key], durations);
        if close.None? {
          return Err(ValueError);
        }
        warned := !close.value;
      }
      realDurations := realDurations[key := durations];
      r := Ok(warned);
    }

    /** The cutoff step for stimulus `f` of task `t` in `audio_preproc`. */
    method CutStimulus(waveform: Matrix<T>, sampleRate: nat, taskIdx: nat, f: int) returns (r: Result<(Matrix<T>, bool)>)
      requires IsMatrix(waveform)
      ensures r == match Cutoff(realDurations, sampleRate, taskIdx, f)
        case Err(e) => Err(e)
        case Ok(cutoff) => Ok(CutWaveform(waveform, cutoff))
    {
      var cutoff := Cutoff(realDurations, sampleRate, taskIdx, f);
      if cutoff.Err? {
        return Err(cutoff.error);
      }
      r := Ok(CutWaveform(waveform, cutoff.value));
    }
  }

  /** The warning is a real difference: when it is raised the stored and
      the new durations differ, and for lists of equal length it is raised
      exactly when they differ. */
  lemma WarningMeansDifferent(stored: seq<int>, durations: seq<int>)
    ensures AllClose(stored, durations) == Some(false) ==> stored != durations
    ensures |stored| == |durations| ==> (AllClose(stored, durations) == Some(false) <==> stored != durations)
  {
  }
}
