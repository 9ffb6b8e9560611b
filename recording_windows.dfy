/** The per-recording step of `Gwilliams2022Dataset.batchfy`: a recording
    and its task's audio are each cut to a whole number of windows and split
    into windows, the two window counts must agree, and every window is
    tagged with the subject index parsed out of the recording key. */
module RecordingWindows {
  import opened Outcomes
  import opened PyLang
  import opened Tensors
  import opened Keys

  /** The items one or more recordings contribute: brain windows
      (channels, `meg_len`), audio windows (`audio_len` samples) and the
      subject index of each item. */
  datatype Batch<T> = Batch(x: seq<Matrix<T>>, y: seq<seq<T>>, subjectIdxs: seq<int>)

  /** Every audio track is a rectangular matrix. */
  predicate AudioShaped<T>(audio: map<string, Matrix<T>>)
  {
    forall k :: k in audio ==> IsMatrix(audio[k])
  }

  /** How many windows of length `len` survive `X[:, :-(width % len)]`:
      all whole windows, except that a width that is already a multiple of
      `len` keeps none (the slice `[:, :-0]` is empty). */
  function WindowCount(width: nat, len: nat): (n: nat)
    requires len > 0
    ensures n * len <= width
    ensures n == 0 || n == width / len
  {
    if width % len == 0 then 0 else width / len
  }

  lemma QuotientTimes(q: nat, len: nat)
    requires len > 0
    ensures q * len / len == q && (q * len) % len == 0
  {
    var i := q * len;
    var d, m := i / len, i % len;
    assert (q - d) * len == m;
    MulCancelLess(q - d, 1, len);
    MulCancelLess(-1, q - d, len);
  }

  /** `m[:, :-(m.shape[-1] % len)]`: the matrix cut to a whole number of
      windows, or emptied when its width already is a multiple of `len`. */
  function TrimToWindows<T>(m: Matrix<T>, len: nat): (r: Matrix<T>)
    requires IsMatrix(m) && len > 0
    ensures IsMatrix(r) && |r| == |m|
    ensures Width(r) == WindowCount(Width(m), len) * len
    ensures forall c :: 0 <= c < |m| ==> r[c] == m[c][..Width(r)]
  {
    var trim := Width(m) % len;
    var r := ColsUpto(m, -trim);
    assert forall c :: 0 <= c < |m| ==> r[c] == m[c][..WindowCount(Width(m), len) * len] by {
      forall c | 0 <= c < |m|
        ensures r[c] == m[c][..WindowCount(Width(m), len) * len]
      {
        assert |m[c]| == Width(m);
        if trim == 0 {
          UptoNonNegative(m[c], 0);
        } else {
          UptoNegative(m[c], trim);
        }
      }
    }
    r
  }

  /** `X[:, :-trim].reshape(C, -1, meg_len).transpose(1, 0, 2)`: the brain
      windows of one recording. */
  function BrainWindows<T>(X: Matrix<T>, megLen: nat): (r: seq<Matrix<T>>)
    requires IsMatrix(X) && megLen > 0
    ensures |r| == WindowCount(Width(X), megLen)
    ensures forall w :: 0 <= w < |r| ==> |r[w]| == |X|
  {
    var kept := TrimToWindows(X, megLen);
    QuotientTimes(WindowCount(Width(X), megLen), megLen);
    Windows(kept, megLen, Width(kept) / megLen)
  }

  /** Window `w` of a recording holds samples `[w * meg_len, (w + 1) * meg_len)`
      of every channel of the original recording. */
  lemma BrainWindowAt<T>(X: Matrix<T>, megLen: nat, w: nat)
    requires IsMatrix(X) && megLen > 0 && w < WindowCount(Width(X), megLen)
    ensures 0 <= w * megLen && w * megLen + megLen <= Width(X)
    ensures BrainWindows(X, megLen)[w] == Window(X, w * megLen, megLen)
  {
    var n := WindowCount(Width(X), megLen);
    var kept := TrimToWindows(X, megLen);
    QuotientTimes(n, megLen);
    WindowFits(w, n, megLen);
    forall c | 0 <= c < |X|
      ensures BrainWindows(X, megLen)[w][c] == X[c][w * megLen..w * megLen + megLen]
    {
      assert kept[c] == X[c][..n * megLen];
    }
  }

  lemma FlatSize(rows: nat, q: nat, len: nat)
    requires len > 0
    ensures (rows * (q * len)) % len == 0 && (rows * (q * len)) / len == rows * q
  {
    assert rows * (q * len) == (rows * q) * len;
    QuotientTimes(rows * q, len);
  }

  /** `Y[:, :-trim].reshape(-1, audio_len)`: the audio cut to whole windows,
      flattened channel after channel and split into windows. */
  function AudioWindows<T>(Y: Matrix<T>, audioLen: nat): (r: seq<seq<T>>)
    requires IsMatrix(Y) && audioLen > 0
    ensures |r| == |Y| * WindowCount(Width(Y), audioLen)
    ensures forall j :: 0 <= j < |r| ==> |r[j]| == audioLen
  {
    var kept := TrimToWindows(Y, audioLen);
    FlatTrimmed(Y, audioLen);
    Chunks(Flatten(kept), audioLen)
  }

  /** The trimmed track flattens to a whole number of windows, as many as
      its channels times the windows of one channel. */
  lemma FlatTrimmed<T>(Y: Matrix<T>, audioLen: nat)
    requires IsMatrix(Y) && audioLen > 0
    ensures var flat := Flatten(TrimToWindows(Y, audioLen));
      |flat| % audioLen == 0 && |flat| / audioLen == |Y| * WindowCount(Width(Y), audioLen)
  {
    var kept := TrimToWindows(Y, audioLen);
    var n := WindowCount(Width(Y), audioLen);
    FlattenLength(kept, n * audioLen);
    FlatSize(|Y|, n, audioLen);
  }

  /** For a single-channel track, audio window `j` holds samples
      `[j * audio_len, (j + 1) * audio_len)` of the track. */
  lemma AudioWindowAt<T>(Y: Matrix<T>, audioLen: nat, j: nat)
    requires IsMatrix(Y) && |Y| == 1 && audioLen > 0 && j < WindowCount(Width(Y), audioLen)
    ensures j * audioLen + audioLen <= Width(Y)
    ensures AudioWindows(Y, audioLen)[j] == Y[0][j * audioLen..j * audioLen + audioLen]
  {
    var n := WindowCount(Width(Y), audioLen);
    var kept := TrimToWindows(Y, audioLen);
    WindowFits(j, n, audioLen);
    assert Flatten(kept) == kept[0] + Flatten(kept[1..]);
    assert kept[1..] == [];
    assert Flatten(kept) == Y[0][..n * audioLen];
  }

  /** The items of one recording: its brain windows, its task's audio
      windows and its subject index as a uint8, or the exception the loop
      body raises. */
  function RecordingBatch<T>(key: string, X: Matrix<T>, audio: map<string, Matrix<T>>, megLen: int, audioLen: int): (r: Result<Batch<T>>)
    requires IsMatrix(X) && AudioShaped(audio)
    ensures r.Ok? ==> megLen > 0 && |r.value.x| == |r.value.y| == |r.value.subjectIdxs| == WindowCount(Width(X), megLen)
    ensures r.Ok? ==> forall w :: 0 <= w < |r.value.x| ==> |r.value.x[w]| == |X|
  {
    if megLen == 0 then Err(ZeroDivisionError)
    else if megLen < 0 then Err(ValueError)
    else
      var xs := BrainWindows(X, megLen);
      var task := TaskOf(key);
      if task !in audio then Err(KeyError)
      else if audioLen == 0 then Err(ZeroDivisionError)
      else if audioLen < 0 then Err(RuntimeError)
      else
        var ys := AudioWindows(audio[task], audioLen);
        if |xs| != |ys| then Err(AssertionError)
        else match SubjectOf(key)
          case Err(e) => Err(e)
          case Ok(s) => Ok(Batch(xs, ys, seq(|xs|, _ => AsUint8(s))))
  }

  /** The configuration checks of the loop body, in order: a zero or
      negative brain window length, a task without audio, a zero or negative
      audio window length. */
  lemma RecordingBatchSetupErrors<T>(key: string, X: Matrix<T>, audio: map<string, Matrix<T>>, megLen: int, audioLen: int)
    requires IsMatrix(X) && AudioShaped(audio)
    ensures var r := RecordingBatch(key, X, audio, megLen, audioLen);
      && (megLen == 0 ==> r == Err(ZeroDivisionError))
      && (megLen < 0 ==> r == Err(ValueError))
      && (megLen > 0 && TaskOf(key) !in audio ==> r == Err(KeyError))
      && (megLen > 0 && TaskOf(key) in audio && audioLen == 0 ==> r == Err(ZeroDivisionError))
      && (megLen > 0 && TaskOf(key) in audio && audioLen < 0 ==> r == Err(RuntimeError))
  {
  }

  /** Once the configuration is sound, brain and audio window counts that
      differ fail the length assertion. */
  lemma RecordingBatchCountMismatch<T>(key: string, X: Matrix<T>, audio: map<string, Matrix<T>>, megLen: int, audioLen: int)
    requires IsMatrix(X) && AudioShaped(audio)
    requires megLen > 0 && audioLen > 0 && TaskOf(key) in audio
    ensures var Y := audio[TaskOf(key)];
      WindowCount(Width(X), megLen) != |Y| * WindowCount(Width(Y), audioLen) ==>
        RecordingBatch(key, X, audio, megLen, audioLen) == Err(AssertionError)
  {
  }

  /** Once the configuration is sound and the window counts agree, a
      recording is windowed exactly when its key names a subject; an
      unreadable key raises ValueError. */
  lemma RecordingBatchOutcome<T>(key: string, X: Matrix<T>, audio: map<string, Matrix<T>>, megLen: int, audioLen: int)
    requires IsMatrix(X) && AudioShaped(audio)
    requires megLen > 0 && audioLen > 0 && TaskOf(key) in audio
    ensures var r, Y := RecordingBatch(key, X, audio, megLen, audioLen), audio[TaskOf(key)];
      WindowCount(Width(X), megLen) == |Y| * WindowCount(Width(Y), audioLen) ==>
        (r.Ok? <==> SubjectOf(key).Ok?) && (r.Err? ==> r.error == ValueError)
  {
  }

  /** A recording whose length is already a whole number of brain windows
      contributes no brain window, so unless its audio also yields none the
      length assertion fails. */
  lemma ExactMultipleRecordingFails<T>(key: string, X: Matrix<T>, audio: map<string, Matrix<T>>, megLen: int, audioLen: int)
    requires IsMatrix(X) && AudioShaped(audio) && megLen > 0 && audioLen > 0
    requires Width(X) % megLen == 0 && TaskOf(key) in audio
    requires Width(audio[TaskOf(key)]) % audioLen != 0 && Width(audio[TaskOf(key)]) >= audioLen
    ensures RecordingBatch(key, X, audio, megLen, audioLen) == Err(AssertionError)
  {
    var Y := audio[TaskOf(key)];
    assert Width(Y) / audioLen >= 1;
    assert |Y| * WindowCount(Width(Y), audioLen) >= 1 by {
      MulPositive(|Y|, WindowCount(Width(Y), audioLen));
    }
  }

  lemma MulPositive(a: nat, b: nat)
    requires a >= 1 && b >= 1
    ensures a * b >= 1
  {
  }

  /** The three parts of a windowed recording. */
  lemma RecordingBatchParts<T>(key: string, X: Matrix<T>, audio: map<string, Matrix<T>>, megLen: int, audioLen: int)
    requires IsMatrix(X) && AudioShaped(audio)
    requires RecordingBatch(key, X, audio, megLen, audioLen).Ok?
    ensures megLen > 0 && TaskOf(key) in audio && audioLen > 0 && SubjectOf(key).Ok?
    ensures var b := RecordingBatch(key, X, audio, megLen, audioLen).value;
      && b.x == BrainWindows(X, megLen) && b.y == AudioWindows(audio[TaskOf(key)], audioLen)
      && forall w :: 0 <= w < |b.subjectIdxs| ==> b.subjectIdxs[w] == AsUint8(SubjectOf(key).value)
  {
  }

  /** Item `w` of a windowed recording: brain window `w` of the recording,
      audio window `w` of its task, and the subject its key names. */
  lemma RecordingItem<T>(key: string, X: Matrix<T>, audio: map<string, Matrix<T>>, megLen: int, audioLen: int, w: nat, b: Batch<T>)
    requires IsMatrix(X) && AudioShaped(audio) && megLen > 0
    requires RecordingBatch(key, X, audio, megLen, audioLen) == Ok(b)
    requires w < WindowCount(Width(X), megLen)
    ensures TaskOf(key) in audio && audioLen > 0 && SubjectOf(key).Ok?
    ensures 0 <= w * megLen && w * megLen + megLen <= Width(X)
    ensures w < |b.x| && w < |b.y| && w < |b.subjectIdxs|
    ensures b.x[w] == Window(X, w * megLen, megLen)
    ensures b.y == AudioWindows(audio[TaskOf(key)], audioLen)
    ensures b.subjectIdxs[w] == AsUint8(SubjectOf(key).value)
  {
    BrainWindowAt(X, megLen, w);
  }

  /** Every item of a windowed recording carries the subject index parsed
      from its key, stored as a uint8. */
  lemma RecordingSubjects<T>(key: string, X: Matrix<T>, audio: map<string, Matrix<T>>, megLen: int, audioLen: int, subject: int)
    requires IsMatrix(X) && AudioShaped(audio)
    requires SubjectOf(key) == Ok(subject)
    requires RecordingBatch(key, X, audio, megLen, audioLen).Ok?
    ensures forall w :: 0 <= w < |RecordingBatch(key, X, audio, megLen, audioLen).value.subjectIdxs| ==>
      RecordingBatch(key, X, audio, megLen, audioLen).value.subjectIdxs[w] == AsUint8(subject)
  {
  }

  /** For a recording stored under `subject{NN}_sess{s}_task{t}` with a
      two-digit subject number, the windows are paired with the audio of
      task `t` and tagged with the subject index the key was built from. */
  lemma DescribedRecording<T>(subjectIdx: nat, sessionIdx: nat, taskIdx: nat, X: Matrix<T>, audio: map<string, Matrix<T>>, megLen: int, audioLen: int)
    requires IsMatrix(X) && AudioShaped(audio) && subjectIdx <= 98
    requires RecordingBatch(Description(subjectIdx, sessionIdx, taskIdx), X, audio, megLen, audioLen).Ok?
    ensures AudioKey(taskIdx) in audio
    ensures var b := RecordingBatch(Description(subjectIdx, sessionIdx, taskIdx), X, audio, megLen, audioLen).value;
      forall w :: 0 <= w < |b.subjectIdxs| ==> b.subjectIdxs[w] == subjectIdx
  {
    var key := Description(subjectIdx, sessionIdx, taskIdx);
    TaskRoundTrip(subjectIdx, sessionIdx, taskIdx);
    SubjectRoundTrip(subjectIdx, sessionIdx, taskIdx);
    RecordingSubjects(key, X, audio, megLen, audioLen, subjectIdx);
  }
}
