/** `trim_nosound_regions`: the brain recording of one session is cut into
    column ranges, one per run of annotations. A scan over the annotation
    table finds the annotations at which the `sound_id` changes; the leading
    annotations carrying the silence marker -1 are dropped, and each maximal
    run of one `sound_id` after them (a later run of -1 included) becomes one
    (first, last) annotation pair, whose recording between the pair's start
    and end time is kept. Times are integer microseconds. */
module Trimming {
  import opened Outcomes
  import opened PyLang
  import opened Tensors

  /** The fields of a pandas Timestamp that matter here. */
  datatype Timestamp = Timestamp(hour: int, minute: int, second: int, microsecond: int)

  /** One row of the annotation table: its onset, its duration in
      microseconds and the `sound_id` read out of its description. */
  datatype Annotation = Annotation(onset: Timestamp, durationUs: int, soundId: int)

  /** The `sound_id` the scan starts from: no sound. */
  const Sentinel := -1

  /** `to_second(onset)` in microseconds: minutes, seconds and microseconds;
      the hour is not read. */
  function ToMicros(onset: Timestamp): (r: int)
    ensures 0 <= onset.minute < 60 && 0 <= onset.second < 60 && 0 <= onset.microsecond < 1000000
            ==> 0 <= r < 3600000000
  {
    (onset.minute * 60 + onset.second) * 1000000 + onset.microsecond
  }

  /** Onsets that differ only in the hour convert to the same time, so an
      annotation an hour later is read as one at the same moment. */
  lemma HourIgnored(onset: Timestamp, hour: int)
    ensures ToMicros(onset.(hour := hour)) == ToMicros(onset)
    ensures onset.hour != hour ==> onset.(hour := hour) != onset
  {
  }

  /** Within one hour, `to_second` orders onsets as the clock does. */
  lemma ToMicrosMonotone(a: Timestamp, b: Timestamp)
    requires 0 <= a.second < 60 && 0 <= a.microsecond < 1000000
    requires 0 <= b.second < 60 && 0 <= b.microsecond < 1000000
    requires a.minute < b.minute || (a.minute == b.minute && (a.second < b.second || (a.second == b.second && a.microsecond < b.microsecond)))
    ensures ToMicros(a) < ToMicros(b)
  {
    if a.minute < b.minute {
      assert (a.minute * 60 + a.second) + 1 <= b.minute * 60 + b.second;
      MulMonotone(a.minute * 60 + a.second + 1, b.minute * 60 + b.second, 1000000);
    } else if a.second < b.second {
      MulMonotone(a.minute * 60 + a.second + 1, b.minute * 60 + b.second, 1000000);
    }
  }

  lemma MulMonotone(x: int, y: int, c: nat)
    requires x <= y
    ensures x * c <= y * c
  {
  }

  function SoundIds(annots: seq<Annotation>): (ids: seq<int>)
    ensures |ids| == |annots|
    ensures forall t :: 0 <= t < |annots| ==> ids[t] == annots[t].soundId
  {
    seq(|annots|, t requires 0 <= t < |annots| => annots[t].soundId)
  }

  /** The `prev_sound_id` annotation `t` is compared with: the sentinel
      for the first annotation, the previous annotation's id after it. */
  function Before(ids: seq<int>, t: nat): int
    requires t < |ids|
  {
    if t == 0 then Sentinel else ids[t - 1]
  }

  /** The scan sees a new `sound_id` at annotation `t`. */
  predicate IsStart(ids: seq<int>, t: nat)
    requires t < |ids|
  {
    ids[t] != Before(ids, t)
  }

  /** The annotations among the first `t` at which the scan sees a new
      `sound_id`, in increasing order. */
  function Starts(ids: seq<int>, t: nat): (r: seq<int>)
    requires t <= |ids|
    ensures forall i :: 0 <= i < |r| ==> 0 <= r[i] < t
    ensures forall i, j :: 0 <= i < j < |r| ==> r[i] < r[j]
  {
    if t == 0 then [] else Starts(ids, t - 1) + (if IsStart(ids, t - 1) then [t - 1] else [])
  }

  /** An annotation is listed among the starts exactly when the scan sees a
      new `sound_id` there. */
  lemma {:induction false} StartsMembers(ids: seq<int>, t: nat, x: int)
    requires t <= |ids|
    ensures x in Starts(ids, t) <==> 0 <= x < t && IsStart(ids, x)
  {
    if t > 0 {
      StartsMembers(ids, t - 1, x);
    }
  }

  /** The flat list the first loop builds: `[b - 1, b]` for every start `b`. */
  function Flat(starts: seq<int>): (r: seq<int>)
    ensures |r| == 2 * |starts|
  {
    if |starts| == 0 then [] else Flat(starts[..|starts| - 1]) + [starts[|starts| - 1] - 1, starts[|starts| - 1]]
  }

  lemma {:induction false} FlatAt(starts: seq<int>, i: nat)
    requires i < |starts|
    ensures Flat(starts)[2 * i] == starts[i] - 1 && Flat(starts)[2 * i + 1] == starts[i]
  {
    var k := |starts| - 1;
    if i < k {
      FlatAt(starts[..k], i);
    }
  }

  /** `np.reshape(lst, (-1, 2))`: consecutive pairs, or ValueError when the
      length is odd. */
  function PairUp(lst: seq<int>): (r: Result<seq<(int, int)>>)
    ensures r.Ok? <==> |lst| % 2 == 0
    ensures r.Err? ==> r.error == ValueError
    ensures r.Ok? ==> 2 * |r.value| == |lst|
  {
    if |lst| % 2 != 0 then Err(ValueError)
    else Ok(seq(|lst| / 2, i requires 0 <= i < |lst| / 2 => (lst[2 * i], lst[2 * i + 1])))
  }

  /** Each start paired with the annotation before the next start, the last
      one with the final annotation `n - 1`. */
  function RunPairs(starts: seq<int>, n: int): (r: seq<(int, int)>)
    ensures |r| == |starts|
  {
    seq(|starts|, i requires 0 <= i < |starts| => (starts[i], if i + 1 < |starts| then starts[i + 1] - 1 else n - 1))
  }

  /** Dropping the first entry of the flat list, appending the last index
      and pairing up gives the runs between consecutive starts. */
  lemma PairingIsRuns(starts: seq<int>, n: int)
    requires |starts| > 0
    ensures PairUp(From(Flat(starts), 1) + [n - 1]) == Ok(RunPairs(starts, n))
  {
    FlatShape(starts);
    ShiftedFlat(starts, n);
    PairShifted(starts, Flat(starts), From(Flat(starts), 1) + [n - 1], n);
  }

  lemma FlatShape(starts: seq<int>)
    ensures forall i :: 0 <= i < |starts| ==> Flat(starts)[2 * i] == starts[i] - 1 && Flat(starts)[2 * i + 1] == starts[i]
  {
    forall i | 0 <= i < |starts|
      ensures Flat(starts)[2 * i] == starts[i] - 1 && Flat(starts)[2 * i + 1] == starts[i]
    {
      FlatAt(starts, i);
    }
  }

  /** Pairing up the shifted flat list puts each start together with the
      entry after it, which is the next start minus one or the last index. */
  lemma PairShifted(starts: seq<int>, flat: seq<int>, lst: seq<int>, n: int)
    requires |starts| > 0 && |flat| == 2 * |starts| && |lst| == 2 * |starts|
    requires forall i :: 0 <= i < |starts| ==> flat[2 * i] == starts[i] - 1 && flat[2 * i + 1] == starts[i]
    requires forall j :: 0 <= j < 2 * |starts| - 1 ==> lst[j] == flat[j + 1]
    requires lst[2 * |starts| - 1] == n - 1
    ensures PairUp(lst) == Ok(RunPairs(starts, n))
  {
    var k := |starts|;
    var pairs := PairsOf(lst, k);
    forall i | 0 <= i < k
      ensures pairs[i] == RunPairs(starts, n)[i]
    {
      assert lst[2 * i] == flat[2 * i + 1] == starts[i];
      if i + 1 < k {
        assert lst[2 * i + 1] == flat[2 * (i + 1)] == starts[i + 1] - 1;
      }
    }
    assert pairs == RunPairs(starts, n);
  }

  /** The flat list without its first entry, with the last index appended:
      entry `j` is the flat list's entry `j + 1`, and the last is `n - 1`. */
  lemma ShiftedFlat(starts: seq<int>, n: int)
    requires |starts| > 0
    ensures var lst := From(Flat(starts), 1) + [n - 1];
      && |lst| == 2 * |starts|
      && (forall j :: 0 <= j < 2 * |starts| - 1 ==> lst[j] == Flat(starts)[j + 1])
      && lst[2 * |starts| - 1] == n - 1
  {
    FromNonNegative(Flat(starts), 1);
  }

  /** A list of even length `2 * k` pairs up into `k` consecutive pairs. */
  lemma PairsOf(lst: seq<int>, k: nat) returns (pairs: seq<(int, int)>)
    requires |lst| == 2 * k
    ensures PairUp(lst) == Ok(pairs) && |pairs| == k
    ensures forall i :: 0 <= i < k ==> pairs[i] == (lst[2 * i], lst[2 * i + 1])
  {
    pairs := PairUp(lst).value;
  }

  /** With no start there is nothing to pair: the list is the lone last
      index and the reshape fails. */
  lemma NoStartsNoPairs(n: int)
    ensures PairUp(From(Flat([]), 1) + [n - 1]) == Err(ValueError)
  {
  }

  /** The run pairs of a `sound_id` sequence. */
  function Runs(ids: seq<int>): (r: seq<(int, int)>)
    ensures forall i :: 0 <= i < |r| ==> 0 <= r[i].0 <= r[i].1 < |ids|
  {
    var starts := Starts(ids, |ids|);
    var pairs := RunPairs(starts, |ids|);
    assert forall i :: 0 <= i < |pairs| ==> 0 <= pairs[i].0 <= pairs[i].1 < |ids| by {
      forall i | 0 <= i < |pairs|
        ensures 0 <= pairs[i].0 <= pairs[i].1 < |ids|
      {
        if i + 1 < |starts| {
          assert starts[i] < starts[i + 1];
        }
      }
    }
    pairs
  }

  /** Every pair is a maximal run of one `sound_id` that the scan entered
      with a new id: the id is constant from the first to the last index,
      changes at the first index and changes again right after the last
      one (or the table ends). */
  lemma RunsAreMaximal(ids: seq<int>, i: nat)
    requires i < |Runs(ids)|
    ensures var (s, e) := Runs(ids)[i];
      && IsStart(ids, s)
      && (forall t :: s <= t <= e ==> ids[t] == ids[s])
      && (e + 1 == |ids| || ids[e + 1] != ids[e])
  {
    var starts := Starts(ids, |ids|);
    var (s, e) := Runs(ids)[i];
    assert s in starts;
    StartsMembers(ids, |ids|, s);
    forall t | s <= t <= e
      ensures ids[t] == ids[s]
    {
      RunConstant(ids, starts, i, t);
    }
    if e + 1 < |ids| {
      assert e + 1 == starts[i + 1];
      assert e + 1 in starts;
      StartsMembers(ids, |ids|, e + 1);
    }
  }

  /** No annotation strictly inside a run starts a new one, so the id there
      equals the run's first id. */
  lemma {:induction false} RunConstant(ids: seq<int>, starts: seq<int>, i: nat, t: nat)
    requires starts == Starts(ids, |ids|)
    requires i < |starts|
    requires starts[i] <= t && t <= (if i + 1 < |starts| then starts[i + 1] - 1 else |ids| - 1)
    ensures ids[t] == ids[starts[i]]
    decreases t - starts[i]
  {
    if t > starts[i] {
      RunConstant(ids, starts, i, t - 1);
      if IsStart(ids, t) {
        StartsMembers(ids, |ids|, t);
        BetweenConsecutive(starts, i, t);
      }
    }
  }

  /** A strictly increasing list has no element strictly between two
      consecutive entries. */
  lemma BetweenConsecutive(starts: seq<int>, i: nat, t: int)
    requires forall a, b :: 0 <= a < b < |starts| ==> starts[a] < starts[b]
    requires i < |starts| && starts[i] < t
    requires i + 1 < |starts| ==> t < starts[i + 1]
    ensures t !in starts
  {
    forall j | 0 <= j < |starts|
      ensures starts[j] != t
    {
      if i < j {
        assert starts[i + 1] <= starts[j];
      }
    }
  }

  /** The runs tile the table from the first start to the end: each one
      begins right after the previous one, and the last ends at the final
      annotation. */
  lemma RunsContiguous(ids: seq<int>)
    ensures var r := Runs(ids);
      && (forall i :: 0 <= i < |r| - 1 ==> r[i + 1].0 == r[i].1 + 1)
      && (|r| > 0 ==> r[|r| - 1].1 == |ids| - 1)
  {
  }

  /** The annotations before the first run, and every annotation when there
      is no run, carry the sentinel id. */
  lemma LeadingSentinel(ids: seq<int>, t: nat)
    requires t < |ids|
    requires |Runs(ids)| == 0 || t < Runs(ids)[0].0
    ensures ids[t] == Sentinel
  {
    var starts := Starts(ids, |ids|);
    StartsPrefix(ids, t + 1, |ids|);
    assert |starts| == 0 || t < starts[0];
    NoStartSoFar(ids, t);
  }

  /** Before the first start every annotation carries the sentinel. */
  lemma {:induction false} NoStartSoFar(ids: seq<int>, t: nat)
    requires t < |ids| && |Starts(ids, t + 1)| == 0
    ensures ids[t] == Sentinel
  {
    assert !IsStart(ids, t);
    if t > 0 {
      NoStartSoFar(ids, t - 1);
    }
  }

  /** The starts found in a prefix of the table begin the starts of the
      whole table. */
  lemma {:induction false} StartsPrefix(ids: seq<int>, u: nat, v: nat)
    requires u <= v <= |ids|
    ensures |Starts(ids, u)| <= |Starts(ids, v)|
    ensures Starts(ids, u) == Starts(ids, v)[..|Starts(ids, u)|]
  {
    if u < v {
      StartsPrefix(ids, u, v - 1);
      var a, b := Starts(ids, u), Starts(ids, v - 1);
      assert b == Starts(ids, v)[..|b|];
    }
  }

  /** There is a run exactly when some annotation carries a real sound. */
  lemma RunsExist(ids: seq<int>)
    ensures |Runs(ids)| > 0 <==> exists t :: 0 <= t < |ids| && ids[t] != Sentinel
  {
    if |Runs(ids)| == 0 {
      forall t | 0 <= t < |ids|
        ensures ids[t] == Sentinel
      {
        LeadingSentinel(ids, t);
      }
    } else {
      RunsAreMaximal(ids, 0);
      var s := Runs(ids)[0].0;
      if ids[s] == Sentinel {
        assert s > 0 && ids[s - 1] != Sentinel;
      }
    }
  }

  /** `to_second(onset[first])`, in microseconds. */
  function StartMicros(annots: seq<Annotation>, p: (int, int)): int
    requires 0 <= p.0 < |annots|
  {
    ToMicros(annots[p.0].onset)
  }

  /** `to_second(onset[last]) + duration[last]`, in microseconds. */
  function EndMicros(annots: seq<Annotation>, p: (int, int)): int
    requires 0 <= p.1 < |annots|
  {
    ToMicros(annots[p.1].onset) + annots[p.1].durationUs
  }

  /** `meg_raw[:, int(start * 1000):int(end * 1000)]`: the columns between the
      pair's start and end, in milliseconds truncated toward zero. */
  function Cut<T>(meg: Matrix<T>, annots: seq<Annotation>, p: (int, int)): (r: Matrix<T>)
    requires 0 <= p.0 < |annots| && 0 <= p.1 < |annots|
    ensures |r| == |meg|
    ensures IsMatrix(meg) ==> IsMatrix(r) && Width(r) == CutLength(annots, p, Width(meg))
  {
    ColsSlice(meg, TruncDiv(StartMicros(annots, p), 1000), TruncDiv(EndMicros(annots, p), 1000))
  }

  /** `np.concatenate(pieces, axis=1)` of matrices with `rows` rows. */
  function ConcatCols<T>(rows: nat, pieces: seq<Matrix<T>>): (r: Matrix<T>)
    requires forall i :: 0 <= i < |pieces| ==> |pieces[i]| == rows
    ensures |r| == rows
  {
    if |pieces| == 0 then seq(rows, _ => [])
    else HCat(ConcatCols(rows, pieces[..|pieces| - 1]), pieces[|pieces| - 1])
  }

  /** Every pair names two annotations of a table of `n` rows. */
  predicate InTable(runs: seq<(int, int)>, n: nat)
  {
    forall i :: 0 <= i < |runs| ==> 0 <= runs[i].0 < n && 0 <= runs[i].1 < n
  }

  /** The cut of every pair, in order. */
  function Cuts<T>(meg: Matrix<T>, annots: seq<Annotation>, runs: seq<(int, int)>): (r: seq<Matrix<T>>)
    requires InTable(runs, |annots|)
    ensures |r| == |runs|
    ensures forall i :: 0 <= i < |r| ==> |r[i]| == |meg|
  {
    if |runs| == 0 then [] else Cuts(meg, annots, runs[..|runs| - 1]) + [Cut(meg, annots, runs[|runs| - 1])]
  }

  /** The duration of every pair, end minus start, in order. */
  function Durations(annots: seq<Annotation>, runs: seq<(int, int)>): (r: seq<int>)
    requires InTable(runs, |annots|)
    ensures |r| == |runs|
  {
    if |runs| == 0 then []
    else
      var p := runs[|runs| - 1];
      Durations(annots, runs[..|runs| - 1]) + [EndMicros(annots, p) - StartMicros(annots, p)]
  }

  /** Taking one more pair appends its cut and its duration. */
  lemma CutsSnoc<T>(meg: Matrix<T>, annots: seq<Annotation>, runs: seq<(int, int)>, p: (int, int))
    requires InTable(runs, |annots|) && 0 <= p.0 < |annots| && 0 <= p.1 < |annots|
    ensures InTable(runs + [p], |annots|)
    ensures Cuts(meg, annots, runs + [p]) == Cuts(meg, annots, runs) + [Cut(meg, annots, p)]
    ensures Durations(annots, runs + [p]) == Durations(annots, runs) + [EndMicros(annots, p) - StartMicros(annots, p)]
  {
    assert (runs + [p])[..|runs|] == runs;
  }

  /** Entry `i` of the cuts is the cut of pair `i`, and likewise for the
      durations. */
  lemma {:induction false} CutsAt<T>(meg: Matrix<T>, annots: seq<Annotation>, runs: seq<(int, int)>, i: nat)
    requires InTable(runs, |annots|) && i < |runs|
    ensures Cuts(meg, annots, runs)[i] == Cut(meg, annots, runs[i])
    ensures Durations(annots, runs)[i] == EndMicros(annots, runs[i]) - StartMicros(annots, runs[i])
  {
    if i < |runs| - 1 {
      CutsAt(meg, annots, runs[..|runs| - 1], i);
    }
  }

  /** What `trim_nosound_regions` returns: the concatenated cuts and one
      duration (end - start, in microseconds) per run; NameError when the
      table is empty (the loop variable is never bound, so Python raises
      UnboundLocalError, a NameError) and ValueError when
      no annotation carries a sound (the reshape of a one-element list). */
  function TrimNoSound<T>(meg: Matrix<T>, annots: seq<Annotation>): (r: Result<(Matrix<T>, seq<int>)>)
    ensures r.Err? <==> forall t :: 0 <= t < |annots| ==> annots[t].soundId == Sentinel
    ensures r.Err? ==> r.error == if |annots| == 0 then NameError else ValueError
    ensures r.Ok? ==> |r.value.0| == |meg| && |r.value.1| == |Runs(SoundIds(annots))| > 0
  {
    RunsExist(SoundIds(annots));
    if |annots| == 0 then Err(NameError)
    else
      var runs := Runs(SoundIds(annots));
      if |runs| == 0 then Err(ValueError)
      else Ok((ConcatCols(|meg|, Cuts(meg, annots, runs)), Durations(annots, runs)))
  }

  /** `trim_nosound_regions(meg_raw, df_annot)`. */
  method TrimNoSoundRegions<T>(meg: Matrix<T>, annots: seq<Annotation>) returns (r: Result<(Matrix<T>, seq<int>)>)
    ensures r == TrimNoSound(meg, annots)
  {
    if |annots| == 0 {
      return Err(NameError);
    }
    ghost var ids := SoundIds(annots);
    var prev := Sentinel;
    var flat: seq<int> := [];
    var t := 0;
    while t < |annots|
      invariant 0 <= t <= |annots|
      invariant t > 0 ==> prev == ids[t - 1]
      invariant t == 0 ==> prev == Sentinel
      invariant flat == Flat(Starts(ids, t))
    {
      if annots[t].soundId != prev {
        prev := annots[t].soundId;
        flat := flat + [t - 1, t];
      }
      FlatOfNextStarts(ids, t);
      t := t + 1;
    }
    var paired := PairUp(From(flat, 1) + [|annots| - 1]);
    ScanPairs(ids, flat);
    if paired.Err? {
      return Err(paired.error);
    }
    var pairs := paired.value;
    var trimmed, durations := CutRegions(meg, annots, pairs);
    r := Ok((trimmed, durations));
  }

  /** The second loop of `trim_nosound_regions`: cut every pair's time range
      out of the recording, note its duration, and concatenate the cuts. */
  method CutRegions<T>(meg: Matrix<T>, annots: seq<Annotation>, pairs: seq<(int, int)>)
      returns (trimmed: Matrix<T>, durations: seq<int>)
    requires InTable(pairs, |annots|)
    ensures trimmed == ConcatCols(|meg|, Cuts(meg, annots, pairs))
    ensures durations == Durations(annots, pairs)
  {
    var pieces: seq<Matrix<T>> := [];
    durations := [];
    var i := 0;
    while i < |pairs|
      invariant 0 <= i <= |pairs|
      invariant pieces == Cuts(meg, annots, pairs[..i])
      invariant durations == Durations(annots, pairs[..i])
    {
      var (startT, endT) := pairs[i];
      var start := ToMicros(annots[startT].onset);
      var end := ToMicros(annots[endT].onset) + annots[endT].durationUs;
      assert pairs[..i + 1] == pairs[..i] + [pairs[i]];
      CutsSnoc(meg, annots, pairs[..i], pairs[i]);
      pieces := pieces + [ColsSlice(meg, TruncDiv(start, 1000), TruncDiv(end, 1000))];
      durations := durations + [end - start];
      i := i + 1;
    }
    assert pairs[..|pairs|] == pairs;
    trimmed := ConcatCols(|meg|, pieces);
  }

  /** What the reshape after the scan yields: the runs, or ValueError when
      no annotation starts a run. */
  lemma ScanPairs(ids: seq<int>, flat: seq<int>)
    requires |ids| > 0 && flat == Flat(Starts(ids, |ids|))
    ensures PairUp(From(flat, 1) + [|ids| - 1]) == if |Runs(ids)| == 0 then Err(ValueError) else Ok(Runs(ids))
  {
    var starts := Starts(ids, |ids|);
    if |starts| == 0 {
      NoStartsNoPairs(|ids|);
    } else {
      PairingIsRuns(starts, |ids|);
    }
  }

  /** One more step of the scan appends `[t - 1, t]` to the flat list
      exactly when annotation `t` starts a run. */
  lemma FlatOfNextStarts(ids: seq<int>, t: nat)
    requires t < |ids|
    ensures Flat(Starts(ids, t + 1)) == Flat(Starts(ids, t)) + (if IsStart(ids, t) then [t - 1, t] else [])
  {
    var s := Starts(ids, t);
    if IsStart(ids, t) {
      assert Starts(ids, t + 1) == s + [t];
      FlatSnoc(s, t);
    } else {
      assert Starts(ids, t + 1) == s;
    }
  }

  lemma FlatSnoc(s: seq<int>, b: int)
    ensures Flat(s + [b]) == Flat(s) + [b - 1, b]
  {
    assert (s + [b])[..|s|] == s;
  }

  /** The number of columns `s[start:stop]` keeps of a row of length `n`. */
  function SliceLength(start: int, stop: int, n: nat): (k: nat)
    ensures k <= n
  {
    var a := Bound(start, n);
    var b := Bound(stop, n);
    if a <= b then b - a else 0
  }

  function Sum(xs: seq<nat>): nat
  {
    if |xs| == 0 then 0 else Sum(xs[..|xs| - 1]) + xs[|xs| - 1]
  }

  /** Concatenating rectangular pieces along time gives a rectangular matrix
      whose width is the sum of the pieces' widths. */
  lemma {:induction false} ConcatWidth<T>(rows: nat, pieces: seq<Matrix<T>>, widths: seq<nat>)
    requires rows > 0 && |widths| == |pieces|
    requires forall i :: 0 <= i < |pieces| ==> |pieces[i]| == rows
    requires forall i, c :: 0 <= i < |pieces| && 0 <= c < rows ==> |pieces[i][c]| == widths[i]
    ensures IsMatrix(ConcatCols(rows, pieces)) && Width(ConcatCols(rows, pieces)) == Sum(widths)
  {
    if |pieces| > 0 {
      var k := |pieces| - 1;
      ConcatWidth(rows, pieces[..k], widths[..k]);
    }
  }

  /** The number of columns the cut of pair `p` keeps from a recording of
      width `w`. */
  function CutLength(annots: seq<Annotation>, p: (int, int), w: nat): nat
    requires 0 <= p.0 < |annots| && 0 <= p.1 < |annots|
  {
    SliceLength(TruncDiv(StartMicros(annots, p), 1000), TruncDiv(EndMicros(annots, p), 1000), w)
  }

  /** A cut of a rectangular recording is rectangular, as wide as its
      slice length. */
  lemma CutShape<T>(meg: Matrix<T>, annots: seq<Annotation>, p: (int, int), c: nat)
    requires IsMatrix(meg) && c < |meg|
    requires 0 <= p.0 < |annots| && 0 <= p.1 < |annots|
    ensures |Cut(meg, annots, p)[c]| == CutLength(annots, p, Width(meg))
  {
    assert |meg[c]| == Width(meg);
  }

  /** The trimmed recording keeps one column range per run: its width is
      the sum of the runs' slice lengths, and there is one duration per
      run. */
  lemma TrimmedWidth<T>(meg: Matrix<T>, annots: seq<Annotation>)
    requires IsMatrix(meg)
    requires TrimNoSound(meg, annots).Ok?
    ensures var (trimmed, durations) := TrimNoSound(meg, annots).value;
      var runs := Runs(SoundIds(annots));
      && |durations| == |runs|
      && IsMatrix(trimmed)
      && Width(trimmed) == Sum(seq(|runs|, i requires 0 <= i < |runs| => CutLength(annots, runs[i], Width(meg))))
  {
    var runs := Runs(SoundIds(annots));
    var pieces := Cuts(meg, annots, runs);
    var widths := seq(|runs|, i requires 0 <= i < |runs| => CutLength(annots, runs[i], Width(meg)));
    forall i, c | 0 <= i < |pieces| && 0 <= c < |meg|
      ensures |pieces[i][c]| == widths[i]
    {
      CutsAt(meg, annots, runs, i);
      CutShape(meg, annots, runs[i], c);
    }
    ConcatWidth(|meg|, pieces, widths);
  }
}
