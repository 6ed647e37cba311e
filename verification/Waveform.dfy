// The waveform of a native voice or circle: `bridge/media/native_max.py`.
//
// PCM arrives in arbitrary pieces.  The builder measures fixed reads of `chunk` samples, keeps the
// loudest one, and every `step` samples turns it into one tick.  The two strides differ, so the
// state after a stream is given here as a closed form of the stream, and the loops are proved
// against it.  Floating point is replaced by exact rationals; of the logarithm only its order is used.
module Waveform {
  import opened Arithmetic
  import opened Sequences
  import opened Wrappers

  const WAVE_BARS: nat := 80
  const TICK_MS: nat := 75
  const CHUNK_MS: nat := 20
  const FULL_SCALE: nat := 32768
  const WAVE_MAX: nat := 127

  newtype Sample = x: int | -32768 <= x <= 32767

  // ---------------------------------------------------------------- one read

  function Abs(x: int): nat { if x < 0 then -x else x }

  function Max(a: nat, b: nat): nat { if a < b then b else a }

  function PeakOf(window: seq<Sample>): (p: nat)
    ensures p <= FULL_SCALE
    ensures forall i | 0 <= i < |window| :: -(p as int) <= window[i] as int <= p
    ensures if window == [] then p == 0
            else exists i | 0 <= i < |window| :: window[i] as int == p || window[i] as int == -(p as int)
  {
    if window == [] then 0
    else
      var last := |window| - 1;
      var rest := PeakOf(window[..last]);
      assert forall i | 0 <= i < last :: window[..last][i] == window[i];
      Max(rest, Abs(window[last] as int))
  }

  function SumSquares(window: seq<Sample>): nat
  {
    if window == [] then 0
    else
      var last := |window| - 1;
      SumSquares(window[..last]) + Abs(window[last] as int) * Abs(window[last] as int)
  }

  lemma {:induction false} SumSquaresBound(window: seq<Sample>)
    ensures SumSquares(window) <= FULL_SCALE * FULL_SCALE * |window|
  {
    if window == [] {
    } else {
      var last := |window| - 1;
      SumSquaresBound(window[..last]);
      SquareIsMonotone(Abs(window[last] as int), FULL_SCALE);
      Distribute(FULL_SCALE * FULL_SCALE, last);
    }
  }

  /** A sum over the samples: each counts once, with its square. */
  lemma {:induction false} SquaresAdd(a: seq<Sample>, b: seq<Sample>)
    ensures SumSquares(a + b) == SumSquares(a) + SumSquares(b)
    ensures |b| == 1 ==> SumSquares(b) == b[0] as int * b[0] as int
    decreases |b|
  {
    if b == [] {
      assert a + b == a;
    } else {
      var last := |b| - 1;
      SquaresAdd(a, b[..last]);
      assert (a + b)[..|a| + last] == a + b[..last];
      SquareOfAbs(b[last] as int);
    }
  }

  lemma SquareOfAbs(x: int)
    ensures Abs(x) * Abs(x) == x * x
  {
  }

  /** The integer part of the square root of `total / count`, searched for downwards. */
  function RootOfMean(total: nat, count: nat, from: nat): (r: nat)
    requires total < (from + 1) * (from + 1) * count
    ensures r <= from
    ensures r * r * count <= total < (r + 1) * (r + 1) * count
  {
    if from == 0 || from * from * count <= total then from
    else RootOfMean(total, count, from - 1)
  }

  function Rms(window: seq<Sample>): (r: nat)
    requires window != []
    ensures r <= FULL_SCALE
    ensures r * r * |window| <= SumSquares(window) < (r + 1) * (r + 1) * |window|
  {
    SumSquaresBound(window);
    RootOfMean(SumSquares(window), |window|, FULL_SCALE)
  }

  function Amplitude(window: seq<Sample>, peak: bool): (a: nat)
    ensures a <= FULL_SCALE
  {
    if window == [] then 0
    else if peak then PeakOf(window)
    else Rms(window)
  }

  /** A circle reads the loudest sample, a voice the root of the mean square. */
  lemma AmplitudeIs(window: seq<Sample>)
    requires window != []
    ensures var p := Amplitude(window, true);
            && (forall i | 0 <= i < |window| :: -(p as int) <= window[i] as int <= p)
            && exists i | 0 <= i < |window| :: window[i] as int == p || window[i] as int == -(p as int)
    ensures var r := Amplitude(window, false);
            r * r * |window| <= SumSquares(window) < (r + 1) * (r + 1) * |window|
  {
    assert Amplitude(window, true) == PeakOf(window) && Amplitude(window, false) == Rms(window);
    hide Amplitude, PeakOf, SumSquares;
  }

  // ---------------------------------------------------------------- decibels

  /** `log(a)` stands for `log10(a / 32768)`: all that is known of it is its order and where it is 0. */
  ghost predicate IsLog(log: nat -> real) {
    log(32768) == 0.0 && forall a: nat, b: nat | 0 < a <= b :: log(a) <= log(b)
  }

  function Decibels(log: nat -> real, amplitude: nat): real {
    var db := if amplitude == 0 then -45.0 else 20.0 * log(amplitude);
    if db < -45.0 then -45.0 else db
  }

  /** `_tick_value` */
  function DecibelTick(log: nat -> real, amplitude: nat): int {
    ((Decibels(log, amplitude) + 45.0) * 32768.0 / 45.0).Floor
  }

  function DecibelCurve(log: nat -> real): nat -> int { (a: nat) => DecibelTick(log, a) }

  /** The curve rises from 0, for silence and everything quieter than 45 dB under full scale, to 32768 at full scale;
      in between it is the level above that floor in steps of 45 / 32768 dB, rounded down. */
  lemma DecibelTickIs(log: nat -> real, a: nat, b: nat)
    requires IsLog(log) && a <= b <= 32768
    ensures 0 <= DecibelTick(log, a) <= DecibelTick(log, b) <= 32768
    ensures a == 0 || 20.0 * log(a) <= -45.0 ==> DecibelTick(log, a) == 0
    ensures a > 0 && -45.0 < 20.0 * log(a) ==>
              var v := DecibelTick(log, a) as real;
              v * 45.0 <= (20.0 * log(a) + 45.0) * 32768.0 < (v + 1.0) * 45.0
    ensures DecibelTick(log, 32768) == 32768
  {
    if a > 0 { assert log(a) <= log(b) <= log(32768); } else if b > 0 { assert log(b) <= log(32768); }
    var x, y := (Decibels(log, a) + 45.0) * 32768.0 / 45.0, (Decibels(log, b) + 45.0) * 32768.0 / 45.0;
    assert 0.0 <= x <= y <= 32768.0;
    assert x * 45.0 == (Decibels(log, a) + 45.0) * 32768.0;
  }

  lemma DecibelCurveIsCurve(log: nat -> real)
    requires IsLog(log)
    ensures IsCurve(DecibelCurve(log))
  {
    forall a: nat | a <= FULL_SCALE ensures 0 <= DecibelCurve(log)(a) <= FULL_SCALE { DecibelTickIs(log, a, a); }
    DecibelTickIs(log, 0, 0);
  }

  // ---------------------------------------------------------------- the recorder

  /** The logarithmic curve of `_tick_value`: silence is 0, and nothing leaves 0..32768. */
  ghost predicate IsCurve(curve: nat -> int) {
    && curve(0) == 0
    && (forall a: nat | a <= FULL_SCALE :: 0 <= curve(a) <= FULL_SCALE)
  }

  /** The two strides, how a read is measured, and the curve from an amplitude to a tick value. */
  datatype Recorder = Recorder(chunk: nat, step: nat, amplitude: seq<Sample> -> nat, curve: nat -> int)
  {
    /** A read is never longer than a tick. */
    ghost predicate Strides() { 1 <= chunk <= step }

    /** Ticks stay inside 0..32768, and silence stays silent. */
    ghost predicate InScale() { IsCurve(curve) && forall w: seq<Sample> :: amplitude(w) <= FULL_SCALE }
  }

  function RecorderFor(rate: int, peak: bool, curve: nat -> int): (rec: Recorder)
    ensures rec.Strides() && rec.curve == curve
    ensures forall w: seq<Sample> :: rec.amplitude(w) == Amplitude(w, peak)
    ensures IsCurve(curve) ==> rec.InScale()
  {
    var chunk := rate * CHUNK_MS / 1000;
    var step := rate * TICK_MS / 1000;
    Recorder(if chunk < 1 then 1 else chunk, if step < 1 then 1 else step, w => Amplitude(w, peak), curve)
  }

  /** One read is 20 ms and one tick 75 ms of samples, rounded down, and a sample at least. */
  lemma StridesAre(rate: int, peak: bool, curve: nat -> int)
    ensures var rec := RecorderFor(rate, peak, curve);
            && (if rate < 50 then rec.chunk == 1 else 1000 * rec.chunk <= 20 * rate < 1000 * (rec.chunk + 1))
            && (if rate * 75 < 1000 then rec.step == 1 else 1000 * rec.step <= 75 * rate < 1000 * (rec.step + 1))
  {
  }

  function Gauge(rec: Recorder, window: seq<Sample>): nat { rec.amplitude(window) }

  function TickValue(rec: Recorder, amplitude: nat): int { rec.curve(amplitude) }

  /** Where read number `n` begins. */
  function Start(rec: Recorder, n: nat): nat {
    if n == 0 then 0 else Start(rec, n - 1) + rec.chunk
  }

  lemma {:induction false} StartIs(rec: Recorder, n: nat)
    ensures Start(rec, n) == n * rec.chunk
  {
    if n > 0 {
      StartIs(rec, n - 1);
      Distribute(rec.chunk, n - 1);
    }
  }

  /** The amplitude of whole read number `n`. */
  function ReadAmplitude(rec: Recorder, s: seq<Sample>, n: nat): nat
    requires Start(rec, n + 1) <= |s|
  {
    Gauge(rec, s[Start(rec, n)..Start(rec, n + 1)])
  }

  /** The loudest of the first `n` whole reads that start in `[from, to)`; 0 when there is none. */
  function Loudest(rec: Recorder, s: seq<Sample>, n: nat, from: nat, to: nat): nat
    requires Start(rec, n) <= |s|
  {
    if n == 0 then 0
    else
      var before := Loudest(rec, s, n - 1, from, to);
      if from <= Start(rec, n - 1) < to then Max(before, ReadAmplitude(rec, s, n - 1)) else before
  }

  ghost predicate StartsIn(rec: Recorder, r: nat, from: nat, to: nat) {
    from <= Start(rec, r) < to
  }

  lemma StartOrder(rec: Recorder, r: nat, n: nat)
    requires r < n
    ensures Start(rec, r) + rec.chunk <= Start(rec, n)
  {
    if r + 1 < n { StartOrder(rec, r, n - 1); }
  }

  /** What the recursion above means: an upper bound of the reads in the window that one of them attains. */
  lemma {:induction false} LoudestIsTheMaximum(rec: Recorder, s: seq<Sample>, n: nat, from: nat, to: nat)
    requires Start(rec, n) <= |s|
    ensures forall r: nat | r < n && StartsIn(rec, r, from, to) ::
              Start(rec, r + 1) <= |s| && ReadAmplitude(rec, s, r) <= Loudest(rec, s, n, from, to)
    ensures Loudest(rec, s, n, from, to) == 0
            || exists r: nat | r < n && StartsIn(rec, r, from, to) ::
                 Start(rec, r + 1) <= |s| && ReadAmplitude(rec, s, r) == Loudest(rec, s, n, from, to)
  {
    if n == 0 {
    } else {
      LoudestIsTheMaximum(rec, s, n - 1, from, to);
      var m := Loudest(rec, s, n, from, to);
      var before := Loudest(rec, s, n - 1, from, to);
      forall r: nat | r < n && StartsIn(rec, r, from, to)
        ensures Start(rec, r + 1) <= |s| && ReadAmplitude(rec, s, r) <= m
      {
        StartOrder(rec, r, n);
      }
      if m == before != 0 {
        var r: nat :| r < n - 1 && StartsIn(rec, r, from, to) &&
                      Start(rec, r + 1) <= |s| && ReadAmplitude(rec, s, r) == before;
        assert r < n && StartsIn(rec, r, from, to);
      } else if m != 0 {
        assert StartsIn(rec, n - 1, from, to);
      }
    }
  }

  lemma {:induction false} NothingLateYet(rec: Recorder, s: seq<Sample>, n: nat, from: nat, to: nat)
    requires Start(rec, n) <= |s|
    requires n == 0 || Start(rec, n - 1) < from
    ensures Loudest(rec, s, n, from, to) == 0
  {
    if n == 0 {
    } else {
      NothingLateYet(rec, s, n - 1, from, to);
    }
  }

  // ---------------------------------------------------------------- the state of the recorder

  /** What a builder has measured; the samples not yet measured are kept beside it. */
  datatype Meter = Meter(values: seq<int>, total: nat, nextTick: nat, loudest: nat)

  /** What one more whole read does: at most one tick, as a read is no longer than a tick. */
  function Heard(rec: Recorder, m: Meter, amplitude: nat): Meter {
    var loudest := Max(m.loudest, amplitude);
    var total := m.total + rec.chunk;
    if total < m.nextTick then
      Meter(m.values, total, m.nextTick, loudest)
    else
      Meter(m.values + [TickValue(rec, loudest)], total, m.nextTick + rec.step, 0)
  }

  /** The meter once `n` whole reads of `s` have been measured, read by read. */
  function After(rec: Recorder, s: seq<Sample>, n: nat): (m: Meter)
    requires Start(rec, n) <= |s|
    ensures m.total == Start(rec, n)
  {
    if n == 0 then Meter([], 0, rec.step, 0)
    else Heard(rec, After(rec, s, n - 1), ReadAmplitude(rec, s, n - 1))
  }

  /** `n` whole reads are in the first `length` samples, and not one more. */
  ghost predicate WholeReads(rec: Recorder, length: nat, n: nat) {
    Start(rec, n) <= length < Start(rec, n) + rec.chunk
  }

  // ---------------------------------------------------------------- closed form of that state

  /** The sample count at which the `k`-th tick is due. */
  function Due(rec: Recorder, k: nat): nat {
    if k == 0 then 0 else Due(rec, k - 1) + rec.step
  }

  lemma {:induction false} DueIs(rec: Recorder, k: nat)
    ensures Due(rec, k) == k * rec.step
  {
    if k > 0 {
      DueIs(rec, k - 1);
      Distribute(rec.step, k - 1);
    }
  }

  lemma DueOrder(rec: Recorder, j: nat, k: nat)
    requires j <= k
    ensures Due(rec, j) <= Due(rec, k)
  {
    if j < k { DueOrder(rec, j, k - 1); }
  }

  function Window(rec: Recorder, s: seq<Sample>, n: nat, k: nat): nat
    requires Start(rec, n) <= |s|
  {
    Loudest(rec, s, n, Due(rec, k), Due(rec, k + 1))
  }

  /** Tick `k`: the loudest whole read starting in `[k * step, (k + 1) * step)`, through the curve. */
  function Ticks(rec: Recorder, s: seq<Sample>, n: nat, count: nat): (v: seq<int>)
    requires Start(rec, n) <= |s|
    ensures |v| == count
    ensures forall k | 0 <= k < count :: v[k] == TickValue(rec, Window(rec, s, n, k))
  {
    seq(count, k requires 0 <= k => TickValue(rec, Window(rec, s, n, k)))
  }

  ghost function Closed(rec: Recorder, s: seq<Sample>, n: nat, fired: nat): Meter
    requires Start(rec, n) <= |s|
  {
    Meter(Ticks(rec, s, n, fired), Start(rec, n), Due(rec, fired + 1), Window(rec, s, n, fired))
  }

  /** How many ticks have fired after `n` whole reads. */
  ghost predicate HasFired(rec: Recorder, n: nat, fired: nat) {
    Due(rec, fired) <= Start(rec, n) < Due(rec, fired + 1)
  }

  lemma {:induction false} ClosedFormStep(rec: Recorder, s: seq<Sample>, n: nat) returns (fired: nat)
    requires rec.Strides()
    requires Start(rec, n) <= |s|
    ensures HasFired(rec, n, fired) && After(rec, s, n) == Closed(rec, s, n, fired)
  {
    if n == 0 {
      fired := 0;
    } else {
      fired := ClosedFormStep(rec, s, n - 1);
      EarlierTicksStand(rec, s, n - 1, fired);
      if Start(rec, n) >= Due(rec, fired + 1) {
        OneTickFires(rec, s, n - 1, fired);
        fired := fired + 1;
      }
    }
  }

  lemma OneTickFires(rec: Recorder, s: seq<Sample>, n: nat, fired: nat)
    requires Start(rec, n + 1) <= |s|
    requires HasFired(rec, n, fired)
    ensures Window(rec, s, n + 1, fired + 1) == 0
    ensures Ticks(rec, s, n + 1, fired + 1) ==
            Ticks(rec, s, n, fired) + [TickValue(rec, Max(Window(rec, s, n, fired), ReadAmplitude(rec, s, n)))]
  {
    NothingLateYet(rec, s, n + 1, Due(rec, fired + 1), Due(rec, fired + 2));
    EarlierTicksStand(rec, s, n, fired);
  }

  lemma EarlierTicksStand(rec: Recorder, s: seq<Sample>, n: nat, fired: nat)
    requires Start(rec, n + 1) <= |s|
    requires Due(rec, fired) <= Start(rec, n)
    ensures Ticks(rec, s, n + 1, fired) == Ticks(rec, s, n, fired)
  {
    forall k: nat | k < fired
      ensures Window(rec, s, n + 1, k) == Window(rec, s, n, k)
    {
      DueOrder(rec, k + 1, fired);
    }
  }

  /** The state as a function of the stream: `n * chunk / step` ticks, each the loudest read of its window. */
  lemma ClosedForm(rec: Recorder, s: seq<Sample>, n: nat, fired: nat)
    requires rec.Strides()
    requires Start(rec, n) <= |s|
    requires fired == n * rec.chunk / rec.step
    ensures After(rec, s, n) ==
            Meter(Ticks(rec, s, n, fired), n * rec.chunk, fired * rec.step + rec.step, Window(rec, s, n, fired))
    ensures After(rec, s, n).total < After(rec, s, n).nextTick
  {
    var k := ClosedFormStep(rec, s, n);
    StartIs(rec, n);
    DueIs(rec, k);
    Distribute(rec.step, k);
    QuotientIs(n * rec.chunk, rec.step, k);
  }

  /** `loud` is the loudest of the first `n` whole reads that begin in `[from, to)`, or 0 where none is heard. */
  ghost predicate LoudestIn(rec: Recorder, s: seq<Sample>, n: nat, from: nat, to: nat, loud: nat) {
    && (forall r: nat | r < n && from <= Begins(rec, r) < to :: ReadsUpTo(rec, s, r, loud))
    && (loud == 0 || exists r: nat | r < n && from <= Begins(rec, r) < to :: ReadsExactly(rec, s, r, loud))
  }

  function Begins(rec: Recorder, r: nat): nat { r * rec.chunk }

  ghost predicate ReadsUpTo(rec: Recorder, s: seq<Sample>, r: nat, loud: nat) {
    r * rec.chunk + rec.chunk <= |s| && rec.amplitude(s[r * rec.chunk..r * rec.chunk + rec.chunk]) <= loud
  }

  ghost predicate ReadsExactly(rec: Recorder, s: seq<Sample>, r: nat, loud: nat) {
    r * rec.chunk + rec.chunk <= |s| && rec.amplitude(s[r * rec.chunk..r * rec.chunk + rec.chunk]) == loud
  }

  lemma LoudestIsIn(rec: Recorder, s: seq<Sample>, n: nat, from: nat, to: nat)
    requires Start(rec, n) <= |s|
    ensures LoudestIn(rec, s, n, from, to, Loudest(rec, s, n, from, to))
  {
    hide Loudest;
    LoudestIsTheMaximum(rec, s, n, from, to);
    var loud := Loudest(rec, s, n, from, to);
    forall r: nat | r < n && from <= Begins(rec, r) < to
      ensures ReadsUpTo(rec, s, r, loud)
    {
      StartIs(rec, r);
      assert StartsIn(rec, r, from, to);
    }
    if loud != 0 {
      var r: nat :| r < n && StartsIn(rec, r, from, to) &&
                    Start(rec, r + 1) <= |s| && ReadAmplitude(rec, s, r) == loud;
      StartIs(rec, r);
      assert from <= Begins(rec, r) < to && ReadsExactly(rec, s, r, loud);
    }
  }

  /** The sample at which the `k`-th stretch of one tick begins. */
  function Beat(rec: Recorder, k: nat): nat { k * rec.step }

  /** `loud` is the loudest read that begins in the stretch of tick `k`. */
  ghost predicate LoudestAt(rec: Recorder, s: seq<Sample>, n: nat, k: nat, loud: nat) {
    LoudestIn(rec, s, n, Beat(rec, k), Beat(rec, k) + rec.step, loud)
  }

  ghost predicate IsTick(rec: Recorder, s: seq<Sample>, n: nat, k: nat, v: int) {
    exists loud: nat :: LoudestAt(rec, s, n, k, loud) && v == rec.curve(loud)
  }

  /** The ticks of a stream: one for each whole `step`, through the curve from the loudest read that begins in it, and
      one for what is left exactly when something is heard there. */
  lemma TicksOfStream(rec: Recorder, s: seq<Sample>, n: nat, fired: nat)
    requires rec.Strides() && Start(rec, n) <= |s| && fired == n * rec.chunk / rec.step
    ensures var v := FinalValues(rec, s, n);
            && |v| == (if LoudestAt(rec, s, n, fired, 0) then fired else fired + 1)
            && forall k: nat | k < |v| :: IsTick(rec, s, n, k, v[k])
  {
    hide LoudestAt, Beat, Window, FinalValues;
    FinalValuesAre(rec, s, n, fired);
    TicksFromWindows(rec, s, n, fired, FinalValues(rec, s, n));
  }

  lemma TicksFromWindows(rec: Recorder, s: seq<Sample>, n: nat, fired: nat, v: seq<int>)
    requires Start(rec, n) <= |s|
    requires |v| == (if Window(rec, s, n, fired) == 0 then fired else fired + 1)
    requires forall k: nat | k < |v| :: v[k] == rec.curve(Window(rec, s, n, k))
    ensures |v| == (if LoudestAt(rec, s, n, fired, 0) then fired else fired + 1)
    ensures forall k: nat | k < |v| :: IsTick(rec, s, n, k, v[k])
  {
    hide LoudestAt, Beat, Window, Start;
    forall k: nat | k < |v|
      ensures IsTick(rec, s, n, k, v[k])
    {
      TickIsTheLoudest(rec, s, n, k);
    }
    TickIsTheLoudest(rec, s, n, fired);
    OneLoudestAt(rec, s, n, fired, Window(rec, s, n, fired), 0);
  }

  lemma FinalValuesAre(rec: Recorder, s: seq<Sample>, n: nat, fired: nat)
    requires rec.Strides() && Start(rec, n) <= |s| && fired == n * rec.chunk / rec.step
    ensures var v := FinalValues(rec, s, n);
            && |v| == (if Window(rec, s, n, fired) == 0 then fired else fired + 1)
            && forall k: nat | k < |v| :: v[k] == rec.curve(Window(rec, s, n, k))
  {
    hide Window, Ticks;
    ClosedForm(rec, s, n, fired);
  }

  lemma TickIsTheLoudest(rec: Recorder, s: seq<Sample>, n: nat, k: nat)
    requires Start(rec, n) <= |s|
    ensures LoudestAt(rec, s, n, k, Window(rec, s, n, k))
  {
    hide LoudestIn, Loudest;
    DueIs(rec, k);
    LoudestIsIn(rec, s, n, Due(rec, k), Due(rec, k + 1));
  }

  lemma OneLoudestAt(rec: Recorder, s: seq<Sample>, n: nat, k: nat, a: nat, b: nat)
    requires LoudestAt(rec, s, n, k, a)
    ensures LoudestAt(rec, s, n, k, b) <==> a == b
  {
    hide LoudestIn, Beat;
    OneLoudest(rec, s, n, Beat(rec, k), Beat(rec, k) + rec.step, a, b);
  }

  lemma OneLoudest(rec: Recorder, s: seq<Sample>, n: nat, from: nat, to: nat, a: nat, b: nat)
    requires LoudestIn(rec, s, n, from, to, a)
    ensures LoudestIn(rec, s, n, from, to, b) <==> a == b
  {
    if LoudestIn(rec, s, n, from, to, b) {
      if a != 0 {
        var r: nat :| r < n && from <= Begins(rec, r) < to && ReadsExactly(rec, s, r, a);
        assert ReadsUpTo(rec, s, r, b);
      }
      if b != 0 {
        var r: nat :| r < n && from <= Begins(rec, r) < to && ReadsExactly(rec, s, r, b);
        assert ReadsUpTo(rec, s, r, a);
      }
    }
  }

  // ---------------------------------------------------------------- more samples arrive

  /** What has been measured is not disturbed by later samples. */
  lemma {:induction false} AfterIsStable(rec: Recorder, s: seq<Sample>, more: seq<Sample>, n: nat)
    requires Start(rec, n) <= |s|
    ensures After(rec, s + more, n) == After(rec, s, n)
  {
    if n == 0 {
    } else {
      AfterIsStable(rec, s, more, n - 1);
      var a, b := Start(rec, n - 1), Start(rec, n);
      assert (s + more)[a..b] == s[a..b];
    }
  }

  /** The next read is taken from the front of what is left over, and the next tick is still to come. */
  lemma NextRead(rec: Recorder, s: seq<Sample>, n: nat, buffer: seq<Sample>, consumed: nat)
    requires rec.Strides()
    requires consumed + rec.chunk <= |buffer|
    requires Start(rec, n) <= |s| && buffer[consumed..] == s[Start(rec, n)..]
    ensures Start(rec, n + 1) <= |s| && buffer[consumed + rec.chunk..] == s[Start(rec, n + 1)..]
    ensures After(rec, s, n).total < After(rec, s, n).nextTick
    ensures After(rec, s, n + 1) ==
            Heard(rec, After(rec, s, n), Gauge(rec, buffer[consumed..consumed + rec.chunk]))
  {
    var rest := buffer[consumed..];
    assert rest[..rec.chunk] == buffer[consumed..consumed + rec.chunk];
    assert rest[..rec.chunk] == s[Start(rec, n)..Start(rec, n + 1)];
    assert rest[rec.chunk..] == buffer[consumed + rec.chunk..];
    var _ := ClosedFormStep(rec, s, n);
  }

  // ---------------------------------------------------------------- the builder

  class WaveBuilder {
    const rec: Recorder
    var buffer: seq<Sample>
    var values: seq<int>
    var total: nat
    var nextTick: nat
    var loudest: nat
    ghost var fed: seq<Sample>
    ghost var measured: nat

    ghost function Reading(): Meter
      reads this
    {
      Meter(values, total, nextTick, loudest)
    }

    ghost predicate Valid()
      reads this
    {
      && rec.Strides()
      && WholeReads(rec, |fed|, measured)
      && buffer == fed[Start(rec, measured)..]
      && Reading() == After(rec, fed, measured)
    }

    constructor (rate: int, peak: bool, curve: nat -> int)
      ensures Valid() && fed == [] && rec == RecorderFor(rate, peak, curve)
    {
      rec := RecorderFor(rate, peak, curve);
      buffer, values, total, loudest := [], [], 0, 0;
      nextTick := RecorderFor(rate, peak, curve).step;
      fed, measured := [], 0;
    }

    /** One recorder read merged into the running maximum, and the ticks that are due after it. */
    method Measure(window: seq<Sample>)
      requires rec.Strides() && |window| == rec.chunk && total < nextTick
      modifies `values, `total, `nextTick, `loudest
      ensures Reading() == Heard(rec, old(Reading()), Gauge(rec, window))
    {
      loudest := Max(loudest, Gauge(rec, window));
      total := total + rec.chunk;
      ghost var heard := loudest;
      while total >= nextTick
        invariant || (values == old(values) && nextTick == old(nextTick) && loudest == heard)
                  || (&& values == old(values) + [TickValue(rec, heard)] && loudest == 0
                      && nextTick == old(nextTick) + rec.step && old(nextTick) <= total)
        decreases total - nextTick + rec.step
        modifies `values, `nextTick, `loudest
      {
        values := values + [TickValue(rec, loudest)];
        loudest := 0;
        nextTick := nextTick + rec.step;
      }
    }

    /** The outer loop of `feed`: every whole read of the samples at hand, in order. */
    method MeasureAll(pcm: seq<Sample>, ghost s: seq<Sample>, ghost from: nat) returns (consumed: nat, ghost n: nat)
      requires rec.Strides() && Start(rec, from) <= |s| && pcm == s[Start(rec, from)..]
      requires Reading() == After(rec, s, from)
      modifies `values, `total, `nextTick, `loudest
      ensures consumed <= |pcm| && WholeReads(rec, |s|, n) && pcm[consumed..] == s[Start(rec, n)..]
      ensures Reading() == After(rec, s, n)
    {
      hide After, Heard, Gauge, Start;
      consumed, n := 0, from;
      while |pcm| - consumed >= rec.chunk
        invariant consumed <= |pcm| && Start(rec, n) <= |s| && pcm[consumed..] == s[Start(rec, n)..]
        invariant Reading() == After(rec, s, n)
      {
        NextRead(rec, s, n, pcm, consumed);
        Measure(pcm[consumed..consumed + rec.chunk]);
        consumed, n := consumed + rec.chunk, n + 1;
      }
    }

    method Feed(samples: seq<Sample>)
      requires Valid()
      modifies this
      ensures Valid() && fed == old(fed) + samples
    {
      AfterIsStable(rec, fed, samples, measured);
      fed := fed + samples;
      buffer := buffer + samples;
      var consumed;
      consumed, measured := MeasureAll(buffer, fed, measured);
      buffer := buffer[consumed..];
    }

    /** The 80 bars, or None when nothing was long enough to measure. */
    method Finish() returns (bars: Option<seq<int>>)
      requires Valid() && rec.InScale()
      modifies `values
      ensures bars == BarsOf(rec, fed, measured)
      ensures values == FinalValues(rec, fed, measured)
    {
      if loudest != 0 {
        values := values + [TickValue(rec, loudest)];
      }
      assert values == FinalValues(rec, fed, measured);
      FinalValuesInScale(rec, fed, measured);
      if values == [] { return None; }
      var out := Resample(WAVE_BARS, RawWave(values));
      bars := Some(out[..]);
    }
  }

  // ---------------------------------------------------------------- the bars

  /** Every tick that fired, and a partial tick at the end when it heard anything. */
  function FinalValues(rec: Recorder, s: seq<Sample>, n: nat): seq<int>
    requires Start(rec, n) <= |s|
  {
    var m := After(rec, s, n);
    m.values + if m.loudest != 0 then [TickValue(rec, m.loudest)] else []
  }

  function BarsOf(rec: Recorder, s: seq<Sample>, n: nat): Option<seq<int>>
    requires Start(rec, n) <= |s| && rec.InScale()
  {
    FinalValuesInScale(rec, s, n);
    var v := FinalValues(rec, s, n);
    if v == [] then None else Some(Bars(WAVE_BARS, RawWave(v)))
  }

  ghost predicate InTickScale(values: seq<int>) {
    forall i | 0 <= i < |values| :: 0 <= values[i] <= FULL_SCALE
  }

  lemma {:induction false} MeterInScale(rec: Recorder, s: seq<Sample>, n: nat)
    requires Start(rec, n) <= |s| && rec.InScale()
    ensures InTickScale(After(rec, s, n).values) && After(rec, s, n).loudest <= FULL_SCALE
  {
    if n > 0 {
      MeterInScale(rec, s, n - 1);
    }
  }

  lemma FinalValuesInScale(rec: Recorder, s: seq<Sample>, n: nat)
    requires Start(rec, n) <= |s| && rec.InScale()
    ensures InTickScale(FinalValues(rec, s, n))
  {
    MeterInScale(rec, s, n);
  }

  function MaxValue(values: seq<int>): (m: int)
    requires values != [] && InTickScale(values)
    ensures 0 <= m <= FULL_SCALE && m in values
    ensures forall i | 0 <= i < |values| :: values[i] <= m
  {
    var last := |values| - 1;
    if last == 0 then values[0]
    else
      var before := MaxValue(values[..last]);
      assert forall i | 0 <= i < last :: values[i] == values[..last][i] <= before;
      if before < values[last] then values[last] else before
  }

  /** One byte of the running array: `min(127, int(v * min(2, 32768 / peak) / 256))` in exact rationals. */
  function RawByte(v: int, peak: int): int
    requires 0 <= v <= FULL_SCALE && 0 <= peak
  {
    var scaled := if 2 * peak <= FULL_SCALE then 2 * v / 256 else v * FULL_SCALE / (peak * 256);
    if scaled < WAVE_MAX then scaled else WAVE_MAX
  }

  function RawWave(values: seq<int>): (wave: seq<int>)
    requires values != [] && InTickScale(values)
    ensures |wave| == |values|
  {
    var peak := MaxValue(values);
    seq(|values|, i requires 0 <= i < |values| => RawByte(values[i], peak))
  }

  /** Louder ticks never get lower bars, every bar is seven bits, and nothing is scaled up by more than 2. */
  lemma NormalisationIsTame(v: int, w: int, peak: int)
    requires 0 <= v <= w <= peak <= FULL_SCALE
    ensures 0 <= RawByte(v, peak) <= RawByte(w, peak) <= WAVE_MAX
    ensures RawByte(v, peak) * 128 <= v
    ensures v == peak ==> (RawByte(v, peak) == WAVE_MAX <==> 128 * WAVE_MAX <= peak)
  {
    if 2 * peak > FULL_SCALE {
      var d := peak * 256;
      QuotientOrder(v * FULL_SCALE, w * FULL_SCALE, d);
      CappedScale(v, peak);
      if v == peak {
        assert v * FULL_SCALE == 128 * d;
      }
    }
  }

  /** `v * min(2, 32768 / peak) / 256` is at least `k`. */
  predicate ScalesTo(v: int, peak: int, k: int) {
    if 2 * peak <= 32768 then 256 * k <= 2 * v else 256 * peak * k <= 32768 * v
  }

  /** The byte of a tick: the scaled value rounded down, or 127 where it is more. */
  predicate IsByte(b: int, v: int, peak: int) {
    0 <= b <= 127 && ScalesTo(v, peak, b) && (b == 127 || !ScalesTo(v, peak, b + 1))
  }

  lemma RawByteIs(v: int, peak: int)
    requires 0 <= v <= peak <= FULL_SCALE
    ensures IsByte(RawByte(v, peak), v, peak)
  {
    if 2 * peak > FULL_SCALE {
      var d, q := peak * 256, v * FULL_SCALE / (peak * 256);
      FloorBelow(v * FULL_SCALE, d);
      Distribute(d, q);
      if q > WAVE_MAX { ProductOrder(WAVE_MAX, q, d); }
    }
  }

  lemma CappedScale(v: int, peak: int)
    requires 0 <= v && FULL_SCALE < 2 * peak
    ensures v * FULL_SCALE / (peak * 256) * 128 <= v
  {
    var d := peak * 256;
    var q := v * FULL_SCALE / d;
    FloorBelow(v * FULL_SCALE, d);
    ProductOrder(128 * FULL_SCALE, d, q);
    assert (q * 128) * FULL_SCALE <= v * FULL_SCALE;
  }

  // ---------------------------------------------------------------- resampling

  /** The integer and the fractional part of `j / count * last`, the latter in units of `1 / count`. */
  function Whole(j: nat, last: nat, count: nat): nat
    requires count > 0
  {
    j * last / count
  }

  function Part(j: nat, last: nat, count: nat): (part: nat)
    requires count > 0
    ensures part < count
  {
    j * last % count
  }

  /** The integer evaluator between two neighbouring bars. */
  function Blend(a: int, b: int, part: nat, count: nat): int
    requires count > 0
  {
    (a * count + part * (b - a)) / count
  }

  /** Bar `j` of `count`: the ends of the source, an interpolation between two neighbours, or 0 on the
      final pair, where the bounds check of the original stops one short. */
  function Bar(count: nat, src: seq<int>, j: nat): int
    requires j < count && src != []
  {
    var last := |src| - 1;
    if j == 0 || last == 0 then src[0]
    else if j == count - 1 then src[last]
    else
      var low := Whole(j, last, count);
      if low >= last || low + 1 >= last then 0
      else Blend(src[low], src[low + 1], Part(j, last, count), count) % 256
  }

  function Bars(count: nat, src: seq<int>): (out: seq<int>)
    requires src != []
    ensures |out| == count && forall j | 0 <= j < count :: out[j] == Bar(count, src, j)
  {
    seq(count, j requires 0 <= j < count => Bar(count, src, j))
  }

  method Resample(count: nat, src: seq<int>) returns (out: array<int>)
    requires src != []
    ensures fresh(out) && out[..] == Bars(count, src)
  {
    out := new int[count](_ => 0);
    for j := 0 to count
      invariant forall i | 0 <= i < j :: out[i] == Bar(count, src, i)
    {
      var value;
      if j == 0 || |src| == 1 {
        value := src[0];
      } else if j == count - 1 {
        value := src[|src| - 1];
      } else {
        var low := Whole(j, |src| - 1, count);
        var high := low + 1;
        if low >= |src| - 1 || high >= |src| - 1 {
          value := 0;
        } else {
          value := Blend(src[low], src[high], Part(j, |src| - 1, count), count) % 256;
        }
      }
      out[j] := value;
    }
  }

  // ---------------------------------------------------------------- what the bars are

  ghost predicate SevenBit(src: seq<int>) {
    forall i | 0 <= i < |src| :: 0 <= src[i] <= WAVE_MAX
  }

  ghost predicate Between(x: int, a: int, b: int) {
    a <= x <= b || b <= x <= a
  }

  lemma BlendIsBetween(a: int, b: int, part: nat, count: nat)
    requires part < count && 0 <= a && 0 <= b
    ensures Between(Blend(a, b, part, count), a, b)
    ensures part == 0 ==> Blend(a, b, part, count) == a
  {
    var t := a * count + part * (b - a);
    if a <= b {
      ProductOrder(0, part, b - a);
      ProductOrder(part, count, b - a);
      assert a * count + count * (b - a) == b * count;
      QuotientBetween(t, count, a, b);
    } else {
      ProductOrder(0, part, a - b);
      ProductOrder(part, count, a - b);
      assert a * count - count * (a - b) == b * count;
      assert part * (b - a) == -(part * (a - b));
      QuotientBetween(t, count, b, a);
    }
    if part == 0 { QuotientBetween(t, count, a, a); }
  }

  /** Where bar `j` of `count` falls between the bars of `src`. */
  ghost predicate FallsIn(src: seq<int>, count: nat, j: nat, low: nat) {
    low * count <= j * (|src| - 1) < (low + 1) * count
  }

  /** Bar `j` of `count`: an end of the source; 0 where it falls into the final pair; else the value on the line
      between the two neighbours it falls between, rounded down. */
  ghost predicate IsBar(bar: int, src: seq<int>, count: nat, j: nat)
    requires src != []
  {
    if j == 0 || |src| == 1 then bar == src[0]
    else if j == count - 1 then bar == src[|src| - 1]
    else exists low: nat | FallsIn(src, count, j, low) ::
           if low + 2 >= |src| then bar == 0
           else OnTheLine(bar, src[low], src[low + 1], j * (|src| - 1) - low * count, count)
  }

  predicate OnTheLine(bar: int, a: int, b: int, part: int, count: nat) {
    count * bar <= a * count + part * (b - a) < count * bar + count
  }

  lemma BlendIsOnTheLine(a: int, b: int, part: nat, count: nat)
    requires part < count && 0 <= a && 0 <= b
    ensures OnTheLine(Blend(a, b, part, count), a, b, part, count)
  {
    var t := a * count + part * (b - a);
    BlendIsBetween(a, b, part, count);
    if a <= b {
      ProductOrder(0, part, b - a);
    } else {
      ProductOrder(part, count, a - b);
      assert a * count - count * (a - b) == b * count;
      ProductOrder(0, b, count);
    }
    FloorBelow(t, count);
  }

  lemma BarIs(count: nat, src: seq<int>, j: nat)
    requires src != [] && SevenBit(src) && j < count
    ensures IsBar(Bar(count, src, j), src, count, j)
  {
    var last := |src| - 1;
    if 0 < j < count - 1 && 0 < last {
      var low := Whole(j, last, count);
      FloorBelow(j * last, count);
      assert FallsIn(src, count, j, low);
      if low + 1 < last { InnerBarIs(count, src, j, low); }
    }
  }

  lemma InnerBarIs(count: nat, src: seq<int>, j: nat, low: nat)
    requires SevenBit(src) && 0 < j < count - 1 && low + 2 < |src| && low == Whole(j, |src| - 1, count)
    ensures low * count <= j * (|src| - 1)
    ensures OnTheLine(Bar(count, src, j), src[low], src[low + 1], j * (|src| - 1) - low * count, count)
  {
    var last := |src| - 1;
    var part := Part(j, last, count);
    FloorBelow(j * last, count);
    QuotientAndRest(j * last, count);
    BlendIsBetween(src[low], src[low + 1], part, count);
    BlendIsOnTheLine(src[low], src[low + 1], part, count);
    hide Blend, Part, Whole, OnTheLine;
    assert Bar(count, src, j) == Blend(src[low], src[low + 1], part, count) % 256;
  }

  /** What is shown of these ticks: each becomes its byte, scaled by the loudest, and the bytes are drawn as 80 bars. */
  ghost predicate IsWave(values: seq<int>, bars: seq<int>) {
    exists peak, bytes: seq<int> :: IsWaveOf(values, peak, bytes, bars)
  }

  ghost predicate IsWaveOf(values: seq<int>, peak: int, bytes: seq<int>, bars: seq<int>) {
    && peak in values && (forall i | 0 <= i < |values| :: values[i] <= peak)
    && |bytes| == |values| && bytes != [] && (forall i | 0 <= i < |values| :: IsByte(bytes[i], values[i], peak))
    && |bars| == 80 && forall j | 0 <= j < 80 :: IsBar(bars[j], bytes, 80, j)
  }

  /** What `finish` returns: nothing without a tick, else the wave of the ticks of the stream. */
  lemma BarsOfStream(rec: Recorder, s: seq<Sample>, n: nat)
    requires Start(rec, n) <= |s| && rec.InScale()
    ensures BarsOf(rec, s, n).None? <==> FinalValues(rec, s, n) == []
    ensures BarsOf(rec, s, n).Some? ==> IsWave(FinalValues(rec, s, n), BarsOf(rec, s, n).value)
  {
    FinalValuesInScale(rec, s, n);
    var v := FinalValues(rec, s, n);
    if v != [] { WaveIs(v); }
  }

  lemma WaveIs(values: seq<int>)
    requires values != [] && InTickScale(values)
    ensures IsWave(values, Bars(WAVE_BARS, RawWave(values)))
  {
    var peak, bytes := MaxValue(values), RawWave(values);
    var bars := Bars(WAVE_BARS, bytes);
    forall i | 0 <= i < |values| ensures IsByte(bytes[i], values[i], peak) { RawByteIs(values[i], peak); }
    RawWaveIsSevenBit(values);
    forall j | 0 <= j < 80 ensures IsBar(bars[j], bytes, 80, j) { BarIs(80, bytes, j); }
    assert IsWaveOf(values, peak, bytes, bars);
  }

  /** Resampling keeps both ends, stays between neighbours, and zeroes exactly the bars of the final pair. */
  lemma BarsAreTame(count: nat, src: seq<int>, j: nat)
    requires src != [] && SevenBit(src) && j < count
    ensures 0 <= Bar(count, src, j) <= WAVE_MAX
    ensures j == 0 || |src| == 1 ==> Bar(count, src, j) == src[0]
    ensures 0 < j == count - 1 ==> Bar(count, src, j) == src[|src| - 1]
    ensures 0 < j < count - 1 && 1 < |src| ==>
              exists low: nat | FallsIn(src, count, j, low) ::
                if low + 2 >= |src| then Bar(count, src, j) == 0
                else Between(Bar(count, src, j), src[low], src[low + 1])
  {
    var last := |src| - 1;
    if 0 < j < count - 1 && 0 < last {
      var low := Whole(j, last, count);
      FloorBelow(j * last, count);
      assert FallsIn(src, count, j, low);
      if low + 1 < last {
        BlendIsBetween(src[low], src[low + 1], Part(j, last, count), count);
      }
    }
  }

  lemma RawWaveIsSevenBit(values: seq<int>)
    requires values != [] && InTickScale(values)
    ensures SevenBit(RawWave(values))
  {
    var peak := MaxValue(values);
    forall i | 0 <= i < |values|
      ensures 0 <= RawWave(values)[i] <= WAVE_MAX
    {
      NormalisationIsTame(values[i], values[i], peak);
    }
  }

  /** Either there is nothing to show, or there are exactly 80 bars of seven bits. */
  lemma EightyBars(rec: Recorder, s: seq<Sample>, n: nat)
    requires Start(rec, n) <= |s| && rec.InScale()
    ensures BarsOf(rec, s, n).Some? ==>
              |BarsOf(rec, s, n).value| == WAVE_BARS && SevenBit(BarsOf(rec, s, n).value)
  {
    FinalValuesInScale(rec, s, n);
    var v := FinalValues(rec, s, n);
    if v != [] {
      RawWaveIsSevenBit(v);
      forall j | 0 <= j < WAVE_BARS
        ensures 0 <= Bars(WAVE_BARS, RawWave(v))[j] <= WAVE_MAX
      {
        BarsAreTame(WAVE_BARS, RawWave(v), j);
      }
    }
  }

  /** There is nothing to show exactly when no tick came due and every whole read was silent. */
  lemma NothingToShow(rec: Recorder, s: seq<Sample>, n: nat)
    requires rec.Strides() && Start(rec, n) <= |s| && rec.InScale()
    ensures BarsOf(rec, s, n).None? <==>
            && Start(rec, n) < rec.step
            && forall r: nat | r < n :: Start(rec, r + 1) <= |s| && ReadAmplitude(rec, s, r) == 0
  {
    var fired := ClosedFormStep(rec, s, n);
    FinalValuesInScale(rec, s, n);
    DueIs(rec, fired);
    forall r: nat {:trigger ReadAmplitude(rec, s, r)} {:trigger Start(rec, r)} | r < n
      ensures Start(rec, r + 1) <= |s| && Start(rec, r) < Start(rec, n)
    {
      StartOrder(rec, r, n);
      if r + 1 < n { StartOrder(rec, r + 1, n); }
    }
    if fired == 0 {
      assert Due(rec, 0) == 0 && Due(rec, 1) == rec.step;
      LoudestIsTheMaximum(rec, s, n, 0, rec.step);
      assert forall r: nat | r < n :: StartsIn(rec, r, 0, rec.step);
    } else {
      DueOrder(rec, 1, fired);
      assert Due(rec, 1) == Due(rec, 0) + rec.step;
    }
  }

  // ---------------------------------------------------------------- from frames to bars

  function Joined(frames: seq<seq<Sample>>): seq<Sample> {
    if frames == [] then [] else Joined(frames[..|frames| - 1]) + frames[|frames| - 1]
  }

  function SilentWave(): seq<int> { seq(WAVE_BARS, _ => 0) }

  /** The waveform of a whole stream: a function of the samples, not of the frames they came in. */
  function WaveOf(rec: Recorder, s: seq<Sample>): seq<int>
    requires rec.Strides() && rec.InScale()
  {
    WholeReadsIs(rec, |s|, |s| / rec.chunk);
    var bars := BarsOf(rec, s, |s| / rec.chunk);
    if bars.None? then SilentWave() else bars.value
  }

  lemma WholeReadsIs(rec: Recorder, length: nat, n: nat)
    requires rec.chunk >= 1
    ensures WholeReads(rec, length, n) <==> n == length / rec.chunk
  {
    StartIs(rec, n);
    Distribute(rec.chunk, n);
    FloorBelow(length, rec.chunk);
    if WholeReads(rec, length, n) { QuotientIs(length, rec.chunk, n); }
  }

  /** The whole samples of a stream give its wave, or 80 zeros where there is no tick at all. */
  lemma WaveOfStream(rec: Recorder, s: seq<Sample>)
    requires rec.Strides() && rec.InScale()
    ensures var n := |s| / rec.chunk;
            && Start(rec, n) <= |s|
            && if FinalValues(rec, s, n) == []
               then |WaveOf(rec, s)| == 80 && forall j | 0 <= j < 80 :: WaveOf(rec, s)[j] == 0
               else IsWave(FinalValues(rec, s, n), WaveOf(rec, s))
  {
    WholeReadsIs(rec, |s|, |s| / rec.chunk);
    BarsOfStream(rec, s, |s| / rec.chunk);
  }

  lemma {:induction false} JoinedIs(frames: seq<seq<Sample>>, k: nat)
    requires k < |frames|
    ensures Joined(frames) == Joined(frames[..k]) + frames[k] + Joined(frames[k + 1..])
    decreases |frames|
  {
    var last := |frames| - 1;
    if k == last {
      assert frames[k + 1..] == [] && Joined([]) == [];
    } else {
      JoinedIs(frames[..last], k);
      assert frames[..last][..k] == frames[..k] && frames[..last][k + 1..] == frames[k + 1..last];
      assert frames[k + 1..][..last - k - 1] == frames[k + 1..last];
      Associative(Joined(frames[..k]) + frames[k], Joined(frames[k + 1..last]), frames[last]);
    }
  }

  /** The rate every track is resampled to before it is measured. */
  const RATE := 16000

  /** The decode loop of `_probe`: one builder, fed frame by frame. */
  method Probe(frames: seq<seq<Sample>>, peak: bool, log: nat -> real) returns (wave: seq<int>)
    requires IsLog(log)
    ensures wave == WaveOf(RecorderFor(RATE, peak, DecibelCurve(log)), Joined(frames))
    ensures |wave| == WAVE_BARS && SevenBit(wave)
  {
    var rate, curve := RATE, DecibelCurve(log);
    DecibelCurveIsCurve(log);
    var builder := new WaveBuilder(rate, peak, curve);
    for i := 0 to |frames|
      invariant builder.Valid() && builder.rec == RecorderFor(rate, peak, curve)
      invariant builder.fed == Joined(frames[..i]) && fresh(builder)
    {
      builder.Feed(frames[i]);
      assert frames[..i + 1][..i] == frames[..i];
    }
    assert frames[..|frames|] == frames;
    WholeReadsIs(builder.rec, |builder.fed|, builder.measured);
    EightyBars(builder.rec, builder.fed, builder.measured);
    var bars := builder.Finish();
    wave := if bars.None? then SilentWave() else bars.value;
  }
}
