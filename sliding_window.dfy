/** The per-joint windows of K+1 samples that Update keeps, and how each one
    fills and then advances. Three buffers share one fill index per joint
    (jointsLastIndex) but use it differently:
    - the rotation buffer (jointsPositionBuffer) is written at the index before
      it is incremented, and shifted left after every full-state push;
    - the scale buffer (textureJointsPositionBufferS) is written after the
      increment, so slot 0 keeps its initial zero while filling, and is
      shifted after every full-state push;
    - the translation buffer (textureJointsPositionBufferT) is written after
      the increment too, and is never shifted: once full only slot K changes. */
module SlidingWindow {
  import opened Geometry

  /** The last n elements of s. */
  function LastN(s: seq<Vec3>, n: nat): (r: seq<Vec3>)
    requires n <= |s|
    ensures |r| == n
    ensures forall i :: 0 <= i < n ==> r[i] == s[|s| - n + i]
  {
    s[|s| - n..]
  }

  /** The buffer after `for (i = 0; i < K; ++i) buf[i] = buf[i+1]`: every
      slot moves one to the left and the last slot keeps its value. */
  function Shift(b: seq<Vec3>): (r: seq<Vec3>)
    requires |b| >= 1
    ensures |r| == |b|
    ensures forall i :: 0 <= i < |b| - 1 ==> r[i] == b[i + 1]
    ensures r[|b| - 1] == b[|b| - 1]
  {
    b[1..] + [b[|b| - 1]]
  }

  /** The shift loop of Update and scaleFiltering: slot i takes slot i+1
      for i = 0..k-1, one write at a time. */
  method ShiftLeft(b: seq<Vec3>, k: nat) returns (a: seq<Vec3>)
    requires |b| == k + 1
    ensures a == Shift(b)
  {
    a := b;
    var i := 0;
    while i < k
      invariant 0 <= i <= k && |a| == k + 1
      invariant forall m :: 0 <= m < i ==> a[m] == b[m + 1]
      invariant forall m :: i <= m <= k ==> a[m] == b[m]
    {
      a := a[i := a[i + 1]];
      i := i + 1;
    }
  }

  /** The rotation buffer of a joint whose tracked samples so far are hist
      (oldest first). While filling, slots 0..idx-1 hold every sample. Once
      full (idx == k), slots 0..k-1 hold the last k samples, so that writing
      the next one into slot k completes the last k+1. */
  predicate RotationWindow(buf: seq<Vec3>, idx: nat, hist: seq<Vec3>, k: nat) {
    && |buf| == k + 1 && idx <= k
    && (if idx < k then hist == buf[..idx]
        else |hist| >= k && buf[..k] == LastN(hist, k))
  }

  /** A filling push writes slot idx and moves the index on. */
  lemma RotationFill(buf: seq<Vec3>, idx: nat, hist: seq<Vec3>, k: nat, x: Vec3)
    requires RotationWindow(buf, idx, hist, k) && idx < k
    ensures RotationWindow(buf[idx := x], idx + 1, hist + [x], k)
  {
    assert buf[idx := x][..idx + 1] == buf[..idx] + [x];
  }

  /** A full-state push: slot k receives the sample, the filter sees exactly
      the last k+1 samples oldest first, and the shift restores the window. */
  lemma RotationFull(buf: seq<Vec3>, hist: seq<Vec3>, k: nat, x: Vec3)
    requires RotationWindow(buf, k, hist, k)
    ensures buf[k := x] == LastN(hist + [x], k + 1)
    ensures RotationWindow(Shift(buf[k := x]), k, hist + [x], k)
  {
    var h := hist + [x];
    assert buf[k := x] == buf[..k] + [x];
    assert LastN(h, k + 1) == LastN(hist, k) + [x];
    assert Shift(buf[k := x])[..k] == LastN(h, k);
  }

  /** The samples the scale window effectively holds: the initial zero of slot
      0, the first k-1 samples, and every sample from the (k+1)-th on. Sample
      k-1 (the k-th) is overwritten by the first full-state push before any
      shift and never reaches the filter. */
  function Effective(hist: seq<Vec3>, k: nat): (e: seq<Vec3>)
    requires 1 <= k <= |hist|
    ensures |e| == |hist|
    ensures e[0] == Zero
  {
    [Zero] + hist[..k - 1] + hist[k..]
  }

  /** The scale buffer of a joint whose scale samples so far are hist. While
      filling, slot 0 is zero and slots 1..idx hold the samples; once full,
      slots 0..k-1 hold the last k of Effective(hist, k). */
  predicate ScaleWindow(buf: seq<Vec3>, idx: nat, hist: seq<Vec3>, k: nat) {
    && |buf| == k + 1 && 1 <= k && idx <= k
    && (if idx < k then |hist| == idx && buf[0] == Zero && buf[1..idx + 1] == hist
        else |hist| >= k && buf[..k] == LastN(Effective(hist, k), k))
  }

  /** A filling push writes slot idx+1 (after the increment). */
  lemma ScaleFill(buf: seq<Vec3>, idx: nat, hist: seq<Vec3>, k: nat, x: Vec3)
    requires ScaleWindow(buf, idx, hist, k) && idx < k
    ensures ScaleWindow(buf[idx + 1 := x], idx + 1, hist + [x], k)
  {
    var b := buf[idx + 1 := x];
    var h := hist + [x];
    assert b[1..idx + 2] == buf[1..idx + 1] + [x];
    if idx + 1 == k {
      assert b[..k] == [Zero] + hist;
      assert Effective(h, k) == [Zero] + hist;
    }
  }

  /** A full-state push: the filter sees the last k+1 of Effective, and the
      shift restores the window. */
  lemma ScaleFull(buf: seq<Vec3>, hist: seq<Vec3>, k: nat, x: Vec3)
    requires ScaleWindow(buf, k, hist, k)
    ensures buf[k := x] == LastN(Effective(hist + [x], k), k + 1)
    ensures ScaleWindow(Shift(buf[k := x]), k, hist + [x], k)
  {
    var h := hist + [x];
    assert Effective(h, k) == Effective(hist, k) + [x] by {
      assert h[..k - 1] == hist[..k - 1];
      assert h[k..] == hist[k..] + [x];
    }
    assert buf[k := x] == buf[..k] + [x];
    assert LastN(Effective(h, k), k + 1) == LastN(Effective(hist, k), k) + [x];
    assert Shift(buf[k := x])[..k] == LastN(Effective(h, k), k);
  }

  /** Once a joint has 2k+1 scale samples the skipped sample has left the
      window: from then on the scale filter sees the last k+1 samples. */
  lemma ScaleWindowCatchesUp(hist: seq<Vec3>, k: nat)
    requires 1 <= k && |hist| >= 2 * k + 1
    ensures LastN(Effective(hist, k), k + 1) == LastN(hist, k + 1)
  {
    var e := Effective(hist, k);
    var a, b := LastN(e, k + 1), LastN(hist, k + 1);
    forall i | 0 <= i < k + 1
      ensures a[i] == b[i]
    {
      assert e[|e| - (k + 1) + i] == hist[k..][|hist| - (k + 1) + i - k];
    }
  }

  /** Until then the scale filter window starts with the zero of slot 0: on
      the first full-state push it is the zero, samples 0..k-2 and the newest. */
  lemma ScaleFirstFullWindow(hist: seq<Vec3>, k: nat)
    requires 1 <= k && |hist| == k + 1
    ensures LastN(Effective(hist, k), k + 1) == [Zero] + hist[..k - 1] + [hist[k]]
  {
    assert hist[k..] == [hist[k]];
  }

  /** The translation buffer of the driving joint whose translation samples
      so far are hist. Slot 0 is never written. While filling, slots 1..idx
      hold the samples; once full, slots 1..k-1 keep the first k-1 samples
      for good, and only slot k changes. */
  predicate TranslationWindow(buf: seq<Vec3>, idx: nat, hist: seq<Vec3>, k: nat) {
    && |buf| == k + 1 && 1 <= k && idx <= k && buf[0] == Zero
    && (if idx < k then |hist| == idx && buf[1..idx + 1] == hist
        else |hist| >= k && buf[1..k] == hist[..k - 1])
  }

  /** The window smoothVector sees on every full-state translation push. */
  function FrozenWindow(hist: seq<Vec3>, k: nat): (w: seq<Vec3>)
    requires 1 <= k < |hist|
    ensures |w| == k + 1 && w[0] == Zero && w[k] == hist[|hist| - 1]
  {
    [Zero] + hist[..k - 1] + [hist[|hist| - 1]]
  }

  /** A filling push writes slot idx+1 (after the increment). */
  lemma TranslationFill(buf: seq<Vec3>, idx: nat, hist: seq<Vec3>, k: nat, x: Vec3)
    requires TranslationWindow(buf, idx, hist, k) && idx < k
    ensures TranslationWindow(buf[idx + 1 := x], idx + 1, hist + [x], k)
  {
    var b := buf[idx + 1 := x];
    assert b[1..idx + 2] == buf[1..idx + 1] + [x];
    if idx + 1 == k {
      assert b[1..k] == hist[..k - 1];
    }
  }

  /** A full-state push writes slot k only: the filter sees the zero, the
      first k-1 samples and the newest one, and nothing moves. */
  lemma TranslationFull(buf: seq<Vec3>, hist: seq<Vec3>, k: nat, x: Vec3)
    requires TranslationWindow(buf, k, hist, k)
    ensures buf[k := x] == FrozenWindow(hist + [x], k)
    ensures TranslationWindow(buf[k := x], k, hist + [x], k)
  {
    var h := hist + [x];
    assert h[..k - 1] == hist[..k - 1];
    assert buf[k := x] == [buf[0]] + buf[1..k] + [x];
  }
}
