/** The array helpers of cued/main.py with an exact index structure: the
    periodic centred derivative `diff`, the `fftshift`/`ifftshift` rotations
    and the phase-correct `fourier`/`ifourier` pair built on them, the
    `parzen` window and the centred zero padding of
    `fourier_current_intensity`.  The discrete Fourier transform itself
    (numpy `fft`/`ifft`) is outside this model and is passed in. */
module Spectral {
  import opened Cplx
  import opened Outcomes
  import Arith

  // ---------------------------------------------------------------------
  // Floating-point quotients

  /** The outcome of a numpy floating-point division: a number, or the
      inf/nan that a zero denominator produces (numpy warns, it does not raise). */
  datatype Float = Finite(value: real) | NonFinite

  function Quotient(a: real, b: real): (r: Float)
    ensures r.NonFinite? <==> b == 0.0
    ensures r.Finite? ==> r.value * b == a
  {
    if b == 0.0 then NonFinite else Finite(a / b)
  }

  function FScale(c: real, x: Float): Float
  {
    if x.Finite? then Finite(c * x.value) else NonFinite
  }

  function FAddReal(a: real, x: Float): Float
  {
    if x.Finite? then Finite(a + x.value) else NonFinite
  }

  // ---------------------------------------------------------------------
  // The periodic centred derivative

  datatype DiffError = DifferentLengths

  /** `diff` returns the scalar 0 for one sample and an array otherwise. */
  datatype Derivative = ScalarZero | Pointwise(values: seq<Float>)

  /** The stencil quotient at index i: (y[i+1] - y[i-1]) / (x[i+1] - x[i-1]),
      with indices taken periodically, as `np.roll` does. */
  function Stencil(x: seq<real>, y: seq<real>, i: nat): Float
    requires |x| == |y| && i < |y|
  {
    var n := |y|;
    Quotient(y[(i + 1) % n] - y[(i - 1) % n], x[(i + 1) % n] - x[(i - 1) % n])
  }

  /** `diff(x, y)` (cued/main.py:425-437). */
  function CentredDiff(x: seq<real>, y: seq<real>): (r: Result<Derivative, DiffError>)
    ensures r.Err? <==> |x| != |y|
    ensures r.Ok? ==> (r.value.ScalarZero? <==> |y| == 1)
    ensures r.Ok? && r.value.Pointwise? ==> |r.value.values| == |y|
  {
    if |x| != |y| then Err(DifferentLengths)
    else if |y| == 1 then Ok(ScalarZero)
    else Ok(Pointwise(seq(|y|, i requires 0 <= i < |y| => Stencil(x, y, i))))
  }

  /** The centred difference is exact on affine data y = a x + b, wrap-around
      entries included, wherever the two neighbouring abscissae differ. */
  lemma DiffOfAffine(x: seq<real>, y: seq<real>, a: real, b: real, i: nat)
    requires |x| == |y| >= 2 && i < |y|
    requires forall k :: 0 <= k < |y| ==> y[k] == a * x[k] + b
    requires x[(i + 1) % |x|] != x[(i - 1) % |x|]
    ensures CentredDiff(x, y) == Ok(Pointwise(CentredDiff(x, y).value.values))
    ensures CentredDiff(x, y).value.values[i] == Finite(a)
  {
    var n := |y|;
    var m, l := (i + 1) % n, (i - 1) % n;
    assert y[m] - y[l] == a * (x[m] - x[l]);
    var q := Stencil(x, y, i);
    assert q.Finite? && q.value * (x[m] - x[l]) == a * (x[m] - x[l]);
  }

  /** With two samples both neighbours of an index are the same sample, so
      every entry divides by zero. */
  lemma DiffOfTwoSamples(x: seq<real>, y: seq<real>, i: nat)
    requires |x| == |y| == 2 && i < 2
    ensures CentredDiff(x, y).value.values[i] == NonFinite
  {
    assert (i + 1) % 2 == (i - 1) % 2;
  }

  // ---------------------------------------------------------------------
  // fftshift and ifftshift

  /** The left rotation of x by m places: x[m..] followed by x[..m]. */
  function Rotate<T>(x: seq<T>, m: nat): (r: seq<T>)
    requires m <= |x|
    ensures |r| == |x|
  {
    x[m..] + x[..m]
  }

  /** `fftshift` of a one-dimensional array: `np.roll` by n // 2, which is a left
      rotation by n - n // 2. */
  function FftShift<T>(x: seq<T>): (r: seq<T>)
    ensures |r| == |x|
  {
    Rotate(x, |x| - |x| / 2)
  }

  /** `ifftshift`: `np.roll` by -(n // 2), a left rotation by n // 2. */
  function IfftShift<T>(x: seq<T>): (r: seq<T>)
    ensures |r| == |x|
  {
    Rotate(x, |x| / 2)
  }

  /** Rotating by m and then by the rest of the length restores x. */
  lemma RotateBack<T>(x: seq<T>, m: nat)
    requires m <= |x|
    ensures Rotate(Rotate(x, m), |x| - m) == x
  {
    var y := Rotate(x, m);
    assert y[|x| - m..] == x[..m];
    assert y[..|x| - m] == x[m..];
  }

  /** The rotations are `np.roll`: entry k of `fftshift(x)` is x[(k - n//2) mod n]
      and entry k of `ifftshift(x)` is x[(k + n//2) mod n]. */
  lemma ShiftsAreRolls<T>(x: seq<T>, k: nat)
    requires k < |x|
    ensures FftShift(x)[k] == x[(k - |x| / 2) % |x|]
    ensures IfftShift(x)[k] == x[(k + |x| / 2) % |x|]
  {
    var n, h := |x|, |x| / 2;
    if k < h {
      Arith.DivModUnique(k - h, n, -1, k - h + n);
    } else {
      Arith.DivModUnique(k - h, n, 0, k - h);
    }
    if k + h < n {
      Arith.DivModUnique(k + h, n, 0, k + h);
    } else {
      Arith.DivModUnique(k + h, n, 1, k + h - n);
    }
  }

  /** `fftshift` moves the zero-frequency entry 0 to the centre n // 2. */
  lemma FftShiftCentres<T>(x: seq<T>)
    requires |x| > 0
    ensures FftShift(x)[|x| / 2] == x[0]
    ensures IfftShift(x)[0] == x[|x| / 2]
  {
  }

  /** The two shifts undo each other, for every length. */
  lemma ShiftsAreInverse<T>(x: seq<T>)
    ensures IfftShift(FftShift(x)) == x
    ensures FftShift(IfftShift(x)) == x
  {
    RotateBack(x, |x| - |x| / 2);
    RotateBack(x, |x| / 2);
  }

  /** For an even length the two shifts coincide; for an odd length they do not. */
  lemma EvenShiftsAgree<T>(x: seq<T>)
    requires |x| % 2 == 0
    ensures FftShift(x) == IfftShift(x)
  {
  }

  lemma OddShiftsDiffer()
    ensures FftShift([0, 1, 2]) == [2, 0, 1]
    ensures IfftShift([0, 1, 2]) == [1, 2, 0]
  {
    assert [0, 1, 2][2..] + [0, 1, 2][..2] == [2, 0, 1];
    assert [0, 1, 2][1..] + [0, 1, 2][..1] == [1, 2, 0];
  }

  /** A rotation commutes with multiplication by a real scalar. */
  lemma RotateScale(c: real, x: Vec, m: nat)
    requires m <= |x|
    ensures Rotate(VScale(c, x), m) == VScale(c, Rotate(x, m))
  {
  }

  // ---------------------------------------------------------------------
  // The phase-correct Fourier pair

  /** A positive real constant, such as sqrt(2 pi). */
  type Positive = r: real | r > 0.0 witness 1.0

  /** numpy's `fft` and `ifft`, not part of this model. */
  datatype Dft = Dft(fft: Vec -> Vec, ifft: Vec -> Vec)

  /** `ifft` undoes `fft`. */
  ghost predicate Inverts(d: Dft)
  {
    forall v :: d.ifft(d.fft(v)) == v
  }

  /** `ifft` commutes with real scalar factors. */
  ghost predicate InverseIsHomogeneous(d: Dft)
  {
    forall c: real, v :: d.ifft(VScale(c, v)) == VScale(c, d.ifft(v))
  }

  /** `fourier(dt, data)` (cued/main.py:440-445), sqrt(2 pi) given as `root`:
      as long as the transform as the data, and zero for a zero time step. */
  function Fourier(d: Dft, root: Positive, dt: real, data: Vec): (r: Vec)
    ensures KeepsLength(d) ==> |r| == |data|
    ensures dt == 0.0 ==> forall k :: 0 <= k < |r| ==> r[k] == Zero
  {
    VScale(dt / root, FftShift(d.fft(IfftShift(data))))
  }

  /** `ifourier(dt, data)` (cued/main.py:448-453); a zero dt gives the
      non-finite factor sqrt(2 pi)/0. */
  function IFourier(d: Dft, root: Positive, dt: real, data: Vec): (r: Option<Vec>)
    ensures r.None? <==> dt == 0.0
  {
    if dt == 0.0 then None else Some(VScale(root / dt, FftShift(d.ifft(IfftShift(data)))))
  }

  /** `ifourier` undoes `fourier` whenever `ifft` undoes `fft` and dt is not zero:
      the shifts cancel and so do the factors dt/sqrt(2 pi) and sqrt(2 pi)/dt. */
  lemma FourierRoundTrip(d: Dft, root: Positive, dt: real, x: Vec)
    requires Inverts(d) && InverseIsHomogeneous(d) && dt != 0.0
    ensures IFourier(d, root, dt, Fourier(d, root, dt, x)) == Some(x)
  {
    var c1, c2 := dt / root, root / dt;
    var u := IfftShift(x);
    var f := d.fft(u);
    var w := Fourier(d, root, dt, x);
    assert w == VScale(c1, FftShift(f));
    RotateScale(c1, FftShift(f), |f| / 2);
    ShiftsAreInverse(f);
    assert IfftShift(w) == VScale(c1, f);
    assert d.ifft(IfftShift(w)) == VScale(c1, u);
    RotateScale(c1, u, |u| - |u| / 2);
    ShiftsAreInverse(x);
    assert FftShift(d.ifft(IfftShift(w))) == VScale(c1, x);
    VScaleCompose(c2, c1, x);
    assert c2 * c1 == 1.0;
    VScaleOne(x);
  }

  // ---------------------------------------------------------------------
  // The Parzen window

  function Abs(x: real): real { if x < 0.0 then -x else x }

  datatype WindowError = EmptyAxis

  /** Half the length of the time axis, (t[-1] - t[0]) / 2. */
  function HalfWidth(t: seq<real>): real
    requires |t| > 0
  {
    (t[|t| - 1] - t[0]) / 2.0
  }

  /** Entry k of the window before mirroring: the outer cubic on the first
      quarter, the inner polynomial on the second quarter, zero elsewhere. */
  function ParzenHalf(t: seq<real>, h: real, k: nat): real
    requires k < |t| && h != 0.0
  {
    var n := |t|;
    if k < n / 4 then
      var u := 1.0 - Abs(t[k]) / h;
      2.0 * (u * u * u)
    else if k < n / 2 then
      var v := t[k] / h;
      1.0 - 6.0 * (v * v) * (1.0 - Abs(t[k]) / h)
    else 0.0
  }

  /** The two quarters in a zeroed array of n entries. */
  function HalfWindow(t: seq<real>, h: real): (r: seq<real>)
    requires h != 0.0
    ensures |r| == |t|
  {
    seq(|t|, k requires 0 <= k < |t| => ParzenHalf(t, h, k))
  }

  /** `a + a[::-1]`. */
  function MirrorSum(a: seq<real>): (r: seq<real>)
    ensures |r| == |a|
  {
    seq(|a|, k requires 0 <= k < |a| => a[k] + a[|a| - 1 - k])
  }

  /** The window before the centre entry is set: the half plus its mirror image. */
  function Mirrored(t: seq<real>, h: real): (r: seq<real>)
    requires h != 0.0
    ensures |r| == |t|
  {
    MirrorSum(HalfWindow(t, h))
  }

  /** A window of finite entries. */
  function Finites(w: seq<real>): (r: seq<Float>)
    ensures |r| == |w| && forall k :: 0 <= k < |w| ==> r[k] == Finite(w[k])
  {
    seq(|w|, k requires 0 <= k < |w| => Finite(w[k]))
  }

  /** The window numpy produces for a zero half width and n >= 2: every
      quarter entry divides by zero and is inf or nan, and the mirror sum
      carries that to every entry that has a quarter entry or its mirror
      image, which is all of them but the centre of an odd length.  With
      `centre` the centre entry n // 2 is then set to 1. */
  function DegenerateWindow(n: nat, centre: bool): (r: seq<Float>)
    ensures |r| == n
  {
    seq(n, k requires 0 <= k < n => if centre && k == n / 2 then Finite(1.0) else NonFinite)
  }

  /** `parzen(t)` as written (cued/main.py:470-486): `t[-1]` fails on an empty
      axis, a zero half width makes the entries non-finite, and the centre
      entry n // 2 is set to 1 for every length. */
  function ParzenAsWritten(t: seq<real>): (r: Result<seq<Float>, WindowError>)
    ensures r.Err? <==> |t| == 0
    ensures r.Ok? ==> |r.value| == |t| && r.value[|t| / 2] == Finite(1.0)
    ensures r.Ok? ==> forall k :: 0 <= k < |t| && k != |t| / 2 ==>
                        (r.value[k].NonFinite? <==> HalfWidth(t) == 0.0)
  {
    if |t| == 0 then Err(EmptyAxis)
    else if |t| == 1 then Ok([Finite(1.0)])
    else if HalfWidth(t) == 0.0 then Ok(DegenerateWindow(|t|, true))
    else Ok(Finites(Mirrored(t, HalfWidth(t))[|t| / 2 := 1.0]))
  }

  /** `parzen` with the centre set only where there is a centre sample (odd
      lengths); for an even length the two middle entries keep their mirrored
      values. */
  function Parzen(t: seq<real>): (r: Result<seq<Float>, WindowError>)
    ensures r.Err? <==> |t| == 0
    ensures r.Ok? ==> |r.value| == |t|
    ensures r.Ok? && |t| % 2 == 1 ==> r.value[|t| / 2] == Finite(1.0)
    ensures r.Ok? ==> forall k :: 0 <= k < |t| && !(|t| % 2 == 1 && k == |t| / 2) ==>
                        (r.value[k].NonFinite? <==> HalfWidth(t) == 0.0)
  {
    if |t| == 0 then Err(EmptyAxis)
    else if |t| == 1 then Ok([Finite(1.0)])
    else if HalfWidth(t) == 0.0 then Ok(DegenerateWindow(|t|, |t| % 2 == 1))
    else
      var w := Mirrored(t, HalfWidth(t));
      Ok(Finites(if |t| % 2 == 1 then w[|t| / 2 := 1.0] else w))
  }

  /** `parzen(t)` on numpy arrays: the two quarters are filled slice by
      slice into a zeroed array, the array is added to its reverse, and the
      centre entry is set.  A zero half width yields the inf/nan window
      without any array arithmetic being modelled. */
  method ParzenWindow(t: seq<real>) returns (r: Result<seq<Float>, WindowError>)
    ensures r == ParzenAsWritten(t)
  {
    var n := |t|;
    if n == 0 {
      return Err(EmptyAxis);
    }
    var h := (t[n - 1] - t[0]) / 2.0;
    if n >= 2 && h == 0.0 {
      return Ok(DegenerateWindow(n, true));
    }
    var w: array<real>;
    if n == 1 {
      w := new real[1](_ => 0.0);
      w[0] := 1.0;
      assert Finites(w[..]) == [Finite(1.0)];
    } else {
      var half := FillQuarters(t, h);
      w := AddReverse(half);
      ghost var mirrored := w[..];
      assert mirrored == Mirrored(t, h);
      w[n / 2] := 1.0;
      assert w[..] == mirrored[n / 2 := 1.0];
    }
    return Ok(Finites(w[..]));
  }

  /** `parzen[0:n//4] = ...` and `parzen[n//4:n//2] = ...` on a zeroed array. */
  method FillQuarters(t: seq<real>, h: real) returns (half: array<real>)
    requires h != 0.0
    ensures fresh(half) && half[..] == HalfWindow(t, h)
  {
    var n := |t|;
    half := new real[n](_ => 0.0);
    for k := 0 to n / 4
      invariant forall j :: 0 <= j < k ==> half[j] == ParzenHalf(t, h, j)
      invariant forall j :: k <= j < n ==> half[j] == 0.0
    {
      var u := 1.0 - Abs(t[k]) / h;
      half[k] := 2.0 * (u * u * u);
    }
    for k := n / 4 to n / 2
      invariant forall j :: 0 <= j < k ==> half[j] == ParzenHalf(t, h, j)
      invariant forall j :: k <= j < n ==> half[j] == 0.0
    {
      var v := t[k] / h;
      half[k] := 1.0 - 6.0 * (v * v) * (1.0 - Abs(t[k]) / h);
    }
    assert forall j :: 0 <= j < n ==> half[j] == ParzenHalf(t, h, j);
  }

  /** `parzen + parzen[::-1]` into a new array. */
  method AddReverse(a: array<real>) returns (w: array<real>)
    ensures fresh(w) && w[..] == MirrorSum(a[..])
  {
    var n := a.Length;
    w := new real[n];
    for k := 0 to n
      invariant forall j :: 0 <= j < k ==> w[j] == a[j] + a[n - 1 - j]
    {
      w[k] := a[k] + a[n - 1 - k];
    }
  }

  /** At most one of an entry and its mirror image is non-zero before the sum,
      so the mirror adds the two halves without overlap. */
  lemma HalvesDoNotOverlap(t: seq<real>, h: real, k: nat)
    requires k < |t| && h != 0.0
    ensures ParzenHalf(t, h, k) == 0.0 || ParzenHalf(t, h, |t| - 1 - k) == 0.0
  {
  }

  /** The corrected window is symmetric, w[k] == w[n - 1 - k], for every length. */
  lemma ParzenIsSymmetric(t: seq<real>, k: nat)
    requires Parzen(t).Ok? && k < |t|
    ensures Parzen(t).value[k] == Parzen(t).value[|t| - 1 - k]
  {
    if |t| >= 2 {
      var n := |t|;
      if n % 2 == 1 && (k == n / 2 || n - 1 - k == n / 2) {
        assert k == n / 2 && n - 1 - k == n / 2;
      }
    }
  }

  /** For an odd length the window as written is the corrected one. */
  lemma ParzenAsWrittenOddAgrees(t: seq<real>)
    requires |t| % 2 == 1
    ensures ParzenAsWritten(t) == Parzen(t)
  {
  }

  /** For an even length the window as written is not symmetric: on the
      symmetric axis -3/2, -1/2, 1/2, 3/2 it is 0, 5/9, 1, 0. */
  lemma ParzenAsWrittenEvenAsymmetric()
    ensures ParzenAsWritten([-1.5, -0.5, 0.5, 1.5]) == Ok([Finite(0.0), Finite(5.0 / 9.0), Finite(1.0), Finite(0.0)])
    ensures Parzen([-1.5, -0.5, 0.5, 1.5]) == Ok([Finite(0.0), Finite(5.0 / 9.0), Finite(5.0 / 9.0), Finite(0.0)])
  {
    var t := [-1.5, -0.5, 0.5, 1.5];
    assert HalfWidth(t) == 1.5;
    assert ParzenHalf(t, 1.5, 0) == 0.0;
    assert ParzenHalf(t, 1.5, 1) == 5.0 / 9.0;
    assert ParzenHalf(t, 1.5, 2) == 0.0;
    assert ParzenHalf(t, 1.5, 3) == 0.0;
    var w := Mirrored(t, 1.5);
    assert w == [0.0, 5.0 / 9.0, 5.0 / 9.0, 0.0];
    assert w[2 := 1.0] == [0.0, 5.0 / 9.0, 1.0, 0.0];
    assert Finites(w[2 := 1.0]) == [Finite(0.0), Finite(5.0 / 9.0), Finite(1.0), Finite(0.0)];
    assert Finites(w) == [Finite(0.0), Finite(5.0 / 9.0), Finite(5.0 / 9.0), Finite(0.0)];
  }

  // ---------------------------------------------------------------------
  // Centred zero padding and the emission intensity

  /** `1/(3 c^3)` in atomic units, c = 137.036. */
  const EmissionPrefactor: real := 1.0 / (3.0 * (137.036 * 137.036 * 137.036))

  /** The length of the padded time axis, `(n - 1) * factor_freq_resolution + 1`. */
  function FftLength(n: nat, factor: nat): int
  {
    (n - 1) * factor + 1
  }

  /** With factor at least 1 the padded axis is at least as long as the data
      and the padding, (n - 1)(factor - 1), is split evenly up to one sample;
      with factor 0 it has a single entry. */
  lemma FftLengthFits(n: nat, factor: nat)
    requires n >= 1
    ensures factor >= 1 ==> FftLength(n, factor) >= n && FftLength(n, factor) - n == (n - 1) * (factor - 1)
    ensures factor == 0 ==> FftLength(n, factor) == 1
  {
    if factor >= 1 {
      assert (n - 1) * factor == (n - 1) * (factor - 1) + (n - 1);
      assert (n - 1) * (factor - 1) >= 0;
    }
  }

  /** A Python slice bound `i` on an axis of n entries: negative bounds count
      from the end, and bounds are clipped to 0..n. */
  function SliceBound(i: int, n: nat): (r: nat)
    ensures r <= n
  {
    if i < 0 then (if i + n < 0 then 0 else i + n) else if i > n then n else i
  }

  /** The number of entries of `a[start:stop]` for an axis of n entries. */
  function SliceLength(start: int, stop: int, n: nat): nat
  {
    var a, b := SliceBound(start, n), SliceBound(stop, n);
    if b > a then b - a else 0
  }

  /** The slice `[(N - n)//2 : (N + n)//2]` that receives the data has exactly
      n entries if and only if N >= n; otherwise the assignment fails. */
  lemma CentredSliceFits(bigN: nat, n: nat)
    ensures SliceLength((bigN - n) / 2, (bigN + n) / 2, bigN) == n <==> bigN >= n
  {
    if bigN >= n {
      assert bigN + n == (bigN - n) + 2 * n;
      assert (bigN + n) / 2 == (bigN - n) / 2 + n;
    } else {
      assert SliceLength((bigN - n) / 2, (bigN + n) / 2, bigN) <= bigN;
    }
  }

  datatype PadError = ShapeMismatch | ColumnOutOfRange

  /** Entry k of the zeroed buffer of N entries after the windowed data are
      written at offset (N - n) // 2. */
  function PaddedAt(jt: seq<real>, window: seq<real>, bigN: nat, k: nat): real
    requires |window| == |jt| <= bigN
  {
    var off := (bigN - |jt|) / 2;
    if off <= k < off + |jt| then jt[k - off] * window[k - off] else 0.0
  }

  /** `jt_for_fft` of `fourier_current_intensity` (cued/main.py:891-894): the
      windowed data centred in N zeros.  The assignment fails unless the
      window has the data's shape and the slice has room for it. */
  function CentredPadding(jt: seq<real>, window: seq<real>, bigN: nat): (r: Result<seq<real>, PadError>)
    ensures r.Err? <==> |window| != |jt| || bigN < |jt|
    ensures r.Ok? ==> |r.value| == bigN
  {
    if |window| != |jt| || bigN < |jt| then Err(ShapeMismatch)
    else Ok(seq(bigN, k requires 0 <= k < bigN => PaddedAt(jt, window, bigN, k)))
  }

  /** The padding keeps every windowed sample, in order, and surrounds it by
      zero runs whose lengths differ by at most one (the extra zero, if any,
      at the end). */
  lemma PaddingIsCentred(jt: seq<real>, window: seq<real>, bigN: nat)
    requires CentredPadding(jt, window, bigN).Ok?
    ensures var p, off := CentredPadding(jt, window, bigN).value, (bigN - |jt|) / 2;
            p[off..off + |jt|] == seq(|jt|, i requires 0 <= i < |jt| => jt[i] * window[i])
    ensures var p, off := CentredPadding(jt, window, bigN).value, (bigN - |jt|) / 2;
            forall k :: 0 <= k < off ==> p[k] == 0.0
    ensures var p, off := CentredPadding(jt, window, bigN).value, (bigN - |jt|) / 2;
            forall k :: off + |jt| <= k < bigN ==> p[k] == 0.0
    ensures var off := (bigN - |jt|) / 2;
            off <= bigN - |jt| - off <= off + 1
  {
    var p := CentredPadding(jt, window, bigN).value;
    var off := (bigN - |jt|) / 2;
    var q := seq(|jt|, i requires 0 <= i < |jt| => jt[i] * window[i]);
    forall i | 0 <= i < |jt| ensures p[off..off + |jt|][i] == q[i] {
      assert p[off + i] == PaddedAt(jt, window, bigN, off + i);
    }
    assert p[off..off + |jt|] == q;
    forall k | 0 <= k < bigN && !(off <= k < off + |jt|) ensures p[k] == 0.0 {
      assert p[k] == PaddedAt(jt, window, bigN, k);
    }
    assert bigN - |jt| == 2 * off + (bigN - |jt|) % 2;
  }

  /** A real array as the complex array numpy hands to `fft`. */
  function ToComplex(a: seq<real>): (r: Vec)
    ensures |r| == |a|
  {
    seq(|a|, k requires 0 <= k < |a| => OfReal(a[k]))
  }

  /** `fft` keeps the length of its argument. */
  ghost predicate KeepsLength(d: Dft)
  {
    forall v :: |d.fft(v)| == |v|
  }

  /** `prefac_emission * freq**2 * abs(jw)**2`. */
  function Intensity(prefac: real, freq: seq<real>, jw: Vec): (r: seq<real>)
    requires |jw| == |freq|
    ensures |r| == |freq|
  {
    seq(|freq|, k requires 0 <= k < |freq| => prefac * (freq[k] * freq[k]) * Norm2(jw[k]))
  }

  /** The emitted intensity is never negative. */
  lemma IntensityNonNegative(prefac: real, freq: seq<real>, jw: Vec, k: nat)
    requires |jw| == |freq| && k < |freq| && prefac >= 0.0
    ensures Intensity(prefac, freq, jw)[k] >= 0.0
  {
    var f2, a := freq[k] * freq[k], Norm2(jw[k]);
    assert f2 >= 0.0 && a >= 0.0;
    assert prefac * f2 >= 0.0;
  }

  /** `fourier_current_intensity` for a one-dimensional current: the intensity
      and the Fourier transform of the padded, windowed current. */
  function CurrentIntensity(d: Dft, root: Positive, jt: seq<real>, window: seq<real>,
                            dtOut: real, prefac: real, freq: seq<real>): (r: Result<(seq<real>, Vec), PadError>)
    requires KeepsLength(d)
    ensures r.Err? <==> CentredPadding(jt, window, |freq|).Err?
    ensures r.Ok? ==> |r.value.0| == |freq| && |r.value.1| == |freq|
  {
    var pad := CentredPadding(jt, window, |freq|);
    if pad.Err? then Err(pad.error)
    else
      var jw := Fourier(d, root, dtOut, ToComplex(pad.value));
      Ok((Intensity(prefac, freq, jw), jw))
  }

  /** Column i of a two-dimensional array given by its rows, `jt[:, i]`. */
  function Column(jt: seq<seq<real>>, i: nat): (r: seq<real>)
    requires forall row :: row in jt ==> i < |row|
    ensures |r| == |jt|
  {
    seq(|jt|, k requires 0 <= k < |jt| => jt[k][i])
  }

  /** `jt_for_fft[off:off + n] = column * window` into the reused buffer. */
  method WriteSlice(buf: array<real>, off: nat, col: seq<real>, window: seq<real>)
    requires |window| == |col| && off + |col| <= buf.Length
    modifies buf
    ensures forall k :: 0 <= k < buf.Length ==>
              buf[k] == (if off <= k < off + |col| then col[k - off] * window[k - off] else old(buf[k]))
  {
    for i := 0 to |col|
      invariant forall k :: 0 <= k < buf.Length ==>
                  buf[k] == (if off <= k < off + i then col[k - off] * window[k - off] else old(buf[k]))
    {
      buf[off + i] := col[i] * window[i];
    }
  }

  /** `fourier_current_intensity` for a two-dimensional current
      (cued/main.py:897-907): one buffer is allocated and re-filled for each of
      the first `nBands` columns.  Because every column writes the same slice,
      the buffer holds exactly the centred padding of the current column, so
      column i of the result is the one-dimensional result for `jt[:, i]`.
      Columns from `nBands` on are never written (`np.empty`) and are `None`;
      `nBands` above the column count fails at `jt[:, nBands]`. */
  method ColumnIntensities(d: Dft, root: Positive, jt: seq<seq<real>>, cols: nat, window: seq<real>,
                           dtOut: real, prefac: real, freq: seq<real>, nBands: nat)
    returns (r: Result<(seq<Option<seq<real>>>, seq<Option<Vec>>), PadError>)
    requires KeepsLength(d)
    requires forall row :: row in jt ==> |row| == cols
    ensures r.Ok? <==> nBands <= cols && (nBands == 0 || (|window| == |jt| && |freq| >= |jt|))
    ensures nBands > cols ==> r.Err?
    ensures nBands > 0 && cols > 0 && (|window| != |jt| || |freq| < |jt|) ==> r == Err(ShapeMismatch)
    ensures nBands > cols && (cols == 0 || (|window| == |jt| && |freq| >= |jt|)) ==> r == Err(ColumnOutOfRange)
    ensures r.Ok? ==> nBands <= cols && |r.value.0| == cols && |r.value.1| == cols
    ensures r.Ok? ==> forall i :: 0 <= i < cols ==>
              (i < nBands <==> r.value.0[i].Some?) && (i < nBands <==> r.value.1[i].Some?)
    ensures r.Ok? ==> forall i :: 0 <= i < nBands ==>
              CurrentIntensity(d, root, Column(jt, i), window, dtOut, prefac, freq)
              == Ok((r.value.0[i].value, r.value.1[i].value))
  {
    var bigN, n := |freq|, |jt|;
    var buf := new real[bigN](_ => 0.0);
    var iw: seq<Option<seq<real>>> := seq(cols, i => None);
    var jw: seq<Option<Vec>> := seq(cols, i => None);
    if nBands > 0 && cols == 0 {
      return Err(ColumnOutOfRange);
    }
    if nBands > 0 && (|window| != n || bigN < n) {
      return Err(ShapeMismatch);
    }
    var off := (bigN - n) / 2;
    for i := 0 to nBands
      invariant |iw| == cols && |jw| == cols
      invariant forall k :: 0 <= k < bigN && !(off <= k < off + n) ==> buf[k] == 0.0
      invariant forall j :: 0 <= j < cols ==> (j < i <==> iw[j].Some?) && (j < i <==> jw[j].Some?)
      invariant i <= cols
      invariant forall j :: 0 <= j < i ==>
                  CurrentIntensity(d, root, Column(jt, j), window, dtOut, prefac, freq) == Ok((iw[j].value, jw[j].value))
    {
      if i >= cols {
        return Err(ColumnOutOfRange);
      }
      var col := Column(jt, i);
      ghost var before := buf[..];
      WriteSlice(buf, off, col, window);
      forall k | 0 <= k < bigN ensures buf[k] == PaddedAt(col, window, bigN, k) {
        if off <= k < off + n {
          assert buf[k] == col[k - off] * window[k - off];
        } else {
          assert buf[k] == before[k];
        }
      }
      assert buf[..] == CentredPadding(col, window, bigN).value;
      var f := Fourier(d, root, dtOut, ToComplex(buf[..]));
      jw := jw[i := Some(f)];
      iw := iw[i := Some(Intensity(prefac, freq, f))];
    }
    return Ok((iw, jw));
  }
}
