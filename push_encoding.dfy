/** The array side of `push_image_ws` (oxleycustomnode.py:106-129): squeeze,
    channel-first to channel-last, quantisation to 8 bits, then the PIL and
    Base64 library calls that turn the samples into the JSON message. */
module PushEncoding {
  import opened Values

  /** A dense array in row-major order; `data` holds `Product(shape)` samples.
      Samples are idealised as exact reals rather than float32. */
  datatype NdArray = NdArray(shape: seq<nat>, data: seq<real>)

  /** Number of samples of an array of the given shape. */
  function Product(shape: seq<nat>): nat {
    if |shape| == 0 then 1 else shape[0] * Product(shape[1..])
  }

  predicate WellFormed(a: NdArray) {
    |a.data| == Product(a.shape)
  }

  /** `squeeze()`: every axis of length 1 is dropped, the others keep their order. */
  function Squeeze(shape: seq<nat>): (r: seq<nat>)
    ensures 1 !in r
    ensures |r| <= |shape|
  {
    if |shape| == 0 then []
    else if shape[0] == 1 then Squeeze(shape[1..])
    else [shape[0]] + Squeeze(shape[1..])
  }

  /** Squeezing leaves the number of samples, and so the row-major data, unchanged. */
  lemma {:induction false} SqueezeProduct(shape: seq<nat>)
    ensures Product(Squeeze(shape)) == Product(shape)
  {
    if |shape| > 0 {
      SqueezeProduct(shape[1..]);
      if shape[0] != 1 {
        assert ([shape[0]] + Squeeze(shape[1..]))[1..] == Squeeze(shape[1..]);
      }
    }
  }

  /** Squeezing removes exactly the axes of length 1: every other length keeps its count. */
  lemma {:induction false} SqueezeMultiset(shape: seq<nat>)
    ensures multiset(Squeeze(shape)) == multiset(shape)[1 := 0]
  {
    if |shape| > 0 {
      SqueezeMultiset(shape[1..]);
      assert shape == [shape[0]] + shape[1..];
    }
  }

  /** Squeezing distributes over concatenation, so the kept axes stay in order. */
  lemma {:induction false} SqueezeAppend(s: seq<nat>, t: seq<nat>)
    ensures Squeeze(s + t) == Squeeze(s) + Squeeze(t)
  {
    if |s| > 0 {
      assert (s + t)[1..] == s[1..] + t;
      SqueezeAppend(s[1..], t);
    } else {
      assert s + t == t;
    }
  }

  /** A shape with no axis of length 1 is left alone, so squeezing twice is squeezing once. */
  lemma {:induction false} SqueezeIdempotent(shape: seq<nat>)
    ensures 1 !in shape ==> Squeeze(shape) == shape
    ensures Squeeze(Squeeze(shape)) == Squeeze(shape)
  {
    if |shape| > 0 {
      SqueezeIdempotent(shape[1..]);
      assert shape == [shape[0]] + shape[1..];
    }
    var s := Squeeze(shape);
    SqueezeFixed(s);
  }

  lemma {:induction false} SqueezeFixed(shape: seq<nat>)
    requires 1 !in shape
    ensures Squeeze(shape) == shape
  {
    if |shape| > 0 {
      assert shape == [shape[0]] + shape[1..];
      SqueezeFixed(shape[1..]);
    }
  }

  /** The test at oxleycustomnode.py:109: rank 3 and a leading axis of 1 or 3. */
  predicate IsChannelFirst(shape: seq<nat>) {
    |shape| == 3 && shape[0] in {1, 3}
  }

  /** After squeezing, a leading axis of length 1 is impossible, so only the
      `3` of `{1, 3}` can ever select the transpose. */
  lemma ChannelFirstAfterSqueeze(shape: seq<nat>)
    ensures IsChannelFirst(Squeeze(shape)) <==> |Squeeze(shape)| == 3 && Squeeze(shape)[0] == 3
  {
  }

  lemma MulStrict(a: nat, x: nat, y: nat, b: nat)
    requires a < x && b < y
    ensures a * y + b < x * y
  {
    calc {
      a * y + b;
    <  a * y + y;
    == (a + 1) * y;
    <= { assert a + 1 <= x; } x * y;
    }
  }

  lemma MulMono(a: nat, b: nat, n: nat)
    requires a <= b
    ensures a * n <= b * n
  {
  }

  lemma DivModOf(k: nat, q: nat, r: nat, n: nat)
    requires 0 <= r < n && k == q * n + r
    ensures k / n == q && k % n == r
  {
    var q', r' := k / n, k % n;
    assert q' * n + r' == q * n + r;
    if q' < q {
      MulMono(q' + 1, q, n);
      assert false;
    }
    if q < q' {
      MulMono(q + 1, q', n);
      assert false;
    }
  }

  lemma DivBound(k: nat, m: nat, n: nat)
    requires n > 0 && k < m * n
    ensures k / n < m
  {
  }

  /** Index in the channel-first data of the sample that lands at index `k` of
      the channel-last data of an array of `c` channels of `h` by `w`. */
  function SourceIndex(k: nat, c: nat, h: nat, w: nat): (i: nat)
    requires k < h * w * c
    ensures i < c * h * w
  {
    assert c > 0 && h * w > 0;
    var ci, p := k % c, k / c;
    DivBound(k, h * w, c);
    MulStrict(ci, c, h * w, p);
    assert c * (h * w) == c * h * w;
    ci * (h * w) + p
  }

  /** `transpose(1, 2, 0)` on the row-major data of a `(c, h, w)` array. */
  function TransposeToChannelLast(d: seq<real>, c: nat, h: nat, w: nat): (r: seq<real>)
    requires |d| == c * h * w
    ensures |r| == |d|
  {
    assert h * w * c == c * h * w;
    seq(h * w * c, k requires 0 <= k < h * w * c => d[SourceIndex(k, c, h, w)])
  }

  /** Row-major index of channel `ci`, row `hi`, column `wi` in a `(c, h, w)` array. */
  function ChannelFirstIndex(c: nat, h: nat, w: nat, ci: nat, hi: nat, wi: nat): (i: nat)
    requires ci < c && hi < h && wi < w
    ensures i < c * h * w
  {
    MulStrict(ci, c, h, hi);
    MulStrict(ci * h + hi, c * h, w, wi);
    (ci * h + hi) * w + wi
  }

  /** Row-major index of the same sample in the `(h, w, c)` array. */
  function ChannelLastIndex(c: nat, h: nat, w: nat, ci: nat, hi: nat, wi: nat): (i: nat)
    requires ci < c && hi < h && wi < w
    ensures i < c * h * w
  {
    MulStrict(hi, h, w, wi);
    MulStrict(hi * w + wi, h * w, c, ci);
    assert h * w * c == c * h * w;
    (hi * w + wi) * c + ci
  }

  lemma IndexRegroup(ci: nat, h: nat, w: nat, hi: nat, wi: nat)
    ensures ci * (h * w) + (hi * w + wi) == (ci * h + hi) * w + wi
  {
  }

  /** The sample at channel `ci`, row `hi`, column `wi` moves from its channel-first
      place to its channel-last place. */
  lemma TransposeAt(d: seq<real>, c: nat, h: nat, w: nat, ci: nat, hi: nat, wi: nat)
    requires |d| == c * h * w
    requires ci < c && hi < h && wi < w
    ensures TransposeToChannelLast(d, c, h, w)[ChannelLastIndex(c, h, w, ci, hi, wi)]
         == d[ChannelFirstIndex(c, h, w, ci, hi, wi)]
  {
    var p := hi * w + wi;
    var k := ChannelLastIndex(c, h, w, ci, hi, wi);
    assert k == p * c + ci;
    DivModOf(k, p, ci, c);
    IndexRegroup(ci, h, w, hi, wi);
    assert SourceIndex(k, c, h, w) == ChannelFirstIndex(c, h, w, ci, hi, wi);
  }

  lemma Product3(x: nat, y: nat, z: nat)
    ensures Product([x, y, z]) == x * y * z
  {
    assert [z][1..] == [];
    assert Product([z]) == z;
    assert [y, z][1..] == [z];
    assert Product([y, z]) == y * z;
    assert [x, y, z][1..] == [y, z];
    assert Product([x, y, z]) == x * (y * z);
  }

  lemma MulRotate(x: nat, y: nat, z: nat)
    ensures y * z * x == x * y * z
  {
  }

  /** Moving the first of three axes last keeps the axis lengths and the sample count. */
  lemma RotateShape(s: seq<nat>)
    requires |s| == 3
    ensures Product([s[1], s[2], s[0]]) == Product(s) == s[0] * s[1] * s[2]
    ensures multiset([s[1], s[2], s[0]]) == multiset(s)
  {
    RotateShapeProduct(s);
    RotateShapeMultiset(s);
  }

  lemma RotateShapeProduct(s: seq<nat>)
    requires |s| == 3
    ensures Product([s[1], s[2], s[0]]) == Product(s) == s[0] * s[1] * s[2]
  {
    var x, y, z := s[0], s[1], s[2];
    assert s == [x, y, z];
    RotateProduct(x, y, z);
  }

  lemma RotateShapeMultiset(s: seq<nat>)
    requires |s| == 3
    ensures multiset([s[1], s[2], s[0]]) == multiset(s)
  {
    var x, y, z := s[0], s[1], s[2];
    assert s == [x, y, z];
    RotateMultiset(x, y, z);
  }

  lemma RotateProduct(x: nat, y: nat, z: nat)
    ensures Product([y, z, x]) == Product([x, y, z]) == x * y * z
  {
    Product3(x, y, z);
    Product3(y, z, x);
    MulRotate(x, y, z);
  }

  lemma RotateMultiset(x: nat, y: nat, z: nat)
    ensures multiset([y, z, x]) == multiset([x, y, z])
  {
  }

  /** Squeeze, then move a leading channel axis last (oxleycustomnode.py:106-112). */
  function ToImageLayout(a: NdArray): (r: NdArray)
    requires WellFormed(a)
    ensures WellFormed(r)
    ensures 1 !in r.shape
    ensures multiset(r.shape) == multiset(a.shape)[1 := 0]
  {
    var s := Squeeze(a.shape);
    SqueezeProduct(a.shape);
    SqueezeMultiset(a.shape);
    if IsChannelFirst(s) then
      RotateShape(s);
      NdArray([s[1], s[2], s[0]], TransposeToChannelLast(a.data, s[0], s[1], s[2]))
    else
      NdArray(s, a.data)
  }

  /** The layout step transposes exactly when the squeezed shape has rank 3 and a
      leading axis of 3, moving the samples as `TransposeAt` describes, and otherwise keeps the squeezed shape and the data as they are. */
  lemma ToImageLayoutCases(a: NdArray)
    requires WellFormed(a)
    ensures var s := Squeeze(a.shape);
      if |s| == 3 && s[0] == 3 then
        && ToImageLayout(a).shape == [s[1], s[2], 3]
        && |a.data| == 3 * s[1] * s[2]
        && ToImageLayout(a).data == TransposeToChannelLast(a.data, 3, s[1], s[2])
      else
        ToImageLayout(a) == NdArray(s, a.data)
  {
    var s := Squeeze(a.shape);
    SqueezeProduct(a.shape);
    if |s| == 3 && s[0] == 3 {
      RotateShape(s);
    }
  }

  /** The intended input, a batch of one channel-last image `(1, h, w, 3)` whose
      height is neither 1 nor 3 and whose width is not 1, keeps its layout. */
  lemma ChannelLastImageKept(h: nat, w: nat, data: seq<real>)
    requires h != 1 && h != 3 && w != 1
    requires WellFormed(NdArray([1, h, w, 3], data))
    ensures ToImageLayout(NdArray([1, h, w, 3], data)) == NdArray([h, w, 3], data)
  {
    assert Squeeze([1, h, w, 3]) == [h, w, 3] by {
      SqueezeFixed([h, w, 3]);
      assert [1, h, w, 3][1..] == [h, w, 3];
    }
  }

  /** A channel-first batch of one, `(1, 3, h, w)` with `h` and `w` not 1, becomes
      `(h, w, 3)`. */
  lemma ChannelFirstImageTransposed(h: nat, w: nat, data: seq<real>)
    requires h != 1 && w != 1
    requires WellFormed(NdArray([1, 3, h, w], data))
    ensures ToImageLayout(NdArray([1, 3, h, w], data)).shape == [h, w, 3]
  {
    assert Squeeze([1, 3, h, w]) == [3, h, w] by {
      SqueezeFixed([3, h, w]);
      assert [1, 3, h, w][1..] == [3, h, w];
    }
  }

  /** The heuristic misreads two channel-last images. One of height 3 is taken for
      channel-first and becomes `(w, 3, 3)`; one of height 1 loses its row axis and
      becomes the 2-D `(w, 3)`, which PIL reads as grayscale. */
  lemma ChannelLastMisread(w: nat, d3: seq<real>, d1: seq<real>)
    requires w != 1
    requires WellFormed(NdArray([1, 3, w, 3], d3)) && WellFormed(NdArray([1, 1, w, 3], d1))
    ensures ToImageLayout(NdArray([1, 3, w, 3], d3)).shape == [w, 3, 3]
    ensures ToImageLayout(NdArray([1, 1, w, 3], d1)) == NdArray([w, 3], d1)
  {
    ChannelFirstImageTransposed(w, 3, d3);
    assert Squeeze([1, 1, w, 3]) == [w, 3] by {
      SqueezeFixed([w, 3]);
      assert [1, 1, w, 3][1..] == [1, w, 3];
      assert [1, w, 3][1..] == [w, 3];
    }
  }

  /** A channel-first image of height 1, `(1, 3, 1, w)` with `w` not 1, loses both
      length-1 axes and is not transposed: it stays the 2-D `(3, w)`, which PIL
      reads as a grayscale picture of 3 rows. */
  lemma ChannelFirstRowMisread(w: nat, data: seq<real>)
    requires w != 1
    requires WellFormed(NdArray([1, 3, 1, w], data))
    ensures ToImageLayout(NdArray([1, 3, 1, w], data)) == NdArray([3, w], data)
  {
    assert Squeeze([1, 3, 1, w]) == [3, w] by {
      SqueezeFixed([w]);
      assert [1, w][1..] == [w];
      assert Squeeze([1, w]) == [w];
      assert [3, 1, w][1..] == [1, w];
      assert Squeeze([3, 1, w]) == [3] + [w];
      assert [1, 3, 1, w][1..] == [3, 1, w];
    }
  }

  /** `np.clip(x * 255, 0, 255).astype(np.uint8)` on one sample. */
  function Quantise(x: real): (q: byte)
    ensures 0.0 <= x <= 1.0 ==> q as real <= 255.0 * x < q as real + 1.0
    ensures x < 0.0 ==> q == 0
    ensures x > 1.0 ==> q == 255
  {
    var scaled := x * 255.0;
    if scaled < 0.0 then 0
    else if scaled > 255.0 then 255
    else scaled.Floor as byte
  }

  /** Quantisation never decreases when the sample grows. */
  lemma QuantiseMonotone(x: real, y: real)
    requires x <= y
    ensures Quantise(x) <= Quantise(y)
  {
  }

  /** Quantisation of every sample, in order. */
  function QuantiseAll(d: seq<real>): (q: seq<byte>)
    ensures |q| == |d|
    ensures forall i :: 0 <= i < |d| ==> q[i] == Quantise(d[i])
  {
    seq(|d|, i requires 0 <= i < |d| => Quantise(d[i]))
  }

  /** An 8-bit image as `Image.fromarray` builds it from an array. */
  datatype PilImage = PilImage(shape: seq<nat>, pixels: Bytes)

  /** The library calls of the push path. */
  datatype PushLib = PushLib(
    fromArray: seq<nat> -> bool,           // `Image.fromarray` on uint8 data: false when it raises TypeError
    saveJpeg: PilImage -> Option<Bytes>,   // `img.save(buffer, format="JPEG")`; None: it raised
    b64encode: Bytes -> string,            // `base64.b64encode(...).decode('utf-8')`
    dumps: Json -> string)                 // `json.dumps`

  /** The layout and quantisation step: the uint8 array given to `Image.fromarray`. */
  function ToPixels(a: NdArray): (p: PilImage)
    requires WellFormed(a)
    ensures |p.pixels| == Product(p.shape)
    ensures 1 !in p.shape
  {
    var n := ToImageLayout(a);
    PilImage(n.shape, QuantiseAll(n.data))
  }

  /** The JPEG bytes the push node sends, or the error it raises before it
      connects: a failed `fromarray` becomes ValueError, a failed save propagates. */
  function EncodeJpeg(a: NdArray, lib: PushLib): (r: Result<Bytes>)
    requires WellFormed(a)
    ensures r.Err? <==> !lib.fromArray(ToPixels(a).shape) || lib.saveJpeg(ToPixels(a)).None?
    ensures r.Err? ==> (r.error == ValueError <==> !lib.fromArray(ToPixels(a).shape))
    ensures r.Err? ==> r.error == ValueError || r.error == JpegWriteFailed
  {
    var img := ToPixels(a);
    if !lib.fromArray(img.shape) then Err(ValueError)
    else
      match lib.saveJpeg(img)
      case None => Err(JpegWriteFailed)
      case Some(jpeg) => Ok(jpeg)
  }

  /** The object `{"image": b64}` that the push node serialises. */
  function PushEnvelope(b64: string): (j: Json)
    ensures j.JObject? && j.members.Keys == {"image"}
    ensures j.members["image"] == JString(b64)
  {
    JObject(map["image" := JString(b64)])
  }

  /** The text message the push node sends for the given JPEG bytes. */
  function PushMessage(jpeg: Bytes, lib: PushLib): string {
    lib.dumps(PushEnvelope(lib.b64encode(jpeg)))
  }

  /** Characters of standard Base64 output (RFC 4648, section 4). */
  predicate IsBase64Text(s: string) {
    forall i :: 0 <= i < |s| ==>
      'A' <= s[i] <= 'Z' || 'a' <= s[i] <= 'z' || '0' <= s[i] <= '9' || s[i] in {'+', '/', '='}
  }

  lemma Base64HasNoComma(s: string)
    requires IsBase64Text(s)
    ensures ',' !in s
  {
  }
}
