/**
 * The training-record decoder: a record is 2 label bytes (steering and
 * speed classes) followed by a 60 x 160 x 1 image. The labels become
 * one-hot vectors of length 180; the image bytes are read as signed int8,
 * reshaped to [depth, height, width] and transposed to [height, width,
 * depth].
 */
module RecordReader {
  import opened Wrappers

  /** One unsigned byte of the loaded record array. */
  type Byte = b: int | 0 <= b < 256

  /** An image tensor, indexed [h][w][d] after the transpose. */
  type Tensor3 = seq<seq<seq<int>>>

  const Width: nat := 160
  const Height: nat := 60
  const Depth: nat := 1
  const LabelBytes: nat := 2
  const ImageBytes: nat := Height * Width * Depth
  /** Number of classes of each one-hot label vector. */
  const LabelClasses: nat := 180

  /** The exceptions numpy raises on a bad index or a bad reshape. */
  datatype ReadError = IndexError | ValueError

  /** `np.frombuffer(..., dtype=np.int8)` on one byte: two's complement. */
  function AsInt8(b: Byte): (v: int)
    ensures -128 <= v < 128
    ensures v % 256 == b
    ensures b < 128 ==> v == b
  {
    if b < 128 then b else b - 256
  }

  /** The all-zero label vector (`np.zeros(180)`). */
  function Zeros(): (v: seq<int>)
    ensures |v| == LabelClasses && forall i :: 0 <= i < |v| ==> v[i] == 0
  {
    seq(LabelClasses, _ => 0)
  }

  /** A label vector of length 180 with a single 1 at class k. */
  function OneHot(k: nat): (v: seq<int>)
    requires k < LabelClasses
    ensures |v| == LabelClasses && v[k] == 1
    ensures forall i :: 0 <= i < |v| && i != k ==> v[i] == 0
  {
    Zeros()[k := 1]
  }

  /** Distinct classes give distinct vectors: the class is recoverable. */
  lemma OneHotInjective(j: nat, k: nat)
    requires j < LabelClasses && k < LabelClasses
    ensures OneHot(j) == OneHot(k) <==> j == k
  {
    if j != k {
      assert OneHot(j)[j] != OneHot(k)[j];
    }
  }

  /** Label byte i of the label buffer is a valid class. */
  predicate LabelOk(labelBytes: seq<Byte>, i: nat)
  {
    i < |labelBytes| && labelBytes[i] < LabelClasses
  }

  /** Python's `seq[index]` accepts -n <= index < n. */
  predicate InBounds(n: nat, index: int)
  {
    -(n as int) <= index < n
  }

  /** The element a Python index designates; negative indices count from the end. */
  function PyIndex(n: nat, index: int): (i: nat)
    requires InBounds(n, index)
    ensures i < n
    ensures 0 <= index ==> i == index
    ensures index < 0 ==> i == n + index
  {
    if index < 0 then n + index else index
  }

  /** Python slicing `s[lo:hi]` for 0 <= lo <= hi: clipped to the sequence. */
  function Slice(s: seq<Byte>, lo: nat, hi: nat): (r: seq<Byte>)
    requires lo <= hi
    ensures |r| == (if hi <= |s| then hi else |s|) - (if lo <= |s| then lo else |s|)
    ensures forall i :: 0 <= i < |r| ==> r[i] == s[lo + i]
  {
    var a := if lo <= |s| then lo else |s|;
    var b := if hi <= |s| then hi else |s|;
    s[a..b]
  }

  /** `read`'s slicing: the label buffer `record[:2]` and the image
      buffer `record[2:2 + 9600]`. */
  function SplitRecord(record: seq<Byte>): (parts: (seq<Byte>, seq<Byte>))
    ensures |record| >= LabelBytes + ImageBytes ==>
              parts.0 == record[..LabelBytes] && parts.1 == record[LabelBytes..LabelBytes + ImageBytes]
    ensures |record| < LabelBytes + ImageBytes ==> |parts.1| < ImageBytes
  {
    (Slice(record, 0, LabelBytes), Slice(record, LabelBytes, LabelBytes + ImageBytes))
  }

  /** Bytes after the first 2 + 9600 are ignored. */
  lemma SplitIgnoresTail(record: seq<Byte>, tail: seq<Byte>)
    requires |record| == LabelBytes + ImageBytes
    ensures SplitRecord(record + tail) == SplitRecord(record)
  {
    var whole := record + tail;
    assert Slice(whole, 0, LabelBytes) == whole[..LabelBytes] == record[..LabelBytes];
    assert Slice(whole, LabelBytes, LabelBytes + ImageBytes) == whole[LabelBytes..|record|] == record[LabelBytes..];
    assert Slice(record, 0, LabelBytes) == record[..LabelBytes];
    assert Slice(record, LabelBytes, LabelBytes + ImageBytes) == record[LabelBytes..];
  }

  /** `np.reshape(buf, [depth, height, width])`. */
  function Reshape(buf: seq<int>): (t: Tensor3)
    requires |buf| == ImageBytes
  {
    seq(Depth, d requires 0 <= d < Depth =>
      seq(Height, h requires 0 <= h < Height =>
        seq(Width, w requires 0 <= w < Width => buf[d * Height * Width + h * Width + w])))
  }

  /** `np.transpose(t, [1, 2, 0])` on a [depth, height, width] tensor. */
  function Transpose120(t: Tensor3): (r: Tensor3)
    requires |t| == Depth
    requires forall d :: 0 <= d < Depth ==> |t[d]| == Height
    requires forall d, h :: 0 <= d < Depth && 0 <= h < Height ==> |t[d][h]| == Width
  {
    seq(Height, h requires 0 <= h < Height =>
      seq(Width, w requires 0 <= w < Width =>
        seq(Depth, d requires 0 <= d < Depth => t[d][h][w])))
  }

  /** The tensor has shape (60, 160, 1). */
  predicate HasImageShape(t: Tensor3)
  {
    && |t| == Height
    && (forall h :: 0 <= h < Height ==> |t[h]| == Width)
    && (forall h, w :: 0 <= h < Height && 0 <= w < Width ==> |t[h][w]| == Depth)
  }

  /** `set_image`: signed bytes, reshaped and transposed; a buffer of the
      wrong size makes the reshape fail. */
  function DecodeImage(bytes: seq<Byte>): (r: Result<Tensor3, ReadError>)
    ensures r.Success? <==> |bytes| == ImageBytes
    ensures r.Failure? ==> r.error == ValueError
    ensures r.Success? ==> HasImageShape(r.value)
    ensures r.Success? ==> forall h, w, d :: 0 <= h < Height && 0 <= w < Width && 0 <= d < Depth ==>
              r.value[h][w][d] == AsInt8(bytes[d * Height * Width + h * Width + w])
  {
    if |bytes| != ImageBytes then Failure(ValueError)
    else
      var signed := seq(|bytes|, i requires 0 <= i < |bytes| => AsInt8(bytes[i]));
      Success(Transpose120(Reshape(signed)))
  }

  /** Decoding loses nothing: two buffers that decode to the same image
      are equal. */
  lemma DecodeImageInjective(a: seq<Byte>, b: seq<Byte>)
    requires DecodeImage(a).Success? && DecodeImage(a) == DecodeImage(b)
    ensures a == b
  {
    forall n | 0 <= n < |a|
      ensures a[n] == b[n]
    {
      var h, w := n / Width, n % Width;
      assert n == 0 * Height * Width + h * Width + w;
      assert DecodeImage(a).value[h][w][0] == AsInt8(a[n]);
      assert DecodeImage(b).value[h][w][0] == AsInt8(b[n]);
    }
  }

  /** The decoded content of one record: both label vectors and the image. */
  datatype Decoded = Decoded(steer: seq<int>, speed: seq<int>, image: Tensor3)

  /** `read` on one record, with the exception it raises: a label byte
      that is missing or not below 180, then an image buffer of the wrong
      size. */
  function DecodeRecord(record: seq<Byte>): (r: Result<Decoded, ReadError>)
    ensures r.Success? <==> |record| >= LabelBytes + ImageBytes && record[0] < LabelClasses && record[1] < LabelClasses
    ensures r.Success? ==> r.value.steer == OneHot(record[0]) && r.value.speed == OneHot(record[1])
    ensures r.Success? ==> HasImageShape(r.value.image)
    ensures r.Success? ==> forall h, w :: 0 <= h < Height && 0 <= w < Width ==>
              r.value.image[h][w][0] == AsInt8(record[LabelBytes + h * Width + w])
  {
    var (labelBytes, image) := SplitRecord(record);
    if !LabelOk(labelBytes, 0) || !LabelOk(labelBytes, 1) then Failure(IndexError)
    else match DecodeImage(image)
      case Failure(e) => Failure(e)
      case Success(t) => Success(Decoded(OneHot(labelBytes[0]), OneHot(labelBytes[1]), t))
  }

  /** A record: the fields `set_label` and `set_image` assign. */
  class RcImageRecord {
    var steer: array<int>
    var speed: array<int>
    var image: Tensor3

    /** A record before any field is set (empty arrays, empty image). */
    constructor ()
      ensures steer.Length == 0 && speed.Length == 0 && image == []
    {
      steer := new int[0];
      speed := new int[0];
      image := [];
    }

    /** `set_label`: a fresh zero vector per label with a 1 written at the
        label byte; a missing byte or one not below 180 raises IndexError
        after the zero vector has been assigned. */
    method SetLabel(labelBytes: seq<Byte>) returns (err: Option<ReadError>)
      modifies this
      ensures fresh(steer) && steer[..] == if LabelOk(labelBytes, 0) then OneHot(labelBytes[0]) else Zeros()
      ensures !LabelOk(labelBytes, 0) ==> speed == old(speed)
      ensures LabelOk(labelBytes, 0) ==>
                fresh(speed) && speed[..] == if LabelOk(labelBytes, 1) then OneHot(labelBytes[1]) else Zeros()
      ensures err == if LabelOk(labelBytes, 0) && LabelOk(labelBytes, 1) then None else Some(IndexError)
      ensures image == old(image)
    {
      steer := new int[LabelClasses](_ => 0);
      if !LabelOk(labelBytes, 0) {
        return Some(IndexError);
      }
      steer[labelBytes[0]] := 1;
      speed := new int[LabelClasses](_ => 0);
      if !LabelOk(labelBytes, 1) {
        return Some(IndexError);
      }
      speed[labelBytes[1]] := 1;
      return None;
    }

    /** `set_image`: assigns the decoded image, or raises ValueError and
        leaves the field alone. */
    method SetImage(bytes: seq<Byte>) returns (err: Option<ReadError>)
      modifies this
      ensures DecodeImage(bytes).Success? ==> image == DecodeImage(bytes).value && err == None
      ensures DecodeImage(bytes).Failure? ==> image == old(image) && err == Some(DecodeImage(bytes).error)
      ensures steer == old(steer) && speed == old(speed)
    {
      var r := DecodeImage(bytes);
      if r.Failure? {
        return Some(r.error);
      }
      image := r.value;
      return None;
    }
  }

  /** The reader over the loaded record array (loading and shuffling are
      not modelled). */
  class RcImageReader {
    var bytesArray: seq<seq<Byte>>

    constructor (records: seq<seq<Byte>>)
      ensures bytesArray == records
    {
      bytesArray := records;
    }

    /** `read(index)`: slices record `index` and decodes it into a new
        record; an index out of range raises IndexError. */
    method Read(index: int) returns (r: Result<RcImageRecord, ReadError>)
      ensures !InBounds(|bytesArray|, index) ==> r == Failure(IndexError)
      ensures InBounds(|bytesArray|, index) ==>
                var d := DecodeRecord(bytesArray[PyIndex(|bytesArray|, index)]);
                && (r.Success? <==> d.Success?)
                && (r.Failure? ==> r.error == d.error)
                && (r.Success? ==> fresh(r.value) && r.value.steer[..] == d.value.steer
                                   && r.value.speed[..] == d.value.speed && r.value.image == d.value.image)
    {
      if !InBounds(|bytesArray|, index) {
        return Failure(IndexError);
      }
      var record := bytesArray[PyIndex(|bytesArray|, index)];
      var result := new RcImageRecord();
      var (labelBuffer, imageBuffer) := SplitRecord(record);
      var err := result.SetLabel(labelBuffer);
      if err.Some? {
        return Failure(err.value);
      }
      err := result.SetImage(imageBuffer);
      if err.Some? {
        return Failure(err.value);
      }
      return Success(result);
    }
  }
}
