/** Bit-level packing of chunk-palette indices: the minimal entry width, the
    least-significant-bit-first stream the program's little-endian bit writer
    produces, and the grouping of that stream into bytes. */
module BitPacking {
  import opened Common

  function Pow2(n: nat): (r: nat)
    ensures r >= 1
  {
    if n == 0 then 1 else 2 * Pow2(n - 1)
  }

  lemma {:induction false} Pow2Monotone(a: nat, b: nat)
    requires a <= b
    ensures Pow2(a) <= Pow2(b)
  {
    if a < b {
      Pow2Monotone(a, b - 1);
    }
  }

  /** ceil(log2(n)): the fewest bits that can hold every value below n. */
  function CeilLog2(n: nat): (w: nat)
    requires n >= 1
    ensures n <= Pow2(w)
    ensures w > 0 ==> Pow2(w - 1) < n
  {
    if n == 1 then 0 else 1 + CeilLog2((n + 1) / 2)
  }

  /** The two bounds of CeilLog2 single out its result. */
  lemma CeilLog2Unique(n: nat, w: nat)
    requires n >= 1
    requires n <= Pow2(w) && (w > 0 ==> Pow2(w - 1) < n)
    ensures w == CeilLog2(n)
  {
    var c := CeilLog2(n);
    if w < c {
      Pow2Monotone(w, c - 1);
    } else if c < w {
      Pow2Monotone(c, w - 1);
    }
  }

  /** With at most 256 palette entries an entry fits in one byte. */
  lemma CeilLog2AtMost8(n: nat)
    requires 1 <= n <= 256
    ensures CeilLog2(n) <= 8
  {
    var w := CeilLog2(n);
    if w > 8 {
      assert Pow2(8) == 256;
      Pow2Monotone(8, w - 1);
    }
  }

  /** The low w bits of v, least significant first. */
  function Bits(v: nat, w: nat): (b: seq<bool>)
    ensures |b| == w
  {
    if w == 0 then [] else [v % 2 == 1] + Bits(v / 2, w - 1)
  }

  /** The number whose bits, least significant first, are b. */
  function FromBits(b: seq<bool>): (v: nat)
    ensures v < Pow2(|b|)
  {
    if b == [] then 0 else (if b[0] then 1 else 0) + 2 * FromBits(b[1..])
  }

  lemma {:induction false} FromBitsOfBits(v: nat, w: nat)
    requires v < Pow2(w)
    ensures FromBits(Bits(v, w)) == v
  {
    if w > 0 {
      assert Bits(v, w)[1..] == Bits(v / 2, w - 1);
      FromBitsOfBits(v / 2, w - 1);
    }
  }

  lemma {:induction false} BitsOfFromBits(b: seq<bool>)
    ensures Bits(FromBits(b), |b|) == b
  {
    if b != [] {
      var v := FromBits(b);
      assert v % 2 == (if b[0] then 1 else 0);
      assert v / 2 == FromBits(b[1..]);
      BitsOfFromBits(b[1..]);
    }
  }

  /** Entry values one after the other, each as w bits, least significant bit
      first: the bit sequence the program's writer is fed. */
  function Stream(vals: seq<nat>, w: nat): (s: seq<bool>)
    ensures |s| == |vals| * w
  {
    if vals == [] then []
    else
      var n := |vals|;
      assert n * w == (n - 1) * w + w;
      Stream(vals[..n - 1], w) + Bits(vals[n - 1], w)
  }

  lemma MulMonotone(a: nat, b: nat, w: nat)
    requires a <= b
    ensures a * w <= b * w
  {
  }

  lemma SliceOfFront(a: seq<bool>, b: seq<bool>, lo: nat, hi: nat)
    requires lo <= hi <= |a|
    ensures (a + b)[lo .. hi] == a[lo .. hi]
  {
  }

  lemma SliceOfBack(a: seq<bool>, b: seq<bool>)
    ensures (a + b)[|a| .. |a| + |b|] == b
  {
  }

  /** Value i of the stream occupies stream bits i*w .. i*w+w-1. */
  lemma {:induction false} StreamSlice(vals: seq<nat>, w: nat, i: nat)
    requires i < |vals|
    ensures i * w + w <= |vals| * w
    ensures Stream(vals, w)[i * w .. i * w + w] == Bits(vals[i], w)
  {
    var n := |vals|;
    var front := vals[..n - 1];
    var a, b := Stream(front, w), Bits(vals[n - 1], w);
    assert Stream(vals, w) == a + b;
    if i < n - 1 {
      assert front[i] == vals[i];
      StreamSlice(front, w, i);
      MulMonotone(n - 1, n, w);
      SliceOfFront(a, b, i * w, i * w + w);
    } else {
      assert |a| == i * w;
      SliceOfBack(a, b);
    }
  }

  /** The bits of a byte string, byte after byte, each byte least significant
      bit first: bit k of the stream is bit k % 8 of byte k / 8. */
  function Unpack(bytes: seq<byte>): (s: seq<bool>)
    ensures |s| == 8 * |bytes|
  {
    seq(8 * |bytes|, k requires 0 <= k < 8 * |bytes| => Bits(bytes[k / 8], 8)[k % 8])
  }

  /** Groups a bit stream into bytes, eight bits to a byte, least significant
      first; trailing bits that do not fill a byte are dropped, as the
      program's writer never flushes a partial byte. */
  function PackBytes(s: seq<bool>): (bytes: seq<byte>)
    ensures |bytes| == |s| / 8
  {
    seq(|s| / 8, j requires 0 <= j < |s| / 8 => FromBits(s[8 * j .. 8 * j + 8]))
  }

  lemma UnpackAppend(bytes: seq<byte>, b: byte)
    ensures Unpack(bytes + [b]) == Unpack(bytes) + Bits(b, 8)
  {
    var n := |bytes|;
    var lhs, rhs := Unpack(bytes + [b]), Unpack(bytes) + Bits(b, 8);
    forall k | 0 <= k < 8 * (n + 1)
      ensures lhs[k] == rhs[k]
    {
      if k < 8 * n {
        assert (bytes + [b])[k / 8] == bytes[k / 8];
      } else {
        assert k / 8 == n && k % 8 == k - 8 * n;
      }
    }
  }

  /** Byte j of a byte string unpacks to stream bits 8j .. 8j+7. */
  lemma UnpackByte(bytes: seq<byte>, j: nat)
    requires j < |bytes|
    ensures Unpack(bytes)[8 * j .. 8 * j + 8] == Bits(bytes[j], 8)
  {
    var slice := Unpack(bytes)[8 * j .. 8 * j + 8];
    forall t | 0 <= t < 8
      ensures slice[t] == Bits(bytes[j], 8)[t]
    {
      assert (8 * j + t) / 8 == j && (8 * j + t) % 8 == t;
    }
  }

  /** Unpacking a byte string and packing it again gives it back. */
  lemma PackUnpack(bytes: seq<byte>)
    ensures PackBytes(Unpack(bytes)) == bytes
  {
    var s := Unpack(bytes);
    forall j | 0 <= j < |bytes|
      ensures PackBytes(s)[j] == bytes[j]
    {
      UnpackByte(bytes, j);
      Pow2Eight();
      FromBitsOfBits(bytes[j], 8);
      assert PackBytes(s)[j] == FromBits(s[8 * j .. 8 * j + 8]);
    }
  }

  lemma Pow2Eight()
    ensures Pow2(8) == 256
  {
  }

  /** Packing a whole number of bytes and unpacking them gives the stream back. */
  lemma UnpackPack(s: seq<bool>)
    requires |s| % 8 == 0
    ensures Unpack(PackBytes(s)) == s
  {
    var bits := Unpack(PackBytes(s));
    WholeBytes(|s|, 0);
    assert |bits| == |s|;
    forall k | 0 <= k < |s|
      ensures bits[k] == s[k]
    {
      WholeBytes(|s|, k);
      UnpackPackAt(s, k / 8, k % 8);
    }
  }

  /** Position k of a stream of n bits, n a multiple of 8, is bit k % 8 of
      byte k / 8 of n / 8. */
  lemma WholeBytes(n: nat, k: nat)
    requires n % 8 == 0
    ensures 8 * (n / 8) == n
    ensures k < n ==> k == 8 * (k / 8) + k % 8 && k / 8 < n / 8 && k % 8 < 8
  {
  }

  /** Bit t of byte j survives packing and unpacking. */
  lemma UnpackPackAt(s: seq<bool>, j: nat, t: nat)
    requires j < |s| / 8 && t < 8
    ensures 8 * j + t < |s| && Unpack(PackBytes(s))[8 * j + t] == s[8 * j + t]
  {
    var bytes := PackBytes(s);
    var slice := s[8 * j .. 8 * j + 8];
    assert bytes[j] == FromBits(slice);
    BitsOfFromBits(slice);
    UnpackByte(bytes, j);
    assert Unpack(bytes)[8 * j + t] == Unpack(bytes)[8 * j .. 8 * j + 8][t];
  }

  /** Rust's `b as i8` on a u8: the same bit pattern read as two's complement. */
  function ToSigned(b: byte): (r: i8)
    ensures (r - b) % 256 == 0
  {
    if b < 128 then b else b - 256
  }

  /** Rust's `b as u8` on an i8. */
  function ToUnsigned(r: i8): (b: byte)
    ensures (r - b) % 256 == 0
  {
    if r >= 0 then r else r + 256
  }

  lemma SignedRoundTrip(b: byte)
    ensures ToUnsigned(ToSigned(b)) == b
  {
  }

  function SignedBytes(bytes: seq<byte>): (r: seq<i8>)
    ensures |r| == |bytes|
  {
    seq(|bytes|, j requires 0 <= j < |bytes| => ToSigned(bytes[j]))
  }

  function UnsignedBytes(data: seq<i8>): (r: seq<byte>)
    ensures |r| == |data|
  {
    seq(|data|, j requires 0 <= j < |data| => ToUnsigned(data[j]))
  }

  lemma UnsignedOfSigned(bytes: seq<byte>)
    ensures UnsignedBytes(SignedBytes(bytes)) == bytes
  {
    var r := UnsignedBytes(SignedBytes(bytes));
    forall j | 0 <= j < |bytes|
      ensures r[j] == bytes[j]
    {
      SignedRoundTrip(bytes[j]);
    }
  }

  /** The little-endian bit writer over a growing byte vector: whole bytes go
      to `bytes` as soon as eight bits are queued; fewer than eight bits wait
      in `queue`. */
  class BitWriter {
    var bytes: seq<byte>
    var queue: seq<bool>

    ghost predicate Valid()
      reads this
    {
      |queue| < 8
    }

    /** Every bit written so far, in order. */
    function Written(): seq<bool>
      reads this
    {
      Unpack(bytes) + queue
    }

    constructor ()
      ensures Valid() && bytes == [] && queue == []
    {
      bytes := [];
      queue := [];
    }

    /** Writes the low w bits of v, least significant first. */
    method Write(w: nat, v: nat)
      requires Valid()
      requires w <= 8 && v < Pow2(w)
      modifies this
      ensures Valid()
      ensures Written() == old(Written()) + Bits(v, w)
    {
      var q := queue + Bits(v, w);
      if |q| >= 8 {
        var b := FromBits(q[..8]);
        assert Pow2(8) == 256;
        BitsOfFromBits(q[..8]);
        UnpackAppend(bytes, b);
        assert q == q[..8] + q[8..];
        bytes, queue := bytes + [b], q[8..];
      } else {
        queue := q;
      }
    }
  }
}
