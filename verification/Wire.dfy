/** The packed candidate records of the candidate stream: a u64 label and an
    f32 score, little-endian, 12 bytes each. */
module Wire {
  import opened Float32
  import opened Rows

  datatype Record = Record(rowLabel: u64, score: Bits)

  /** The `width` low bytes of `n`, least significant first. */
  function LeBytes(n: nat, width: nat): (b: seq<byte>)
    ensures |b| == width
  {
    if width == 0 then [] else [n % 256] + LeBytes(n / 256, width - 1)
  }

  function FromLe(b: seq<byte>): nat {
    if b == [] then 0 else b[0] + 256 * FromLe(b[1..])
  }

  /** 256 to the `width`. */
  function Span(width: nat): nat {
    if width == 0 then 1 else 256 * Span(width - 1)
  }

  lemma {:induction false} LeRoundTrip(n: nat, width: nat)
    requires n < Span(width)
    ensures FromLe(LeBytes(n, width)) == n
  {
    if width > 0 {
      LeRoundTrip(n / 256, width - 1);
      assert LeBytes(n, width)[1..] == LeBytes(n / 256, width - 1);
    }
  }

  function Pack(r: Record): (b: seq<byte>)
    ensures |b| == 12
  {
    LeBytes(r.rowLabel, 8) + LeBytes(r.score, 4)
  }

  function Encode(records: seq<Record>): (b: seq<byte>)
    ensures |b| == 12 * |records|
  {
    if records == [] then [] else Pack(records[0]) + Encode(records[1..])
  }

  /** What a caller reads back: one record per 12 bytes. */
  function Decode(b: seq<byte>): seq<Record> {
    if |b| < 12 then []
    else [Record(FromLe(b[..8]) % U64, FromLe(b[8..12]) % 0x1_0000_0000)] + Decode(b[12..])
  }

  /** The least significant byte comes first. */
  lemma LeBytesAre(n: nat)
    ensures LeBytes(n, 4) == [n % 256, n / 0x100 % 256, n / 0x1_0000 % 256, n / 0x100_0000 % 256]
    ensures LeBytes(n, 8) == LeBytes(n, 4) + LeBytes(n / 0x1_0000_0000, 4)
  {
    LeBytesStep(n, 4);
    LeBytesStep(n, 8);
  }

  lemma LeBytesStep(n: nat, width: nat)
    requires 4 <= width
    ensures LeBytes(n, width) == [n % 256, n / 0x100 % 256, n / 0x1_0000 % 256, n / 0x100_0000 % 256]
                                 + LeBytes(n / 0x1_0000_0000, width - 4)
  {
    var a, b, c, e := n / 256, n / 0x1_0000, n / 0x100_0000, n / 0x1_0000_0000;
    assert a / 256 == b && b / 256 == c && c / 256 == e;
    assert LeBytes(n, width) == [n % 256] + LeBytes(a, width - 1);
    assert LeBytes(a, width - 1) == [a % 256] + LeBytes(b, width - 2);
    assert LeBytes(b, width - 2) == [b % 256] + LeBytes(c, width - 3);
    assert LeBytes(c, width - 3) == [c % 256] + LeBytes(e, width - 4);
  }

  /** The label in 8 bytes, then the score's pattern in 4. */
  lemma PackLayout(r: Record)
    ensures Pack(r)[..4] == [r.rowLabel % 256, r.rowLabel / 0x100 % 256, r.rowLabel / 0x1_0000 % 256,
                             r.rowLabel / 0x100_0000 % 256]
    ensures var high := r.rowLabel / 0x1_0000_0000;
            Pack(r)[4..8] == [high % 256, high / 0x100 % 256, high / 0x1_0000 % 256, high / 0x100_0000 % 256]
    ensures Pack(r)[8..] == [r.score % 256, r.score / 0x100 % 256, r.score / 0x1_0000 % 256,
                             r.score / 0x100_0000 % 256]
  {
    LeBytesAre(r.rowLabel);
    LeBytesAre(r.rowLabel / 0x1_0000_0000);
    LeBytesAre(r.score);
  }

  lemma UnpackPacked(r: Record)
    ensures FromLe(Pack(r)[..8]) == r.rowLabel && FromLe(Pack(r)[8..12]) == r.score
  {
    assert Pack(r)[..8] == LeBytes(r.rowLabel, 8) && Pack(r)[8..12] == LeBytes(r.score, 4);
    assert Span(4) == 0x1_0000_0000;
    assert Span(8) == U64;
    LeRoundTrip(r.rowLabel, 8);
    LeRoundTrip(r.score, 4);
  }

  lemma {:induction false} DecodeEncode(records: seq<Record>)
    ensures Decode(Encode(records)) == records
  {
    if records != [] {
      var b := Encode(records);
      assert b[..12] == Pack(records[0]) && b[12..] == Encode(records[1..]);
      assert b[..8] == Pack(records[0])[..8] && b[8..12] == Pack(records[0])[8..12];
      UnpackPacked(records[0]);
      DecodeEncode(records[1..]);
    }
  }

  lemma {:induction false} EncodeConcat(a: seq<Record>, b: seq<Record>)
    ensures Encode(a + b) == Encode(a) + Encode(b)
  {
    if a == [] {
      assert a + b == b;
    } else {
      assert (a + b)[1..] == a[1..] + b;
      EncodeConcat(a[1..], b);
    }
  }

  lemma EncodeOne(r: Record)
    ensures Encode([r]) == Pack(r)
  {
    assert Encode([r][1..]) == [];
  }
}
