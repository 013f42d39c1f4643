/** The files of a generation directory: its name and its label table. */
module StoreFiles {
  import opened Float32
  import opened Ranking
  import opened Rows
  import opened Wire

  // ---- Directory names ----

  function Digit(n: nat): char
    requires n < 10
  {
    "0123456789"[n]
  }

  /** The `width` low decimal digits of `n`. */
  function Digits(n: nat, width: nat): (s: string)
    ensures |s| == width
  {
    if width == 0 then "" else Digits(n / 10, width - 1) + [Digit(n % 10)]
  }

  function PowerOfTen(width: nat): nat {
    if width == 0 then 1 else 10 * PowerOfTen(width - 1)
  }

  function DigitValue(c: char): Option<nat> {
    if '0' <= c <= '9' then Some(c as int - '0' as int) else None
  }

  function ParseDigits(s: string): Option<nat> {
    if s == "" then Some(0)
    else match (ParseDigits(s[..|s| - 1]), DigitValue(s[|s| - 1]))
      case (Some(high), Some(low)) => Some(10 * high + low)
      case _ => None
  }

  lemma {:induction false} ParseWritten(n: nat, width: nat)
    requires n < PowerOfTen(width)
    ensures ParseDigits(Digits(n, width)) == Some(n)
  {
    if 0 < width {
      ParseWritten(n / 10, width - 1);
      assert Digits(n, width)[..width - 1] == Digits(n / 10, width - 1);
    }
  }

  function GenerationName(generation: nat): string {
    "gen-" + Digits(generation, 20)
  }

  /** What clean-up reads a directory name as. */
  function NamedGeneration(name: string): Option<nat> {
    if |name| < 4 || name[..4] != "gen-" || name[4..] == "" then None
    else match ParseDigits(name[4..])
      case Some(n) => if n < U64 then Some(n) else None
      case None => None
  }

  /** Every generation is found again under its own name, so no two share one;
      a name whose number is no u64 is not a generation's. */
  lemma NamesRoundTrip(generation: nat)
    requires generation < 100000000000000000000
    ensures |GenerationName(generation)| == 24
    ensures NamedGeneration(GenerationName(generation)) == if generation < U64 then Some(generation) else None
  {
    assert PowerOfTen(5) == 100000;
    assert PowerOfTen(10) == 10000000000;
    assert PowerOfTen(15) == 1000000000000000;
    assert PowerOfTen(20) == 100000000000000000000;
    ParseWritten(generation, 20);
    assert GenerationName(generation)[..4] == "gen-";
    assert GenerationName(generation)[4..] == Digits(generation, 20);
  }

  /** The number is decimal, and fewer digits are read as well, but not none. */
  lemma ShortNamesAreRead()
    ensures NamedGeneration("gen-37") == Some(37) && NamedGeneration("gen-") == None
  {
    var name := "gen-37";
    assert name[..4] == "gen-" && name[4..] == "37";
    assert "37"[..1] == "3";
    assert ParseDigits("3") == Some(3);
    assert ParseDigits("37") == Some(37);
  }

  // ---- Label tables ----

  function LabelBytes(labels: seq<u64>): (b: seq<byte>)
    ensures |b| == 8 * |labels|
  {
    if labels == [] then [] else LabelBytes(labels[..|labels| - 1]) + LeBytes(labels[|labels| - 1], 8)
  }

  lemma {:induction false} LeInverse(b: seq<byte>)
    ensures LeBytes(FromLe(b), |b|) == b && FromLe(b) < Span(|b|)
  {
    if b != [] {
      LeInverse(b[1..]);
      ByteSplits(b[0], FromLe(b[1..]));
      assert LeBytes(FromLe(b), |b|) == [b[0]] + LeBytes(FromLe(b[1..]), |b| - 1);
    }
  }

  lemma ByteSplits(low: byte, high: nat)
    ensures (low + 256 * high) % 256 == low && (low + 256 * high) / 256 == high
  {
  }

  method WriteLabels(labels: seq<u64>, crc: seq<byte> -> Bits) returns (bytes: seq<byte>, sum: Bits)
    ensures bytes == LabelBytes(labels) && sum == crc(bytes)
  {
    bytes := [];
    var hashed: seq<byte> := [];
    for n := 0 to |labels|
      invariant bytes == hashed == LabelBytes(labels[..n])
    {
      assert labels[..n + 1][..n] == labels[..n];
      var encoded := LeBytes(labels[n], 8);
      bytes := bytes + encoded;
      hashed := hashed + encoded;
    }
    assert labels[..|labels|] == labels;
    sum := crc(hashed);
  }

  lemma AppendLabel(labels: seq<u64>, v: u64)
    ensures LabelBytes(labels + [v]) == LabelBytes(labels) + LeBytes(v, 8)
  {
    assert (labels + [v])[..|labels|] == labels;
  }

  lemma WordIsLabel(word: seq<byte>)
    requires |word| == 8
    ensures FromLe(word) < U64 && LeBytes(FromLe(word), 8) == word
  {
    LeInverse(word);
    assert Span(8) == U64;
  }

  lemma SliceExtends(bytes: seq<byte>, k: nat)
    requires k + 8 <= |bytes|
    ensures bytes[..k] + bytes[k..k + 8] == bytes[..k + 8]
  {
  }

  /** A table is read back only if it has exactly the promised size and
      checksum, and then it is the one that was written. */
  method ReadLabels(bytes: seq<byte>, count: u64, expected: Bits, crc: seq<byte> -> Bits)
    returns (r: Option<seq<u64>>)
    ensures r.Some? <==> 8 * count < U64 && |bytes| == 8 * count && crc(bytes) == expected
    ensures r.Some? ==> |r.value| == count && LabelBytes(r.value) == bytes
  {
    if U64 <= 8 * count || |bytes| != 8 * count { return None; }
    var labels: seq<u64>, at := [], 0;
    for n := 0 to count
      invariant |labels| == n && at == 8 * n && LabelBytes(labels) == bytes[..at]
    {
      var word := bytes[at..at + 8];
      WordIsLabel(word);
      AppendLabel(labels, FromLe(word));
      SliceExtends(bytes, at);
      labels := labels + [FromLe(word)];
      at := at + 8;
    }
    assert bytes[..at] == bytes;
    if crc(bytes) != expected { return None; }
    return Some(labels);
  }

  /** Two tables with the same bytes are the same table. */
  lemma {:induction false} LabelBytesInjective(a: seq<u64>, b: seq<u64>)
    requires LabelBytes(a) == LabelBytes(b)
    ensures a == b
  {
    assert |a| == |b|;
    if a != [] {
      var bytes, k := LabelBytes(a), 8 * (|a| - 1);
      assert bytes[..k] == LabelBytes(a[..|a| - 1]) && bytes[..k] == LabelBytes(b[..|b| - 1]);
      assert bytes[k..] == LeBytes(a[|a| - 1], 8) && bytes[k..] == LeBytes(b[|b| - 1], 8);
      assert Span(8) == U64;
      LeRoundTrip(a[|a| - 1], 8);
      LeRoundTrip(b[|b| - 1], 8);
      LabelBytesInjective(a[..|a| - 1], b[..|b| - 1]);
      assert a == a[..|a| - 1] + [a[|a| - 1]] && b == b[..|b| - 1] + [b[|b| - 1]];
    }
  }
}
