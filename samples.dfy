/**
 * The sample conversion of the receive path: the loop in `work()` that reads
 * the 16-bit words of the transfer buffer and writes complex samples.
 *
 * Each word carries two signed 8-bit components: its low byte belongs to one
 * complex sample, its high byte to the next. For an even word index i the
 * pair of words w[i], w[i+1] becomes
 *   slot i   = (sext8(lo w[i]), sext8(lo w[i+1]))
 *   slot i+1 = (sext8(hi w[i]), sext8(hi w[i+1])).
 * The components are kept as integers; the division by 127.0 that turns them
 * into floats is not modelled.
 */
module Samples {

  /** One `int16_t` word of the transfer buffer. */
  newtype Int16 = x: int | -0x8000 <= x < 0x8000

  /** A complex sample before scaling: in-phase and quadrature components. */
  datatype IQ = IQ(i: int, q: int)

  /** `w & 0xFF` on the promoted word: the low byte of its two's-complement pattern. */
  function LowByte(w: Int16): (b: int)
    ensures 0 <= b < 256
    ensures (w as int - b) % 256 == 0
  {
    (w as int) % 256
  }

  /** `(w >> 8) & 0xFF` with an arithmetic shift: the high byte of the pattern. */
  function HighByte(w: Int16): (b: int)
    ensures 0 <= b < 256
    ensures (w as int - 256 * b - LowByte(w)) % 0x1_0000 == 0
  {
    ((w as int) / 256) % 256
  }

  /** The `(int8_t)` cast: the signed value with the same eight bits. */
  function SignExtend8(b: int): (x: int)
    requires 0 <= b < 256
    ensures -128 <= x < 128
    ensures (x - b) % 256 == 0
  {
    if b < 128 then b else b - 256
  }

  /** First word index of the pair that complex slot k is built from. */
  function PairBase(k: nat): nat
  {
    k - k % 2
  }

  /**
   * The complex sample the conversion loop writes to slot k: an even slot
   * takes the low bytes of the pair, an odd slot the high bytes.
   */
  function UnpackSlot(words: seq<Int16>, k: nat): (s: IQ)
    requires PairBase(k) + 1 < |words|
    ensures -128 <= s.i < 128 && -128 <= s.q < 128
  {
    var w0, w1 := words[PairBase(k)], words[PairBase(k) + 1];
    if k % 2 == 0 then IQ(SignExtend8(LowByte(w0)), SignExtend8(LowByte(w1)))
    else IQ(SignExtend8(HighByte(w0)), SignExtend8(HighByte(w1)))
  }

  /** Number of slots the loop writes for a request of n: it steps by two. */
  function SlotsWritten(n: nat): (m: nat)
    ensures m % 2 == 0 && n <= m <= n + 1
  {
    n + n % 2
  }

  /** Reassembles a word from the component taken from its high byte and the one from its low byte. */
  function Join(high: int, low: int): int
  {
    256 * high + low % 256
  }

  /** A word is its sign-extended high byte times 256 plus its low byte. */
  lemma ByteSplit(w: Int16)
    ensures Join(SignExtend8(HighByte(w)), SignExtend8(LowByte(w))) == w as int
  {
    var q := (w as int) / 256;
    assert -128 <= q < 128;
    assert SignExtend8(HighByte(w)) == q;
    assert SignExtend8(LowByte(w)) % 256 == LowByte(w);
  }

  /**
   * The conversion loses nothing: the two slots built from a pair of words
   * give both words back, the in-phase parts the first word and the
   * quadrature parts the second.
   */
  lemma UnpackPairRoundTrip(words: seq<Int16>, j: nat)
    requires 2 * j + 1 < |words|
    ensures Join(UnpackSlot(words, 2 * j + 1).i, UnpackSlot(words, 2 * j).i) == words[2 * j] as int
    ensures Join(UnpackSlot(words, 2 * j + 1).q, UnpackSlot(words, 2 * j).q) == words[2 * j + 1] as int
  {
    assert PairBase(2 * j) == 2 * j && PairBase(2 * j + 1) == 2 * j;
    ByteSplit(words[2 * j]);
    ByteSplit(words[2 * j + 1]);
  }

  /**
   * The words 0x0180 and 0xFFFF give the samples (-128, -1) from their low
   * bytes and (1, -1) from their high bytes.
   */
  lemma UnpackExample()
    ensures UnpackSlot([0x0180, -1], 0) == IQ(-128, -1)
    ensures UnpackSlot([0x0180, -1], 1) == IQ(1, -1)
  {
  }

  /**
   * The loop of `work()` that fills the conversion buffer: for i = 0, 2, 4, ...
   * below n it writes slots i and i + 1 from words i and i + 1. With an odd n
   * the last round also writes slot n and reads word n, so both buffers must
   * reach that far.
   */
  method Unpack(raw: array<Int16>, conv: array<IQ>, n: nat)
    requires SlotsWritten(n) <= raw.Length && SlotsWritten(n) <= conv.Length
    modifies conv
    ensures forall k :: 0 <= k < SlotsWritten(n) ==> conv[k] == UnpackSlot(raw[..], k)
    ensures forall k :: SlotsWritten(n) <= k < conv.Length ==> conv[k] == old(conv[k])
  {
    ghost var words := raw[..];
    var i := 0;
    while i < n
      invariant i % 2 == 0 && i <= SlotsWritten(n)
      invariant forall k :: 0 <= k < i ==> conv[k] == UnpackSlot(words, k)
      invariant forall k :: i <= k < conv.Length ==> conv[k] == old(conv[k])
    {
      assert PairBase(i) == i && PairBase(i + 1) == i;
      conv[i] := IQ(SignExtend8(LowByte(raw[i])), SignExtend8(LowByte(raw[i + 1])));
      conv[i + 1] := IQ(SignExtend8(HighByte(raw[i])), SignExtend8(HighByte(raw[i + 1])));
      assert conv[i] == UnpackSlot(words, i) && conv[i + 1] == UnpackSlot(words, i + 1);
      i := i + 2;
    }
  }
}
