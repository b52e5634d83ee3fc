/** Values shared by every part of the model: bytes, messages and big-endian words. */
module Core {
  datatype Option<+T> = None | Some(value: T)

  type Byte = b: int | 0 <= b < 256
  type Bytes = seq<Byte>
  type EndpointId = nat

  /** A message as the protocols see it; the transports join header and body. */
  datatype Message = Message(header: Bytes, body: Bytes)

  const TWO31: nat := 0x8000_0000
  const TWO32: nat := 0x1_0000_0000
  const TWO64: nat := 0x1_0000_0000_0000_0000

  function Pow256(n: nat): (r: nat)
    ensures r > 0
  {
    if n == 0 then 1 else 256 * Pow256(n - 1)
  }

  /** The low `n` bytes of `v`, most significant first. */
  function BigEndian(v: nat, n: nat): (s: Bytes)
    ensures |s| == n
  {
    if n == 0 then [] else BigEndian(v / 256, n - 1) + [v % 256]
  }

  function ReadBigEndian(s: Bytes): (v: nat) {
    if s == [] then 0 else 256 * ReadBigEndian(s[..|s| - 1]) + s[|s| - 1]
  }

  function BE32(v: nat): (s: Bytes)
    ensures |s| == 4
  {
    BigEndian(v, 4)
  }

  function BE64(v: nat): (s: Bytes)
    ensures |s| == 8
  {
    BigEndian(v, 8)
  }

  lemma MulGap(d: int, m: int)
    requires m > 0
    ensures d >= 1 ==> d * m >= m
    ensures d <= -1 ==> d * m <= -m
  {
  }

  lemma ModIsUnique(v: int, m: int, q: int, r: int)
    requires 0 <= r < m && v == q * m + r
    ensures v % m == r && v / m == q
  {
    var d := v / m - q;
    assert v == (v / m) * m + v % m;
    assert d * m == (v / m) * m - q * m;
    MulGap(d, m);
  }

  lemma SplitLowByte(v: nat, p: nat)
    requires p > 0
    ensures v % (256 * p) == 256 * ((v / 256) % p) + v % 256
  {
    var w := v / 256;
    var q, r := w / p, w % p;
    assert w == q * p + r;
    assert v == q * (256 * p) + (256 * r + v % 256);
    ModIsUnique(v, 256 * p, q, 256 * r + v % 256);
  }

  /** Reading back what was written loses exactly the bytes that did not fit. */
  lemma {:induction false} ReadOfWrite(v: nat, n: nat)
    ensures ReadBigEndian(BigEndian(v, n)) == v % Pow256(n)
  {
    if n > 0 {
      ReadOfWrite(v / 256, n - 1);
      assert BigEndian(v, n)[..n - 1] == BigEndian(v / 256, n - 1);
      SplitLowByte(v, Pow256(n - 1));
    }
  }

  lemma {:induction false} WriteOfRead(s: Bytes)
    ensures ReadBigEndian(s) < Pow256(|s|)
    ensures BigEndian(ReadBigEndian(s), |s|) == s
  {
    if s != [] {
      var init := s[..|s| - 1];
      WriteOfRead(init);
      var v := ReadBigEndian(s);
      assert v / 256 == ReadBigEndian(init) && v % 256 == s[|s| - 1];
      assert s == init + [s[|s| - 1]];
    }
  }

  lemma Pow256Values()
    ensures Pow256(4) == TWO32 && Pow256(8) == TWO64
  {
    assert Pow256(2) == 0x1_0000;
    assert Pow256(4) == 256 * (256 * Pow256(2));
    assert Pow256(6) == 256 * (256 * Pow256(4));
    assert Pow256(8) == 256 * (256 * Pow256(6));
  }

  lemma Word32(v: nat)
    ensures ReadBigEndian(BE32(v)) == v % TWO32
    ensures v < TWO32 ==> ReadBigEndian(BE32(v)) == v
  {
    ReadOfWrite(v, 4);
    Pow256Values();
  }

  lemma Word64(v: nat)
    requires v < TWO64
    ensures ReadBigEndian(BE64(v)) == v
  {
    ReadOfWrite(v, 8);
    Pow256Values();
  }

  /** The test `byte & 0x80 != 0` on the first byte of a word. */
  predicate TopBit(w: Bytes) {
    w != [] && w[0] >= 0x80
  }

  lemma TopBitOfWord(v: nat)
    ensures TopBit(BE32(v)) <==> v % TWO32 >= TWO31
  {
    var w := BE32(v);
    Word32(v);
    assert w[..3] == BigEndian(v / 256, 3);
    assert w[..3][..2] == w[..2] && w[..2][..1] == w[..1] && w[..1][..0] == [];
    var a, b, c, d := w[0] as int, w[1] as int, w[2] as int, w[3] as int;
    assert ReadBigEndian(w[..1]) == a;
    assert ReadBigEndian(w[..2]) == 256 * a + b;
    assert ReadBigEndian(w[..3]) == 256 * (256 * a + b) + c;
    assert ReadBigEndian(w) == 256 * (256 * (256 * a + b) + c) + d;
  }
}
