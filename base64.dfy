/** Standard base64 (RFC 4648, section 4): the encoding the avatar upload
    stores, and the decoding that undoes it. The bytes are first cut into
    six-bit values (64 standing for the padding '='), which are then
    written with the 64-character alphabet. */
module Base64 {

  newtype byte = x: int | 0 <= x < 256

  /** The value that stands for the padding character. */
  const PAD := 64

  // ================================================================ characters

  /** The 64 characters of the alphabet. */
  predicate InAlphabet(c: char)
  {
    ('A' <= c <= 'Z') || ('a' <= c <= 'z') || ('0' <= c <= '9') || c == '+' || c == '/'
  }

  /** The character of a six-bit value, or '=' for the padding. */
  function Char(n: int): (c: char)
    requires 0 <= n <= PAD
    ensures n < PAD <==> InAlphabet(c)
    ensures n == PAD <==> c == '='
    ensures Index(c) == n
  {
    if n < 26 then ('A' as int + n) as char
    else if n < 52 then ('a' as int + (n - 26)) as char
    else if n < 62 then ('0' as int + (n - 52)) as char
    else if n == 62 then '+'
    else if n == 63 then '/'
    else '='
  }

  /** The value of a character (0 for one outside the alphabet). */
  function Index(c: char): (n: int)
    ensures 0 <= n <= PAD
  {
    if 'A' <= c <= 'Z' then c as int - 'A' as int
    else if 'a' <= c <= 'z' then c as int - 'a' as int + 26
    else if '0' <= c <= '9' then c as int - '0' as int + 52
    else if c == '+' then 62
    else if c == '/' then 63
    else if c == '=' then PAD
    else 0
  }

  predicate Sextets(v: seq<int>)
  {
    forall k :: 0 <= k < |v| ==> 0 <= v[k] <= PAD
  }

  /** The characters of a sequence of values. */
  function Chars(v: seq<int>): (s: string)
    requires Sextets(v)
    ensures |s| == |v|
    ensures forall k :: 0 <= k < |v| ==> s[k] == Char(v[k])
  {
    seq(|v|, k requires 0 <= k < |v| => Char(v[k]))
  }

  /** The values of a sequence of characters. */
  function Indices(s: string): (v: seq<int>)
    ensures |v| == |s| && Sextets(v)
    ensures forall k :: 0 <= k < |s| ==> v[k] == Index(s[k])
  {
    seq(|s|, k requires 0 <= k < |s| => Index(s[k]))
  }

  /** Reading back the characters of some values gives the values. */
  lemma IndicesOfChars(v: seq<int>)
    requires Sextets(v)
    ensures Indices(Chars(v)) == v
  {
    var s := Chars(v);
    forall k | 0 <= k < |v|
      ensures Indices(s)[k] == v[k]
    {
      assert s[k] == Char(v[k]);
    }
  }

  // ================================================================ six-bit values

  /** The four six-bit values of three bytes. */
  function Quad(x: int, y: int, z: int): (v: seq<int>)
    requires 0 <= x < 256 && 0 <= y < 256 && 0 <= z < 256
    ensures |v| == 4 && forall k :: 0 <= k < 4 ==> 0 <= v[k] < PAD
  {
    [x / 4, x % 4 * 16 + y / 16, y % 16 * 4 + z / 64, z % 64]
  }

  /** Every three bytes as four six-bit values; a last group of one or two
      bytes is completed with zero bits and its missing values are padding. */
  function Split(b: seq<byte>): (v: seq<int>)
    ensures |v| == 4 * ((|b| + 2) / 3) && |v| % 4 == 0
    ensures Sextets(v)
    decreases |b|
  {
    if |b| == 0 then []
    else if |b| == 1 then Quad(b[0] as int, 0, 0)[..2] + [PAD, PAD]
    else if |b| == 2 then Quad(b[0] as int, b[1] as int, 0)[..3] + [PAD]
    else Quad(b[0] as int, b[1] as int, b[2] as int) + Split(b[3..])
  }

  /** The three bytes that four six-bit values hold. */
  function Triple(c0: int, c1: int, c2: int, c3: int): (b: seq<byte>)
    ensures |b| == 3
  {
    [((c0 * 4 + c1 / 16) % 256) as byte, ((c1 % 16 * 16 + c2 / 4) % 256) as byte, ((c2 % 4 * 64 + c3) % 256) as byte]
  }

  /** The bytes that groups of four values hold; padding in the third or
      fourth place of a group ends the data. */
  function Join(v: seq<int>): (b: seq<byte>)
    requires |v| % 4 == 0 && Sextets(v)
    decreases |v|
  {
    if |v| == 0 then []
    else
      var b := Triple(v[0], v[1], v[2], v[3]);
      if v[2] == PAD then b[..1]
      else if v[3] == PAD then b[..2]
      else b + Join(v[4..])
  }

  /** The values of three bytes hold those bytes. */
  lemma TripleOfQuad(x: int, y: int, z: int)
    requires 0 <= x < 256 && 0 <= y < 256 && 0 <= z < 256
    ensures var q := Quad(x, y, z); Triple(q[0], q[1], q[2], q[3]) == [x as byte, y as byte, z as byte]
  {
    var c0, c1, c2, c3 := x / 4, x % 4 * 16 + y / 16, y % 16 * 4 + z / 64, z % 64;
    HighBits(x, y);
    MiddleBits(x, y, z);
    LowBits(y, z);
    assert (c0 * 4 + c1 / 16) % 256 == x;
    assert (c1 % 16 * 16 + c2 / 4) % 256 == y;
    assert (c2 % 4 * 64 + c3) % 256 == z;
  }

  lemma HighBits(x: int, y: int)
    requires 0 <= x < 256 && 0 <= y < 256
    ensures x / 4 * 4 + (x % 4 * 16 + y / 16) / 16 == x
  {
    assert (x % 4 * 16 + y / 16) / 16 == x % 4;
  }

  lemma MiddleBits(x: int, y: int, z: int)
    requires 0 <= x < 256 && 0 <= y < 256 && 0 <= z < 256
    ensures (x % 4 * 16 + y / 16) % 16 * 16 + (y % 16 * 4 + z / 64) / 4 == y
  {
    assert (x % 4 * 16 + y / 16) % 16 == y / 16;
    assert (y % 16 * 4 + z / 64) / 4 == y % 16;
  }

  lemma LowBits(y: int, z: int)
    requires 0 <= y < 256 && 0 <= z < 256
    ensures (y % 16 * 4 + z / 64) % 4 * 64 + z % 64 == z
  {
    assert (y % 16 * 4 + z / 64) % 4 == z / 64;
  }

  /** Values that start with those of three bytes join to those bytes,
      ahead of what follows. */
  lemma JoinBlock(v: seq<int>, x: int, y: int, z: int)
    requires |v| >= 4 && |v| % 4 == 0 && Sextets(v)
    requires 0 <= x < 256 && 0 <= y < 256 && 0 <= z < 256
    requires v[..4] == Quad(x, y, z)
    ensures Join(v) == [x as byte, y as byte, z as byte] + Join(v[4..])
  {
    var q := Quad(x, y, z);
    assert v[0] == q[0] && v[1] == q[1] && v[2] == q[2] && v[3] == q[3];
    TripleOfQuad(x, y, z);
  }

  /** The padded values of one byte join to it. */
  lemma JoinOne(v: seq<int>, x: int)
    requires 0 <= x < 256 && v == Quad(x, 0, 0)[..2] + [PAD, PAD]
    ensures Join(v) == [x as byte]
  {
    TripleOfQuad(x, 0, 0);
    assert Join(v) == Triple(v[0], v[1], v[2], v[3])[..1];
  }

  /** The padded values of two bytes join to them. */
  lemma JoinTwo(v: seq<int>, x: int, y: int)
    requires 0 <= x < 256 && 0 <= y < 256 && v == Quad(x, y, 0)[..3] + [PAD]
    ensures Join(v) == [x as byte, y as byte]
  {
    TripleOfQuad(x, y, 0);
    assert Join(v) == Triple(v[0], v[1], v[2], v[3])[..2];
  }

  /** Joining the values of some bytes gives back the bytes. */
  lemma {:induction false} JoinSplit(b: seq<byte>)
    ensures Join(Split(b)) == b
    decreases |b|
  {
    var v := Split(b);
    if |b| == 1 {
      JoinOne(v, b[0] as int);
    } else if |b| == 2 {
      JoinTwo(v, b[0] as int, b[1] as int);
    } else if |b| >= 3 {
      assert v[..4] == Quad(b[0] as int, b[1] as int, b[2] as int) && v[4..] == Split(b[3..]);
      JoinBlock(v, b[0] as int, b[1] as int, b[2] as int);
      JoinSplit(b[3..]);
      assert b == [b[0], b[1], b[2]] + b[3..];
    }
  }

  // ================================================================ encoding

  /** `base64.b64encode`. */
  function Encode(b: seq<byte>): (s: string)
    ensures |s| == 4 * ((|b| + 2) / 3) && |s| % 4 == 0
  {
    Chars(Split(b))
  }

  /** The text of a multiple of four characters back to bytes. */
  function Decode(s: string): (b: seq<byte>)
    requires |s| % 4 == 0
  {
    Join(Indices(s))
  }

  /** Decoding gives back the bytes that were encoded. */
  lemma DecodeEncode(b: seq<byte>)
    ensures Decode(Encode(b)) == b
  {
    IndicesOfChars(Split(b));
    JoinSplit(b);
  }

  /** The number of '=' after `n` bytes: as many as the last group falls
      short of three. */
  function Pads(n: int): int
  {
    if n % 3 == 0 then 0 else 3 - n % 3
  }

  /** Six-bit values followed by exactly `pads` padding values. */
  predicate PaddedTail(v: seq<int>, pads: int)
  {
    && 0 <= pads <= |v|
    && (forall k :: 0 <= k < |v| - pads ==> v[k] < PAD)
    && (forall k :: |v| - pads <= k < |v| ==> v[k] == PAD)
  }

  lemma PrependValues(q: seq<int>, w: seq<int>, pads: int)
    requires forall k :: 0 <= k < |q| ==> q[k] < PAD
    requires PaddedTail(w, pads)
    ensures PaddedTail(q + w, pads)
  {
    var v := q + w;
    forall k | 0 <= k < |v| - pads ensures v[k] < PAD {
      if k < |q| { assert v[k] == q[k]; } else { assert v[k] == w[k - |q|]; }
    }
    forall k | |v| - pads <= k < |v| ensures v[k] == PAD { assert v[k] == w[k - |q|]; }
  }

  /** The values of some bytes are padding only at the end: none for a
      multiple of three bytes, two after one extra byte, one after two. */
  lemma {:induction false} SplitShape(b: seq<byte>)
    ensures PaddedTail(Split(b), Pads(|b|))
    decreases |b|
  {
    if |b| >= 3 {
      SplitShape(b[3..]);
      assert Pads(|b[3..]|) == Pads(|b|);
      var q := Quad(b[0] as int, b[1] as int, b[2] as int);
      PrependValues(q, Split(b[3..]), Pads(|b|));
      assert Split(b) == q + Split(b[3..]);
    } else if |b| == 2 {
      PrependValues(Quad(b[0] as int, b[1] as int, 0)[..3], [PAD], 1);
    } else if |b| == 1 {
      PrependValues(Quad(b[0] as int, 0, 0)[..2], [PAD, PAD], 2);
    }
  }

  /** The encoding is written in the alphabet, followed by as many '=' as
      the last group of bytes falls short of three. */
  lemma EncodeShape(b: seq<byte>)
    ensures var s := Encode(b); var pads := if |b| % 3 == 0 then 0 else 3 - |b| % 3;
      && pads <= |s|
      && (forall k :: 0 <= k < |s| - pads ==> InAlphabet(s[k]))
      && (forall k :: |s| - pads <= k < |s| ==> s[k] == '=')
  {
    SplitShape(b);
  }
}
