/** getDataHashWithCustomPadding of utils/index.js. SHA-256 is any function to 32
    bytes; numbers are big-endian, as bignum reads and writes them. */
module PaddedHash {
  import opened Decimals
  import Sums

  type byte = x: int | 0 <= x < 256

  type Hash = string -> seq<byte>

  ghost predicate IsSha256(sha: Hash) {
    forall s :: |sha(s)| == 32
  }

  // ---------------------------------------------------- numbers and bytes

  function Value(bytes: seq<byte>): nat {
    if bytes == [] then 0 else Value(bytes[..|bytes|-1]) * 256 + bytes[|bytes|-1]
  }

  /** toBuffer: as few bytes as the number needs, and one for zero. */
  function ToBuffer(n: nat): (bytes: seq<byte>)
    ensures |bytes| >= 1
  {
    if n < 256 then [n] else ToBuffer(n / 256) + [n % 256]
  }

  function Power(k: nat): (p: nat)
    ensures p >= 1
  {
    if k == 0 then 1 else 256 * Power(k - 1)
  }

  lemma {:induction false} ValueToBuffer(n: nat)
    ensures Value(ToBuffer(n)) == n
  {
    if n < 256 {
      assert [n][..0] == [];
    } else {
      ValueToBuffer(n / 256);
      assert ToBuffer(n)[..|ToBuffer(n)|-1] == ToBuffer(n / 256);
    }
  }

  lemma {:induction false} BufferFits(n: nat, k: nat)
    requires k >= 1 && n < Power(k)
    ensures |ToBuffer(n)| <= k
  {
    if n >= 256 {
      assert k > 1 by { assert Power(1) == 256 * Power(0); }
      BufferFits(n / 256, k - 1);
    }
  }

  lemma {:induction false} ValueBound(bytes: seq<byte>)
    ensures Value(bytes) < Power(|bytes|)
  {
    if bytes != [] {
      ValueBound(bytes[..|bytes|-1]);
    }
  }

  function Zeros(k: nat): seq<byte> {
    seq(k, _ => 0)
  }

  lemma {:induction false} LeadingZeros(k: nat, bytes: seq<byte>)
    ensures Value(Zeros(k) + bytes) == Value(bytes)
  {
    if bytes != [] {
      var rest := bytes[..|bytes|-1];
      LeadingZeros(k, rest);
      assert (Zeros(k) + bytes)[..k+|rest|] == Zeros(k) + rest;
    } else if k > 0 {
      LeadingZeros(k - 1, []);
      assert (Zeros(k) + [])[..k-1] == Zeros(k - 1) + [];
    }
  }

  /** Of a given length there is one encoding of each number. */
  lemma {:induction false} SameValue(a: seq<byte>, b: seq<byte>)
    requires |a| == |b| && Value(a) == Value(b)
    ensures a == b
  {
    if a != [] {
      SameValue(a[..|a|-1], b[..|b|-1]);
      assert a == a[..|a|-1] + [a[|a|-1]] && b == b[..|b|-1] + [b[|b|-1]];
    }
  }

  // --------------------------------------------------------------- padding

  function Chunk(sha: Hash, salt: string, saltLength: nat, i: nat): (r: seq<byte>) {
    var digest := sha(salt + Decimal(i));
    if saltLength <= |digest| then digest[..saltLength] else digest
  }

  /** n chunks, numbered from one. */
  ghost function Padding(sha: Hash, salt: string, saltLength: nat, n: nat): seq<byte> {
    if n == 0 then [] else Padding(sha, salt, saltLength, n - 1) + Chunk(sha, salt, saltLength, n)
  }

  lemma {:induction false} PaddingLength(sha: Hash, salt: string, saltLength: nat, n: nat)
    requires IsSha256(sha) && saltLength <= 32
    ensures |Padding(sha, salt, saltLength, n)| == n * saltLength
  {
    if n > 0 {
      PaddingLength(sha, salt, saltLength, n - 1);
      assert (n - 1) * saltLength + saltLength == n * saltLength;
    }
  }

  /** Byte j of chunk c is byte j of the hash of the salt and c's number. */
  lemma {:induction false} PaddingByte(sha: Hash, salt: string, saltLength: nat, n: nat, c: nat, j: nat)
    requires IsSha256(sha) && saltLength <= 32 && c < n && j < saltLength
    ensures 0 <= c * saltLength + j < |Padding(sha, salt, saltLength, n)|
    ensures Padding(sha, salt, saltLength, n)[c * saltLength + j] == sha(salt + Decimal(c + 1))[j]
  {
    PaddingLength(sha, salt, saltLength, n - 1);
    PaddingLength(sha, salt, saltLength, n);
    Sums.Monotone(c, n - 1, saltLength);
    if c < n - 1 {
      PaddingByte(sha, salt, saltLength, n - 1, c, j);
    }
  }

  /** Whole chunks that fit; the division is exact for saltLength 1 to 32. */
  function Chunks(saltLength: nat, pad: int): nat
    requires saltLength >= 1
  {
    if pad < 0 then 0 else pad / saltLength
  }

  // ------------------------------------------------ the code as it is run

  method GrowPadding(sha: Hash, salt: string, saltLength: nat, pad: int) returns (padding: seq<byte>)
    requires IsSha256(sha) && 1 <= saltLength <= 32
    ensures padding == Padding(sha, salt, saltLength, Chunks(saltLength, pad))
  {
    padding := [];
    var i := 1;
    while |padding| + saltLength <= pad
      invariant i >= 1 && padding == Padding(sha, salt, saltLength, i - 1)
      invariant |padding| == (i - 1) * saltLength
      invariant |padding| <= pad || i == 1
      decreases pad - |padding|
    {
      padding := padding + Chunk(sha, salt, saltLength, i);
      i := i + 1;
    }
    ChunksIs(saltLength, pad, i - 1);
  }

  lemma ChunksIs(saltLength: nat, pad: int, n: nat)
    requires saltLength >= 1 && n * saltLength + saltLength > pad && (n * saltLength <= pad || n == 0)
    ensures n == Chunks(saltLength, pad)
  {
    if pad >= 0 {
      var q := pad / saltLength;
      assert q * saltLength <= pad < q * saltLength + saltLength;
      if n < q {
        Sums.Monotone(n + 1, q, saltLength);
      } else if n > q {
        Sums.Monotone(q + 1, n, saltLength);
      }
    }
  }

  /** getDataHashWithCustomPadding: the encoding, in exactly the length of the modulus,
      of padding and hash taken modulo the modulus. */
  method PadDataHash(sha: Hash, saltLength: nat, initialSalt: string, keyModulus: seq<byte>, dataHash: seq<byte>,
                     blockLength: int) returns (padded: seq<byte>)
    requires IsSha256(sha) && 1 <= saltLength <= 32 && Value(keyModulus) > 0
    ensures |padded| == |keyModulus|
    ensures var chunks := Chunks(saltLength, (blockLength - 256) / 8);
            Value(padded) == Value(Padding(sha, initialSalt, saltLength, chunks) + dataHash) % Value(keyModulus)
  {
    var padLength := (blockLength - 256) / 8;
    var padding := GrowPadding(sha, initialSalt, saltLength, padLength);
    var beforeMod := padding + dataHash;
    padded := ToBuffer(Value(beforeMod) % Value(keyModulus));
    ValueToBuffer(Value(beforeMod) % Value(keyModulus));
    ValueBound(keyModulus);
    BufferFits(Value(beforeMod) % Value(keyModulus), |keyModulus|);
    if |padded| < |keyModulus| {
      LeadingZeros(|keyModulus| - |padded|, padded);
      padded := Zeros(|keyModulus| - |padded|) + padded;
    }
  }

  /** When padding and hash fill the modulus, they come out unchanged, hash last,
      exactly when their number is below the modulus. */
  lemma UnchangedIff(padding: seq<byte>, dataHash: seq<byte>, keyModulus: seq<byte>, padded: seq<byte>)
    requires Value(keyModulus) > 0 && |padding| + |dataHash| == |keyModulus| == |padded|
    requires Value(padded) == Value(padding + dataHash) % Value(keyModulus)
    ensures padded == padding + dataHash <==> Value(padding + dataHash) < Value(keyModulus)
  {
    var v, m := Value(padding + dataHash), Value(keyModulus);
    if v < m {
      ModSmall(v, m);
      SameValue(padded, padding + dataHash);
    } else {
      assert v % m < m;
    }
  }

  lemma ModSmall(v: nat, m: nat)
    requires v < m
    ensures v % m == v
  {
  }

  /** The deployed salt length, 16, fills the 256 bytes of a 2048-bit key exactly. */
  lemma DeployedLengths(sha: Hash, salt: string)
    requires IsSha256(sha)
    ensures Chunks(16, (2048 - 256) / 8) == 14
    ensures |Padding(sha, salt, 16, 14)| + 32 == 256
  {
    PaddingLength(sha, salt, 16, 14);
  }
}
