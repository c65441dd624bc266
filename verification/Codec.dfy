/**
 The control codec (internal/kuaifan/codec.go): PKCS#7 padding (section 6.3 of
 RFC 5652), cipher block chaining, and the local PBKDF2 (section 5.2 of
 RFC 8018). Block cipher, keyed hash and Base64 are unknown functions.
 */
module Codec {
  import opened Foundations
  import opened Streams

  type Octets = seq<Byte>

  const BLOCK: nat := 16
  const MAX_PLAINTEXT: nat := 1024 * 1024
  const MAC_SIZE: nat := 20

  datatype CodecError = TooLarge | MalformedCiphertext | InvalidPadding

  // ---------- bitwise operations ----------

  // By binary digits, least significant last.
  function XorBits(a: nat, b: nat, bits: nat): nat {
    if bits == 0 then 0 else 2 * XorBits(a / 2, b / 2, bits - 1) + if a % 2 == b % 2 then 0 else 1
  }

  function OrBits(a: nat, b: nat, bits: nat): nat {
    if bits == 0 then 0 else 2 * OrBits(a / 2, b / 2, bits - 1) + if a % 2 == 0 && b % 2 == 0 then 0 else 1
  }

  function Power(bits: nat): nat {
    if bits == 0 then 1 else 2 * Power(bits - 1)
  }

  lemma {:induction false} BitsBound(a: nat, b: nat, bits: nat)
    ensures XorBits(a, b, bits) < Power(bits) && OrBits(a, b, bits) < Power(bits)
  {
    if bits > 0 {
      BitsBound(a / 2, b / 2, bits - 1);
    }
  }

  lemma {:induction false} XorBitsZero(a: nat, b: nat, bits: nat)
    requires a < Power(bits) && b < Power(bits)
    ensures XorBits(a, b, bits) == 0 <==> a == b
  {
    if bits > 0 {
      XorBitsZero(a / 2, b / 2, bits - 1);
    }
  }

  lemma {:induction false} OrBitsZero(a: nat, b: nat, bits: nat)
    requires a < Power(bits) && b < Power(bits)
    ensures OrBits(a, b, bits) == 0 <==> a == 0 && b == 0
  {
    if bits > 0 {
      OrBitsZero(a / 2, b / 2, bits - 1);
    }
  }

  lemma {:induction false} XorBitsBack(a: nat, b: nat, bits: nat)
    requires a < Power(bits) && b < Power(bits)
    ensures XorBits(XorBits(a, b, bits), b, bits) == a
  {
    if bits > 0 {
      XorBitsBack(a / 2, b / 2, bits - 1);
      var upper, digit := XorBits(a / 2, b / 2, bits - 1), if a % 2 == b % 2 then 0 else 1;
      Halved(upper, digit);
      assert XorBits(XorBits(a, b, bits), b, bits) ==
             2 * XorBits(upper, b / 2, bits - 1) + if digit == b % 2 then 0 else 1;
    }
  }

  lemma Halved(upper: nat, digit: nat)
    requires digit < 2
    ensures (2 * upper + digit) / 2 == upper && (2 * upper + digit) % 2 == digit
  {
  }

  // Digit k, counted from the least significant.
  function Bit(a: nat, k: nat): nat {
    if k == 0 then a % 2 else Bit(a / 2, k - 1)
  }

  // Each digit of the result is decided by the digits in its place.
  lemma {:induction false} BitsExactly(a: nat, b: nat, bits: nat, k: nat)
    requires k < bits
    ensures Bit(XorBits(a, b, bits), k) == (if Bit(a, k) == Bit(b, k) then 0 else 1)
    ensures Bit(OrBits(a, b, bits), k) == (if Bit(a, k) == 0 && Bit(b, k) == 0 then 0 else 1)
  {
    Halved(XorBits(a / 2, b / 2, bits - 1), if a % 2 == b % 2 then 0 else 1);
    Halved(OrBits(a / 2, b / 2, bits - 1), if a % 2 == 0 && b % 2 == 0 then 0 else 1);
    if k > 0 {
      BitsExactly(a / 2, b / 2, bits - 1, k - 1);
    }
  }

  lemma ByteBound()
    ensures Power(8) == 256
  {
    assert Power(4) == 16;
  }

  function XorByte(a: Byte, b: Byte): Byte {
    BitsBound(a, b, 8);
    ByteBound();
    XorBits(a, b, 8)
  }

  function OrByte(a: Byte, b: Byte): Byte {
    BitsBound(a, b, 8);
    ByteBound();
    OrBits(a, b, 8)
  }

  // ---------- padding ----------

  function Repeat(b: Byte, n: nat): Octets {
    seq(n, i => b)
  }

  function PadLength(length: nat, size: nat): (n: nat)
    requires 0 < size < 256
    ensures 1 <= n <= size && (length + n) % size == 0
  {
    assert (length + (size - length % size)) % size == 0 by {
      var q, r := length / size, length % size;
      assert length + (size - r) == (q + 1) * size;
      MultipleHasNoRest(q + 1, size);
    }
    size - length % size
  }

  lemma MultipleHasNoRest(k: nat, size: nat)
    requires size > 0
    ensures (k * size) % size == 0 && (k * size) / size == k
  {
    QuotientUnique(k * size, size, k, 0);
  }

  function Pad(data: Octets, size: nat): Octets
    requires 0 < size < 256
  {
    data + Repeat(PadLength(|data|, size), PadLength(|data|, size))
  }

  predicate Padded(data: Octets, size: nat)
    requires 0 < size < 256
  {
    && data != [] && |data| % size == 0
    && var n := data[|data| - 1] as nat;
    1 <= n <= size && n <= |data| && data[|data| - n..] == Repeat(data[|data| - 1], n)
  }

  function Unpad(data: Octets, size: nat): Result<Octets, CodecError>
    requires 0 < size < 256
  {
    if Padded(data, size) then Ok(data[..|data| - data[|data| - 1]]) else Err(InvalidPadding)
  }

  // Unpadding undoes padding, for every text and block size.
  lemma UnpadPad(data: Octets, size: nat)
    requires 0 < size < 256
    ensures Unpad(Pad(data, size), size) == Ok(data)
  {
    var n := PadLength(|data|, size);
    var padded := Pad(data, size);
    assert padded[|padded| - 1] == n;
    assert padded[|padded| - n..] == Repeat(n, n);
    assert padded[..|padded| - n] == data;
  }

  // And padding undoes unpadding: what is accepted is the padding of its text.
  lemma PadUnpad(data: Octets, size: nat)
    requires 0 < size < 256 && Unpad(data, size).Ok?
    ensures Pad(Unpad(data, size).value, size) == data
  {
    var n: nat := data[|data| - 1];
    var text := data[..|data| - n];
    PadLengthBack(|data|, n, size);
    assert data == text + data[|data| - n..];
  }

  lemma PadLengthBack(length: nat, n: nat, size: nat)
    requires 0 < size < 256 && length % size == 0 && 1 <= n <= size && n <= length
    ensures PadLength(length - n, size) == n
  {
    var k := length / size;
    assert length == k * size;
    if n == size {
      assert length - n == (k - 1) * size;
      QuotientUnique(length - n, size, k - 1, 0);
    } else {
      assert length - n == (k - 1) * size + (size - n);
      QuotientUnique(length - n, size, k - 1, size - n);
    }
  }

  method PadBlock(data: Octets, size: nat) returns (padded: Octets)
    requires 0 < size < 256
    ensures padded == Pad(data, size)
  {
    var padding := size - |data| % size;
    var out := new Byte[|data| + padding](_ => 0);
    forall i | 0 <= i < |data| {
      out[i] := data[i];
    }
    for i := |data| to out.Length
      invariant out[..|data|] == data
      invariant forall j | |data| <= j < i :: out[j] == padding
    {
      out[i] := padding;
    }
    assert padding == PadLength(|data|, size);
    assert out[..] == out[..|data|] + out[|data|..];
    return out[..];
  }

  // The padding bytes are compared without stopping early.
  method UnpadBlock(data: Octets, size: nat) returns (r: Result<Octets, CodecError>)
    requires 0 < size < 256
    ensures r == Unpad(data, size)
  {
    if |data| == 0 || |data| % size != 0 {
      return Err(InvalidPadding);
    }
    var last := data[|data| - 1];
    var padding: nat := last;
    if padding == 0 || padding > size || padding > |data| {
      return Err(InvalidPadding);
    }
    var invalid: Byte := 0;
    ByteBound();
    var tail := data[|data| - padding..];
    for i := 0 to padding
      invariant invalid == 0 <==> forall j | 0 <= j < i :: tail[j] == last
    {
      XorBitsZero(tail[i], last, 8);
      OrBitsZero(invalid, XorByte(tail[i], last), 8);
      invalid := OrByte(invalid, XorByte(tail[i], last));
    }
    if invalid != 0 {
      return Err(InvalidPadding);
    }
    assert tail == Repeat(last, padding);
    return Ok(data[..|data| - padding]);
  }

  // ---------- cipher block chaining ----------

  function Xor(a: Octets, b: Octets): Octets
    requires |a| == |b|
  {
    seq(|a|, i requires 0 <= i < |a| => XorByte(a[i], b[i]))
  }

  lemma XorTwice(a: Octets, b: Octets)
    requires |a| == |b|
    ensures Xor(Xor(a, b), b) == a
  {
    ByteBound();
    forall i | 0 <= i < |a|
      ensures XorByte(XorByte(a[i], b[i]), b[i]) == a[i]
    {
      XorBitsBack(a[i], b[i], 8);
    }
  }

  datatype Primitives = Primitives(enc: Octets -> Octets, dec: Octets -> Octets, encode: Octets -> Octets,
                                   decode: Octets -> Option<Octets>,
                                   mac: (Octets, Octets) -> Octets)

  function EncodedLen(n: nat): nat {
    (n + 2) / 3 * 4
  }

  ghost predicate LawfulBlocks(c: Primitives) {
    forall b: Octets | |b| == BLOCK ::
      |c.enc(b)| == BLOCK && |c.dec(b)| == BLOCK && c.dec(c.enc(b)) == b && c.enc(c.dec(b)) == b
  }

  ghost predicate LawfulText(c: Primitives) {
    forall b: Octets :: |c.encode(b)| == EncodedLen(|b|) && c.decode(c.encode(b)) == Some(b)
  }

  ghost predicate LawfulMac(c: Primitives) {
    forall k: Octets, m: Octets :: |c.mac(k, m)| == MAC_SIZE
  }

  predicate Blocked(data: Octets) {
    |data| % BLOCK == 0
  }

  lemma Unchained(data: Octets)
    requires Blocked(data) && data != []
    ensures |data| >= BLOCK && Blocked(data[BLOCK..]) && data == data[..BLOCK] + data[BLOCK..]
  {
  }

  ghost function CbcEncrypt(c: Primitives, iv: Octets, data: Octets): Octets
    requires LawfulBlocks(c) && |iv| == BLOCK && Blocked(data)
    decreases |data|
  {
    if data == [] then []
    else
      Unchained(data);
      var block := c.enc(Xor(data[..BLOCK], iv));
      block + CbcEncrypt(c, block, data[BLOCK..])
  }

  ghost function CbcDecrypt(c: Primitives, iv: Octets, data: Octets): Octets
    requires LawfulBlocks(c) && |iv| == BLOCK && Blocked(data)
    decreases |data|
  {
    if data == [] then []
    else
      Unchained(data);
      Xor(c.dec(data[..BLOCK]), iv) + CbcDecrypt(c, data[..BLOCK], data[BLOCK..])
  }

  lemma {:induction false} DecryptEncrypt(c: Primitives, iv: Octets, data: Octets)
    requires LawfulBlocks(c) && |iv| == BLOCK && Blocked(data)
    ensures |CbcEncrypt(c, iv, data)| == |data|
    ensures CbcDecrypt(c, iv, CbcEncrypt(c, iv, data)) == data
    decreases |data|
  {
    if data != [] {
      Unchained(data);
      var block := c.enc(Xor(data[..BLOCK], iv));
      DecryptEncrypt(c, block, data[BLOCK..]);
      var out := CbcEncrypt(c, iv, data);
      assert out[..BLOCK] == block && out[BLOCK..] == CbcEncrypt(c, block, data[BLOCK..]);
      XorTwice(data[..BLOCK], iv);
    }
  }

  lemma {:induction false} EncryptDecrypt(c: Primitives, iv: Octets, data: Octets)
    requires LawfulBlocks(c) && |iv| == BLOCK && Blocked(data)
    ensures |CbcDecrypt(c, iv, data)| == |data|
    ensures CbcEncrypt(c, iv, CbcDecrypt(c, iv, data)) == data
    decreases |data|
  {
    if data != [] {
      Unchained(data);
      var block := data[..BLOCK];
      EncryptDecrypt(c, block, data[BLOCK..]);
      var out := CbcDecrypt(c, iv, data);
      assert out[..BLOCK] == Xor(c.dec(block), iv) && out[BLOCK..] == CbcDecrypt(c, block, data[BLOCK..]);
      XorTwice(c.dec(block), iv);
      assert data == block + data[BLOCK..];
    }
  }

  // ---------- the codec ----------

  ghost function Encode(c: Primitives, iv: Octets, plain: Octets): Result<Octets, CodecError>
    requires LawfulBlocks(c) && |iv| == BLOCK
  {
    if |plain| > MAX_PLAINTEXT then Err(TooLarge) else Ok(c.encode(CbcEncrypt(c, iv, Pad(plain, BLOCK))))
  }

  ghost function Decode(c: Primitives, iv: Octets, body: Octets): Result<Octets, CodecError>
    requires LawfulBlocks(c) && |iv| == BLOCK
  {
    if |body| == 0 || |body| > EncodedLen(MAX_PLAINTEXT + BLOCK) then Err(TooLarge)
    else
      var ciphertext := c.decode(body);
      if ciphertext.None? || ciphertext.value == [] || |ciphertext.value| % BLOCK != 0 then Err(MalformedCiphertext)
      else
        var plain := Unpad(CbcDecrypt(c, iv, ciphertext.value), BLOCK);
        if plain.Ok? && |plain.value| > MAX_PLAINTEXT then Err(TooLarge) else plain
  }

  lemma PaddedFits(length: nat, padded: nat)
    requires length <= MAX_PLAINTEXT && length < padded <= length + BLOCK
    ensures 0 < EncodedLen(padded) <= EncodedLen(MAX_PLAINTEXT + BLOCK)
  {
  }

  // Every text within the limit comes back, so none of the size checks on the
  // way refuses it; and no longer text is ever encoded or decoded.
  lemma DecodeEncode(c: Primitives, iv: Octets, plain: Octets)
    requires LawfulBlocks(c) && LawfulText(c) && |iv| == BLOCK
    ensures if |plain| <= MAX_PLAINTEXT
            then Encode(c, iv, plain).Ok? && Decode(c, iv, Encode(c, iv, plain).value) == Ok(plain)
            else Encode(c, iv, plain) == Err(TooLarge)
  {
    if |plain| <= MAX_PLAINTEXT {
      var padded := Pad(plain, BLOCK);
      PaddedFits(|plain|, |padded|);
      UnpadPad(plain, BLOCK);
      DecodesBack(c, iv, padded);
    }
  }

  lemma DecodesBack(c: Primitives, iv: Octets, padded: Octets)
    requires LawfulBlocks(c) && LawfulText(c) && |iv| == BLOCK && Blocked(padded) && padded != []
    requires 0 < EncodedLen(|padded|) <= EncodedLen(MAX_PLAINTEXT + BLOCK)
    ensures var plain := Unpad(padded, BLOCK);
            Decode(c, iv, c.encode(CbcEncrypt(c, iv, padded))) == if plain.Ok? && |plain.value| > MAX_PLAINTEXT
                then Err(TooLarge) else plain
  {
    DecryptEncrypt(c, iv, padded);
  }

  // What decodes is the encryption of its text, so two bodies with the same text
  // have the same ciphertext. The body itself comes back exactly when it is the
  // text that the encoder writes for its ciphertext.
  lemma EncodeDecode(c: Primitives, iv: Octets, body: Octets)
    requires LawfulBlocks(c) && LawfulText(c) && |iv| == BLOCK && Decode(c, iv, body).Ok?
    ensures Encode(c, iv, Decode(c, iv, body).value).Ok?
    ensures c.decode(Encode(c, iv, Decode(c, iv, body).value).value) == c.decode(body)
    ensures Encode(c, iv, Decode(c, iv, body).value) == Ok(body) <==> c.encode(c.decode(body).value) == body
  {
    var ciphertext := c.decode(body).value;
    EncryptDecrypt(c, iv, ciphertext);
    PadUnpad(CbcDecrypt(c, iv, ciphertext), BLOCK);
  }

  // Base64 text of a mebibyte and a block of padding takes so many characters.
  predicate Sized(body: Octets) {
    0 < |body| <= 1_398_124
  }

  lemma SizedExactly(body: Octets)
    ensures Sized(body) <==> 0 < |body| <= EncodedLen(MAX_PLAINTEXT + BLOCK)
  {
    assert EncodedLen(MAX_PLAINTEXT + BLOCK) == 1_398_124;
  }

  // The ciphertext is that of the text.
  ghost predicate Ciphers(c: Primitives, iv: Octets, text: Octets, ciphertext: Octets)
    requires LawfulBlocks(c) && |iv| == BLOCK
  {
    ciphertext == CbcEncrypt(c, iv, Pad(text, BLOCK))
  }

  lemma CipheredBack(c: Primitives, iv: Octets, text: Octets)
    requires LawfulBlocks(c) && |iv| == BLOCK
    ensures var ciphertext := CbcEncrypt(c, iv, Pad(text, BLOCK));
            ciphertext != [] && Blocked(ciphertext) && Unpad(CbcDecrypt(c, iv, ciphertext), BLOCK) == Ok(text)
  {
    var padded := Pad(text, BLOCK);
    UnpadPad(text, BLOCK);
    assert padded != [] && Blocked(padded);
    DecryptEncrypt(c, iv, padded);
  }

  lemma DecipheredBack(c: Primitives, iv: Octets, ciphertext: Octets)
    requires LawfulBlocks(c) && |iv| == BLOCK && Blocked(ciphertext)
    requires Unpad(CbcDecrypt(c, iv, ciphertext), BLOCK).Ok?
    ensures Ciphers(c, iv, Unpad(CbcDecrypt(c, iv, ciphertext), BLOCK).value, ciphertext)
  {
    var padded := CbcDecrypt(c, iv, ciphertext);
    EncryptDecrypt(c, iv, ciphertext);
    PadUnpad(padded, BLOCK);
  }

  // What a body decodes to: a body of a possible size that is the ciphertext of a
  // text within the limit decodes to that text, and no other body decodes.
  lemma DecodesExactly(c: Primitives, iv: Octets, body: Octets, text: Octets)
    requires LawfulBlocks(c) && LawfulText(c) && |iv| == BLOCK
    ensures Decode(c, iv, body) == Ok(text) <==>
              && Sized(body) && |text| <= MAX_PLAINTEXT
              && c.decode(body).Some? && Ciphers(c, iv, text, c.decode(body).value)
  {
    SizedExactly(body);
    if c.decode(body).Some? && Ciphers(c, iv, text, c.decode(body).value) {
      CipheredBack(c, iv, text);
    }
    if Decode(c, iv, body).Ok? {
      DecipheredBack(c, iv, c.decode(body).value);
    }
  }

  // Each refusal: no ciphertext, or one of no text; what is left is too large.
  lemma RefusesExactly(c: Primitives, iv: Octets, body: Octets)
    requires LawfulBlocks(c) && LawfulText(c) && |iv| == BLOCK
    ensures Decode(c, iv, body) == Err(MalformedCiphertext) <==>
              Sized(body) && (c.decode(body).None? || c.decode(body).value == [] || !Blocked(c.decode(body).value))
    ensures Decode(c, iv, body) == Err(InvalidPadding) <==>
              && Sized(body) && c.decode(body).Some? && c.decode(body).value != [] && Blocked(c.decode(body).value)
              && forall text :: !Ciphers(c, iv, text, c.decode(body).value)
  {
    SizedExactly(body);
    if Sized(body) && c.decode(body).Some? && c.decode(body).value != [] && Blocked(c.decode(body).value) {
      var ciphertext := c.decode(body).value;
      if text :| Ciphers(c, iv, text, ciphertext) {
        CipheredBack(c, iv, text);
      }
      if Unpad(CbcDecrypt(c, iv, ciphertext), BLOCK).Ok? {
        DecipheredBack(c, iv, ciphertext);
      }
    }
  }

  // ---------- key derivation ----------

  const COUNTERS: nat := 0x1_0000_0000

  // Four bytes, most significant first.
  function Word(w: nat): Octets
    requires w < COUNTERS
  {
    [w / 0x100_0000, w / 0x1_0000 % 0x100, w / 0x100 % 0x100, w % 0x100]
  }

  // INT of the standard.
  lemma WordExactly(w: nat)
    requires w < COUNTERS
    ensures var b := Word(w);
            |b| == 4 && (b[0] as nat) * 0x100_0000 + (b[1] as nat) * 0x1_0000 + (b[2] as nat) * 0x100 + b[3] as nat == w
  {
  }

  // There are no other four bytes like that.
  lemma WordUnique(b: Octets)
    requires |b| == 4
    ensures var w := (b[0] as nat) * 0x100_0000 + (b[1] as nat) * 0x1_0000 + (b[2] as nat) * 0x100 + b[3] as nat;
            w < COUNTERS && Word(w) == b
  {
    var w := (b[0] as nat) * 0x100_0000 + (b[1] as nat) * 0x1_0000 + (b[2] as nat) * 0x100 + b[3] as nat;
    assert w / 0x100 == (b[0] as nat) * 0x1_0000 + (b[1] as nat) * 0x100 + b[2] as nat;
    assert w / 0x1_0000 == (b[0] as nat) * 0x100 + b[1] as nat;
  }

  // The chain of a block starts from the salt and the number of the block, most
  // significant byte first.
  lemma FirstLink(c: Primitives, password: Octets, salt: Octets, i: nat, b: Octets)
    requires LawfulMac(c) && |b| == 4
    requires (b[0] as nat) * 0x100_0000 + (b[1] as nat) * 0x1_0000 + (b[2] as nat) * 0x100 + b[3] as nat == i
    ensures Link(c, password, salt, i, 1) == c.mac(password, salt + b)
  {
    WordUnique(b);
  }

  lemma FirstBlock(c: Primitives, password: Octets, salt: Octets, length: nat)
    requires LawfulMac(c) && 0 < length <= 20
    ensures Pbkdf2(c, password, salt, 1, length) == c.mac(password, salt + [0, 0, 0, 1])[..length]
  {
    FirstLink(c, password, salt, 1, [0, 0, 0, 1]);
    assert Blocks(c, password, salt, 1, 1) == Blocks(c, password, salt, 1, 0) + Folded(c, password, salt, 1, 1);
  }

  // U of the standard: the j-th link of the chain for block i, both from one. The
  // program's block counter is a 32-bit word; the standard ends before it wraps.
  ghost function Link(c: Primitives, password: Octets, salt: Octets, i: nat, j: nat): (u: Octets)
    requires LawfulMac(c) && j > 0
    ensures |u| == MAC_SIZE
  {
    if j == 1 then c.mac(password, salt + Word(i % COUNTERS)) else c.mac(password, Link(c, password, salt, i, j - 1))
  }

  // F of the standard: the exclusive or of the first links.
  ghost function Folded(c: Primitives, password: Octets, salt: Octets, rounds: nat, i: nat): (t: Octets)
    requires LawfulMac(c) && rounds > 0
    ensures |t| == MAC_SIZE
  {
    if rounds == 1 then Link(c, password, salt, i, 1)
    else Xor(Folded(c, password, salt, rounds - 1, i), Link(c, password, salt, i, rounds))
  }

  ghost function Blocks(c: Primitives, password: Octets, salt: Octets, rounds: nat, n: nat): (out: Octets)
    requires LawfulMac(c) && rounds > 0
    ensures |out| == n * MAC_SIZE
  {
    if n == 0 then [] else Blocks(c, password, salt, rounds, n - 1) + Folded(c, password, salt, rounds, n)
  }

  // The leading bytes of as many blocks as are needed.
  ghost function Pbkdf2(c: Primitives, password: Octets, salt: Octets, rounds: nat, length: nat): (key: Octets)
    requires LawfulMac(c) && rounds > 0
    ensures |key| == length
  {
    var n := (length + MAC_SIZE - 1) / MAC_SIZE;
    Blocks(c, password, salt, rounds, n)[..length]
  }

  // More blocks do not change the bytes of earlier ones.
  lemma {:induction false} BlocksExtend(c: Primitives, password: Octets, salt: Octets, rounds: nat, n: nat, m: nat)
    requires LawfulMac(c) && rounds > 0 && n <= m
    ensures Blocks(c, password, salt, rounds, n) <= Blocks(c, password, salt, rounds, m)
    decreases m - n
  {
    if n < m {
      BlocksExtend(c, password, salt, rounds, n, m - 1);
    }
  }

  // A shorter key is the beginning of a longer one.
  lemma KeysExtend(c: Primitives, password: Octets, salt: Octets, rounds: nat, short: nat, long: nat)
    requires LawfulMac(c) && rounds > 0 && short <= long
    ensures Pbkdf2(c, password, salt, rounds, short) == Pbkdf2(c, password, salt, rounds, long)[..short]
  {
    BlocksExtend(c, password, salt, rounds, (short + MAC_SIZE - 1) / MAC_SIZE, (long + MAC_SIZE - 1) / MAC_SIZE);
  }

  lemma NextCounter(blocks: nat)
    ensures ((blocks + 1) % COUNTERS + 1) % COUNTERS == (blocks + 2) % COUNTERS
  {
  }

  lemma EnoughBlocks(blocks: nat, length: nat)
    requires blocks * MAC_SIZE >= length && (blocks == 0 || (blocks - 1) * MAC_SIZE < length)
    ensures blocks == (length + MAC_SIZE - 1) / MAC_SIZE
  {
  }

  method DeriveKey(c: Primitives, password: Octets, salt: Octets, rounds: int, length: int) returns (key: Octets)
    requires LawfulMac(c)
    ensures key == if rounds <= 0 || length <= 0 then [] else Pbkdf2(c, password, salt, rounds, length)
    // One round of the first block is the hash of the salt and the number one.
    ensures rounds == 1 && 0 < length <= 20 ==> key == c.mac(password, salt + [0, 0, 0, 1])[..length]
  {
    if rounds <= 0 || length <= 0 {
      return [];
    }
    var result: Octets := [];
    var counter: nat := 1;
    ghost var blocks: nat := 0;
    while |result| < length
      invariant result == Blocks(c, password, salt, rounds, blocks) && counter == (blocks + 1) % COUNTERS
      invariant blocks == 0 || (blocks - 1) * MAC_SIZE < length
      decreases length - |result|
    {
      var word: Octets := [counter / 0x100_0000, counter / 0x1_0000 % 0x100, counter / 0x100 % 0x100, counter % 0x100];
      var t := FoldBlock(c, password, salt, rounds, word, blocks + 1);
      result := result + t;
      NextCounter(blocks);
      blocks := blocks + 1;
      counter := (counter + 1) % COUNTERS;
    }
    EnoughBlocks(blocks, length);
    if rounds == 1 && length <= 20 {
      FirstBlock(c, password, salt, length);
    }
    return result[..length];
  }

  method FoldBlock(c: Primitives, password: Octets, salt: Octets, rounds: nat, word: Octets, ghost i: nat)
    returns (folded: Octets)
    requires LawfulMac(c) && rounds > 0 && word == Word(i % COUNTERS)
    ensures folded == Folded(c, password, salt, rounds, i)
  {
    var u := c.mac(password, salt + word);
    var t := new Byte[MAC_SIZE](k => 0);
    forall k | 0 <= k < MAC_SIZE {
      t[k] := u[k];
    }
    assert t[..] == u;
    for n := 1 to rounds
      invariant u == Link(c, password, salt, i, n) && t[..] == Folded(c, password, salt, n, i)
    {
      u := c.mac(password, u);
      XorInto(t, u);
    }
    return t[..];
  }

  method XorInto(t: array<Byte>, u: Octets)
    requires t.Length == |u|
    modifies t
    ensures t[..] == Xor(old(t[..]), u)
  {
    for j := 0 to t.Length
      invariant forall k | 0 <= k < j :: t[k] == XorByte(old(t[k]), u[k])
      invariant forall k | j <= k < t.Length :: t[k] == old(t[k])
    {
      t[j] := XorByte(t[j], u[j]);
    }
  }
}
