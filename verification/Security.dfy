/** The envelopes of src/shared/Security.cpp: an OFB layer that prepends its initialization vector, and an
    RSA layer that prepends the sealed symmetric key. The primitives themselves are parameters. */
module Security {
  import opened Wrappers

  type Bytes = seq<bv8>

  const BLOCK_SIZE: nat := 16

  type Block = b: Bytes | |b| == BLOCK_SIZE witness seq(BLOCK_SIZE, _ => 0)

  /** The block cipher: key and register in, one block out. Nothing is known about it. */
  type BlockCipher = (Bytes, Bytes) -> Block

  datatype Error = EmptyKey | DecryptionFailed

  // ----- QByteArray::left and QByteArray::mid, which clip instead of failing -----

  function Left(data: Bytes, n: nat): Bytes {
    if n <= |data| then data[..n] else data
  }

  function Mid(data: Bytes, n: nat): Bytes {
    if n <= |data| then data[n..] else []
  }

  // ----- Output feedback, section 6.4 of NIST SP 800-38A -----

  /** The first `n` bytes of the key stream that starts from `register`. */
  function Keystream(cipher: BlockCipher, key: Bytes, register: Bytes, n: nat): (s: Bytes)
    ensures |s| == n
    decreases n
  {
    var output := cipher(key, register);
    if n <= BLOCK_SIZE then output[..n]
    else output + Keystream(cipher, key, output, n - BLOCK_SIZE)
  }

  /** The input of block `j`: the vector, and from then on the output of the block before. */
  function Register(iv: Bytes, stream: Bytes, j: nat): Bytes
    requires BLOCK_SIZE * j <= |stream|
  {
    if j == 0 then iv else stream[BLOCK_SIZE * (j - 1)..BLOCK_SIZE * j]
  }

  /** Every whole block of the key stream is the cipher's output for the block before. */
  lemma {:induction false} KeystreamBlock(cipher: BlockCipher, key: Bytes, iv: Bytes, n: nat, j: nat)
    requires BLOCK_SIZE * (j + 1) <= n
    ensures var s := Keystream(cipher, key, iv, n);
      s[BLOCK_SIZE * j..BLOCK_SIZE * (j + 1)] == cipher(key, Register(iv, s, j))
    decreases j
  {
    var s, output := Keystream(cipher, key, iv, n), cipher(key, iv);
    if j == 0 {
      assert s[..BLOCK_SIZE] == output;
    } else {
      var rest := Keystream(cipher, key, output, n - BLOCK_SIZE);
      KeystreamBlock(cipher, key, output, n - BLOCK_SIZE, j - 1);
      RestBlocks(output, rest, j);
      assert s == output + rest;
    }
  }

  /** And what is left over at the end is the beginning of the next output. */
  lemma {:induction false} KeystreamEnd(cipher: BlockCipher, key: Bytes, iv: Bytes, n: nat, j: nat)
    requires BLOCK_SIZE * j <= n < BLOCK_SIZE * (j + 1)
    ensures var s := Keystream(cipher, key, iv, n);
      s[BLOCK_SIZE * j..] == cipher(key, Register(iv, s, j))[..n - BLOCK_SIZE * j]
    decreases j
  {
    var s, output := Keystream(cipher, key, iv, n), cipher(key, iv);
    if j > 0 && n > BLOCK_SIZE {
      var rest := Keystream(cipher, key, output, n - BLOCK_SIZE);
      KeystreamEnd(cipher, key, output, n - BLOCK_SIZE, j - 1);
      RestEnd(output, rest, j);
      assert s == output + rest;
    }
  }

  lemma RestBlocks(output: Block, rest: Bytes, j: nat)
    requires 0 < j && BLOCK_SIZE * j <= |rest|
    ensures (output + rest)[BLOCK_SIZE * j..BLOCK_SIZE * (j + 1)] == rest[BLOCK_SIZE * (j - 1)..BLOCK_SIZE * j]
    ensures Register([], output + rest, j) == Register(output, rest, j - 1)
  {}

  lemma RestEnd(output: Block, rest: Bytes, j: nat)
    requires 0 < j && BLOCK_SIZE * (j - 1) <= |rest|
    ensures (output + rest)[BLOCK_SIZE * j..] == rest[BLOCK_SIZE * (j - 1)..]
    ensures Register([], output + rest, j) == Register(output, rest, j - 1)
  {}

  function Xor(a: Bytes, b: Bytes): (c: Bytes)
    requires |a| == |b|
    ensures |c| == |a|
    ensures forall i :: 0 <= i < |a| ==> c[i] == a[i] ^ b[i]
  {
    seq(|a|, i requires 0 <= i < |a| => a[i] ^ b[i])
  }

  function Ofb(cipher: BlockCipher, key: Bytes, iv: Bytes, data: Bytes): (out: Bytes)
    ensures |out| == |data|
  {
    Xor(data, Keystream(cipher, key, iv, |data|))
  }

  lemma OfbInvolution(cipher: BlockCipher, key: Bytes, iv: Bytes, data: Bytes)
    ensures Ofb(cipher, key, iv, Ofb(cipher, key, iv, data)) == data
  {
    var s := Keystream(cipher, key, iv, |data|);
    forall i | 0 <= i < |data|
      ensures (data[i] ^ s[i]) ^ s[i] == data[i]
    {
      XorCancels(data[i], s[i]);
    }
  }

  /** What is added to the data is the key stream: each block of it is the cipher's output for the block before, of which
      a last block that is not whole takes the beginning. */
  lemma OfbStream(cipher: BlockCipher, key: Bytes, iv: Bytes, data: Bytes, j: nat)
    requires 16 * j <= |data|
    ensures var s := Xor(data, Ofb(cipher, key, iv, data));
      if 16 * (j + 1) <= |data| then s[16 * j..16 * (j + 1)] == cipher(key, Register(iv, s, j))
      else s[16 * j..] == cipher(key, Register(iv, s, j))[..|data| - 16 * j]
  {
    var s := Keystream(cipher, key, iv, |data|);
    forall i | 0 <= i < |data|
      ensures data[i] ^ (data[i] ^ s[i]) == s[i]
    {
      XorFinds(data[i], s[i]);
    }
    assert Xor(data, Ofb(cipher, key, iv, data)) == s;
    if BLOCK_SIZE * (j + 1) <= |data| {
      KeystreamBlock(cipher, key, iv, |data|, j);
    } else {
      KeystreamEnd(cipher, key, iv, |data|, j);
    }
  }

  lemma XorFinds(a: bv8, b: bv8)
    ensures a ^ (a ^ b) == b
  {}

  lemma XorCancels(a: bv8, b: bv8)
    ensures (a ^ b) ^ b == a
  {}

  // ----- processAES -----

  function EncryptAES(cipher: BlockCipher, key: Bytes, iv: Bytes, data: Bytes): Result<Bytes, Error> {
    if key == [] then Failure(EmptyKey) else Success(iv + Ofb(cipher, key, iv, data))
  }

  function DecryptAES(cipher: BlockCipher, key: Bytes, data: Bytes): Result<Bytes, Error> {
    if key == [] then Failure(EmptyKey) else Success(Ofb(cipher, key, Left(data, |key|), Mid(data, |key|)))
  }

  /** Decryption undoes encryption; a key of no bytes is refused by both. */
  lemma AESRoundTrip(cipher: BlockCipher, key: Bytes, iv: Bytes, data: Bytes)
    requires |iv| == |key|
    ensures EncryptAES(cipher, key, iv, data).Success? <==> key != []
    ensures key == [] ==> EncryptAES(cipher, key, iv, data) == DecryptAES(cipher, key, data) == Failure(EmptyKey)
    ensures key != [] ==> DecryptAES(cipher, key, EncryptAES(cipher, key, iv, data).value) == Success(data)
  {
    var body := Ofb(cipher, key, iv, data);
    assert (iv + body)[..|key|] == iv;
    assert (iv + body)[|key|..] == body;
    OfbInvolution(cipher, key, iv, data);
  }

  // ----- encryptRSA and decryptRSA -----

  /** An RSA key pair used with OAEP padding. `seal` takes the padding's random seed first. */
  datatype KeyPair = KeyPair(bits: nat, seal: (Bytes, Bytes) -> Bytes, open: Bytes -> Option<Bytes>)
  {
    /** Length in octets of the modulus, and so of every ciphertext. */
    function Octets(): nat { (bits + 7) / 8 }

    /** maximumEncryptSize(EME_PKCS1_OAEP): the modulus less two SHA-1 digests and two octets. */
    function MaximumEncryptSize(): int { Octets() - 42 }

    /** What sections 7.1.1 and 7.1.2 of RFC 8017 promise of the primitives. */
    ghost predicate Valid() {
      && MaximumEncryptSize() > 0
      && (forall seed: Bytes, m: Bytes {:trigger seal(seed, m)} ::
            |m| <= MaximumEncryptSize() ==> |seal(seed, m)| == Octets() && open(seal(seed, m)) == Some(m))
      && (forall c: Bytes {:trigger open(c)} :: |c| != Octets() ==> open(c) == None)
    }
  }

  /** The random choices one encryption makes. */
  datatype Randomness = Randomness(symkey: Bytes, iv: Bytes, seed: Bytes)

  predicate Fits(pair: KeyPair, random: Randomness) {
    |random.symkey| == pair.MaximumEncryptSize() && |random.iv| == |random.symkey|
  }

  function EncryptRSA(cipher: BlockCipher, pair: KeyPair, random: Randomness, data: Bytes): Result<Bytes, Error> {
    var encdata :- EncryptAES(cipher, random.symkey, random.iv, data);
    Success(pair.seal(random.seed, random.symkey) + encdata)
  }

  function DecryptRSA(cipher: BlockCipher, pair: KeyPair, data: Bytes): Result<Bytes, Error> {
    match pair.open(Left(data, pair.bits / 8))
    case None => Failure(DecryptionFailed)
    case Some(symkey) => DecryptAES(cipher, symkey, Mid(data, pair.bits / 8))
  }

  /** decryptRSA undoes encryptRSA, for data of any length, exactly when the modulus is a whole number of
      octets: the cut is taken at bits / 8, the ciphertext is one octet longer otherwise. */
  lemma RSARoundTrip(cipher: BlockCipher, pair: KeyPair, random: Randomness, data: Bytes)
    requires pair.Valid() && Fits(pair, random)
    ensures EncryptRSA(cipher, pair, random, data).Success?
    ensures DecryptRSA(cipher, pair, EncryptRSA(cipher, pair, random, data).value) ==
            if pair.bits % 8 == 0 then Success(data) else Failure(DecryptionFailed)
  {
    var sealed := pair.seal(random.seed, random.symkey);
    var encdata := EncryptAES(cipher, random.symkey, random.iv, data).value;
    assert |sealed| == pair.Octets();
    if pair.bits % 8 == 0 {
      assert Left(sealed + encdata, pair.bits / 8) == sealed;
      assert Mid(sealed + encdata, pair.bits / 8) == encdata;
      AESRoundTrip(cipher, random.symkey, random.iv, data);
    } else {
      assert |Left(sealed + encdata, pair.bits / 8)| == pair.bits / 8 != pair.Octets();
    }
  }

  /** Data too short to hold the sealed key is refused; data that ends with the vector, or within it, holds no message. */
  lemma TooShort(cipher: BlockCipher, pair: KeyPair, key: Bytes, data: Bytes)
    requires key != []
    ensures |data| <= |key| ==> DecryptAES(cipher, key, data) == Success([])
    ensures pair.Valid() && |data| < pair.Octets() ==> DecryptRSA(cipher, pair, data) == Failure(DecryptionFailed)
  {
    assert pair.Valid() && |data| < pair.Octets() ==> pair.open(Left(data, pair.bits / 8)) == None;
  }

  /** What is sent: the sealed symmetric key, then the vector, then as many bytes as the data has. */
  lemma RSALayout(cipher: BlockCipher, pair: KeyPair, random: Randomness, data: Bytes)
    requires pair.Valid() && Fits(pair, random)
    ensures EncryptRSA(cipher, pair, random, data).Success?
    ensures var (c, n, m) := (EncryptRSA(cipher, pair, random, data).value, pair.Octets(), |random.iv|);
      && |c| == n + m + |data| && pair.open(c[..n]) == Some(random.symkey) && c[n..n + m] == random.iv
      && c[n + m..] == Ofb(cipher, random.symkey, random.iv, data)
  {
    var sealed, body := pair.seal(random.seed, random.symkey), Ofb(cipher, random.symkey, random.iv, data);
    assert |sealed| == pair.Octets();
    assert (sealed + (random.iv + body))[..|sealed|] == sealed;
    assert (sealed + (random.iv + body))[|sealed|..|sealed| + |random.iv|] == random.iv;
    assert (sealed + (random.iv + body))[|sealed| + |random.iv|..] == body;
  }

  // ----- The same, as the class does it: one cipher that each call sets up anew -----

  datatype Direction = Encode | Decode

  class Cipher {
    const block: BlockCipher
    var key: Bytes
    var iv: Bytes

    constructor (block: BlockCipher)
      ensures this.block == block
    {
      this.block, key, iv := block, [], [];
    }

    method Setup(key: Bytes, iv: Bytes)
      modifies this
      ensures this.key == key && this.iv == iv
    {
      this.key, this.iv := key, iv;
    }

    function Process(data: Bytes): Bytes
      reads this
    {
      Ofb(block, key, iv, data)
    }
  }

  class Envelope {
    const cipher: Cipher

    constructor (cipher: Cipher)
      ensures this.cipher == cipher
    {
      this.cipher := cipher;
    }

    /** `drawn` is the initialization vector that encryption draws. */
    method ProcessAES(key: Bytes, data: Bytes, dir: Direction, drawn: Bytes) returns (r: Result<Bytes, Error>)
      modifies cipher
      ensures r == match dir
                   case Encode => EncryptAES(cipher.block, key, drawn, data)
                   case Decode => DecryptAES(cipher.block, key, data)
    {
      if key == [] {
        return Failure(EmptyKey);
      }
      var outdata;
      match dir {
        case Encode =>
          cipher.Setup(key, drawn);
          outdata := cipher.Process(data);
          outdata := drawn + outdata;
        case Decode =>
          var secdata := Mid(data, |key|);
          cipher.Setup(key, Left(data, |key|));
          outdata := cipher.Process(secdata);
      }
      return Success(outdata);
    }

    method SealRSA(pair: KeyPair, data: Bytes, random: Randomness) returns (r: Result<Bytes, Error>)
      modifies cipher
      ensures r == EncryptRSA(cipher.block, pair, random, data)
    {
      var encdata := ProcessAES(random.symkey, data, Encode, random.iv);
      if encdata.Failure? {
        return encdata;
      }
      var outdata := pair.seal(random.seed, random.symkey);
      outdata := outdata + encdata.value;
      return Success(outdata);
    }

    method OpenRSA(pair: KeyPair, data: Bytes) returns (r: Result<Bytes, Error>)
      modifies cipher
      ensures r == DecryptRSA(cipher.block, pair, data)
    {
      var symkey := pair.open(Left(data, pair.bits / 8));
      if symkey.None? {
        return Failure(DecryptionFailed);
      }
      r := ProcessAES(symkey.value, Mid(data, pair.bits / 8), Decode, []);
    }

    /** What is sealed opens again, and only if the modulus is a whole number of octets, although the cipher was
        used for something else in between. */
    method SealAndOpen(pair: KeyPair, data: Bytes, random: Randomness, other: Bytes) returns (r: Result<Bytes, Error>)
      requires pair.Valid() && Fits(pair, random)
      modifies cipher
      ensures r == if pair.bits % 8 == 0 then Success(data) else Failure(DecryptionFailed)
    {
      var sealed := SealRSA(pair, data, random);
      var _ := ProcessAES(other, data, Encode, other);
      RSARoundTrip(cipher.block, pair, random, data);
      r := OpenRSA(pair, sealed.value);
    }
  }

  // ----- signRSA and verifyRSA -----

  /** A key pair used to sign. All that is known is that a signature of a message is accepted for it. */
  datatype Signer = Signer(sign: Bytes -> Bytes, verify: (Bytes, Bytes) -> bool)
  {
    ghost predicate Valid() {
      forall m: Bytes {:trigger sign(m)} :: verify(m, sign(m))
    }
  }
}
