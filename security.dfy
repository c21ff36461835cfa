/**
 * The parts of java.security the core relies on: DSA keys, the provider's
 * algorithms (left uninterpreted) and the stateful Signature object.
 */
module Security {
  import opened Primitives
  import opened Wrappers
  import opened Chunking

  datatype PrivateKey = PrivateKey(material: Bytes)
  datatype PublicKey = PublicKey(material: Bytes)
  datatype KeyPair = KeyPair(privateKey: PrivateKey, publicKey: PublicKey)

  /**
   * The algorithms the "SUN" provider supplies for "DSA" and "SHA1withDSA",
   * as uninterpreted functions:
   * - generateKeyPair(bits, draw): a key pair of the given size, from one draw of the random source;
   * - sign(key, message): the signature bytes over the whole message;
   * - verify(key, message, signature): Some(match?), or None when the signature bytes are malformed;
   * - encode(key): the X.509 SubjectPublicKeyInfo bytes of a public key (getEncoded);
   * - decode(bytes): the key those bytes encode, None when they are not a valid encoding;
   * - acceptsKey(key): whether initVerify accepts a decoded public key (a key can
   *   decode and still be unusable, and then initVerify throws InvalidKeyException).
   */
  datatype Provider = Provider(
    generateKeyPair: (nat, nat) -> KeyPair,
    sign: (PrivateKey, Bytes) -> Bytes,
    verify: (PublicKey, Bytes, Bytes) -> Option<bool>,
    encode: PublicKey -> Bytes,
    decode: Bytes -> Option<PublicKey>,
    acceptsKey: PublicKey -> bool)

  /** A signature made with a generated private key verifies under its public key. */
  ghost predicate SignaturesVerify(p: Provider) {
    forall bits: nat, draw: nat, m: Bytes ::
      p.verify(p.generateKeyPair(bits, draw).publicKey, m, p.sign(p.generateKeyPair(bits, draw).privateKey, m)) == Some(true)
  }

  /** Decoding an encoded public key gives the key back. */
  ghost predicate EncodingRoundTrips(p: Provider) {
    forall k: PublicKey :: p.decode(p.encode(k)) == Some(k)
  }

  /** initVerify accepts every generated public key. */
  ghost predicate GeneratedKeysAccepted(p: Provider) {
    forall bits: nat, draw: nat :: p.acceptsKey(p.generateKeyPair(bits, draw).publicKey)
  }

  /** The correctness the core takes for granted of the signature scheme. */
  ghost predicate Correct(p: Provider) {
    SignaturesVerify(p) && EncodingRoundTrips(p) && GeneratedKeysAccepted(p)
  }

  /**
   * An idealised binding of signatures to messages: a signature over one message
   * does not verify for any other. (SHA-1 collisions make this false of the real
   * scheme; it is an assumption, used only where stated.)
   */
  ghost predicate BindsMessage(p: Provider) {
    forall bits: nat, draw: nat, m: Bytes, m': Bytes :: m' != m ==>
      p.verify(p.generateKeyPair(bits, draw).publicKey, m', p.sign(p.generateKeyPair(bits, draw).privateKey, m)) == Some(false)
  }

  /** The assumptions Correct and BindsMessage can be met together, so lemmas that require them are not vacuous. */
  lemma CorrectProviderExists()
    ensures exists p :: Correct(p) && BindsMessage(p)
  {
    var p := Provider(
      (bits: nat, draw: nat) => KeyPair(PrivateKey([]), PublicKey([])),
      (k: PrivateKey, m: Bytes) => m,
      (k: PublicKey, m: Bytes, s: Bytes) => Some(m == s),
      (k: PublicKey) => k.material,
      (b: Bytes) => Some(PublicKey(b)),
      (k: PublicKey) => true);
    assert Correct(p) && BindsMessage(p);
  }

  /** The state of a Signature object: made by getInstance, or initialised for one use. */
  datatype Mode = Uninitialized | Signing(privateKey: PrivateKey) | Verifying(publicKey: PublicKey)

  /**
   * A java.security.Signature object. Its digest state is modelled as the bytes
   * supplied by `update` since it was last initialised or completed.
   */
  class Signature {
    const provider: Provider
    var mode: Mode
    /** The bytes supplied since the last initialisation, sign or verify. */
    var data: Bytes
    /** The same bytes, as the pieces the successive `update` calls received. */
    ghost var updates: seq<Bytes>

    ghost predicate Valid()
      reads this
    {
      data == Concat(updates)
    }

    /** `Signature.getInstance`: a fresh, uninitialised object. */
    constructor GetInstance(provider: Provider)
      ensures Valid() && this.provider == provider
      ensures mode == Uninitialized && data == [] && updates == []
    {
      this.provider := provider;
      mode := Uninitialized;
      data := [];
      updates := [];
    }

    /** `initSign`: ready to sign with the key, with nothing supplied yet. */
    method InitSign(key: PrivateKey)
      modifies this
      ensures Valid() && mode == Signing(key) && data == [] && updates == []
    {
      mode := Signing(key);
      data := [];
      updates := [];
    }

    /**
     * `initVerify`: ready to verify with the key, with nothing supplied yet; a key
     * the provider does not accept raises InvalidKeyException and leaves the
     * object as it was.
     */
    method InitVerify(key: PublicKey) returns (r: Result<()>)
      requires Valid()
      modifies this
      ensures Valid()
      ensures provider.acceptsKey(key) ==> r == Success(()) && mode == Verifying(key) && data == [] && updates == []
      ensures !provider.acceptsKey(key) ==>
                r == Failure(InvalidKey) && mode == old(mode) && data == old(data) && updates == old(updates)
    {
      if !provider.acceptsKey(key) {
        return Failure(InvalidKey);
      }
      mode := Verifying(key);
      data := [];
      updates := [];
      r := Success(());
    }

    /** `update(b, off, len)`: supplies b[off..off+len). */
    method Update(b: array<byte>, off: nat, len: nat)
      requires Valid() && !mode.Uninitialized? && off + len <= b.Length
      modifies this
      ensures Valid() && mode == old(mode)
      ensures data == old(data) + b[off..off + len]
      ensures updates == old(updates) + [b[off..off + len]]
    {
      ConcatAppend(updates, b[off..off + len]);
      data := data + b[off..off + len];
      updates := updates + [b[off..off + len]];
    }

    /** `sign()`: signs everything supplied, then returns to the state initSign left. */
    method Sign() returns (s: Bytes)
      requires Valid() && mode.Signing?
      modifies this
      ensures Valid() && mode == old(mode) && data == [] && updates == []
      ensures s == provider.sign(mode.privateKey, old(data))
    {
      s := provider.sign(mode.privateKey, data);
      data := [];
      updates := [];
    }

    /**
     * `verify(s)`: checks s against everything supplied, then returns to the state
     * initVerify left. Malformed signature bytes raise a SignatureException; the
     * signature is decoded before the digest is read out, so the supplied bytes
     * are then kept.
     */
    method Verify(s: Bytes) returns (r: Result<bool>)
      requires Valid() && mode.Verifying?
      modifies this
      ensures Valid() && mode == old(mode)
      ensures provider.verify(mode.publicKey, old(data), s).None? ==>
                r == Failure(SignatureFailure) && data == old(data) && updates == old(updates)
      ensures provider.verify(mode.publicKey, old(data), s).Some? ==>
                r == Success(provider.verify(mode.publicKey, old(data), s).value) && data == [] && updates == []
    {
      match provider.verify(mode.publicKey, data, s) {
        case None =>
          r := Failure(SignatureFailure);
        case Some(ok) =>
          r := Success(ok);
          data := [];
          updates := [];
      }
    }
  }
}
