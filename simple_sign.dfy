/**
 * services.SimpleSign: signing a document into a detached signature file and a
 * public-key file beside it, and verifying a document against such a pair.
 */
module Services {
  import opened Primitives
  import opened Wrappers
  import opened Chunking
  import opened Streams
  import opened Security
  import opened Utils

  /** The DSA key size generateKeys asks for. */
  const DsaKeySize: nat := 1024

  /** generateKeys: a fresh DSA key pair of DsaKeySize bits from one draw of the random source. */
  function GenerateKeys(provider: Provider, draw: nat): (keys: KeyPair)
    ensures keys == provider.generateKeyPair(1024, draw)
  {
    provider.generateKeyPair(DsaKeySize, draw)
  }

  /** generatePublicKeyFromBytes: the key the bytes encode; malformed bytes are an InvalidKeySpec error. */
  function GeneratePublicKeyFromBytes(provider: Provider, encodedKey: Bytes): (r: Result<PublicKey>)
    ensures r.Success? <==> provider.decode(encodedKey).Some?
    ensures r.Success? ==> r.value == provider.decode(encodedKey).value
    ensures r.Failure? ==> r.error == InvalidKeySpec
  {
    match provider.decode(encodedKey)
    case None => Failure(InvalidKeySpec)
    case Some(key) => Success(key)
  }

  /** Where saveSignature stores the signature of the document at filename. */
  function SignaturePath(filename: Path): (p: Path)
    ensures |p| == |filename| + 4 && p[..|filename|] == filename && p[|filename|..] == ".sig"
  {
    filename + ".sig"
  }

  /** Where savePublicKey stores the public key for the document at filename. */
  function PublicKeyPath(filename: Path): (p: Path)
    ensures |p| == |filename| + 3 && p[..|filename|] == filename && p[|filename|..] == ".pk"
  {
    filename + ".pk"
  }

  /** Both artifact paths extend the document path, differ from it and from each other. */
  lemma ArtifactPaths(document: Path)
    ensures SignaturePath(document)[..|document|] == document && SignaturePath(document)[|document|..] == ".sig"
    ensures PublicKeyPath(document)[..|document|] == document && PublicKeyPath(document)[|document|..] == ".pk"
    ensures SignaturePath(document) != document && PublicKeyPath(document) != document
    ensures SignaturePath(document) != PublicKeyPath(document)
  {
  }

  /** A signature artifact is never the public-key artifact of any document. */
  lemma SignatureNeverPublicKeyPath(p: Path, q: Path)
    ensures SignaturePath(p) != PublicKeyPath(q)
  {
    var s, k := SignaturePath(p), PublicKeyPath(q);
    if |s| == |k| {
      assert s[|s| - 1] == 'g' && k[|k| - 1] == 'k';
    }
  }

  /** Distinct documents have distinct artifacts, so the document is recovered from either path. */
  lemma ArtifactPathsInjective(p: Path, q: Path)
    ensures SignaturePath(p) == SignaturePath(q) ==> p == q
    ensures PublicKeyPath(p) == PublicKeyPath(q) ==> p == q
  {
    if SignaturePath(p) == SignaturePath(q) {
      assert p == SignaturePath(p)[..|p|];
      assert q == SignaturePath(q)[..|q|];
    }
    if PublicKeyPath(p) == PublicKeyPath(q) {
      assert p == PublicKeyPath(p)[..|p|];
      assert q == PublicKeyPath(q)[..|q|];
    }
  }

  /** saveSignature: writes the signature bytes to SignaturePath(filename). */
  function SaveSignature(files: Files, signature: Bytes, filename: Path): (r: Files)
    ensures r.Keys == files.Keys + {SignaturePath(filename)}
    ensures r[SignaturePath(filename)] == signature
    ensures forall q :: q in files && q != SignaturePath(filename) ==> r[q] == files[q]
  {
    SaveBytesInFile(files, signature, SignaturePath(filename))
  }

  /** savePublicKey: writes the encoded key to PublicKeyPath(filename). */
  function SavePublicKey(provider: Provider, files: Files, publicKey: PublicKey, filename: Path): (r: Files)
    ensures r.Keys == files.Keys + {PublicKeyPath(filename)}
    ensures r[PublicKeyPath(filename)] == provider.encode(publicKey)
    ensures forall q :: q in files && q != PublicKeyPath(filename) ==> r[q] == files[q]
  {
    SaveBytesInFile(files, provider.encode(publicKey), PublicKeyPath(filename))
  }

  /**
   * What signDocument does to the file system: either the document is missing
   * and nothing is written, or the signature over the document's bytes under the
   * private key of one generated pair and that pair's encoded public key are
   * written to the two artifact paths, replacing whatever was there, and every
   * other file is left as it was.
   */
  function SignOutcome(provider: Provider, files: Files, document: Path, draw: nat): (r: Result<Files>)
    ensures r.Failure? <==> document !in files
    ensures r.Failure? ==> r.error == FileNotFound(document)
    ensures r.Success? ==>
      var keys := GenerateKeys(provider, draw);
      && r.value.Keys == files.Keys + {SignaturePath(document), PublicKeyPath(document)}
      && r.value[SignaturePath(document)] == provider.sign(keys.privateKey, files[document])
      && r.value[PublicKeyPath(document)] == provider.encode(keys.publicKey)
      && (forall q :: q in files && q != SignaturePath(document) && q != PublicKeyPath(document) ==> r.value[q] == files[q])
  {
    var keys := GenerateKeys(provider, draw);
    match ReadBytesFromFile(files, document)
    case Failure(e) => Failure(e)
    case Success(content) =>
      ArtifactPaths(document);
      var signed := SaveSignature(files, provider.sign(keys.privateKey, content), document);
      Success(SavePublicKey(provider, signed, keys.publicKey, document))
  }

  /** The signature file and public-key file can be read and the key decodes. */
  ghost predicate KeyDecodes(provider: Provider, files: Files, signatureFile: Path, publicKeyFile: Path) {
    signatureFile in files && publicKeyFile in files && provider.decode(files[publicKeyFile]).Some?
  }

  /** The key decodes and initVerify accepts it. */
  ghost predicate KeyAccepted(provider: Provider, files: Files, signatureFile: Path, publicKeyFile: Path) {
    KeyDecodes(provider, files, signatureFile, publicKeyFile) && provider.acceptsKey(provider.decode(files[publicKeyFile]).value)
  }

  /**
   * What verifySignature returns: the provider's verdict on (the decoded key,
   * the document's bytes, the signature bytes); a missing file, a malformed key,
   * a decoded key initVerify rejects, or malformed signature bytes are errors,
   * never a plain false.
   */
  function VerifyOutcome(provider: Provider, files: Files, signatureFile: Path, publicKeyFile: Path, signedDocument: Path): (r: Result<bool>)
    ensures r.Success? <==>
      && KeyAccepted(provider, files, signatureFile, publicKeyFile)
      && signedDocument in files
      && provider.verify(provider.decode(files[publicKeyFile]).value, files[signedDocument], files[signatureFile]).Some?
    ensures r.Success? ==>
      r.value == provider.verify(provider.decode(files[publicKeyFile]).value, files[signedDocument], files[signatureFile]).value
    ensures r == Failure(InvalidKeySpec) <==>
      signatureFile in files && publicKeyFile in files && provider.decode(files[publicKeyFile]).None?
    ensures r.Failure? && r.error.FileNotFound? ==>
      r.error.path !in files && r.error.path in {signatureFile, publicKeyFile, signedDocument}
    ensures signatureFile !in files ==> r == Failure(FileNotFound(signatureFile))
    ensures signatureFile in files && publicKeyFile !in files ==> r == Failure(FileNotFound(publicKeyFile))
    ensures r == Failure(InvalidKey) <==>
      KeyDecodes(provider, files, signatureFile, publicKeyFile) && !KeyAccepted(provider, files, signatureFile, publicKeyFile)
    ensures KeyAccepted(provider, files, signatureFile, publicKeyFile) && signedDocument !in files ==>
      r == Failure(FileNotFound(signedDocument))
  {
    match ReadBytesFromFile(files, signatureFile)
    case Failure(e) => Failure(e)
    case Success(signatureBytes) =>
      match ReadBytesFromFile(files, publicKeyFile)
      case Failure(e) => Failure(e)
      case Success(encodedKey) =>
        match GeneratePublicKeyFromBytes(provider, encodedKey)
        case Failure(e) => Failure(e)
        case Success(publicKey) =>
          if !provider.acceptsKey(publicKey) then Failure(InvalidKey) else
          match ReadBytesFromFile(files, signedDocument)
          case Failure(e) => Failure(e)
          case Success(documentBytes) =>
            match provider.verify(publicKey, documentBytes, signatureBytes)
            case None => Failure(SignatureFailure)
            case Some(ok) => Success(ok)
  }

  /**
   * Signing a document and then verifying it against the two artifacts signDocument
   * wrote, with nothing else changed in between, succeeds with true.
   */
  lemma RoundTrip(provider: Provider, files: Files, document: Path, draw: nat)
    requires Correct(provider)
    requires document in files
    ensures SignOutcome(provider, files, document, draw).Success?
    ensures VerifyOutcome(provider, SignOutcome(provider, files, document, draw).value,
                          SignaturePath(document), PublicKeyPath(document), document) == Success(true)
  {
    var keys := GenerateKeys(provider, draw);
    var signed := SignOutcome(provider, files, document, draw).value;
    ArtifactPaths(document);
    assert signed[document] == files[document];
    assert provider.decode(signed[PublicKeyPath(document)]) == Some(keys.publicKey);
    assert provider.verify(keys.publicKey, files[document], provider.sign(keys.privateKey, files[document])) == Some(true);
  }

  /**
   * Under the idealised binding of signatures to messages, changing the document
   * after signing makes verification return false (not an error).
   */
  lemma TamperedDocumentFails(provider: Provider, files: Files, document: Path, draw: nat, altered: Bytes)
    requires Correct(provider) && BindsMessage(provider)
    requires document in files && altered != files[document]
    ensures SignOutcome(provider, files, document, draw).Success?
    ensures VerifyOutcome(provider, SignOutcome(provider, files, document, draw).value[document := altered],
                          SignaturePath(document), PublicKeyPath(document), document) == Success(false)
  {
    var keys := GenerateKeys(provider, draw);
    var tampered := SignOutcome(provider, files, document, draw).value[document := altered];
    ArtifactPaths(document);
    assert tampered[SignaturePath(document)] == provider.sign(keys.privateKey, files[document]);
    assert provider.decode(tampered[PublicKeyPath(document)]) == Some(keys.publicKey);
    assert provider.verify(keys.publicKey, altered, provider.sign(keys.privateKey, files[document])) == Some(false);
  }

  /**
   * The class's static state: the one Signature object that every call of
   * signDocument and verifySignature stores in the shared field `signature`.
   */
  class SimpleSign {
    /** The provider behind getInstance("SHA1withDSA", "SUN") and the "DSA" factories. */
    const provider: Provider
    var signature: Signature?

    ghost predicate Valid()
      reads this, signature
    {
      signature != null ==> signature.Valid() && signature.provider == provider
    }

    /** The static state before any call: the field is null. */
    constructor (provider: Provider)
      ensures Valid() && this.provider == provider && signature == null
    {
      this.provider := provider;
      signature := null;
    }

    /**
     * supplySignatureWithData: feeds data to the initialised signature object, one
     * buffer-load at a time, until the stream has nothing left.
     */
    method SupplySignatureWithData(data: Bytes)
      requires Valid() && signature != null && !signature.mode.Uninitialized?
      modifies signature
      ensures Valid() && signature.mode == old(signature.mode)
      ensures signature.updates == old(signature.updates) + Chunks(data)
      ensures signature.data == old(signature.data) + data
    {
      ghost var expected := signature.updates + Chunks(data);
      var bufin := new ByteArrayStream(data);
      var buffer := new byte[BufferSize];
      while bufin.Available() != 0
        invariant bufin.Valid() && bufin.source == data && fresh(bufin)
        invariant fresh(buffer) && buffer.Length == BufferSize
        invariant signature.Valid() && signature.mode == old(signature.mode)
        invariant signature.updates + Chunks(data[bufin.pos..]) == expected
        decreases bufin.Available()
      {
        ghost var start, before := bufin.pos, signature.updates;
        var len := bufin.Read(buffer);
        assert len == Min(BufferSize, |data| - start) && bufin.pos == start + len;
        assert buffer[0..len] == data[start..start + len];
        ChunksStep(data, start, len, before);
        signature.Update(buffer, 0, len);
      }
      assert data[bufin.pos..] == [];
      ConcatJoin(old(signature.updates), Chunks(data));
      ConcatChunks(data);
    }

    /** generateSignature: feeds the content, then signs everything fed since initSign. */
    method GenerateSignature(content: Bytes) returns (signBytes: Bytes)
      requires Valid() && signature != null && signature.mode.Signing?
      modifies signature
      ensures Valid() && signature.mode == old(signature.mode) && signature.data == [] && signature.updates == []
      ensures signBytes == provider.sign(signature.mode.privateKey, old(signature.data) + content)
    {
      SupplySignatureWithData(content);
      signBytes := signature.Sign();
    }

    /**
     * signDocument: generates a key pair, reads the document, replaces the shared
     * signature object by a new one initialised with the private key, signs the
     * document and saves the signature and the public key beside it. When the
     * document cannot be read the shared object is left as it was.
     */
    method SignDocument(files: Files, document: Path, draw: nat) returns (r: Result<Files>)
      requires Valid()
      modifies this
      ensures Valid()
      ensures r == SignOutcome(provider, files, document, draw)
      ensures r.Failure? ==> signature == old(signature)
      ensures r.Success? ==> fresh(signature) && signature.mode == Signing(GenerateKeys(provider, draw).privateKey)
      ensures r.Success? ==> signature.data == [] && signature.updates == []
    {
      var keys := GenerateKeys(provider, draw);
      var content :- ReadBytesFromFile(files, document);

      signature := new Signature.GetInstance(provider);
      signature.InitSign(keys.privateKey);

      var signBytes := GenerateSignature(content);
      assert [] + content == content;

      var written := SaveSignature(files, signBytes, document);
      written := SavePublicKey(provider, written, keys.publicKey, document);
      r := Success(written);
    }

    /**
     * verifySignature: reads the signature and the encoded public key, decodes the
     * key, replaces the shared signature object by a new one initialised with it,
     * reads and feeds the document and returns the verdict. Once the key has
     * decoded, the object has been replaced, even if initVerify then rejects the
     * key (the object stays uninitialised) or the document is missing; it is
     * left holding the document's bytes only when the signature bytes were
     * malformed.
     */
    method VerifySignature(files: Files, signatureFile: Path, publicKeyFile: Path, signedDocument: Path)
      returns (r: Result<bool>)
      requires Valid()
      modifies this
      ensures Valid()
      ensures r == VerifyOutcome(provider, files, signatureFile, publicKeyFile, signedDocument)
      ensures !KeyDecodes(provider, files, signatureFile, publicKeyFile) ==> signature == old(signature)
      ensures KeyDecodes(provider, files, signatureFile, publicKeyFile) ==> fresh(signature)
      ensures KeyAccepted(provider, files, signatureFile, publicKeyFile) ==>
        signature.mode == Verifying(provider.decode(files[publicKeyFile]).value)
      ensures KeyDecodes(provider, files, signatureFile, publicKeyFile) && !KeyAccepted(provider, files, signatureFile, publicKeyFile) ==>
        signature.mode == Uninitialized
      ensures KeyDecodes(provider, files, signatureFile, publicKeyFile) && r != Failure(SignatureFailure) ==>
        signature.data == [] && signature.updates == []
      ensures r == Failure(SignatureFailure) ==> signature.data == files[signedDocument]
    {
      var signatureBytes :- ReadBytesFromFile(files, signatureFile);

      var encodedKey :- ReadBytesFromFile(files, publicKeyFile);
      var publicKey :- GeneratePublicKeyFromBytes(provider, encodedKey);

      signature := new Signature.GetInstance(provider);
      var initialised := signature.InitVerify(publicKey);
      if initialised.Failure? {
        return Failure(initialised.error);
      }

      var signedDocBytes :- ReadBytesFromFile(files, signedDocument);
      SupplySignatureWithData(signedDocBytes);
      assert signature.data == signedDocBytes;

      var isVerified :- signature.Verify(signatureBytes);
      r := Success(isVerified);
    }

    /**
     * A caller that signs a document and then verifies it against the derived
     * artifact paths: whatever the shared object held before, the answer is true.
     */
    method SignThenVerify(files: Files, document: Path, draw: nat) returns (verified: Result<bool>)
      requires Valid() && Correct(provider) && document in files
      modifies this
      ensures Valid() && verified == Success(true)
    {
      var signed := SignDocument(files, document, draw);
      RoundTrip(provider, files, document, draw);
      verified := VerifySignature(signed.value, SignaturePath(document), PublicKeyPath(document), document);
    }
  }
}
