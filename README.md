# SimpleSign, modelled in Dafny

SimpleSign is a small Java application. It signs a document with a fresh DSA key
pair and stores a detached signature (`<document>.sig`) and the encoded public
key (`<document>.pk`) next to it. It later checks a document against such a
pair of files. This project models the signing engine, `services.SimpleSign`,
and proves what it does with the document bytes, with the file system and with
the shared `Signature` object.

Modules, leaves first:

- `Primitives`: Java's signed `byte` and byte arrays as `seq<byte>`.
- `Wrappers`: `Option`, the exceptions the core can raise (`FileNotFound`,
  `InvalidKeySpec`, `InvalidKey`, `SignatureFailure`), and a `Result` usable
  with `:-`.
- `Chunking`: the pieces a 1024-byte buffer cuts a document into (`Chunks`), how
  the pieces are joined again (`Concat`), and the lemmas relating the two.
- `Streams`: the `BufferedInputStream` over a `ByteArrayInputStream` that
  `supplySignatureWithData` reads from. It is a class with a read position;
  `Read` copies `min(1024, available())` bytes into the buffer array.
- `Security`: DSA keys and the provider's algorithms. Key generation, signing,
  verifying, and X.509 SubjectPublicKeyInfo encoding and decoding (section
  4.1.2.7 of RFC 5280) are uninterpreted function-valued fields of a `Provider`
  value. Decoding is partial, and so is verifying, because malformed signature
  bytes raise an exception. The module also holds the `java.security.Signature`
  object, as a class with a mode (uninitialised, signing, verifying) and its
  digest state. That state is the bytes fed since the last
  initialisation: `data`, with a ghost `updates` that records each `update`
  call's piece.
- `Utils`: the file system, as a map from path to content, with
  `readBytesFromFile` and `saveBytesInFile`.
- `Services`: artifact path derivation, `generatePublicKeyFromBytes`, the
  specification functions `SignOutcome` and `VerifyOutcome`, and the class
  `SimpleSign`. Its field `signature` is the Java class's shared static field,
  and its methods are the static methods that reassign that field and mutate the
  object.

The methods are proved against the specification functions. `SignDocument`
returns exactly `SignOutcome`, and `VerifySignature` returns exactly
`VerifyOutcome`. `SupplySignatureWithData` feeds the signature object exactly
`Chunks(data)`, whose concatenation is `data`, so the object has digested
exactly the document's bytes. Each call that gets far enough replaces the
shared object with a fresh one (`fresh(signature)`), so nothing fed by an
earlier call can reach the digest. The round-trip lemma needs three assumptions,
stated as the predicate `Correct`: a generated pair's signature verifies,
decoding an encoded key returns the key, and `initVerify` accepts every
generated public key. `CorrectProviderExists` shows that some
provider satisfies `Correct` together with the idealised `BindsMessage` that the
tamper lemma also needs.

Randomness is a parameter: `draw` stands for the output of the `SHA1PRNG`
source that `generateKeys` seeds the key generator with.

## Model

| member | source | states |
|---|---|---|
| Chunking.Chunks | src/services/SimpleSign.java:40-45 | the pieces are empty exactly when the data is empty, so an empty document causes no `update` call |
| Chunking.ConcatChunks | src/services/SimpleSign.java:40-45 | joining the pieces in order gives back exactly the data: no byte is lost, repeated or reordered |
| Chunking.ChunkSizes | src/services/SimpleSign.java:40-44 | every piece has 1 to 1024 bytes; every piece but the last has exactly 1024; there are ceil(n/1024) pieces |
| Chunking.ChunksStep | src/services/SimpleSign.java:42-44 | a read at offset `start` takes the first piece of what remains, and the remaining pieces are those of the rest |
| Chunking.ConcatAppend | src/services/SimpleSign.java:44 | appending one piece to the update history appends its bytes to the digested data |
| Streams.ByteArrayStream.constructor | src/services/SimpleSign.java:37-38 | the stream opened on the document bytes starts at position 0, with all of them available |
| Streams.ByteArrayStream.Read | src/services/SimpleSign.java:37-43 | returns 0 for an empty buffer, -1 at end of stream, and otherwise min(buffer length, available) bytes, which are the next bytes of the source; the rest of the buffer is untouched |
| Security.Signature.GetInstance | src/services/SimpleSign.java:133 | a new object is uninitialised and has nothing fed |
| Security.Signature.InitSign | src/services/SimpleSign.java:134 | the object is ready to sign with the given private key and has nothing fed |
| Security.Signature.InitVerify | src/services/SimpleSign.java:163 | a key the provider accepts leaves the object ready to verify with it and with nothing fed; any other key raises `InvalidKey` and leaves the object as it was |
| Security.Signature.Update | src/services/SimpleSign.java:44 | appends exactly `b[off..off+len)` to the fed data and records it as one piece; the mode is unchanged |
| Security.Signature.Sign | src/services/SimpleSign.java:59 | returns the provider's signature over everything fed, under the initialised key, and resets the fed data |
| Security.Signature.Verify | src/services/SimpleSign.java:168 | returns the provider's verdict on everything fed and resets the fed data; malformed signature bytes give `SignatureFailure` and leave the fed data as it was |
| Utils.ReadBytesFromFile | src/utils/FileSystem.java:31-37 | the whole file content when the path exists, else `FileNotFound` for that path |
| Utils.SaveBytesInFile | src/utils/FileSystem.java:17-23 | the file at the path now holds exactly the bytes, created or replaced; every other file is unchanged |
| Services.GenerateKeys | src/services/SimpleSign.java:70-78 | the key pair is the provider's 1024-bit pair for the given draw of the random source |
| Services.GeneratePublicKeyFromBytes | src/services/SimpleSign.java:112-117 | succeeds exactly when the bytes decode, with the decoded key; otherwise `InvalidKeySpec` |
| Services.SignaturePath | src/services/SimpleSign.java:89 | the path is the document path followed by exactly the four characters ".sig" |
| Services.PublicKeyPath | src/services/SimpleSign.java:101 | the path is the document path followed by exactly the three characters ".pk" |
| Services.SaveSignature | src/services/SimpleSign.java:88-90 | the file at `SignaturePath(filename)` is created or replaced by exactly the signature bytes; every other file is unchanged |
| Services.SavePublicKey | src/services/SimpleSign.java:99-102 | the file at `PublicKeyPath(filename)` is created or replaced by exactly the key's encoding; every other file is unchanged |
| Services.ArtifactPaths | src/services/SimpleSign.java:89-101 | both artifact paths are the document path followed by ".sig" or ".pk"; they differ from the document path and from each other |
| Services.SignatureNeverPublicKeyPath | src/services/SimpleSign.java:89-101 | no document's signature path equals any document's public-key path |
| Services.ArtifactPathsInjective | src/services/SimpleSign.java:89-101 | distinct documents have distinct signature paths and distinct public-key paths |
| Services.SignOutcome | src/services/SimpleSign.java:128-140 | fails with `FileNotFound(document)` exactly when the document is missing; otherwise the store gains or replaces exactly the two artifacts. The `.sig` file holds the signature over the document's bytes under the generated private key. The `.pk` file holds the encoded public key of the same pair. Every other file is unchanged |
| Services.VerifyOutcome | src/services/SimpleSign.java:155-170 | succeeds exactly when all three files exist, the key decodes and the signature bytes are well formed, and then returns the provider's verdict on (decoded key, document, signature). A malformed key is `InvalidKeySpec` (never false). A key that decodes but that `initVerify` rejects is `InvalidKey` (never false). A missing file is `FileNotFound` for the first missing path in the reading order: signature file, then public-key file, then (once the key is accepted) the document |
| Services.RoundTrip | src/services/SimpleSign.java:128-170 | for a correct provider, signing an existing document and then verifying it against its `.sig` and `.pk` artifacts returns true |
| Services.TamperedDocumentFails | src/services/SimpleSign.java:155-170 | for a correct provider that binds signatures to messages, replacing the document's content after signing makes verification return false, not an error |
| Services.SimpleSign.constructor | src/services/SimpleSign.java:19 | the shared signature field starts out null |
| Services.SimpleSign.SupplySignatureWithData | src/services/SimpleSign.java:36-48 | the object's update history gains exactly `Chunks(data)` and its fed data gains exactly `data`; the loop invariant tracks the stream position against the remaining pieces |
| Services.SimpleSign.GenerateSignature | src/services/SimpleSign.java:57-62 | returns the signature over what was fed before plus the content, under the initialised key |
| Services.SimpleSign.SignDocument | src/services/SimpleSign.java:128-140 | the result is `SignOutcome`. On success the shared field holds a fresh object initialised with the generated private key. A missing document leaves the field as it was |
| Services.SimpleSign.VerifySignature | src/services/SimpleSign.java:155-170 | the result is `VerifyOutcome`. Once the key decodes, the shared field holds a fresh object, initialised with that key when `initVerify` accepts it and uninitialised when it does not; before that the field is unchanged. The fresh object ends with nothing fed, except after malformed signature bytes, when it still holds the document |
| Services.SimpleSign.SignThenVerify | src/services/SimpleSign.java:128-170 | with a correct provider, calling `SignDocument` and then `VerifySignature` on the derived paths returns true, whatever the shared object held before |

## Left out

- The instance constructor (src/services/SimpleSign.java:26-28) is not modelled. Sign and verify never use it: they are static and create their own `Signature` object. An instance of the Dafny class `SimpleSign` stands for the Java class's static state.
- Concurrent calls are not modelled. The shared static field (src/services/SimpleSign.java:19) is unsafe when two threads call sign or verify at once. Only sequential calls are modelled, and for those the fresh-object guarantee holds.
- DSA key generation, SHA1withDSA signing and verifying, the SHA1PRNG source, X.509 key encoding, and which keys `initVerify` accepts are left uninterpreted, because they are foreign library code. Only the assumptions named `Correct` and `BindsMessage` are stated about them.
- Security.Provider: signing is modelled as a function of key and message. Real DSA also draws a random per-signature nonce, so signing the same message twice can produce different bytes; the model does not capture that.
- `NoSuchAlgorithmException` and `NoSuchProviderException` from the `getInstance` calls are not modelled: the provider is always available. `InvalidKeyException` from `initSign` is not modelled either: the private key always comes from the provider's own generator. (`initVerify`, which receives a key from a user-chosen file, does model it.)
- Security.Signature.Update, Security.Signature.Sign, Security.Signature.Verify: require an object initialised for signing (`Sign`) or at all (`Update`), or for verifying (`Verify`), where the library would throw `SignatureException`. The core calls them only after the matching `initSign` or `initVerify`.
- Write failures of `saveBytesInFile` (permissions, disk full, a directory in the way) are not modelled: every write succeeds. The same goes for a partially written signature file when the key write fails.
- The model does not capture that `readBytesFromFile` relies on `available()` plus one `read` (src/utils/FileSystem.java:33-34). It reads the whole file content.
- The model does not capture how `java.io.File` normalises a path (`getPath()`): a path is the string the caller passes.
- Streams.ByteArrayStream: the `BufferedInputStream` internal 8192-byte buffer is not modelled, nor is `close()`, nor the `IOException` that `read` and `available` declare but a byte array never raises.
- Security.Signature.Verify: that malformed signature bytes leave the fed data in place follows the provider decoding the signature before it reads out the digest. That order is library behaviour outside this repository, and no call in the core can observe it, because every call creates a new object.
- The Swing user interface (src/view/components/App.java) is not part of this model. That includes the handlers that swallow every exception.
- The model follows the code on return values: `signDocument` returns nothing, and the two artifact paths are given by `SignaturePath` and `PublicKeyPath`.
- Services.TamperedDocumentFails: holds only under the idealised `BindsMessage` assumption, which SHA-1 collisions break for the real scheme. Two other properties are not modelled because they belong to the cryptography, not to this code: a key mismatch causes rejection, and two signings of one document produce different key pairs.
