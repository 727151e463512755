/**
 * The values the protocol layer passes around: keys, key records, addresses,
 * pre-key bundles and errors, and `Library`, which stands for the
 * `@signalapp/libsignal-client` primitives the layer calls but does not
 * implement.
 */
module SignalTypes {
  import opened Wrappers
  import Base64

  type Byte = Base64.Byte
  type Bytes = seq<Byte>

  /** A public key, represented by its serialized form (what `serialize()` returns). */
  datatype PublicKey = PublicKey(serialized: Bytes)

  datatype PrivateKey = PrivateKey(secret: Bytes)

  /** The public half of a key-encapsulation (Kyber) key pair, by its serialized form. */
  datatype KemPublicKey = KemPublicKey(serialized: Bytes)

  datatype KemKeyPair = KemKeyPair(publicKey: KemPublicKey, secret: Bytes)

  datatype IdentityKeyPair = IdentityKeyPair(publicKey: PublicKey, privateKey: PrivateKey)

  /**
   * `PublicKey.compare`: three-way comparison of the serialized forms, byte by
   * byte, a shorter prefix first.
   */
  function CompareKeys(a: Bytes, b: Bytes): (c: int)
    ensures -1 <= c <= 1
  {
    if a == [] && b == [] then 0
    else if a == [] then -1
    else if b == [] then 1
    else if a[0] < b[0] then -1
    else if a[0] > b[0] then 1
    else CompareKeys(a[1..], b[1..])
  }

  /** `compare` reports 0 for two keys exactly when they are the same key. */
  lemma {:induction false} CompareKeysZeroIffEqual(a: Bytes, b: Bytes)
    ensures CompareKeys(a, b) == 0 <==> a == b
  {
    if a != [] && b != [] && a[0] == b[0] {
      CompareKeysZeroIffEqual(a[1..], b[1..]);
      assert a == [a[0]] + a[1..] && b == [b[0]] + b[1..];
    }
  }

  /** Decimal digits of `n`, as JavaScript prints a non-negative integer. */
  function Decimal(n: nat): string {
    if n < 10 then [('0' as int + n) as char]
    else Decimal(n / 10) + [('0' as int + n % 10) as char]
  }

  lemma {:induction false} DecimalNoDot(n: nat)
    ensures '.' !in Decimal(n)
    ensures n >= 10 ==> |Decimal(n)| >= 2
  {
    if n >= 10 {
      DecimalNoDot(n / 10);
    }
  }

  /** Different numbers print differently. */
  lemma {:induction false} DecimalInjective(n: nat, m: nat)
    requires Decimal(n) == Decimal(m)
    ensures n == m
  {
    DecimalNoDot(n);
    DecimalNoDot(m);
    if n >= 10 && m >= 10 {
      var s := Decimal(n);
      assert s[..|s| - 1] == Decimal(n / 10) && s[..|s| - 1] == Decimal(m / 10);
      DecimalInjective(n / 10, m / 10);
      assert s[|s| - 1] == ('0' as int + n % 10) as char == ('0' as int + m % 10) as char;
    }
  }

  /** `ProtocolAddress`: a user name and a device id. */
  datatype Address = Address(name: string, deviceId: nat) {
    /** `toString()`, the key under which session and identity stores file an address. */
    function ToString(): string {
      name + "." + Decimal(deviceId)
    }
  }

  /** Index of the last dot in `s`, or -1 when it has none. */
  function LastDot(s: string): (i: int)
    ensures -1 <= i < |s|
  {
    if s == [] then -1
    else if s[|s| - 1] == '.' then |s| - 1
    else LastDot(s[..|s| - 1])
  }

  /** The dot before dot-free text is the last dot. */
  lemma {:induction false} LastDotBefore(x: string, y: string)
    requires '.' !in y
    ensures LastDot(x + "." + y) == |x|
  {
    if y != [] {
      var y0 := y[..|y| - 1];
      assert (x + "." + y)[..|x + "." + y| - 1] == x + "." + y0;
      LastDotBefore(x, y0);
    }
  }

  /** A dot followed by dot-free text can be cut off a string in one way only. */
  lemma SplitAtLastDot(x: string, y: string, x': string, y': string)
    requires x + "." + y == x' + "." + y'
    requires '.' !in y && '.' !in y'
    ensures x == x' && y == y'
  {
    var s := x + "." + y;
    LastDotBefore(x, y);
    LastDotBefore(x', y');
    assert x == s[..|x|] == x';
    assert y == s[|x| + 1..] == y';
  }

  /**
   * Keying the stores by `toString()` never files two different addresses
   * under the same key: the device id is printed without a dot, so the last
   * dot separates the name from it.
   */
  lemma AddressKeyInjective(a: Address, b: Address)
    ensures a.ToString() == b.ToString() <==> a == b
  {
    if a.ToString() == b.ToString() {
      DecimalNoDot(a.deviceId);
      DecimalNoDot(b.deviceId);
      SplitAtLastDot(a.name, Decimal(a.deviceId), b.name, Decimal(b.deviceId));
      DecimalInjective(a.deviceId, b.deviceId);
    }
  }

  /** A session: opaque ratchet state; `hasCurrentState()` is whether a current state is present. */
  datatype SessionRecord = SessionRecord(currentState: Option<Bytes>, previousStates: seq<Bytes>) {
    predicate HasCurrentState() {
      currentState.Some?
    }
  }

  datatype PreKeyRecord = PreKeyRecord(id: nat, publicKey: PublicKey, privateKey: PrivateKey)

  datatype SignedPreKeyRecord =
    SignedPreKeyRecord(id: nat, timestamp: nat, publicKey: PublicKey, privateKey: PrivateKey, signature: Bytes)

  datatype KyberPreKeyRecord = KyberPreKeyRecord(id: nat, timestamp: nat, keyPair: KemKeyPair, signature: Bytes)

  /** `PreKeyBundle`: what a user publishes so that a peer can start a session. */
  datatype PreKeyBundle = PreKeyBundle(
    registrationId: nat,
    deviceId: nat,
    preKeyId: Option<nat>,
    preKey: Option<PublicKey>,
    signedPreKeyId: nat,
    signedPreKey: PublicKey,
    signedPreKeySignature: Bytes,
    identityKey: PublicKey,
    kyberPreKeyId: Option<nat>,
    kyberPreKey: Option<KemPublicKey>,
    kyberPreKeySignature: Option<Bytes>)

  /** What `isTrustedIdentity` is asked about. */
  datatype Direction = Sending | Receiving

  /** The result of a successful pre-key (first-message) decryption inside the library. */
  datatype PreKeyDecryption =
    PreKeyDecryption(plaintext: Bytes, session: SessionRecord, senderIdentity: PublicKey, consumedPreKeyId: Option<nat>)

  /** A successful ratchet step: the output and the session state after it. */
  datatype RatchetStep = RatchetStep(output: Bytes, session: SessionRecord)

  /** The errors the protocol layer raises, and those it passes on from the library. */
  datatype Error =
    | PreKeyNotFound(id: nat)             // "PreKey ${id} not found"
    | SignedPreKeyNotFound(id: nat)       // "SignedPreKey ${id} not found"
    | KyberPreKeyNotFound(id: nat)        // "KyberPreKey ${id} not found"
    | SignatureCheckFailed                // "Signature verification failed before bundle creation"
    | BundleCheckFailed                   // "Bundle signature verification failed"
    | BundleSignatureInvalid              // "PreKeyBundle signature verification failed"
    | NoPreKeysAvailable                  // "No prekeys available"
    | InvalidBase64(field: string)        // a field of a serialized bundle is not Base64
    | LibraryError(message: string)       // anything the library throws

  /**
   * The library primitives, as functions the model does not look inside.
   * Each call that can throw returns a Result. Randomness and clocks are not
   * here: they are parameters of the operations that use them.
   */
  datatype Library = Library(
    // `privateKey.getPublicKey()`
    publicKeyOf: PrivateKey -> PublicKey,
    // `privateKey.sign(message)`
    sign: (PrivateKey, Bytes) -> Bytes,
    // `publicKey.verify(message, signature)`
    verify: (PublicKey, Bytes, Bytes) -> bool,
    // `processPreKeyBundle(bundle, address, sessionStore, identityStore, now)`: the new session
    processBundle: (PreKeyBundle, Address, Option<SessionRecord>, nat) -> Result<SessionRecord, string>,
    // `signalEncrypt(plaintext, address, sessionStore, identityStore)`
    encrypt: (Bytes, Address, Option<SessionRecord>) -> Result<RatchetStep, string>,
    // `SignalMessage.deserialize` followed by `signalDecrypt`
    decryptSignal: (Bytes, Address, Option<SessionRecord>) -> Result<RatchetStep, string>,
    // `PreKeySignalMessage.deserialize` followed by `signalDecryptPreKey`, which reads the key stores
    decryptPreKey: (Bytes, Address, Option<SessionRecord>, map<nat, PreKeyRecord>,
                    map<nat, SignedPreKeyRecord>, map<nat, KyberPreKeyRecord>) -> Result<PreKeyDecryption, string>)
}
