/**
 * `SignalProtocolManager`: key generation, pre-key bundle creation, session
 * set-up and message encryption for one local user. It owns no state of its
 * own beyond its configuration; everything it does is a sequence of writes
 * to the five key stores and calls into the library.
 */
module ProtocolManager {
  import opened Wrappers
  import opened SignalTypes
  import opened KeyStores

  /** Ids are drawn as `Math.floor(Math.random() * 16777215)`, so they lie in [0, 16777214]. */
  const KEY_ID_BOUND: nat := 16777215

  type KeyId = x: nat | x < KEY_ID_BOUND

  /**
   * What `createPreKeyBundle` draws from its environment: three random ids,
   * three freshly generated keys and the two `Date.now()` readings.
   */
  datatype BundleEntropy = BundleEntropy(
    preKeyId: KeyId,
    signedPreKeyId: KeyId,
    kyberPreKeyId: KeyId,
    preKeySecret: PrivateKey,
    signedPreKeySecret: PrivateKey,
    kyberKeyPair: KemKeyPair,
    signedAt: nat,
    kyberAt: nat)

  /** The record `PreKeyRecord.new(id, publicKey, privateKey)` for a generated private key. */
  function PreKeyFor(lib: Library, id: nat, secret: PrivateKey): PreKeyRecord {
    PreKeyRecord(id, lib.publicKeyOf(secret), secret)
  }

  /** Pre-key records for the ids in [start, end), each from the key generated for that id. */
  function PreKeysFor(lib: Library, start: nat, end: nat, newKey: nat -> PrivateKey): (m: map<nat, PreKeyRecord>)
    ensures forall id :: id in m <==> start <= id < end
    ensures forall id :: id in m ==> m[id] == PreKeyFor(lib, id, newKey(id))
  {
    map id: nat | start <= id < end :: PreKeyFor(lib, id, newKey(id))
  }

  /**
   * The record `generateSignedPreKey` builds: the public half of the fresh
   * key, signed by the identity key.
   */
  function SignedPreKeyFor(lib: Library, identityKey: PrivateKey, id: nat, secret: PrivateKey, now: nat)
    : SignedPreKeyRecord
  {
    var publicKey := lib.publicKeyOf(secret);
    SignedPreKeyRecord(id, now, publicKey, secret, lib.sign(identityKey, publicKey.serialized))
  }

  /** The record `generateKyberPreKey` builds: the fresh KEM key pair, its public half signed by the identity key. */
  function KyberPreKeyFor(lib: Library, identityKey: PrivateKey, id: nat, keyPair: KemKeyPair, now: nat)
    : KyberPreKeyRecord
  {
    KyberPreKeyRecord(id, now, keyPair, lib.sign(identityKey, keyPair.publicKey.serialized))
  }

  /**
   * `validatePreKeyBundle`: returns normally exactly when the bundle's
   * identity key verifies the signature over the signed pre-key, and
   * throws "PreKeyBundle signature verification failed" otherwise.
   */
  function ValidatePreKeyBundle(lib: Library, bundle: PreKeyBundle): (r: Result<(), Error>)
    ensures r.Success? <==> lib.verify(bundle.identityKey, bundle.signedPreKey.serialized, bundle.signedPreKeySignature)
    ensures r.Failure? ==> r.error == BundleSignatureInvalid
  {
    var isValid := lib.verify(bundle.identityKey, bundle.signedPreKey.serialized, bundle.signedPreKeySignature);
    if isValid then Success(()) else Failure(BundleSignatureInvalid)
  }

  /** The library's signatures are sound: what a private key signs, its public key verifies. */
  ghost predicate SignaturesVerify(lib: Library) {
    forall k: PrivateKey, m: Bytes {:trigger lib.sign(k, m)} :: lib.verify(lib.publicKeyOf(k), m, lib.sign(k, m))
  }

  class SignalProtocolManager {
    const registrationId: nat
    const address: Address
    const sessionStore: SessionStore
    const preKeyStore: PreKeyStore
    const signedPreKeyStore: SignedPreKeyStore
    const kyberPreKeyStore: KyberPreKeyStore
    const identityKeyStore: IdentityKeyStore
    const lib: Library

    constructor (registrationId: nat, addressStr: string, deviceId: nat,
                 sessionStore: SessionStore, preKeyStore: PreKeyStore,
                 signedPreKeyStore: SignedPreKeyStore, kyberPreKeyStore: KyberPreKeyStore,
                 identityKeyStore: IdentityKeyStore, lib: Library)
      ensures this.registrationId == registrationId
      ensures address == Address(addressStr, deviceId)
      ensures this.sessionStore == sessionStore && this.preKeyStore == preKeyStore
      ensures this.signedPreKeyStore == signedPreKeyStore && this.kyberPreKeyStore == kyberPreKeyStore
      ensures this.identityKeyStore == identityKeyStore && this.lib == lib
    {
      this.registrationId := registrationId;
      this.address := Address(addressStr, deviceId);
      this.sessionStore := sessionStore;
      this.preKeyStore := preKeyStore;
      this.signedPreKeyStore := signedPreKeyStore;
      this.kyberPreKeyStore := kyberPreKeyStore;
      this.identityKeyStore := identityKeyStore;
      this.lib := lib;
    }

    /** `generateIdentityKeyPair`: a fresh private key and its public half; no store is touched. */
    method GenerateIdentityKeyPair(privateKey: PrivateKey) returns (pair: IdentityKeyPair)
      ensures pair.privateKey == privateKey
      ensures pair.publicKey == lib.publicKeyOf(pair.privateKey)
    {
      var publicKey := lib.publicKeyOf(privateKey);
      pair := IdentityKeyPair(publicKey, privateKey);
    }

    /**
     * `generatePreKeys(start, count)`: records for the consecutive ids
     * start, start + 1, ..., none when `count <= 0`, each saved in the pre-key
     * store as it is made. `newKey(i)` is the key `PrivateKey.generate()`
     * yields for id `i`.
     */
    method GeneratePreKeys(start: nat, count: int, newKey: nat -> PrivateKey) returns (preKeys: seq<PreKeyRecord>)
      modifies preKeyStore
      ensures |preKeys| == if count > 0 then count else 0
      ensures forall j :: 0 <= j < |preKeys| ==> preKeys[j] == PreKeyFor(lib, start + j, newKey(start + j))
      ensures preKeyStore.store == old(preKeyStore.store) + PreKeysFor(lib, start, start + |preKeys|, newKey)
    {
      preKeys := [];
      var i := start;
      while i < start + count
        invariant start <= i && (count > 0 ==> i <= start + count) && (count <= 0 ==> i == start)
        invariant |preKeys| == i - start
        invariant forall j :: 0 <= j < |preKeys| ==> preKeys[j] == PreKeyFor(lib, start + j, newKey(start + j))
        invariant preKeyStore.store == old(preKeyStore.store) + PreKeysFor(lib, start, i, newKey)
      {
        var privateKey := newKey(i);
        var publicKey := lib.publicKeyOf(privateKey);
        var preKey := PreKeyRecord(i, publicKey, privateKey);
        preKeys := preKeys + [preKey];
        preKeyStore.SavePreKey(i, preKey);
        assert preKeyStore.store == old(preKeyStore.store) + PreKeysFor(lib, start, i + 1, newKey);
        i := i + 1;
      }
    }

    /**
     * `generateSignedPreKey`: signs the fresh key with the identity key and
     * saves the record under `signedPreKeyId`. The self-check it runs is only
     * logged, so the record is saved and returned whatever its outcome.
     */
    method GenerateSignedPreKey(identityKey: PrivateKey, signedPreKeyId: nat, privateKey: PrivateKey, now: nat)
      returns (signedPreKey: SignedPreKeyRecord)
      modifies signedPreKeyStore
      ensures signedPreKey == SignedPreKeyFor(lib, identityKey, signedPreKeyId, privateKey, now)
      ensures signedPreKeyStore.store == old(signedPreKeyStore.store)[signedPreKeyId := signedPreKey]
    {
      var publicKey := lib.publicKeyOf(privateKey);
      var signature := lib.sign(identityKey, publicKey.serialized);
      signedPreKey := SignedPreKeyRecord(signedPreKeyId, now, publicKey, privateKey, signature);
      var verificationResult := lib.verify(lib.publicKeyOf(identityKey), publicKey.serialized, signature);
      signedPreKeyStore.SaveSignedPreKey(signedPreKeyId, signedPreKey);
    }

    /** `generateKyberPreKey`: signs the fresh KEM public key and saves the record under `kyberPreKeyId`. */
    method GenerateKyberPreKey(identityKey: PrivateKey, kyberPreKeyId: nat, keyPair: KemKeyPair, now: nat)
      returns (kyberPreKey: KyberPreKeyRecord)
      modifies kyberPreKeyStore
      ensures kyberPreKey == KyberPreKeyFor(lib, identityKey, kyberPreKeyId, keyPair, now)
      ensures kyberPreKeyStore.store == old(kyberPreKeyStore.store)[kyberPreKeyId := kyberPreKey]
    {
      var signature := lib.sign(identityKey, keyPair.publicKey.serialized);
      kyberPreKey := KyberPreKeyRecord(kyberPreKeyId, now, keyPair, signature);
      kyberPreKeyStore.SaveKyberPreKey(kyberPreKeyId, kyberPreKey);
    }

    /**
     * The outcome `createPreKeyBundle` reaches from the given entropy: the
     * check of the signed pre-key's signature comes first, then the bundle is
     * assembled and accepted only if its signature is non-empty and verifies.
     */
    function BundleOutcome(e: BundleEntropy): (r: Result<PreKeyBundle, Error>)
      ensures var identity := identityKeyStore.GetIdentityKey();
              var signature := lib.sign(identity, lib.publicKeyOf(e.signedPreKeySecret).serialized);
              var verifies := lib.verify(lib.publicKeyOf(identity), lib.publicKeyOf(e.signedPreKeySecret).serialized, signature);
              && (r == Failure(SignatureCheckFailed) <==> !verifies)
              && (r == Failure(BundleCheckFailed) <==> verifies && |signature| == 0)
              && (r.Success? <==> verifies && |signature| > 0)
      ensures r.Success? ==> ValidatePreKeyBundle(lib, r.value).Success?
      ensures r.Success? ==>
        && r.value.registrationId == registrationId
        && r.value.deviceId == address.deviceId
        && r.value.identityKey == lib.publicKeyOf(identityKeyStore.GetIdentityKey())
        && r.value.preKeyId == Some(e.preKeyId as nat)
        && r.value.preKey == Some(lib.publicKeyOf(e.preKeySecret))
        && r.value.signedPreKeyId == e.signedPreKeyId
        && r.value.signedPreKey == lib.publicKeyOf(e.signedPreKeySecret)
        && r.value.kyberPreKeyId == Some(e.kyberPreKeyId as nat)
        && r.value.kyberPreKey == Some(e.kyberKeyPair.publicKey)
        && r.value.signedPreKeySignature
           == lib.sign(identityKeyStore.GetIdentityKey(), lib.publicKeyOf(e.signedPreKeySecret).serialized)
        && r.value.kyberPreKeySignature
           == Some(lib.sign(identityKeyStore.GetIdentityKey(), e.kyberKeyPair.publicKey.serialized))
    {
      var identityKey := identityKeyStore.GetIdentityKey();
      var identityPublic := lib.publicKeyOf(identityKey);
      var signed := SignedPreKeyFor(lib, identityKey, e.signedPreKeyId, e.signedPreKeySecret, e.signedAt);
      if !lib.verify(identityPublic, signed.publicKey.serialized, signed.signature) then
        Failure(SignatureCheckFailed)
      else
        var kyber := KyberPreKeyFor(lib, identityKey, e.kyberPreKeyId, e.kyberKeyPair, e.kyberAt);
        var bundle := PreKeyBundle(
          registrationId, address.deviceId,
          Some(e.preKeyId as nat), Some(lib.publicKeyOf(e.preKeySecret)),
          e.signedPreKeyId, signed.publicKey, signed.signature,
          identityPublic,
          Some(e.kyberPreKeyId as nat), Some(kyber.keyPair.publicKey), Some(kyber.signature));
        var finalVerification := |bundle.signedPreKeySignature| > 0
          && lib.verify(identityPublic, bundle.signedPreKey.serialized, bundle.signedPreKeySignature);
        if finalVerification then Success(bundle) else Failure(BundleCheckFailed)
    }

    /**
     * When the library's signatures are sound, creating a bundle can fail
     * only because the signature came out empty.
     */
    lemma BundleOutcomeWithSoundSignatures(e: BundleEntropy)
      requires SignaturesVerify(lib)
      ensures BundleOutcome(e) != Failure(SignatureCheckFailed)
      ensures BundleOutcome(e).Success? <==>
        |lib.sign(identityKeyStore.GetIdentityKey(), lib.publicKeyOf(e.signedPreKeySecret).serialized)| > 0
    {
      var identity := identityKeyStore.GetIdentityKey();
      var m := lib.publicKeyOf(e.signedPreKeySecret).serialized;
      assert lib.verify(lib.publicKeyOf(identity), m, lib.sign(identity, m));
    }

    /**
     * The Kyber pre-key signature in a returned bundle is never checked
     * before the bundle is handed out; when the library's signatures are
     * sound it verifies under the bundle's identity key all the same.
     */
    lemma KyberSignatureVerifiesWithSoundSignatures(e: BundleEntropy)
      requires SignaturesVerify(lib)
      requires BundleOutcome(e).Success?
      ensures var b := BundleOutcome(e).value;
              b.kyberPreKey.Some? && b.kyberPreKeySignature.Some?
              && lib.verify(b.identityKey, b.kyberPreKey.value.serialized, b.kyberPreKeySignature.value)
    {
      var identity := identityKeyStore.GetIdentityKey();
      var m := e.kyberKeyPair.publicKey.serialized;
      assert lib.verify(lib.publicKeyOf(identity), m, lib.sign(identity, m));
    }

    /**
     * `createPreKeyBundle`: generates and saves a one-time pre-key and a
     * signed pre-key under the drawn ids; if the signed pre-key's signature
     * does not verify, throws before any Kyber key is made; otherwise makes
     * and saves the Kyber pre-key, assembles the bundle and returns it only
     * if the final check passes.
     */
    method CreatePreKeyBundle(e: BundleEntropy) returns (r: Result<PreKeyBundle, Error>)
      modifies preKeyStore, signedPreKeyStore, kyberPreKeyStore
      ensures r == BundleOutcome(e)
      ensures preKeyStore.store == old(preKeyStore.store)[e.preKeyId := PreKeyFor(lib, e.preKeyId, e.preKeySecret)]
      ensures signedPreKeyStore.store == old(signedPreKeyStore.store)[e.signedPreKeyId :=
        SignedPreKeyFor(lib, identityKeyStore.GetIdentityKey(), e.signedPreKeyId, e.signedPreKeySecret, e.signedAt)]
      ensures kyberPreKeyStore.store ==
        if r == Failure(SignatureCheckFailed) then old(kyberPreKeyStore.store)
        else old(kyberPreKeyStore.store)[e.kyberPreKeyId :=
          KyberPreKeyFor(lib, identityKeyStore.GetIdentityKey(), e.kyberPreKeyId, e.kyberKeyPair, e.kyberAt)]
    {
      var identityKey := identityKeyStore.GetIdentityKey();
      var preKeys := GeneratePreKeys(e.preKeyId, 1, _ => e.preKeySecret);
      assert PreKeysFor(lib, e.preKeyId, e.preKeyId + 1, _ => e.preKeySecret)
          == map[e.preKeyId as nat := PreKeyFor(lib, e.preKeyId, e.preKeySecret)];
      var preKey := preKeys[0];
      var signedPreKey := GenerateSignedPreKey(identityKey, e.signedPreKeyId, e.signedPreKeySecret, e.signedAt);
      var identityPublic := lib.publicKeyOf(identityKey);
      var signatureVerification := lib.verify(identityPublic, signedPreKey.publicKey.serialized, signedPreKey.signature);
      if !signatureVerification {
        return Failure(SignatureCheckFailed);
      }
      var kyberPreKey := GenerateKyberPreKey(identityKey, e.kyberPreKeyId, e.kyberKeyPair, e.kyberAt);
      var bundle := PreKeyBundle(
        registrationId, address.deviceId,
        Some(e.preKeyId as nat), Some(preKey.publicKey),
        e.signedPreKeyId, signedPreKey.publicKey, signedPreKey.signature,
        identityPublic,
        Some(e.kyberPreKeyId as nat), Some(kyberPreKey.keyPair.publicKey), Some(kyberPreKey.signature));
      var finalVerification := |bundle.signedPreKeySignature| > 0
        && lib.verify(identityPublic, bundle.signedPreKey.serialized, bundle.signedPreKeySignature);
      if !finalVerification {
        return Failure(BundleCheckFailed);
      }
      return Success(bundle);
    }

    /**
     * `processPreKeyBundle`: files the bundle's identity key under the
     * recipient first, then runs the library's handshake, which on success
     * stores the new session. A failed handshake is rethrown and the saved
     * identity stays.
     */
    method ProcessPreKeyBundle(bundle: PreKeyBundle, recipient: Address, now: nat) returns (r: Result<(), Error>)
      modifies identityKeyStore, sessionStore
      ensures identityKeyStore.store == old(identityKeyStore.store)[recipient.ToString() := bundle.identityKey]
      ensures var outcome := lib.processBundle(bundle, recipient, old(sessionStore.GetSession(recipient)), now);
              match outcome
              case Success(session) =>
                r.Success? && sessionStore.store == old(sessionStore.store)[recipient.ToString() := session]
                && (HasSession(recipient) <==> session.HasCurrentState())
              case Failure(message) =>
                r == Failure(LibraryError(message)) && sessionStore.store == old(sessionStore.store)
    {
      var identityKey := bundle.identityKey;
      var _ := identityKeyStore.SaveIdentity(recipient, identityKey);
      var outcome := lib.processBundle(bundle, recipient, sessionStore.GetSession(recipient), now);
      match outcome
      case Success(session) =>
        sessionStore.SaveSession(recipient, session);
        r := Success(());
      case Failure(message) =>
        r := Failure(LibraryError(message));
    }

    /**
     * `encryptMessage`: one ratchet step of the session with the recipient;
     * the advanced session is stored and the serialized ciphertext returned.
     * A library error is rethrown and the session is left as it was.
     */
    method EncryptMessage(recipient: Address, message: Bytes) returns (r: Result<Bytes, Error>)
      modifies sessionStore
      ensures var outcome := lib.encrypt(message, recipient, old(sessionStore.GetSession(recipient)));
              match outcome
              case Success(step) =>
                r == Success(step.output) && sessionStore.store == old(sessionStore.store)[recipient.ToString() := step.session]
              case Failure(error) =>
                r == Failure(LibraryError(error)) && sessionStore.store == old(sessionStore.store)
    {
      var outcome := lib.encrypt(message, recipient, sessionStore.GetSession(recipient));
      match outcome
      case Success(step) =>
        sessionStore.SaveSession(recipient, step.session);
        r := Success(step.output);
      case Failure(error) =>
        r := Failure(LibraryError(error));
    }

    /**
     * `decryptMessage`: tries the message as a `SignalMessage` on the
     * existing session; only if that throws does it try it as a
     * `PreKeySignalMessage`, which may set up the session, record the
     * sender's identity and consume a one-time pre-key. When both fail, the
     * second error is the one thrown.
     */
    method DecryptMessage(sender: Address, encrypted: Bytes) returns (r: Result<Bytes, Error>)
      modifies sessionStore, preKeyStore, identityKeyStore
      ensures var session := old(sessionStore.GetSession(sender));
              var first := lib.decryptSignal(encrypted, sender, session);
              var second := lib.decryptPreKey(encrypted, sender, session, old(preKeyStore.store),
                                              old(signedPreKeyStore.store), old(kyberPreKeyStore.store));
              match first
              case Success(step) =>
                && r == Success(step.output)
                && sessionStore.store == old(sessionStore.store)[sender.ToString() := step.session]
                && preKeyStore.store == old(preKeyStore.store)
                && identityKeyStore.store == old(identityKeyStore.store)
              case Failure(_) =>
                match second
                case Success(d) =>
                  && r == Success(d.plaintext)
                  && sessionStore.store == old(sessionStore.store)[sender.ToString() := d.session]
                  && identityKeyStore.store == old(identityKeyStore.store)[sender.ToString() := d.senderIdentity]
                  && preKeyStore.store == (if d.consumedPreKeyId.Some? then old(preKeyStore.store) - {d.consumedPreKeyId.value}
                                           else old(preKeyStore.store))
                case Failure(preKeyError) =>
                  && r == Failure(LibraryError(preKeyError))
                  && sessionStore.store == old(sessionStore.store)
                  && preKeyStore.store == old(preKeyStore.store)
                  && identityKeyStore.store == old(identityKeyStore.store)
    {
      var session := sessionStore.GetSession(sender);
      var first := lib.decryptSignal(encrypted, sender, session);
      if first.Success? {
        sessionStore.SaveSession(sender, first.value.session);
        return Success(first.value.output);
      }
      var second := lib.decryptPreKey(encrypted, sender, session, preKeyStore.store,
                                      signedPreKeyStore.store, kyberPreKeyStore.store);
      match second
      case Success(d) =>
        var _ := identityKeyStore.SaveIdentity(sender, d.senderIdentity);
        sessionStore.SaveSession(sender, d.session);
        if d.consumedPreKeyId.Some? {
          preKeyStore.RemovePreKey(d.consumedPreKeyId.value);
        }
        r := Success(d.plaintext);
      case Failure(preKeyError) =>
        r := Failure(LibraryError(preKeyError));
    }

    /** `hasSession`: a session is stored for the address and it has a current state. */
    function HasSession(recipient: Address): (r: bool)
      reads sessionStore
      ensures r <==> recipient.ToString() in sessionStore.store
                     && sessionStore.store[recipient.ToString()].HasCurrentState()
    {
      var session := sessionStore.GetSession(recipient);
      session.Some? && session.value.HasCurrentState()
    }
  }
}
