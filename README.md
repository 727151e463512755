# Signal-protocol session layer, modelled in Dafny

This project models the protocol core of a small service built on the Signal
protocol library (`@signalapp/libsignal-client`). The core does bookkeeping
around the library's cryptography:

- **Key stores.** Five in-memory stores hold sessions, one-time pre-keys,
  signed pre-keys, Kyber pre-keys and peer identities. Sessions and
  identities are keyed by the address's `name.deviceId` string; the other
  three are keyed by numeric id.
- **Protocol manager.** It generates keys and signs them with the identity
  key, assembles and checks pre-key bundles, runs the session handshake,
  and encrypts and decrypts messages.
- **Pre-key pool.** It keeps a standing stock of bundles under ids from a
  growing counter and hands them out oldest first.
- **Bundle codec.** It turns a bundle into a JSON record of Base64 strings
  and back.

The cryptography stays opaque. Every library call is a field of the
`SignalTypes.Library` record: key derivation, signing, verification, the
handshake, encryption and both decryption paths. Each call that can throw
returns a `Result`. Keys are represented by their serialized bytes.

Randomness and clocks are parameters:
- `PrivateKey.generate`, `KEMKeyPair.generate`, `Math.random` and `Date.now`
  become arguments: `ProtocolManager.BundleEntropy` for bundle creation,
  `newKey` for `GeneratePreKeys`, `privateKey` for `GenerateIdentityKeyPair`
  and `GenerateSignedPreKey`, `keyPair` for `GenerateKyberPreKey`, and `now`
  for the timestamps and the handshake.
- The pool takes a function giving the entropy for each id it files a
  bundle under.

Four behaviours of the code worth noting:
- `saveIdentity` returns `!existing?.compare(key)`. That is true when no key
  was known or the known key is equal, and false when it differs. It is not
  a "changed" flag.
- The pool decides on a refill from its size *before* a withdrawal.
- An optional bundle field whose bytes are empty is sent as `null`, because
  of `|| null`. It is not sent as an empty string.
- `createPreKeyBundle` checks the signed pre-key's signature twice but never
  checks the Kyber pre-key's signature before it hands the bundle out.

Base64 is RFC 4648 section 4, modelled in two layers:
- bytes to 6-bit digits, which is all the arithmetic;
- digits to the 64-letter alphabet and `=`.

It is proved a round trip in both directions: `Base64.DecodeEncode` and
`Base64.EncodeDecode`.

Modules, one per file: `Wrappers` (Option, Result), `Base64`, `SignalTypes`,
`KeyStores`, `ProtocolManager`, `PreKeyPool`, `BundleCodec`.

## Model

| member | source | states |
|---|---|---|
| `Base64.DecodeEncode` | src/protocol/utils.ts:11-13 | decoding the Base64 text of any byte sequence gives back exactly those bytes |
| `Base64.EncodeDecode` | src/protocol/utils.ts:28-30 | any text the decoder accepts is exactly the encoding of what it decodes to |
| `Base64.DecodeIffEncode` | src/protocol/utils.ts:28-30 | text decodes to given bytes if and only if those bytes encode to that text |
| `Base64.EncodeLength` | src/protocol/utils.ts:11-13 | the encoding of n bytes is 4 * ceil(n / 3) characters long |
| `Base64.EncodeEmptyIff` | src/protocol/utils.ts:9 | the encoding is the empty string exactly when the bytes are empty, which is when the null fallback of the serializer fires |
| `SignalTypes.CompareKeysZeroIffEqual` | src/protocol/key-stores.ts:114 | the key comparison returns 0 if and only if the two keys are the same |
| `SignalTypes.AddressKeyInjective` | src/protocol/key-stores.ts:20-26 | two addresses have the same `toString()` key if and only if they are the same address, so no two addresses share a store slot |
| `KeyStores.SessionStore.constructor` | src/protocol/key-stores.ts:17-18 | a new session store holds no records |
| `KeyStores.SessionStore.GetSession` | src/protocol/key-stores.ts:24-26 | null exactly when no record is filed under the address, the filed record otherwise |
| `KeyStores.SessionStore.SaveSession` | src/protocol/key-stores.ts:20-22 | upsert: the address now reads back the record; every other address reads as before |
| `KeyStores.SessionStore.GetExistingSessions` | src/protocol/key-stores.ts:28-32 | at most one record per input address; each comes from an input address; none when no address has a session |
| `KeyStores.SessionStore.GetExistingSessionsAppend` | src/protocol/key-stores.ts:28-32 | the result for a concatenation is the concatenation of the results, so input order is kept |
| `KeyStores.SessionStore.GetExistingSessionsAllPresent` | src/protocol/key-stores.ts:28-32 | when all addresses have sessions, the i-th result is the i-th address's record |
| `KeyStores.PreKeyStore.constructor` | src/protocol/key-stores.ts:35-36 | a new pre-key store holds no records |
| `KeyStores.PreKeyStore.GetPreKey` | src/protocol/key-stores.ts:42-48 | the filed record when the id is present, otherwise the "PreKey id not found" error; never null |
| `KeyStores.PreKeyStore.SavePreKey` | src/protocol/key-stores.ts:38-40 | upsert: the id now reads back the record; all other ids read as before |
| `KeyStores.PreKeyStore.RemovePreKey` | src/protocol/key-stores.ts:50-52 | only the id is removed; it then reads as not found; removing an absent id changes nothing |
| `KeyStores.SignedPreKeyStore.constructor` | src/protocol/key-stores.ts:55-56 | a new signed-pre-key store holds no records |
| `KeyStores.SignedPreKeyStore.GetSignedPreKey` | src/protocol/key-stores.ts:62-68 | the filed record, or the "SignedPreKey id not found" error when absent |
| `KeyStores.SignedPreKeyStore.SaveSignedPreKey` | src/protocol/key-stores.ts:58-60 | upsert of the id, other ids unchanged |
| `KeyStores.KyberPreKeyStore.constructor` | src/protocol/key-stores.ts:71-72 | a new Kyber-pre-key store holds no records |
| `KeyStores.KyberPreKeyStore.GetKyberPreKey` | src/protocol/key-stores.ts:78-84 | the filed record, or the "KyberPreKey id not found" error when absent |
| `KeyStores.KyberPreKeyStore.SaveKyberPreKey` | src/protocol/key-stores.ts:74-76 | upsert of the id, other ids unchanged |
| `KeyStores.KyberPreKeyStore.MarkKyberPreKeyUsed` | src/protocol/key-stores.ts:86-88 | leaves the store as it was |
| `KeyStores.SameOrFirstIdentity` | src/protocol/key-stores.ts:114 | `!existing?.compare(key)` is true if and only if no key was known or the known key equals the new one |
| `KeyStores.IdentityKeyStore.constructor` | src/protocol/key-stores.ts:96-109 | `getIdentityKey` and `getLocalRegistrationId` return the constructor's arguments; no identities known |
| `KeyStores.IdentityKeyStore.GetIdentity` | src/protocol/key-stores.ts:125-127 | null exactly when no key was saved for the address |
| `KeyStores.IdentityKeyStore.SaveIdentity` | src/protocol/key-stores.ts:111-115 | always stores the new key, other addresses unchanged; returns true if and only if the old key was absent or equal |
| `KeyStores.IdentityKeyStore.IsTrustedIdentity` | src/protocol/key-stores.ts:117-123 | every identity is trusted |
| `ProtocolManager.ValidatePreKeyBundle` | src/protocol/index.ts:285-312 | succeeds if and only if the bundle's identity key verifies its signed-pre-key signature; otherwise fails with the bundle-signature error |
| `ProtocolManager.SignalProtocolManager.constructor` | src/protocol/index.ts:39-56 | keeps the registration id, the address built from name and device id, and the five stores |
| `ProtocolManager.SignalProtocolManager.GenerateIdentityKeyPair` | src/protocol/index.ts:58-62 | the pair's public key is the public half of its private key; no store changes |
| `ProtocolManager.SignalProtocolManager.GeneratePreKeys` | src/protocol/index.ts:64-74 | max(count, 0) records with ids start, start+1, … in order; the store gains exactly those ids with those records |
| `ProtocolManager.SignalProtocolManager.GenerateSignedPreKey` | src/protocol/index.ts:76-106 | the record signs the fresh public key with the identity key and is saved under its id, whatever the self-check says |
| `ProtocolManager.SignalProtocolManager.GenerateKyberPreKey` | src/protocol/index.ts:169-186 | the record signs the KEM public key with the identity key and is saved under its id |
| `ProtocolManager.SignalProtocolManager.BundleOutcome` | src/protocol/index.ts:108-167 | signature-check failure exactly when the identity key does not verify the signature; final-check failure exactly when it verifies but is empty; a returned bundle carries the drawn ids, the generated public keys, the identity's public key and the identity key's signatures over the signed pre-key and the Kyber pre-key, and passes `validatePreKeyBundle` |
| `ProtocolManager.SignalProtocolManager.KyberSignatureVerifiesWithSoundSignatures` | src/protocol/index.ts:135-149 | the Kyber pre-key signature in a returned bundle is never checked, yet verifies under the bundle's identity key when the library's signatures are sound |
| `ProtocolManager.SignalProtocolManager.BundleOutcomeWithSoundSignatures` | src/protocol/index.ts:124-161 | if the library's signatures verify, creation never fails the first check and succeeds exactly when the signature is non-empty |
| `ProtocolManager.SignalProtocolManager.CreatePreKeyBundle` | src/protocol/index.ts:108-167 | returns `BundleOutcome`; saves the pre-key and the signed pre-key under the drawn ids; saves the Kyber pre-key only if the first check passed |
| `ProtocolManager.SignalProtocolManager.ProcessPreKeyBundle` | src/protocol/index.ts:188-224 | the bundle's identity key is saved under the recipient in every case; on handshake success the new session is stored; on failure the error is rethrown and the saved identity stays |
| `ProtocolManager.SignalProtocolManager.EncryptMessage` | src/protocol/index.ts:226-243 | on success returns the ciphertext and stores the advanced session; on failure rethrows and leaves the session |
| `ProtocolManager.SignalProtocolManager.DecryptMessage` | src/protocol/index.ts:245-278 | the pre-key path runs only when the session path fails; a session-path success is returned unchanged; when both fail, the pre-key error is thrown and no store changes |
| `ProtocolManager.SignalProtocolManager.HasSession` | src/protocol/index.ts:280-283 | true if and only if a session is stored for the address and it has a current state |
| `PreKeyPool.OldestIsSmallest` | src/protocol/prekey-pool.ts:37-39 | in a pool with ascending ids the first (oldest) entry has the smallest id |
| `PreKeyPool.MapSet` | src/protocol/prekey-pool.ts:26 | after `set` the new entry is present; every entry under another key stays; nothing new appears besides it; when keys are distinct, it is the only entry under its key |
| `PreKeyPool.MapSetPresent` | src/protocol/prekey-pool.ts:26 | setting a key the map holds replaces that entry in its place and leaves every other entry where it was |
| `PreKeyPool.MapSetFresh` | src/protocol/prekey-pool.ts:26 | setting a key the map does not hold appends it at the end of the iteration order |
| `PreKeyPool.MapDelete` | src/protocol/prekey-pool.ts:45 | `delete` only removes entries; every entry under another key stays; when keys are distinct, no entry under the key is left |
| `PreKeyPool.MapDeletePresent` | src/protocol/prekey-pool.ts:45 | deleting a key the map holds removes exactly its entry, the others keeping their order |
| `PreKeyPool.MapDeleteAbsent` | src/protocol/prekey-pool.ts:45 | deleting a key the map does not hold changes nothing |
| `PreKeyPool.Withdraw` | src/protocol/prekey-pool.ts:37-46 | an empty pool gives "No prekeys available" and stays empty; otherwise the first bundle is returned and exactly the rest remain |
| `PreKeyPool.WithdrawManyInOrder` | src/protocol/prekey-pool.ts:37-46 | n successive withdrawals return the bundles in insertion order, then fail once the pool is empty |
| `PreKeyPool.PreKeyPool.constructor` | src/protocol/prekey-pool.ts:8-16 | an empty pool with the counter at 0 |
| `PreKeyPool.PreKeyPool.RefillPool` | src/protocol/prekey-pool.ts:22-29 | appends bundles filed under consecutive counter values, each the outcome of bundle creation; on success the size is max(old size, 100); a failed creation stops the refill with that error; ids stay ascending and below the counter |
| `PreKeyPool.PreKeyPool.Initialize` | src/protocol/prekey-pool.ts:18-20 | the old entries stay first; the added entries are filed under consecutive counter values, each the outcome of bundle creation, and the counter advances by their number; on success the pool holds at least 100 bundles, exactly 100 if it held at most 100; a failure is the error of the bundle creation at the counter, with the pool below 100 |
| `PreKeyPool.PreKeyPool.GetPreKeyBundle` | src/protocol/prekey-pool.ts:31-47 | a refill is requested if and only if the size before withdrawal is below 20; returns and removes the oldest, smallest-id bundle; an empty pool fails and is unchanged |
| `BundleCodec.OrNull` | src/protocol/utils.ts:9 | the null fallback yields null for an absent value and for the empty string, the value itself otherwise |
| `BundleCodec.EncodeOptional` | src/protocol/utils.ts:15-16 | an optional byte field is sent as null if and only if it is absent or empty, as its Base64 text otherwise |
| `BundleCodec.SerializePreKeyBundle` | src/protocol/utils.ts:4-18 | ids are copied verbatim; mandatory keys and signature decode back to their bytes; each optional field is null exactly when absent or empty, and otherwise decodes back to its bytes |
| `BundleCodec.DecodeField` | src/protocol/utils.ts:28-30 | succeeds exactly on Base64 text and returns the bytes that encode back to it |
| `BundleCodec.DecodeOptional` | src/protocol/utils.ts:32-33 | null and "" read as absent; other text reads as the bytes it encodes; fails exactly when the text is neither null, "" nor Base64 |
| `BundleCodec.DeserializePreKeyBundle` | src/protocol/utils.ts:21-35 | ids are copied back verbatim; the mandatory fields are the bytes whose encodings were sent; an optional field is absent exactly when it was null or "", and otherwise holds the bytes whose encoding was sent; succeeds exactly when every mandatory field is Base64 and every optional one is null, "" or Base64; a bad `preKey` is the error reported |
| `BundleCodec.DropEmptyOptionals` | src/protocol/utils.ts:15-16 | only the three optional fields change, each dropped exactly when absent or empty and kept as it was otherwise |
| `BundleCodec.OptionalRoundTrip` | src/protocol/utils.ts:26 | decoding an encoded optional field gives it back unless its bytes were empty |
| `BundleCodec.SerializeRoundTrip` | src/protocol/utils.ts:4-35 | deserialize after serialize gives back every id, every mandatory key and signature, and every non-empty optional field |
| `BundleCodec.SerializeRoundTripExact` | src/protocol/utils.ts:4-35 | with no empty optional field, deserialize after serialize is the identity |
| `BundleCodec.DeserializeRoundTrip` | src/protocol/utils.ts:21-35 | serialize after a successful deserialize gives the JSON back, with empty optional strings as null |
| `BundleCodec.OptionalInverse` | src/protocol/utils.ts:32-33 | encoding a decoded optional field gives its text back, "" as null |
| `BundleCodec.ValidationSurvivesTransport` | src/protocol/utils.ts:21-35 | `validatePreKeyBundle` gives the same verdict on a bundle before and after the trip through JSON |

## Left out

- Transport (`src/index.ts`), the demo script (`src/example.ts`) and API-document generation (`src/generate-swagger.ts`) are not part of this model.
- Library internals: key agreement, the ratchet, signatures and message formats are opaque functions in `SignalTypes.Library`. Only the lemmas `ProtocolManager.SignalProtocolManager.BundleOutcomeWithSoundSignatures` and `ProtocolManager.SignalProtocolManager.KyberSignatureVerifiesWithSoundSignatures` take a property of them, the hypothesis `ProtocolManager.SignaturesVerify`. The shape of `Library` does fix two things, however: a failing call writes nothing, and a successful call writes only what it returns.
- Library failures in constructors and parsers are not modelled. `PublicKey.deserialize`, `KEMPublicKey.deserialize` and `PreKeyBundle.new` can reject malformed bytes; with keys represented by their bytes, these never fail in the model.
- The library's own use of the stores is not modelled as calls. The handshake and both decrypt paths receive the current session (and, for a pre-key message, the pre-key store contents) as values. They return what the library then writes, and the manager performs those writes. The handshake returns the new session. Encryption and the session path of decryption return the advanced session. Only the pre-key path also returns the sender's identity and the id of the consumed one-time pre-key. The library's `markKyberPreKeyUsed` call is a no-op and is left out.
- BundleCodec.DecodeField: Node's `Buffer.from(text, 'base64')` is lenient. It skips stray characters and accepts missing padding. The model's decoder is strict and reports `InvalidBase64` on any text that is not a canonical encoding. The following hold only for this strict decoder: `Base64.EncodeDecode`, `Base64.DecodeIffEncode`, `BundleCodec.DecodeOptional`, the success condition of `BundleCodec.DeserializePreKeyBundle`, `BundleCodec.DeserializeRoundTrip` and `BundleCodec.OptionalInverse`. For example, Node decodes "QQ" to the single byte 0x41, which encodes back as "QQ==".
- UTF-8 conversion of message text in `encryptMessage` and `decryptMessage` is left out: messages are byte sequences.
- Number width: ids, registration ids and timestamps are unbounded naturals. The library's 32-bit range checks are not modelled, and `ProtocolManager.SignalProtocolManager.GeneratePreKeys` takes a non-negative `start`.
- Asynchrony: every `await` is a plain sequential step. The fire-and-forget refill in `getPreKeyBundle` is the flag `refillRequested`; the caller runs `RefillPool` itself. Interleaving of a refill with withdrawals is not modelled.
- PreKeyPool.PreKeyPool.RefillPool: does not restate the writes each bundle creation makes to the manager's key stores. `CreatePreKeyBundle` states them.
- PreKeyPool.PreKeyPool.Initialize: runs one refill, so for the same reason it does not restate the pre-key, signed-pre-key and Kyber-pre-key writes of the bundles it creates.
- KeyStores.SameOrFirstIdentity: captures the returned boolean as written. How the library interprets that boolean is outside this model.
- SignalTypes.CompareKeys: `PublicKey.compare` is modelled as lexicographic comparison of the serialized bytes. The library's own ordering is not visible here, so `CompareKeysZeroIffEqual` holds by this definition rather than by anything proved about the library.
- ProtocolManager.SignalProtocolManager.EncryptMessage: `signalEncrypt` is handed the identity store as well, and any identity it records is not modelled. That the session is left as it was on failure holds because a failing library call writes nothing in the model.
- ProtocolManager.SignalProtocolManager.DecryptMessage: `signalDecrypt` on the session path is handed the identity store, and any identity it records is not modelled, so the identity store is unchanged there in the model. That no store changes when both paths fail holds because a failing library call writes nothing in the model.
- ProtocolManager.SignalProtocolManager.ProcessPreKeyBundle: the library's `processPreKeyBundle` is handed the identity store, and any identity it records beyond the manager's own save is not modelled. A failing handshake writes no session in the model.
- Console logging is left out. This includes the logged-only self-check in `generateSignedPreKey`, which the model computes and discards.
