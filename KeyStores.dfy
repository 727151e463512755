/**
 * The five in-memory stores the protocol layer hands to the library. Each
 * holds one map that its save and remove methods update in place; getters
 * only read it. Session and identity stores key an address by its
 * `toString()` form, the pre-key stores by numeric id.
 */
module KeyStores {
  import opened Wrappers
  import opened SignalTypes

  /** `InMemorySessionStore`. */
  class SessionStore {
    var store: map<string, SessionRecord>

    constructor ()
      ensures store == map[]
    {
      store := map[];
    }

    /** `getSession`: the record filed under the address, `None` (null) when there is none. */
    function GetSession(name: Address): (r: Option<SessionRecord>)
      reads this
      ensures r.Some? <==> name.ToString() in store
      ensures r.Some? ==> r.value == store[name.ToString()]
    {
      if name.ToString() in store then Some(store[name.ToString()]) else None
    }

    /** `saveSession`: an unconditional upsert under the address. */
    method SaveSession(name: Address, record: SessionRecord)
      modifies this
      ensures store == old(store)[name.ToString() := record]
      ensures GetSession(name) == Some(record)
      ensures forall other: Address :: other != name ==> GetSession(other) == old(GetSession(other))
    {
      store := store[name.ToString() := record];
      forall other: Address | other != name
        ensures GetSession(other) == old(GetSession(other))
      {
        AddressKeyInjective(other, name);
      }
    }

    /**
     * `getExistingSessions`: the records of those addresses that have one,
     * in the order of the input, missing ones skipped.
     */
    function GetExistingSessions(addresses: seq<Address>): (r: seq<SessionRecord>)
      reads this
      decreases addresses
      ensures |r| <= |addresses|
      ensures forall rec :: rec in r ==> exists a :: a in addresses && GetSession(a) == Some(rec)
      ensures (forall a :: a in addresses ==> GetSession(a).None?) ==> r == []
    {
      if addresses == [] then []
      else
        var rest := GetExistingSessions(addresses[1..]);
        assert forall a :: a in addresses[1..] ==> a in addresses;
        match GetSession(addresses[0])
        case Some(rec) => [rec] + rest
        case None => rest
    }

    /** Looking up a concatenation looks up each part in turn: input order is kept. */
    lemma {:induction false} GetExistingSessionsAppend(xs: seq<Address>, ys: seq<Address>)
      ensures GetExistingSessions(xs + ys) == GetExistingSessions(xs) + GetExistingSessions(ys)
    {
      if xs == [] {
        assert xs + ys == ys;
      } else {
        assert (xs + ys)[0] == xs[0];
        assert (xs + ys)[1..] == xs[1..] + ys;
        GetExistingSessionsAppend(xs[1..], ys);
      }
    }

    /** When every address has a session, the result lines up with the input one to one. */
    lemma {:induction false} GetExistingSessionsAllPresent(addresses: seq<Address>)
      requires forall a :: a in addresses ==> a.ToString() in store
      ensures |GetExistingSessions(addresses)| == |addresses|
      ensures forall i :: 0 <= i < |addresses| ==>
        GetExistingSessions(addresses)[i] == store[addresses[i].ToString()]
    {
      if addresses != [] {
        assert forall a :: a in addresses[1..] ==> a in addresses;
        GetExistingSessionsAllPresent(addresses[1..]);
        var r := GetExistingSessions(addresses);
        assert r == [store[addresses[0].ToString()]] + GetExistingSessions(addresses[1..]);
        forall i | 0 <= i < |addresses|
          ensures r[i] == store[addresses[i].ToString()]
        {
          if i > 0 {
            assert r[i] == GetExistingSessions(addresses[1..])[i - 1];
          }
        }
      }
    }
  }

  /** `InMemoryPreKeyStore`. */
  class PreKeyStore {
    var store: map<nat, PreKeyRecord>

    constructor ()
      ensures store == map[]
    {
      store := map[];
    }

    /** `getPreKey`: the stored record, or the error "PreKey id not found"; never null. */
    function GetPreKey(id: nat): (r: Result<PreKeyRecord, Error>)
      reads this
      ensures r.Success? <==> id in store
      ensures r.Success? ==> r.value == store[id]
      ensures r.Failure? ==> r.error == PreKeyNotFound(id)
    {
      if id in store then Success(store[id]) else Failure(PreKeyNotFound(id))
    }

    /** `savePreKey`: an unconditional upsert; every other id keeps its record. */
    method SavePreKey(id: nat, record: PreKeyRecord)
      modifies this
      ensures store == old(store)[id := record]
      ensures GetPreKey(id) == Success(record)
      ensures forall k :: k != id ==> GetPreKey(k) == old(GetPreKey(k))
    {
      store := store[id := record];
    }

    /** `removePreKey`: deletes `id` alone; removing an absent id changes nothing. */
    method RemovePreKey(id: nat)
      modifies this
      ensures store == old(store) - {id}
      ensures GetPreKey(id) == Failure(PreKeyNotFound(id))
      ensures forall k :: k != id ==> GetPreKey(k) == old(GetPreKey(k))
      ensures id !in old(store) ==> store == old(store)
    {
      store := store - {id};
    }
  }

  /** `InMemorySignedPreKeyStore`. */
  class SignedPreKeyStore {
    var store: map<nat, SignedPreKeyRecord>

    constructor ()
      ensures store == map[]
    {
      store := map[];
    }

    /** `getSignedPreKey`: the stored record, or the error "SignedPreKey id not found". */
    function GetSignedPreKey(id: nat): (r: Result<SignedPreKeyRecord, Error>)
      reads this
      ensures r.Success? <==> id in store
      ensures r.Success? ==> r.value == store[id]
      ensures r.Failure? ==> r.error == SignedPreKeyNotFound(id)
    {
      if id in store then Success(store[id]) else Failure(SignedPreKeyNotFound(id))
    }

    /** `saveSignedPreKey`: an unconditional upsert; every other id keeps its record. */
    method SaveSignedPreKey(id: nat, record: SignedPreKeyRecord)
      modifies this
      ensures store == old(store)[id := record]
      ensures GetSignedPreKey(id) == Success(record)
      ensures forall k :: k != id ==> GetSignedPreKey(k) == old(GetSignedPreKey(k))
    {
      store := store[id := record];
    }
  }

  /** `InMemoryKyberPreKeyStore`. */
  class KyberPreKeyStore {
    var store: map<nat, KyberPreKeyRecord>

    constructor ()
      ensures store == map[]
    {
      store := map[];
    }

    /** `getKyberPreKey`: the stored record, or the error "KyberPreKey id not found". */
    function GetKyberPreKey(id: nat): (r: Result<KyberPreKeyRecord, Error>)
      reads this
      ensures r.Success? <==> id in store
      ensures r.Success? ==> r.value == store[id]
      ensures r.Failure? ==> r.error == KyberPreKeyNotFound(id)
    {
      if id in store then Success(store[id]) else Failure(KyberPreKeyNotFound(id))
    }

    /** `saveKyberPreKey`: an unconditional upsert; every other id keeps its record. */
    method SaveKyberPreKey(id: nat, record: KyberPreKeyRecord)
      modifies this
      ensures store == old(store)[id := record]
      ensures GetKyberPreKey(id) == Success(record)
      ensures forall k :: k != id ==> GetKyberPreKey(k) == old(GetKyberPreKey(k))
    {
      store := store[id := record];
    }

    /** `markKyberPreKeyUsed`: only logs; the key stays in the store. */
    method MarkKyberPreKeyUsed(id: nat)
      ensures unchanged(this)
    {
    }
  }

  /**
   * The value `saveIdentity` returns, `!existing?.compare(publicKey)`: true
   * when no key was known or the known key is the same one, false when it
   * differs. It does not say whether anything changed.
   */
  function SameOrFirstIdentity(existing: Option<PublicKey>, publicKey: PublicKey): (r: bool)
    ensures r <==> existing == None || existing == Some(publicKey)
  {
    match existing
    case None => true
    case Some(known) =>
      CompareKeysZeroIffEqual(known.serialized, publicKey.serialized);
      CompareKeys(known.serialized, publicKey.serialized) == 0
  }

  /** `InMemoryIdentityKeyStore`: this user's identity and the identities seen of others. */
  class IdentityKeyStore {
    const identityKey: PrivateKey
    const registrationId: nat
    var store: map<string, PublicKey>

    constructor (identityKey: PrivateKey, registrationId: nat)
      ensures GetIdentityKey() == identityKey
      ensures GetLocalRegistrationId() == registrationId
      ensures store == map[]
    {
      this.identityKey := identityKey;
      this.registrationId := registrationId;
      store := map[];
    }

    /** `getIdentityKey`: the private identity key given at construction. */
    function GetIdentityKey(): PrivateKey {
      identityKey
    }

    /** `getLocalRegistrationId`: the registration id given at construction. */
    function GetLocalRegistrationId(): nat {
      registrationId
    }

    /** `getIdentity`: the key last saved for the address, `None` (null) when none was. */
    function GetIdentity(name: Address): (r: Option<PublicKey>)
      reads this
      ensures r.Some? <==> name.ToString() in store
      ensures r.Some? ==> r.value == store[name.ToString()]
    {
      if name.ToString() in store then Some(store[name.ToString()]) else None
    }

    /**
     * `saveIdentity`: always stores the new key; reports whether the key it
     * replaced was absent or the same.
     */
    method SaveIdentity(name: Address, publicKey: PublicKey) returns (r: bool)
      modifies this
      ensures store == old(store)[name.ToString() := publicKey]
      ensures GetIdentity(name) == Some(publicKey)
      ensures forall other: Address :: other != name ==> GetIdentity(other) == old(GetIdentity(other))
      ensures r == SameOrFirstIdentity(old(GetIdentity(name)), publicKey)
      ensures r <==> old(GetIdentity(name)) == None || old(GetIdentity(name)) == Some(publicKey)
    {
      var existing := GetIdentity(name);
      store := store[name.ToString() := publicKey];
      r := SameOrFirstIdentity(existing, publicKey);
      forall other: Address | other != name
        ensures GetIdentity(other) == old(GetIdentity(other))
      {
        AddressKeyInjective(other, name);
      }
    }

    /** `isTrustedIdentity`: every identity is trusted, in either direction. */
    function IsTrustedIdentity(name: Address, publicKey: PublicKey, direction: Direction): (r: bool)
      ensures r
    {
      true
    }
  }
}
