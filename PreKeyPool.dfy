/**
 * `PreKeyPool`: a stock of ready-made pre-key bundles, filed in a map under
 * ids from a counter that only grows, handed out oldest first. The map is a
 * JavaScript `Map`, which iterates in insertion order; it is modelled as the
 * sequence of its entries in that order.
 */
module PreKeyPool {
  import opened Wrappers
  import opened SignalTypes
  import opened ProtocolManager

  const POOL_SIZE: nat := 100
  const MIN_POOL_SIZE: nat := 20

  datatype PoolEntry = PoolEntry(id: nat, bundle: PreKeyBundle)

  /** Each entry's id is larger than the one before it. */
  predicate Ascending(entries: seq<PoolEntry>) {
    forall i :: 0 < i < |entries| ==> entries[i - 1].id < entries[i].id
  }

  /** The first entry of an ascending pool has the smallest id: oldest and smallest coincide. */
  lemma {:induction false} OldestIsSmallest(entries: seq<PoolEntry>)
    requires Ascending(entries) && entries != []
    ensures forall e :: e in entries ==> entries[0].id <= e.id
  {
    if |entries| > 1 {
      var rest := entries[1..];
      assert Ascending(rest);
      OldestIsSmallest(rest);
      forall e | e in entries
        ensures entries[0].id <= e.id
      {
        if e != entries[0] {
          assert e in rest;
        }
      }
    }
  }

  /** A fresh entry above every id present keeps the pool ascending. */
  lemma AppendAscending(entries: seq<PoolEntry>, entry: PoolEntry)
    requires Ascending(entries)
    requires forall e :: e in entries ==> e.id < entry.id
    ensures Ascending(entries + [entry])
  {
    if entries != [] {
      assert entries[|entries| - 1] in entries;
    }
  }

  /** No two entries share an id, as in any `Map`. */
  predicate DistinctIds(entries: seq<PoolEntry>) {
    forall i, j :: 0 <= i < j < |entries| ==> entries[i].id != entries[j].id
  }

  /** `Map.prototype.set`: overwrites the entry in place when the key is present, appends it otherwise. */
  function MapSet(entries: seq<PoolEntry>, id: nat, bundle: PreKeyBundle): (r: seq<PoolEntry>)
    ensures PoolEntry(id, bundle) in r
    ensures forall e :: e in r ==> e in entries || e == PoolEntry(id, bundle)
    ensures forall e :: e in entries && e.id != id ==> e in r
    ensures DistinctIds(entries) ==> forall e :: e in r && e.id == id ==> e == PoolEntry(id, bundle)
  {
    if entries == [] then [PoolEntry(id, bundle)]
    else if entries[0].id == id then
      assert DistinctIds(entries) ==> forall j :: 0 < j < |entries| ==> entries[j].id != id;
      [PoolEntry(id, bundle)] + entries[1..]
    else
      assert DistinctIds(entries) ==> DistinctIds(entries[1..]);
      [entries[0]] + MapSet(entries[1..], id, bundle)
  }

  /** Setting a key the map does not hold appends it at the end. */
  lemma {:induction false} MapSetFresh(entries: seq<PoolEntry>, id: nat, bundle: PreKeyBundle)
    requires forall e :: e in entries ==> e.id != id
    ensures MapSet(entries, id, bundle) == entries + [PoolEntry(id, bundle)]
  {
    if entries != [] {
      assert forall e :: e in entries[1..] ==> e in entries;
      MapSetFresh(entries[1..], id, bundle);
      assert entries == [entries[0]] + entries[1..];
    }
  }

  /** Setting a key the map holds replaces its entry where it stands; every other entry keeps its place. */
  lemma {:induction false} MapSetPresent(entries: seq<PoolEntry>, id: nat, bundle: PreKeyBundle, k: nat)
    requires k < |entries| && entries[k].id == id
    requires forall j :: 0 <= j < k ==> entries[j].id != id
    ensures MapSet(entries, id, bundle) == entries[k := PoolEntry(id, bundle)]
  {
    if k > 0 {
      MapSetPresent(entries[1..], id, bundle, k - 1);
      assert entries[1..][k - 1 := PoolEntry(id, bundle)] == entries[k := PoolEntry(id, bundle)][1..];
    }
  }

  /** `Map.prototype.delete`: drops the entry with that key, the others keep their order. */
  function MapDelete(entries: seq<PoolEntry>, id: nat): (r: seq<PoolEntry>)
    ensures |r| <= |entries|
    ensures forall e :: e in r ==> e in entries
    ensures forall e :: e in entries && e.id != id ==> e in r
    ensures DistinctIds(entries) ==> forall e :: e in r ==> e.id != id
  {
    if entries == [] then []
    else if entries[0].id == id then
      assert DistinctIds(entries) ==> forall j :: 0 < j < |entries| ==> entries[j].id != id;
      entries[1..]
    else
      assert DistinctIds(entries) ==> DistinctIds(entries[1..]);
      [entries[0]] + MapDelete(entries[1..], id)
  }

  /** Deleting a key the map holds removes exactly its entry; the others keep their order. */
  lemma {:induction false} MapDeletePresent(entries: seq<PoolEntry>, id: nat, k: nat)
    requires k < |entries| && entries[k].id == id
    requires forall j :: 0 <= j < k ==> entries[j].id != id
    ensures MapDelete(entries, id) == entries[..k] + entries[k + 1..]
  {
    if k > 0 {
      MapDeletePresent(entries[1..], id, k - 1);
      assert entries[..k] + entries[k + 1..] == [entries[0]] + (entries[1..][..k - 1] + entries[1..][k..]);
    }
  }

  /** Deleting a key the map does not hold changes nothing. */
  lemma {:induction false} MapDeleteAbsent(entries: seq<PoolEntry>, id: nat)
    requires forall e :: e in entries ==> e.id != id
    ensures MapDelete(entries, id) == entries
  {
    if entries != [] {
      assert forall e :: e in entries[1..] ==> e in entries;
      MapDeleteAbsent(entries[1..], id);
      assert entries == [entries[0]] + entries[1..];
    }
  }

  /**
   * One withdrawal on the entries alone: the oldest bundle and the entries
   * left, or "No prekeys available" with nothing changed when there is none.
   */
  function Withdraw(entries: seq<PoolEntry>): (r: (Result<PreKeyBundle, Error>, seq<PoolEntry>))
    ensures entries == [] ==> r == (Failure(NoPreKeysAvailable), entries)
    ensures entries != [] ==> r.0 == Success(entries[0].bundle) && entries == [entries[0]] + r.1
  {
    if entries == [] then (Failure(NoPreKeysAvailable), entries)
    else (Success(entries[0].bundle), MapDelete(entries, entries[0].id))
  }

  /** What `n` successive withdrawals, with no refill between them, return. */
  function WithdrawMany(entries: seq<PoolEntry>, n: nat): (r: seq<Result<PreKeyBundle, Error>>)
    ensures |r| == n
  {
    if n == 0 then []
    else
      var (first, rest) := Withdraw(entries);
      [first] + WithdrawMany(rest, n - 1)
  }

  /**
   * Successive withdrawals hand the bundles out in the order they were
   * inserted, and fail once the pool is empty.
   */
  lemma {:induction false} WithdrawManyInOrder(entries: seq<PoolEntry>, n: nat)
    ensures forall k :: 0 <= k < n ==>
      WithdrawMany(entries, n)[k] == if k < |entries| then Success(entries[k].bundle) else Failure(NoPreKeysAvailable)
  {
    if n > 0 {
      var (first, rest) := Withdraw(entries);
      WithdrawManyInOrder(rest, n - 1);
      var r := WithdrawMany(entries, n);
      assert r == [first] + WithdrawMany(rest, n - 1);
      forall k | 0 <= k < n
        ensures r[k] == if k < |entries| then Success(entries[k].bundle) else Failure(NoPreKeysAvailable)
      {
        if k > 0 {
          assert r[k] == WithdrawMany(rest, n - 1)[k - 1];
          if entries != [] {
            assert rest == entries[1..];
          }
        }
      }
    }
  }

  class PreKeyPool {
    /** `preKeys`, in insertion order. */
    var entries: seq<PoolEntry>
    var lastPreKeyId: nat
    const manager: SignalProtocolManager

    /** Ids ascend, all lie below the counter, and every bundle passes `validatePreKeyBundle`. */
    ghost predicate Valid()
      reads this
    {
      && Ascending(entries)
      && (forall e :: e in entries ==> e.id < lastPreKeyId)
      && (forall e :: e in entries ==> ValidatePreKeyBundle(manager.lib, e.bundle).Success?)
    }

    constructor (manager: SignalProtocolManager)
      ensures Valid()
      ensures entries == [] && lastPreKeyId == 0 && this.manager == manager
    {
      entries := [];
      lastPreKeyId := 0;
      this.manager := manager;
    }

    /**
     * `refillPool`: creates bundles until the pool holds `POOL_SIZE`, filing
     * each under the current counter and then advancing it. The k-th bundle
     * is made from `entropy(id)` for the id it is filed under. A failed
     * creation ends the refill with that error, keeping what was added.
     */
    method RefillPool(entropy: nat -> BundleEntropy) returns (r: Result<(), Error>, ghost added: seq<PoolEntry>)
      requires Valid()
      modifies this, manager.preKeyStore, manager.signedPreKeyStore, manager.kyberPreKeyStore
      ensures Valid()
      ensures entries == old(entries) + added
      ensures lastPreKeyId == old(lastPreKeyId) + |added|
      ensures forall k :: 0 <= k < |added| ==>
        && added[k].id == old(lastPreKeyId) + k
        && manager.BundleOutcome(entropy(added[k].id)) == Success(added[k].bundle)
      ensures r.Success? ==> |entries| == if old(|entries|) < POOL_SIZE then POOL_SIZE else old(|entries|)
      ensures r.Failure? ==> |entries| < POOL_SIZE && manager.BundleOutcome(entropy(lastPreKeyId)) == Failure(r.error)
    {
      added := [];
      while |entries| < POOL_SIZE
        invariant Valid()
        invariant entries == old(entries) + added
        invariant lastPreKeyId == old(lastPreKeyId) + |added|
        invariant forall k :: 0 <= k < |added| ==>
          && added[k].id == old(lastPreKeyId) + k
          && manager.BundleOutcome(entropy(added[k].id)) == Success(added[k].bundle)
        invariant old(|entries|) < POOL_SIZE ==> |entries| <= POOL_SIZE
        invariant old(|entries|) >= POOL_SIZE ==> added == []
        decreases POOL_SIZE - |entries|
      {
        var bundle := manager.CreatePreKeyBundle(entropy(lastPreKeyId));
        if bundle.Failure? {
          r := Failure(bundle.error);
          return;
        }
        var entry := PoolEntry(lastPreKeyId, bundle.value);
        assert ValidatePreKeyBundle(manager.lib, entry.bundle).Success?;
        AppendAscending(entries, entry);
        var filed := MapSet(entries, lastPreKeyId, bundle.value);
        assert filed == entries + [entry] by {
          MapSetFresh(entries, lastPreKeyId, bundle.value);
        }
        entries := filed;
        added := added + [entry];
        lastPreKeyId := lastPreKeyId + 1;
      }
      r := Success(());
    }

    /** `initialize`: one refill, so a fresh pool ends up holding exactly `POOL_SIZE` bundles. */
    method Initialize(entropy: nat -> BundleEntropy) returns (r: Result<(), Error>)
      requires Valid()
      modifies this, manager.preKeyStore, manager.signedPreKeyStore, manager.kyberPreKeyStore
      ensures Valid()
      ensures |entries| >= old(|entries|) && entries[..old(|entries|)] == old(entries)
      ensures lastPreKeyId == old(lastPreKeyId) + (|entries| - old(|entries|))
      ensures forall k :: old(|entries|) <= k < |entries| ==>
        && entries[k].id == old(lastPreKeyId) + (k - old(|entries|))
        && manager.BundleOutcome(entropy(entries[k].id)) == Success(entries[k].bundle)
      ensures r.Failure? ==> |entries| < POOL_SIZE && manager.BundleOutcome(entropy(lastPreKeyId)) == Failure(r.error)
      ensures r.Success? ==> |entries| >= POOL_SIZE
      ensures r.Success? && old(|entries|) <= POOL_SIZE ==> |entries| == POOL_SIZE
    {
      ghost var added;
      r, added := RefillPool(entropy);
    }

    /**
     * `getPreKeyBundle`: first decides whether a background refill is due
     * (fewer than `MIN_POOL_SIZE` bundles before the withdrawal), then
     * removes and returns the oldest bundle, or fails with "No prekeys
     * available" on an empty pool. The refill itself is the caller's next
     * step: `refillRequested` reports that it was started.
     */
    method GetPreKeyBundle() returns (r: Result<PreKeyBundle, Error>, refillRequested: bool)
      requires Valid()
      modifies this
      ensures Valid()
      ensures lastPreKeyId == old(lastPreKeyId)
      ensures refillRequested <==> old(|entries|) < MIN_POOL_SIZE
      ensures (r, entries) == Withdraw(old(entries))
      ensures old(entries) == [] ==> r == Failure(NoPreKeysAvailable) && entries == old(entries)
      ensures old(entries) != [] ==>
        && r == Success(old(entries)[0].bundle)
        && entries == old(entries)[1..]
        && forall e :: e in old(entries) ==> old(entries)[0].id <= e.id
    {
      refillRequested := |entries| < MIN_POOL_SIZE;
      if entries == [] {
        return Failure(NoPreKeysAvailable), refillRequested;
      }
      OldestIsSmallest(entries);
      var next := entries[0];
      entries := MapDelete(entries, next.id);
      r := Success(next.bundle);
    }
  }
}
