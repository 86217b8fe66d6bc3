/** The connectivity flag and the offline cache of the machine list
    (contexts/NetworkContext.tsx). The cache lives in the shared key-value
    store under four fixed keys; the provider mirrors the cached list and
    the time of the last synchronisation in memory. */
module NetworkContext {
  import opened Lists
  import opened VendingMachineTypes
  import opened KeyValue

  const VendingMachinesKey: string := "cached_vending_machines"
  const LastSyncKey: string := "last_sync_time"
  const UserLocationKey: string := "cached_user_location"
  const FavoritesKey: string := "cached_favorites"

  /** `CACHE_KEYS`: the records removed by `clearCache`. */
  const CacheKeys: set<string> := {VendingMachinesKey, LastSyncKey, UserLocationKey, FavoritesKey}

  /** The machine list held under the cache key, if it holds one. */
  function StoredList(entries: map<string, Stored>): Option<seq<Machine>>
  {
    if VendingMachinesKey in entries && entries[VendingMachinesKey].MachineList?
    then Some(entries[VendingMachinesKey].machines)
    else None
  }

  /** What a successful `getItem` of the cached list yields: the stored list,
      or the empty list when nothing is stored. */
  function StoredMachines(entries: map<string, Stored>): seq<Machine>
  {
    StoredList(entries).GetOr([])
  }

  /** The sync stamp held under its key, if it holds one. */
  function StoredStamp(entries: map<string, Stored>): Option<int>
  {
    if LastSyncKey in entries && entries[LastSyncKey].Timestamp?
    then Some(entries[LastSyncKey].millis)
    else None
  }

  /** The store after the two `setItem` calls of `cacheVendingMachines`: the
      list first, then the stamp; the second is not attempted when the first
      throws. */
  function AfterCacheWrite(entries: map<string, Stored>, machines: seq<Machine>, now: int,
                           listWriteOk: bool, stampWriteOk: bool): (r: map<string, Stored>)
    ensures !listWriteOk ==> r == entries
    ensures listWriteOk ==> VendingMachinesKey in r && r[VendingMachinesKey] == MachineList(machines)
    ensures listWriteOk && stampWriteOk ==> LastSyncKey in r && r[LastSyncKey] == Timestamp(now)
    ensures !stampWriteOk ==> (LastSyncKey in r <==> LastSyncKey in entries) &&
                              (LastSyncKey in entries ==> r[LastSyncKey] == entries[LastSyncKey])
    ensures forall k :: k != VendingMachinesKey && k != LastSyncKey ==>
              (k in r <==> k in entries) && (k in entries ==> r[k] == entries[k])
  {
    if !listWriteOk then entries
    else if !stampWriteOk then entries[VendingMachinesKey := MachineList(machines)]
    else entries[VendingMachinesKey := MachineList(machines)][LastSyncKey := Timestamp(now)]
  }

  /** Write-through: once the list write succeeds, reading the cache gives
      back exactly the list written, same elements in the same order; when
      the stamp write also succeeds the stamp is the write's time. No other
      key changes. */
  lemma CacheWriteThenRead(entries: map<string, Stored>, machines: seq<Machine>, now: int, stampWriteOk: bool)
    ensures StoredMachines(AfterCacheWrite(entries, machines, now, true, stampWriteOk)) == machines
    ensures StoredStamp(AfterCacheWrite(entries, machines, now, true, stampWriteOk)) ==
            if stampWriteOk then Some(now) else StoredStamp(entries)
    ensures forall k :: k != VendingMachinesKey && k != LastSyncKey ==>
              (k in entries <==> k in AfterCacheWrite(entries, machines, now, true, stampWriteOk))
  {
  }

  /** A failed list write leaves the cache as it was. */
  lemma FailedCacheWriteKeepsStore(entries: map<string, Stored>, machines: seq<Machine>, now: int, stampWriteOk: bool)
    ensures AfterCacheWrite(entries, machines, now, false, stampWriteOk) == entries
  {
  }

  /** After the cache keys are removed, the list reads as empty and there is
      no sync stamp. */
  lemma ClearedCacheReadsEmpty(entries: map<string, Stored>)
    ensures StoredMachines(entries - CacheKeys) == []
    ensures StoredStamp(entries - CacheKeys) == None
    ensures UserLocationKey !in entries - CacheKeys
  {
  }

  class NetworkState {
    const store: KeyValueStore
    var isConnected: bool
    var cachedMachines: seq<Machine>
    var lastSyncTime: Option<int>

    /** The provider's initial state: connectivity is assumed until the
        first event arrives, nothing is cached in memory. */
    constructor (store: KeyValueStore)
      ensures this.store == store
      ensures isConnected && cachedMachines == [] && lastSyncTime == None
      ensures !IsOfflineMode()
    {
      this.store := store;
      isConnected := true;
      cachedMachines := [];
      lastSyncTime := None;
    }

    /** `!isConnected && cachedMachines.length > 0` */
    predicate IsOfflineMode()
      reads this
      ensures IsOfflineMode() ==> !isConnected && cachedMachines != []
      ensures !isConnected && cachedMachines != [] ==> IsOfflineMode()
    {
      !isConnected && |cachedMachines| > 0
    }

    /** The connectivity listener: `state.isConnected ?? false`, where an
        unknown state is `None`. */
    method OnConnectivityChange(reported: Option<bool>)
      modifies this`isConnected
      ensures isConnected <==> reported == Some(true)
      ensures IsOfflineMode() <==> reported != Some(true) && cachedMachines != []
    {
      isConnected := reported.GetOr(false);
    }

    /** `loadCachedData`: read the list, then the stamp; a read that throws
        ends the operation, a missing record leaves its field alone. */
    method LoadCachedData(listReadOk: bool, stampReadOk: bool)
      modifies this`cachedMachines, this`lastSyncTime
      ensures cachedMachines ==
              if listReadOk && StoredList(store.entries).Some? then StoredList(store.entries).value
              else old(cachedMachines)
      ensures lastSyncTime ==
              if listReadOk && stampReadOk && StoredStamp(store.entries).Some? then StoredStamp(store.entries)
              else old(lastSyncTime)
    {
      if !listReadOk {
        return;
      }
      var list := store.GetItem(VendingMachinesKey);
      if list.Some? && list.value.MachineList? {
        cachedMachines := list.value.machines;
      }
      if !stampReadOk {
        return;
      }
      var stamp := store.GetItem(LastSyncKey);
      if stamp.Some? && stamp.value.Timestamp? {
        lastSyncTime := Some(stamp.value.millis);
      }
    }

    /** `cacheVendingMachines(machines)` at time `now`. The in-memory mirror
        changes only when both writes succeed; errors are swallowed. */
    method CacheVendingMachines(machines: seq<Machine>, now: int, listWriteOk: bool, stampWriteOk: bool)
      modifies this`cachedMachines, this`lastSyncTime, store
      ensures store.entries == AfterCacheWrite(old(store.entries), machines, now, listWriteOk, stampWriteOk)
      ensures listWriteOk && stampWriteOk ==> cachedMachines == machines && lastSyncTime == Some(now)
      ensures !(listWriteOk && stampWriteOk) ==>
                cachedMachines == old(cachedMachines) && lastSyncTime == old(lastSyncTime)
    {
      store.SetItem(VendingMachinesKey, MachineList(machines), listWriteOk);
      if !listWriteOk {
        return;
      }
      store.SetItem(LastSyncKey, Timestamp(now), stampWriteOk);
      if !stampWriteOk {
        return;
      }
      cachedMachines := machines;
      lastSyncTime := Some(now);
    }

    /** `getCachedMachines`: never throws; a failing read gives `[]`. */
    method GetCachedMachines(readOk: bool) returns (machines: seq<Machine>)
      ensures readOk && StoredList(store.entries).Some? ==> machines == StoredList(store.entries).value
      ensures !readOk || StoredList(store.entries).None? ==> machines == []
    {
      var item := if readOk then store.GetItem(VendingMachinesKey) else None;
      if item.Some? && item.value.MachineList? {
        machines := item.value.machines;
      } else {
        machines := [];
      }
    }

    /** `clearCache`: removes exactly the four cache keys and empties the
        in-memory mirror; when removal throws nothing changes. */
    method ClearCache(ok: bool)
      modifies this`cachedMachines, this`lastSyncTime, store
      ensures store.entries == if ok then old(store.entries) - CacheKeys else old(store.entries)
      ensures ok ==> cachedMachines == [] && lastSyncTime == None && !IsOfflineMode()
      ensures !ok ==> cachedMachines == old(cachedMachines) && lastSyncTime == old(lastSyncTime)
    {
      store.MultiRemove(CacheKeys, ok);
      if ok {
        cachedMachines := [];
        lastSyncTime := None;
      }
    }
  }
}
