/** The device's durable key-value medium (AsyncStorage). Values are kept
    already parsed: one constructor per kind of record the application
    writes. Whether a call throws is decided by the caller's `ok` argument. */
module KeyValue {
  import opened Lists
  import opened VendingMachineTypes

  datatype Stored =
    | MachineList(machines: seq<Machine>)
    | Timestamp(millis: int)
    | IdList(ids: seq<string>)
    | Location(latitude: real, longitude: real)

  class KeyValueStore {
    var entries: map<string, Stored>

    constructor ()
      ensures entries == map[]
    {
      entries := map[];
    }

    /** `getItem(key)`: the stored value, or none when the key is missing. */
    function GetItem(key: string): (r: Option<Stored>)
      reads this
      ensures r.Some? <==> key in entries
      ensures r.Some? ==> r.value == entries[key]
    {
      if key in entries then Some(entries[key]) else None
    }

    /** `setItem(key, value)`; when `ok` is false the call throws and the
        store is untouched. */
    method SetItem(key: string, value: Stored, ok: bool)
      modifies this
      ensures entries == if ok then old(entries)[key := value] else old(entries)
      ensures ok ==> GetItem(key) == Some(value)
      ensures forall k :: k != key ==> GetItem(k) == old(GetItem(k))
    {
      if ok {
        entries := entries[key := value];
      }
    }

    /** `multiRemove(keys)`; when `ok` is false the call throws and the
        store is untouched. */
    method MultiRemove(keys: set<string>, ok: bool)
      modifies this
      ensures entries == if ok then old(entries) - keys else old(entries)
      ensures ok ==> forall k :: k in keys ==> GetItem(k) == None
      ensures forall k :: k !in keys ==> GetItem(k) == old(GetItem(k))
    {
      if ok {
        entries := entries - keys;
      }
    }
  }
}
