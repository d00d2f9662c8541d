/**
  The cache provider as the client sees it (cache.go's `CacheProvider`): a key-value
  store with `Save` and `TryGet`. Expiry is not modelled: an entry stays visible
  once saved.
 */
module Cache {
  import opened Wrappers
  import opened Topology

  class CacheProvider {
    var entries: map<string, IotInfo>

    constructor ()
      ensures entries == map[]
    {
      entries := map[];
    }

    method Save(key: string, value: IotInfo)
      modifies this
      ensures entries == old(entries)[key := value]
    {
      entries := entries[key := value];
    }

    method TryGet(key: string) returns (r: Option<IotInfo>)
      ensures r.Some? <==> key in entries
      ensures r.Some? ==> r.value == entries[key]
    {
      if key in entries {
        r := Some(entries[key]);
      } else {
        r := None;
      }
    }
  }
}
