/** The blob store the service keeps its JSON documents in (a local file or
    an object-storage bucket in the original). Only its load/save contract is
    modelled: a load of a missing document gives `{}`, a save replaces it. */
module Storage {
  import opened PyJson

  const CACHE_FILE := "member_email_cache.json"
  const LOG_FILE := "webhook_logs.json"
  const MERGE_MAP_FILE := "merge_map.json"

  type Blobs = map<string, Json>

  /** `load_json(name)`: the stored document, or `{}` when there is none. */
  function Load(b: Blobs, name: string): Json
  {
    if name in b then b[name] else Obj([])
  }

  /** What the service needs of the store to run without raising: the log
      document exists and is a list (a missing log loads as `{}`, which has no
      `append`), and the cache document, if any, is an object. */
  predicate Valid(b: Blobs)
  {
    LOG_FILE in b && b[LOG_FILE].Arr? && Load(b, CACHE_FILE).Obj?
  }

  class Store {
    var blobs: Blobs

    constructor (initial: Blobs)
      ensures blobs == initial
    {
      blobs := initial;
    }

    method LoadJson(name: string) returns (v: Json)
      ensures v == Load(blobs, name)
    {
      v := if name in blobs then blobs[name] else Obj([]);
    }

    method SaveJson(name: string, v: Json)
      modifies this
      ensures blobs == old(blobs)[name := v]
    {
      blobs := blobs[name := v];
    }
  }
}
