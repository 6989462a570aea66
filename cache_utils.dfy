/** cache_utils.py: the identity cache, a JSON object from stringified member
    id to the last email address successfully synced for that member. Every
    write loads the whole document, changes one key and saves it back. */
module CacheUtils {
  import opened Dicts
  import opened PyJson
  import opened Storage

  /** The cache as a dict (`load_cache()`). */
  function CacheOf(b: Blobs): Dict<string, Json>
  {
    var c := Load(b, CACHE_FILE);
    if c.Obj? then c.fields else []
  }

  /** The key a member id is filed under: `str(member_id)`. */
  function CacheKey(memberId: Json): string
  {
    PyStr(memberId)
  }

  /** `get_cached_email(member_id)`: the cached value, or None. */
  function CachedEmail(b: Blobs, memberId: Json): Json
  {
    GetOr(CacheOf(b), CacheKey(memberId), Null)
  }

  /** The store after `update_cache(member_id, email)`. */
  function WithCacheEntry(b: Blobs, memberId: Json, email: Json): Blobs
  {
    b[CACHE_FILE := Obj(Set(CacheOf(b), CacheKey(memberId), email))]
  }

  /** The store after the load / pop / save that evicts a member. */
  function WithoutCacheEntry(b: Blobs, memberId: Json): Blobs
  {
    b[CACHE_FILE := Obj(Pop(CacheOf(b), CacheKey(memberId)))]
  }

  method LoadCache(store: Store) returns (cache: Dict<string, Json>)
    requires Valid(store.blobs)
    ensures cache == CacheOf(store.blobs)
  {
    var doc := store.LoadJson(CACHE_FILE);
    cache := doc.fields;
  }

  method SaveCache(store: Store, cache: Dict<string, Json>)
    modifies store
    ensures store.blobs == old(store.blobs)[CACHE_FILE := Obj(cache)]
  {
    store.SaveJson(CACHE_FILE, Obj(cache));
  }

  method GetCachedEmail(store: Store, memberId: Json) returns (email: Json)
    requires Valid(store.blobs)
    ensures email == CachedEmail(store.blobs, memberId)
  {
    var cache := LoadCache(store);
    email := GetOr(cache, PyStr(memberId), Null);
  }

  method UpdateCache(store: Store, memberId: Json, email: Json)
    requires Valid(store.blobs)
    modifies store
    ensures store.blobs == WithCacheEntry(old(store.blobs), memberId, email)
    ensures Valid(store.blobs)
  {
    var cache := LoadCache(store);
    cache := Set(cache, PyStr(memberId), email);
    SaveCache(store, cache);
    CacheWritesKeepValid(old(store.blobs), memberId, email);
  }

  /** After `update_cache(id, e)`, `get_cached_email(id)` is `e`, every other
      key reads as before, and nothing but the cache document changed. */
  lemma UpdateThenGet(b: Blobs, memberId: Json, email: Json, other: Json)
    ensures CachedEmail(WithCacheEntry(b, memberId, email), memberId) == email
    ensures CacheKey(other) != CacheKey(memberId) ==>
      CachedEmail(WithCacheEntry(b, memberId, email), other) == CachedEmail(b, other)
    ensures forall name :: name in b && name != CACHE_FILE ==>
      name in WithCacheEntry(b, memberId, email) && WithCacheEntry(b, memberId, email)[name] == b[name]
  {
    GetSetSame(CacheOf(b), CacheKey(memberId), email);
    if CacheKey(other) != CacheKey(memberId) {
      GetSetOther(CacheOf(b), CacheKey(memberId), email, CacheKey(other));
    }
  }

  /** After eviction the member's key reads as None, other keys as before;
      evicting a member that is not cached changes no key's value. */
  lemma EvictThenGet(b: Blobs, memberId: Json, other: Json)
    ensures CachedEmail(WithoutCacheEntry(b, memberId), memberId) == Null
    ensures CacheKey(other) != CacheKey(memberId) ==>
      CachedEmail(WithoutCacheEntry(b, memberId), other) == CachedEmail(b, other)
    ensures Get(CacheOf(b), CacheKey(memberId)) == None ==>
      CacheOf(WithoutCacheEntry(b, memberId)) == CacheOf(b)
  {
    GetPopSame(CacheOf(b), CacheKey(memberId));
    if CacheKey(other) != CacheKey(memberId) {
      GetPopOther(CacheOf(b), CacheKey(memberId), CacheKey(other));
    }
    if Get(CacheOf(b), CacheKey(memberId)) == None {
      PopAbsent(CacheOf(b), CacheKey(memberId));
    }
  }

  /** Keys are stringified: the integer id 42 and the text "42" are one entry. */
  lemma StringifiedKeys(b: Blobs, email: Json)
    ensures CachedEmail(WithCacheEntry(b, Int(42), email), Str("42")) == email
  {
    assert CacheKey(Int(42)) == "42";
    GetSetSame(CacheOf(b), "42", email);
  }

  /** Members whose ids are different one-number lists get different
      entries: `str()` writes the number into the key. */
  lemma ListIdsKeptApart(b: Blobs, a: int, c: int, email: Json)
    requires a != c
    ensures CacheKey(Arr([Int(a)])) != CacheKey(Arr([Int(c)]))
    ensures CachedEmail(WithCacheEntry(b, Arr([Int(a)]), email), Arr([Int(c)])) == CachedEmail(b, Arr([Int(c)]))
  {
    SingletonListStr(Int(a));
    SingletonListStr(Int(c));
    var ka, kc := CacheKey(Arr([Int(a)])), CacheKey(Arr([Int(c)]));
    if ka == kc {
      assert ka[1..|ka| - 1] == IntToString(a) && kc[1..|kc| - 1] == IntToString(c);
      IntToStringInjective(a, c);
    }
    UpdateThenGet(b, Arr([Int(a)]), email, Arr([Int(c)]));
  }

  /** Cache writes keep the store usable. */
  lemma CacheWritesKeepValid(b: Blobs, memberId: Json, email: Json)
    requires Valid(b)
    ensures Valid(WithCacheEntry(b, memberId, email))
    ensures Valid(WithoutCacheEntry(b, memberId))
  {
  }
}
