/** gbx_sync.py: the profile sync. The payload is filtered through the
    `GBX_PROFILE_FIELDS` mapping, upserted under the hash of its email, and
    exactly one log entry records the outcome. Unlike the member sync it never
    reads or writes the identity cache. */
module GbxSync {
  import opened Dicts
  import opened PyJson
  import opened Storage
  import opened CacheUtils
  import opened LogUtils
  import opened MailchimpApi
  import opened MailchimpSync

  const GBX_EVENT := "gbx_profile_sync"
  const GBX_SECTION := "GBX_PROFILE_FIELDS"

  /** `load_json("merge_map.json").get("GBX_PROFILE_FIELDS", {})` as a dict;
      None when a `.get` or `.items()` meets something that is not a dict. */
  function ProfileMapping(b: Blobs): Option<Dict<string, Json>>
  {
    var doc := Load(b, MERGE_MAP_FILE);
    if !doc.Obj? then None
    else
      var section := GetOr(doc.fields, GBX_SECTION, Obj([]));
      if section.Obj? then Some(section.fields) else None
  }

  /** One pass of the loop at gbx_sync.py:24-27: a None (or absent) value is
      skipped, anything else is stored under the tag, which must be hashable. */
  function FilterStep(mf: MergeFields, item: (string, Json), payload: Dict<string, Json>): Option<MergeFields>
  {
    var (key, tag) := item;
    var value := GetOr(payload, key, Null);
    if value == Null then Some(mf)
    else if !Hashable(tag) then None
    else Some(Set(mf, tag, value))
  }

  function Filtered(mf: MergeFields, items: Dict<string, Json>, payload: Dict<string, Json>): Option<MergeFields>
    decreases |items|
  {
    if items == [] then Some(mf)
    else
      match FilterStep(mf, items[0], payload)
      case None => None
      case Some(next) => Filtered(next, items[1..], payload)
  }

  /** The value a tag ends up with: that of the LAST mapping entry for it
      whose payload value is not None (later assignments overwrite). */
  function LastMapped(items: Dict<string, Json>, payload: Dict<string, Json>, tag: Json): Option<Json>
  {
    if items == [] then None
    else
      var later := LastMapped(items[1..], payload, tag);
      if later.Some? then later
      else if items[0].1 == tag && GetOr(payload, items[0].0, Null) != Null then Some(GetOr(payload, items[0].0, Null))
      else None
  }

  function Recorded(w: World, now: string, email: Json, status: string, payload: Json): World
  {
    w.(blobs := WithLogEntry(w.blobs, LogRecord(now, GBX_EVENT, email, status, Null, payload)))
  }

  /** `sync_gbx_profile_to_mailchimp`: the world afterwards, and whether an
      exception escaped (only when the payload is not a dict, so that the
      handler's own `payload.get` raises again). */
  function SyncGbx(w: World, oracle: Oracle, now: string, payload: Json): (World, bool)
  {
    if !payload.Obj? then (w, true)
    else
      var p := payload.fields;
      var email := GetOr(p, "email", Null);
      var reported := GetOr(p, "email", Str("unknown"));
      if !Truthy(email) || !email.Str? then (Recorded(w, now, reported, "exception", payload), false)
      else
        match ProfileMapping(w.blobs)
        case None => (Recorded(w, now, reported, "exception", payload), false)
        case Some(mapping) =>
          match Filtered([], mapping, p)
          case None => (Recorded(w, now, reported, "exception", payload), false)
          case Some(mf) =>
            var req := Upsert(ContactHash(email.s), email, mf);
            var w1 := w.(sent := w.sent + [req]);
            match oracle(|w.sent|, req)
            case Raised(_) => (Recorded(w1, now, reported, "exception", payload), false)
            case Response(code, _) =>
              (Recorded(w1, now, email, if code == 200 || code == 201 then "success" else "error", payload), false)
  }

  method FilterProfile(mapping: Dict<string, Json>, payload: Dict<string, Json>) returns (mf: Option<MergeFields>)
    ensures mf == Filtered([], mapping, payload)
  {
    var fields: MergeFields := [];
    var i := 0;
    while i < |mapping|
      invariant 0 <= i <= |mapping|
      invariant Filtered(fields, mapping[i..], payload) == Filtered([], mapping, payload)
    {
      assert mapping[i..][1..] == mapping[i + 1..];
      var (key, tag) := mapping[i];
      var value := GetOr(payload, key, Null);
      if value != Null {
        if !Hashable(tag) {
          return None;
        }
        fields := Set(fields, tag, value);
      }
      i := i + 1;
    }
    assert mapping[i..] == [];
    mf := Some(fields);
  }

  method SyncGbxProfile(store: Store, api: Api, now: string, payload: Json) returns (escaped: bool)
    requires Valid(store.blobs)
    modifies store, api
    ensures Valid(store.blobs)
    ensures (World(store.blobs, api.sent), escaped) == SyncGbx(World(old(store.blobs), old(api.sent)), api.oracle, now, payload)
  {
    if !payload.Obj? {
      return true;
    }
    escaped := false;
    var p := payload.fields;
    var reported := GetOr(p, "email", Str("unknown"));
    var email := GetOr(p, "email", Null);
    if !Truthy(email) || !email.Str? {
      AppendLogEntry(store, now, GBX_EVENT, reported, "exception", Null, payload);
      return;
    }
    var mergeMap := store.LoadJson(MERGE_MAP_FILE);
    if !mergeMap.Obj? {
      AppendLogEntry(store, now, GBX_EVENT, reported, "exception", Null, payload);
      return;
    }
    var section := GetOr(mergeMap.fields, GBX_SECTION, Obj([]));
    if !section.Obj? {
      AppendLogEntry(store, now, GBX_EVENT, reported, "exception", Null, payload);
      return;
    }
    var mf := FilterProfile(section.fields, p);
    if mf.None? {
      AppendLogEntry(store, now, GBX_EVENT, reported, "exception", Null, payload);
      return;
    }
    var reply := api.Send(Upsert(ContactHash(email.s), email, mf.value));
    if reply.Raised? {
      AppendLogEntry(store, now, GBX_EVENT, reported, "exception", Null, payload);
    } else if reply.code == 200 || reply.code == 201 {
      AppendLogEntry(store, now, GBX_EVENT, email, "success", Null, payload);
    } else {
      AppendLogEntry(store, now, GBX_EVENT, email, "error", Null, payload);
    }
  }

  // ---------------------------------------------------------------------
  // Properties
  // ---------------------------------------------------------------------

  /** Every tag the filter sets holds the payload value of its last mapped
      key whose value is not None ("" and 0 included); every other tag keeps
      its earlier value. */
  lemma {:induction false} FilteredMeaning(mf: MergeFields, items: Dict<string, Json>, payload: Dict<string, Json>, tag: Json)
    requires Filtered(mf, items, payload).Some?
    ensures Get(Filtered(mf, items, payload).value, tag)
         == if LastMapped(items, payload, tag).Some? then LastMapped(items, payload, tag) else Get(mf, tag)
    decreases |items|
  {
    if items != [] {
      var (key, t) := items[0];
      var value := GetOr(payload, key, Null);
      var next := FilterStep(mf, items[0], payload).value;
      FilteredMeaning(next, items[1..], payload, tag);
      if value != Null {
        if t == tag {
          GetSetSame(mf, t, value);
        } else {
          GetSetOther(mf, t, value, tag);
        }
      }
    }
  }

  /** The filter raises exactly when a mapped key with a value not None is
      mapped to an unhashable tag. */
  lemma {:induction false} FilteredFailsOnlyOnUnhashable(mf: MergeFields, items: Dict<string, Json>, payload: Dict<string, Json>)
    ensures Filtered(mf, items, payload).Some?
        <==> forall i :: 0 <= i < |items| && GetOr(payload, items[i].0, Null) != Null ==> Hashable(items[i].1)
    decreases |items|
  {
    if items != [] {
      if FilterStep(mf, items[0], payload).Some? {
        FilteredFailsOnlyOnUnhashable(FilterStep(mf, items[0], payload).value, items[1..], payload);
        assert forall i :: 1 <= i < |items| ==> items[i] == items[1..][i - 1];
      }
    }
  }

  /** With no `GBX_PROFILE_FIELDS` section the merge fields are empty. */
  lemma MissingSectionGivesEmptyFields(b: Blobs, payload: Dict<string, Json>)
    requires Load(b, MERGE_MAP_FILE).Obj? && !HasKey(Load(b, MERGE_MAP_FILE).fields, GBX_SECTION)
    ensures ProfileMapping(b) == Some([])
    ensures Filtered([], ProfileMapping(b).value, payload) == Some([])
  {
  }

  /** A missing or empty email sends nothing and logs one "exception" entry
      for `payload.get("email", "unknown")`. */
  lemma MissingEmailLogsException(w: World, oracle: Oracle, now: string, payload: Dict<string, Json>)
    requires !Truthy(GetOr(payload, "email", Null))
    ensures SyncGbx(w, oracle, now, Obj(payload))
         == (Recorded(w, now, GetOr(payload, "email", Str("unknown")), "exception", Obj(payload)), false)
    ensures !HasKey(payload, "email") ==> GetOr(payload, "email", Str("unknown")) == Str("unknown")
  {
  }

  /** Whatever happens: the cache is untouched, at most the one upsert is
      sent, addressed by the hash of the lower-cased email with the email as
      given in the body, and exactly one log entry is appended, "success"
      for 200/201 and "error" for any other status, each with the payload. */
  lemma GbxOutcome(w: World, oracle: Oracle, now: string, payload: Dict<string, Json>)
    requires Valid(w.blobs)
    ensures var r := SyncGbx(w, oracle, now, Obj(payload));
      && !r.1
      && CacheOf(r.0.blobs) == CacheOf(w.blobs)
      && |LogOf(r.0.blobs)| == |LogOf(w.blobs)| + 1
      && LogOf(r.0.blobs)[..|LogOf(w.blobs)|] == LogOf(w.blobs)
      && (r.0.sent == w.sent || |r.0.sent| == |w.sent| + 1)
    ensures var r := SyncGbx(w, oracle, now, Obj(payload));
      var email := GetOr(payload, "email", Null);
      |r.0.sent| == |w.sent| + 1 ==>
        && email.Str?
        && r.0.sent[|w.sent|] == Upsert(Md5Hex(Lower(email.s)), email, Filtered([], ProfileMapping(w.blobs).value, payload).value)
        && (oracle(|w.sent|, r.0.sent[|w.sent|]).Response? ==>
              var code := oracle(|w.sent|, r.0.sent[|w.sent|]).code;
              LogOf(r.0.blobs)[|LogOf(w.blobs)|]
                == LogRecord(now, GBX_EVENT, email, if code in {200, 201} then "success" else "error", Null, Obj(payload)))
  {
    var r := SyncGbx(w, oracle, now, Obj(payload));
    var email := GetOr(payload, "email", Null);
    var reported := GetOr(payload, "email", Str("unknown"));
    if |r.0.sent| == |w.sent| + 1 {
      var mf := Filtered([], ProfileMapping(w.blobs).value, payload).value;
      var reply := oracle(|w.sent|, Upsert(ContactHash(email.s), email, mf));
      var status := if reply.Raised? then "exception" else if reply.code in {200, 201} then "success" else "error";
      AppendOnly(w.blobs, LogRecord(now, GBX_EVENT, if reply.Raised? then reported else email, status, Null, Obj(payload)));
    } else {
      AppendOnly(w.blobs, LogRecord(now, GBX_EVENT, reported, "exception", Null, Obj(payload)));
    }
  }
}
