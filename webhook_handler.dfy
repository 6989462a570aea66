/** webhook_handler.py: the older dispatcher. Same member extraction and
    missing-email skip as the endpoint, but no `order.failed` pre-check, no
    `subscription.expired` in the sync set, and no log entries of its own. */
module WebhookHandler {
  import opened Dicts
  import opened PyJson
  import opened Storage
  import opened CacheUtils
  import opened LogUtils
  import opened MailchimpApi
  import opened MailchimpSync
  import opened App

  const LEGACY_SYNC_EVENTS: set<string> :=
    {"member_signup", "member_updated", "subscription.created", "subscription.updated",
     "subscription.renewed", "subscription.activated"}

  function LegacySubscriptionDeleted(w: World, oracle: Oracle, now: string, member: Dict<string, Json>): (World, int)
  {
    var own := GetOr(member, "email", Null);
    var resolved := if Truthy(own) then own else CachedEmail(w.blobs, GetOr(member, "id", Null));
    if !Truthy(resolved) then (w, 200)
    else Settled(Sync(w, oracle, now, Set(member, "email", resolved), INACTIVE_STUB, "subscription.deleted", false, false))
  }

  function LegacyMemberDeleted(w: World, oracle: Oracle, now: string, member: Dict<string, Json>): (World, int)
  {
    var id := GetOr(member, "id", Null);
    if !Truthy(id) then (w, 200)
    else
      var cached := CachedEmail(w.blobs, id);
      if !Truthy(cached) then (w, 200)
      else
        var r := Sync(w, oracle, now, DeletedMemberStub(cached, id), INACTIVE_STUB, "member.deleted", true, false);
        if r.1 then (r.0, 500)
        else (r.0.(blobs := WithoutCacheEntry(r.0.blobs, id)), 200)
  }

  /** `handle_webhook`: the new world and the HTTP status. */
  function HandleLegacy(w: World, oracle: Oracle, now: string, data: Json): (World, int)
  {
    if !data.Obj? then (w, 500)
    else
      var event := GetOr(data.fields, "event", Null);
      match ExtractMember(data.fields)
      case None => (w, 500)
      case Some(member) =>
        if !member.Obj? then (w, 500)
        else if !Truthy(GetOr(member.fields, "email", Null)) && event != Str("member.deleted") then (w, 200)
        else if event.Str? && event.s in LEGACY_SYNC_EVENTS then
          OnFullSyncLoggedOnce(w, oracle, now, member.fields, SubscriptionOf(data.fields), event.s)
        else if event == Str("subscription.deactivated") then
          match DeactivatedStub(SubscriptionOf(data.fields))
          case None => (w, 500)
          case Some(stub) => Settled(Sync(w, oracle, now, member.fields, stub, "subscription.deactivated", false, false))
        else if event == Str("subscription.deleted") then LegacySubscriptionDeleted(w, oracle, now, member.fields)
        else if event == Str("member.deleted") then LegacyMemberDeleted(w, oracle, now, member.fields)
        else (w, 200)
  }

  method HandleWebhook(store: Store, api: Api, now: string, data: Json) returns (status: int)
    requires Valid(store.blobs)
    modifies store, api
    ensures Valid(store.blobs)
    ensures (World(store.blobs, api.sent), status) == HandleLegacy(World(old(store.blobs), old(api.sent)), api.oracle, now, data)
  {
    if !data.Obj? {
      return 500;
    }
    var event := GetOr(data.fields, "event", Null);
    var member := GetOr(data.fields, "member", Null);
    if !Truthy(member) {
      var outer := GetOr(data.fields, "subscription", Obj([]));
      if !outer.Obj? {
        return 500;
      }
      member := GetOr(outer.fields, "member", Null);
      if !Truthy(member) {
        member := Obj([]);
      }
    }
    if !member.Obj? {
      return 500;
    }
    var fields := member.fields;
    if !Truthy(GetOr(fields, "email", Null)) && event != Str("member.deleted") {
      return 200;
    }
    var sub := GetOr(data.fields, "subscription", Null);
    if !Truthy(sub) {
      sub := Obj([]);
    }
    var escaped := false;
    if event.Str? && event.s in LEGACY_SYNC_EVENTS {
      escaped := SyncToMailchimp(store, api, now, fields, sub, event.s, false, false);
    } else if event == Str("subscription.deactivated") {
      var stub := DeactivatedStub(sub);
      if stub.None? {
        return 500;
      }
      escaped := SyncToMailchimp(store, api, now, fields, stub.value, "subscription.deactivated", false, false);
    } else if event == Str("subscription.deleted") {
      var email := GetOr(fields, "email", Null);
      if !Truthy(email) {
        email := GetCachedEmail(store, GetOr(fields, "id", Null));
      }
      fields := Set(fields, "email", email);
      if Truthy(email) {
        escaped := SyncToMailchimp(store, api, now, fields, INACTIVE_STUB, "subscription.deleted", false, false);
      }
    } else if event == Str("member.deleted") {
      var id := GetOr(fields, "id", Null);
      if Truthy(id) {
        var cached := GetCachedEmail(store, id);
        if Truthy(cached) {
          escaped := SyncToMailchimp(store, api, now, DeletedMemberStub(cached, id), INACTIVE_STUB, "member.deleted", true, false);
          if !escaped {
            var cache := LoadCache(store);
            cache := Pop(cache, PyStr(id));
            SaveCache(store, cache);
            CacheWritesKeepValid(old(store.blobs), id, Null);
          }
        }
      }
    }
    status := if escaped then 500 else 200;
  }

  // ---------------------------------------------------------------------
  // Properties
  // ---------------------------------------------------------------------

  /** The handler answers 200, or 500 when an exception escapes it. */
  lemma LegacyStatus(w: World, oracle: Oracle, now: string, data: Json)
    ensures HandleLegacy(w, oracle, now, data).1 in {200, 500}
  {
  }

  /** The missing-email skip of the endpoint: any event but `member.deleted`
      whose member has no email ends with 200 and changes nothing, and on an
      event other than `order.failed` the endpoint does exactly the same. */
  lemma LegacyMissingEmailSkips(w: World, oracle: Oracle, now: string, data: Dict<string, Json>, member: Dict<string, Json>)
    requires GetOr(data, "event", Null) != Str("member.deleted")
    requires ExtractMember(data) == Some(Obj(member))
    requires !Truthy(GetOr(member, "email", Null))
    ensures HandleLegacy(w, oracle, now, Obj(data)) == (w, 200)
    ensures GetOr(data, "event", Null) != Str("order.failed") ==>
      HandleLegacy(w, oracle, now, Obj(data)) == Dispatch(w, oracle, now, Obj(data))
  {
  }

  /** The six sync events lead to one sync and nothing else: the handler adds
      no log entry of its own, unlike the endpoint. */
  lemma LegacySyncOnly(w: World, oracle: Oracle, now: string, data: Dict<string, Json>, member: Dict<string, Json>, event: string)
    requires event in LEGACY_SYNC_EVENTS && GetOr(data, "event", Null) == Str(event)
    requires ExtractMember(data) == Some(Obj(member))
    requires Truthy(GetOr(member, "email", Null))
    ensures var s := Sync(w, oracle, now, member, SubscriptionOf(data), event, false, false);
      HandleLegacy(w, oracle, now, Obj(data)) == (s.0, if s.1 then 500 else 200)
  {
  }

  /** `subscription.deactivated`: the stub with `active` False is synced and
      the handler adds no entry of its own (the endpoint adds a "success"
      entry); a subscription the stub cannot be built from raises. */
  lemma LegacyDeactivatedEffect(w: World, oracle: Oracle, now: string, data: Dict<string, Json>, member: Dict<string, Json>)
    requires GetOr(data, "event", Null) == Str("subscription.deactivated")
    requires ExtractMember(data) == Some(Obj(member))
    requires Truthy(GetOr(member, "email", Null))
    ensures DeactivatedStub(SubscriptionOf(data)).None? ==> HandleLegacy(w, oracle, now, Obj(data)) == (w, 500)
    ensures DeactivatedStub(SubscriptionOf(data)).Some? ==>
      var s := Sync(w, oracle, now, member, DeactivatedStub(SubscriptionOf(data)).value, "subscription.deactivated", false, false);
      HandleLegacy(w, oracle, now, Obj(data)) == (s.0, if s.1 then 500 else 200)
  {
    assert "subscription.deactivated" !in LEGACY_SYNC_EVENTS;
  }

  /** `subscription.expired` is not in the handler's sync set: it syncs
      nothing and changes nothing, where the endpoint syncs and logs. */
  lemma ExpiredNotSynced(w: World, oracle: Oracle, now: string, data: Dict<string, Json>)
    requires GetOr(data, "event", Null) == Str("subscription.expired")
    requires ExtractMember(data).Some? && ExtractMember(data).value.Obj?
    ensures HandleLegacy(w, oracle, now, Obj(data)) == (w, 200)
  {
    assert "subscription.expired" !in LEGACY_SYNC_EVENTS;
  }

  /** Without its pre-check the handler never syncs an `order.failed` event. */
  lemma OrderFailedIgnored(w: World, oracle: Oracle, now: string, data: Dict<string, Json>)
    requires GetOr(data, "event", Null) == Str("order.failed")
    requires ExtractMember(data).Some? && ExtractMember(data).value.Obj?
    ensures HandleLegacy(w, oracle, now, Obj(data)) == (w, 200)
  {
    assert "order.failed" !in LEGACY_SYNC_EVENTS;
  }

  /** As in the endpoint, the deleted-subscription cache fallback never runs:
      a member with an email is synced unchanged with the inactive stub. */
  lemma LegacySubscriptionDeletedUsesOwnEmail(w: World, oracle: Oracle, now: string, data: Dict<string, Json>, member: Dict<string, Json>)
    requires GetOr(data, "event", Null) == Str("subscription.deleted")
    requires ExtractMember(data) == Some(Obj(member))
    ensures HandleLegacy(w, oracle, now, Obj(data))
         == if !Truthy(GetOr(member, "email", Null)) then (w, 200)
            else Settled(Sync(w, oracle, now, member, INACTIVE_STUB, "subscription.deleted", false, false))
  {
    var email := GetOr(member, "email", Null);
    if Truthy(email) {
      assert "subscription.deleted" !in LEGACY_SYNC_EVENTS;
      assert HandleLegacy(w, oracle, now, Obj(data)) == LegacySubscriptionDeleted(w, oracle, now, member);
      assert Get(member, "email") == Some(email);
      SetExisting(member, "email", email);
    }
  }

  /** `member.deleted` with an id and a cache hit: one override sync of the
      blank stub, then the id's cache entry is popped; no log entry of the
      handler's own. Otherwise nothing changes. */
  lemma LegacyMemberDeletedEffect(w: World, oracle: Oracle, now: string, data: Dict<string, Json>, member: Dict<string, Json>)
    requires GetOr(data, "event", Null) == Str("member.deleted")
    requires ExtractMember(data) == Some(Obj(member))
    ensures var id := GetOr(member, "id", Null);
      !Truthy(id) || !Truthy(CachedEmail(w.blobs, id)) ==> HandleLegacy(w, oracle, now, Obj(data)) == (w, 200)
    ensures var id := GetOr(member, "id", Null);
      var cached := CachedEmail(w.blobs, id);
      Truthy(id) && Truthy(cached) ==>
        var s := Sync(w, oracle, now, DeletedMemberStub(cached, id), INACTIVE_STUB, "member.deleted", true, false);
        var r := HandleLegacy(w, oracle, now, Obj(data));
        && (s.1 ==> r == (w, 500))
        && (!s.1 ==> (r.1 == 200 && r.0.sent == s.0.sent
              && r.0.blobs == WithoutCacheEntry(s.0.blobs, id)
              && CachedEmail(r.0.blobs, id) == Null
              && LogOf(r.0.blobs) == LogOf(s.0.blobs)))
  {
    var id := GetOr(member, "id", Null);
    var cached := CachedEmail(w.blobs, id);
    assert "member.deleted" !in LEGACY_SYNC_EVENTS;
    if Truthy(id) && Truthy(cached) {
      var s := Sync(w, oracle, now, DeletedMemberStub(cached, id), INACTIVE_STUB, "member.deleted", true, false);
      EscapeHasNoEffect(w, oracle, now, DeletedMemberStub(cached, id), INACTIVE_STUB, "member.deleted", true, false);
      if !s.1 {
        EvictThenGet(s.0.blobs, id, id);
        assert Load(WithoutCacheEntry(s.0.blobs, id), LOG_FILE) == Load(s.0.blobs, LOG_FILE);
      }
    }
  }
}
