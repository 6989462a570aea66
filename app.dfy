/** app.py: the webhook endpoint. It checks the signature, classifies the
    event, and turns each class into a fixed sequence of syncs, log appends and
    cache evictions. The replay endpoint feeds a stored payload back through it
    with the internal "REPLAY" signature. */
module App {
  import opened Dicts
  import opened PyJson
  import opened Storage
  import opened CacheUtils
  import opened LogUtils
  import opened MailchimpApi
  import opened MailchimpSync

  // ---------------------------------------------------------------------
  // Signature check (app.py:33-52)
  // ---------------------------------------------------------------------

  const REPLAY_SIGNATURE := "REPLAY"

  /** The hex HMAC-SHA256 digest of a body under a secret, left symbolic. */
  type Hmac = (string, string) -> string

  /** Accept, reject (403), or an exception (500): `None.encode()` when the
      secret is unset, or `compare_digest` refusing a non-ASCII `str`. */
  datatype Verdict = Accept | Reject | Crash

  function VerifySignature(signature: Option<string>, secret: Option<string>, body: string, hmac: Hmac): Verdict
  {
    if signature == Some(REPLAY_SIGNATURE) then Accept
    else if signature.None? || signature.value == "" then Reject
    else if secret.None? || !AllAscii(signature.value) then Crash
    else if hmac(secret.value, body) == signature.value then Accept
    else Reject
  }

  /** One POST to the endpoint: the signature header, the raw body the
      digest covers, and the body parsed as JSON. */
  datatype Delivery = Delivery(signature: Option<string>, body: string, data: Json)

  // ---------------------------------------------------------------------
  // Event classes (app.py:79-168)
  // ---------------------------------------------------------------------

  const FULL_SYNC_EVENTS: set<string> :=
    {"member_signup", "member_updated", "subscription.created", "subscription.updated",
     "subscription.renewed", "subscription.activated", "subscription.expired"}

  datatype EventKind = OrderFailed | FullSync(name: string) | Deactivated | SubscriptionDeleted | MemberDeleted | Ignored

  function Classify(event: Json): EventKind
  {
    if event == Str("order.failed") then OrderFailed
    else if event.Str? && event.s in FULL_SYNC_EVENTS then FullSync(event.s)
    else if event == Str("subscription.deactivated") then Deactivated
    else if event == Str("subscription.deleted") then SubscriptionDeleted
    else if event == Str("member.deleted") then MemberDeleted
    else Ignored
  }

  /** `data.get("member") or data.get("subscription", {}).get("member") or {}`;
      None when the second `.get` meets something that is not a dict. */
  function ExtractMember(data: Dict<string, Json>): Option<Json>
  {
    var direct := GetOr(data, "member", Null);
    if Truthy(direct) then Some(direct)
    else
      match GetAttr(GetOr(data, "subscription", Obj([])), "member", Null)
      case None => None
      case Some(nested) => Some(if Truthy(nested) then nested else Obj([]))
  }

  /** `data.get("subscription") or {}` */
  function SubscriptionOf(data: Dict<string, Json>): Json
  {
    var s := GetOr(data, "subscription", Null);
    if Truthy(s) then s else Obj([])
  }

  /** The subscription every deletion syncs. */
  const INACTIVE_STUB: Json :=
    Obj([("active", Bool(false)), ("plan_name", Str("")), ("autorenew", Null), ("expires_at", Null)])

  /** The subscription a deactivation syncs (app.py:118-123); None when a
      `.get` meets something that is not a dict. */
  function DeactivatedStub(sub: Json): Option<Json>
  {
    match PlanName(sub)
    case None => None
    case Some(name) =>
      Some(Obj([("active", Bool(false)), ("plan_name", name),
                ("autorenew", GetOr(sub.fields, "autorenew", Null)),
                ("expires_at", GetOr(sub.fields, "expires_at", Null))]))
  }

  /** The blank-name member a deletion syncs (app.py:146-152). */
  function DeletedMemberStub(email: Json, id: Json): Dict<string, Json>
  {
    [("email", email), ("id", id), ("first_name", Str("")), ("last_name", Str("")), ("created_at", Str(""))]
  }

  /** After a sync: 500 if it raised, else the dispatcher's own "success"
      entry (with the event payload) and 200. */
  function Finish(r: (World, bool), now: string, event: string, email: Json, diff: Json, payload: Json): (World, int)
  {
    if r.1 then (r.0, 500)
    else (r.0.(blobs := WithLogEntry(r.0.blobs, LogRecord(now, event, email, "success", diff, payload))), 200)
  }

  /** 200 after a sync, or 500 when the sync raised, with no entry of the
      caller's own. */
  function Settled(r: (World, bool)): (World, int)
  {
    (r.0, if r.1 then 500 else 200)
  }

  /** The full-sync branch with its outcome logged once, by the sync itself
      and with the status the provider gave. This is the older handler's
      branch, and the one under which a replay appends exactly one entry per
      delivery (see ReplayLoggedOncePerDelivery). */
  function OnFullSyncLoggedOnce(w: World, oracle: Oracle, now: string, member: Dict<string, Json>, sub: Json, event: string): (World, int)
  {
    Settled(Sync(w, oracle, now, member, sub, event, false, false))
  }

  function OnOrderFailed(w: World, oracle: Oracle, now: string, data: Dict<string, Json>): (World, int)
  {
    match GetAttr(GetOr(data, "order", Obj([])), "member", Null)
    case None => (w, 500)
    case Some(found) =>
      var member := if Truthy(found) then found else Obj([]);
      if !member.Obj? then (w, 500)
      else if !Truthy(GetOr(member.fields, "email", Null)) then (w, 200)
      else Finish(Sync(w, oracle, now, member.fields, Null, "order.failed", false, false),
                  now, "order.failed", GetOr(member.fields, "email", Null), Null, Obj(data))
  }

  function OnFullSync(w: World, oracle: Oracle, now: string, data: Dict<string, Json>,
                      member: Dict<string, Json>, sub: Json, event: string): (World, int)
  {
    var diff := if event == "member_updated" then GetOr(data, "changed", Obj([])) else Null;
    Finish(Sync(w, oracle, now, member, sub, event, false, false),
           now, event, GetOr(member, "email", Null), diff, Obj(data))
  }

  function OnDeactivated(w: World, oracle: Oracle, now: string, data: Dict<string, Json>,
                         member: Dict<string, Json>, sub: Json): (World, int)
  {
    match DeactivatedStub(sub)
    case None => (w, 500)
    case Some(stub) =>
      Finish(Sync(w, oracle, now, member, stub, "subscription.deactivated", false, false),
             now, "subscription.deactivated", GetOr(member, "email", Null), Null, Obj(data))
  }

  /** `member["email"] = member.get("email") or get_cached_email(member.get("id"))`.
      The assignment writes into the event payload too; it is logged as it is
      after the write. */
  function OnSubscriptionDeleted(w: World, oracle: Oracle, now: string, data: Dict<string, Json>,
                                 member: Dict<string, Json>): (World, int)
  {
    var own := GetOr(member, "email", Null);
    var resolved := if Truthy(own) then own else CachedEmail(w.blobs, GetOr(member, "id", Null));
    if !Truthy(resolved) then (w, 200)
    else
      var updated := Set(member, "email", resolved);
      Finish(Sync(w, oracle, now, updated, INACTIVE_STUB, "subscription.deleted", false, false),
             now, "subscription.deleted", resolved, Null, Obj(data))
  }

  function OnMemberDeleted(w: World, oracle: Oracle, now: string, data: Dict<string, Json>,
                           member: Dict<string, Json>): (World, int)
  {
    var id := GetOr(member, "id", Null);
    if !Truthy(id) then (w, 200)
    else
      var cached := CachedEmail(w.blobs, id);
      if !Truthy(cached) then (w, 200)
      else
        var r := Finish(Sync(w, oracle, now, DeletedMemberStub(cached, id), INACTIVE_STUB, "member.deleted", true, false),
                        now, "member.deleted", cached, Null, Obj(data));
        if r.1 != 200 then r
        else (r.0.(blobs := WithoutCacheEntry(r.0.blobs, id)), 200)
  }

  /** `memberful_webhook` after the signature check: the new world and the
      HTTP status. */
  function Dispatch(w: World, oracle: Oracle, now: string, data: Json): (World, int)
  {
    if !data.Obj? then (w, 500)
    else
      var kind := Classify(GetOr(data.fields, "event", Null));
      if kind.OrderFailed? then OnOrderFailed(w, oracle, now, data.fields)
      else
        match ExtractMember(data.fields)
        case None => (w, 500)
        case Some(member) =>
          if !member.Obj? then (w, 500)
          else if !Truthy(GetOr(member.fields, "email", Null)) && !kind.MemberDeleted? then (w, 200)
          else if kind.FullSync? then OnFullSync(w, oracle, now, data.fields, member.fields, SubscriptionOf(data.fields), kind.name)
          else if kind.Deactivated? then OnDeactivated(w, oracle, now, data.fields, member.fields, SubscriptionOf(data.fields))
          else if kind.SubscriptionDeleted? then OnSubscriptionDeleted(w, oracle, now, data.fields, member.fields)
          else if kind.MemberDeleted? then OnMemberDeleted(w, oracle, now, data.fields, member.fields)
          else (w, 200)
  }

  /** `memberful_webhook` */
  function Webhook(w: World, oracle: Oracle, now: string, secret: Option<string>, hmac: Hmac, d: Delivery): (World, int)
  {
    match VerifySignature(d.signature, secret, d.body, hmac)
    case Reject => (w, 403)
    case Crash => (w, 500)
    case Accept => Dispatch(w, oracle, now, d.data)
  }

  /** `replay_log`: the payload is checked, then delivered again with the
      internal signature; `body` is its re-serialised form. `data['event']`
      in the diagnostic raises for anything but a dict. */
  function ReplayLog(w: World, oracle: Oracle, now: string, secret: Option<string>, hmac: Hmac, body: string, data: Json): (World, int)
  {
    if !Truthy(data) then (w, 400)
    else
      match PyIn("event", data)
      case None => (w, 500)
      case Some(present) =>
        if !present then (w, 400)
        else if !data.Obj? then (w, 500)
        else Webhook(w, oracle, now, secret, hmac, Delivery(Some(REPLAY_SIGNATURE), body, data))
  }

  // ---------------------------------------------------------------------
  // The endpoint
  // ---------------------------------------------------------------------

  method LogSuccess(store: Store, now: string, event: string, email: Json, diff: Json, payload: Json, escaped: bool)
    returns (status: int)
    requires Valid(store.blobs)
    modifies store
    ensures Valid(store.blobs)
    ensures escaped ==> store.blobs == old(store.blobs) && status == 500
    ensures !escaped ==> store.blobs == WithLogEntry(old(store.blobs), LogRecord(now, event, email, "success", diff, payload)) && status == 200
  {
    if escaped {
      return 500;
    }
    AppendLogEntry(store, now, event, email, "success", diff, payload);
    status := 200;
  }

  method HandleOrderFailed(store: Store, api: Api, now: string, data: Dict<string, Json>) returns (status: int)
    requires Valid(store.blobs)
    modifies store, api
    ensures Valid(store.blobs)
    ensures (World(store.blobs, api.sent), status) == OnOrderFailed(World(old(store.blobs), old(api.sent)), api.oracle, now, data)
  {
    var order := GetOr(data, "order", Obj([]));
    if !order.Obj? {
      return 500;
    }
    var member := GetOr(order.fields, "member", Null);
    if !Truthy(member) {
      member := Obj([]);
    }
    if !member.Obj? {
      return 500;
    }
    var email := GetOr(member.fields, "email", Null);
    if !Truthy(email) {
      return 200;
    }
    var escaped := SyncToMailchimp(store, api, now, member.fields, Null, "order.failed", false, false);
    status := LogSuccess(store, now, "order.failed", email, Null, Obj(data), escaped);
  }

  method HandleFullSync(store: Store, api: Api, now: string, data: Dict<string, Json>,
                        member: Dict<string, Json>, sub: Json, event: string) returns (status: int)
    requires Valid(store.blobs)
    modifies store, api
    ensures Valid(store.blobs)
    ensures (World(store.blobs, api.sent), status)
         == OnFullSync(World(old(store.blobs), old(api.sent)), api.oracle, now, data, member, sub, event)
  {
    var escaped := SyncToMailchimp(store, api, now, member, sub, event, false, false);
    var diff := Null;
    if event == "member_updated" {
      diff := GetOr(data, "changed", Obj([]));
    }
    status := LogSuccess(store, now, event, GetOr(member, "email", Null), diff, Obj(data), escaped);
  }

  method HandleDeactivated(store: Store, api: Api, now: string, data: Dict<string, Json>,
                           member: Dict<string, Json>, sub: Json) returns (status: int)
    requires Valid(store.blobs)
    modifies store, api
    ensures Valid(store.blobs)
    ensures (World(store.blobs, api.sent), status)
         == OnDeactivated(World(old(store.blobs), old(api.sent)), api.oracle, now, data, member, sub)
  {
    if !sub.Obj? {
      return 500;
    }
    var name := GetOr(sub.fields, "plan_name", Null);
    if !Truthy(name) {
      var plan := GetOr(sub.fields, "subscription_plan", Obj([]));
      if !plan.Obj? {
        return 500;
      }
      name := GetOr(plan.fields, "name", Str(""));
    }
    var stub := Obj([("active", Bool(false)), ("plan_name", name),
                     ("autorenew", GetOr(sub.fields, "autorenew", Null)),
                     ("expires_at", GetOr(sub.fields, "expires_at", Null))]);
    var escaped := SyncToMailchimp(store, api, now, member, stub, "subscription.deactivated", false, false);
    status := LogSuccess(store, now, "subscription.deactivated", GetOr(member, "email", Null), Null, Obj(data), escaped);
  }

  method HandleSubscriptionDeleted(store: Store, api: Api, now: string, data: Dict<string, Json>,
                                   member: Dict<string, Json>) returns (status: int)
    requires Valid(store.blobs)
    modifies store, api
    ensures Valid(store.blobs)
    ensures (World(store.blobs, api.sent), status)
         == OnSubscriptionDeleted(World(old(store.blobs), old(api.sent)), api.oracle, now, data, member)
  {
    var email := GetOr(member, "email", Null);
    if !Truthy(email) {
      email := GetCachedEmail(store, GetOr(member, "id", Null));
    }
    var updated := Set(member, "email", email);
    if !Truthy(email) {
      return 200;
    }
    var escaped := SyncToMailchimp(store, api, now, updated, INACTIVE_STUB, "subscription.deleted", false, false);
    status := LogSuccess(store, now, "subscription.deleted", email, Null, Obj(data), escaped);
  }

  method HandleMemberDeleted(store: Store, api: Api, now: string, data: Dict<string, Json>,
                             member: Dict<string, Json>) returns (status: int)
    requires Valid(store.blobs)
    modifies store, api
    ensures Valid(store.blobs)
    ensures (World(store.blobs, api.sent), status)
         == OnMemberDeleted(World(old(store.blobs), old(api.sent)), api.oracle, now, data, member)
  {
    var id := GetOr(member, "id", Null);
    if !Truthy(id) {
      return 200;
    }
    var cached := GetCachedEmail(store, id);
    if !Truthy(cached) {
      return 200;
    }
    var escaped := SyncToMailchimp(store, api, now, DeletedMemberStub(cached, id), INACTIVE_STUB, "member.deleted", true, false);
    status := LogSuccess(store, now, "member.deleted", cached, Null, Obj(data), escaped);
    if status != 200 {
      return;
    }
    var cache := LoadCache(store);
    cache := Pop(cache, PyStr(id));
    SaveCache(store, cache);
    CacheWritesKeepValid(old(store.blobs), id, Null);
  }

  method DispatchEvent(store: Store, api: Api, now: string, data: Json) returns (status: int)
    requires Valid(store.blobs)
    modifies store, api
    ensures Valid(store.blobs)
    ensures (World(store.blobs, api.sent), status) == Dispatch(World(old(store.blobs), old(api.sent)), api.oracle, now, data)
  {
    if !data.Obj? {
      return 500;
    }
    var event := GetOr(data.fields, "event", Null);
    var kind := Classify(event);
    if kind.OrderFailed? {
      status := HandleOrderFailed(store, api, now, data.fields);
      return;
    }
    var member := GetOr(data.fields, "member", Null);
    if !Truthy(member) {
      var outer := GetOr(data.fields, "subscription", Obj([]));
      if !outer.Obj? {
        return 500;
      }
      member := GetOr(outer.fields, "member", Null);
      if !Truthy(member) {
        member := Obj([]);
      }
    }
    if !member.Obj? {
      return 500;
    }
    if !Truthy(GetOr(member.fields, "email", Null)) && event != Str("member.deleted") {
      return 200;
    }
    var sub := GetOr(data.fields, "subscription", Null);
    if !Truthy(sub) {
      sub := Obj([]);
    }
    if kind.FullSync? {
      status := HandleFullSync(store, api, now, data.fields, member.fields, sub, kind.name);
    } else if kind.Deactivated? {
      status := HandleDeactivated(store, api, now, data.fields, member.fields, sub);
    } else if kind.SubscriptionDeleted? {
      status := HandleSubscriptionDeleted(store, api, now, data.fields, member.fields);
    } else if kind.MemberDeleted? {
      status := HandleMemberDeleted(store, api, now, data.fields, member.fields);
    } else {
      status := 200;
    }
  }

  method MemberfulWebhook(store: Store, api: Api, now: string, secret: Option<string>, hmac: Hmac, d: Delivery)
    returns (status: int)
    requires Valid(store.blobs)
    modifies store, api
    ensures Valid(store.blobs)
    ensures (World(store.blobs, api.sent), status) == Webhook(World(old(store.blobs), old(api.sent)), api.oracle, now, secret, hmac, d)
  {
    var verdict := VerifySignature(d.signature, secret, d.body, hmac);
    if verdict == Reject {
      return 403;
    } else if verdict == Crash {
      return 500;
    }
    status := DispatchEvent(store, api, now, d.data);
  }

  method ReplayLogEndpoint(store: Store, api: Api, now: string, secret: Option<string>, hmac: Hmac, body: string, data: Json)
    returns (status: int)
    requires Valid(store.blobs)
    modifies store, api
    ensures Valid(store.blobs)
    ensures (World(store.blobs, api.sent), status) == ReplayLog(World(old(store.blobs), old(api.sent)), api.oracle, now, secret, hmac, body, data)
  {
    if !Truthy(data) {
      return 400;
    }
    var present := PyIn("event", data);
    if present.None? {
      return 500;
    }
    if !present.value {
      return 400;
    }
    if !data.Obj? {
      return 500;
    }
    status := MemberfulWebhook(store, api, now, secret, hmac, Delivery(Some(REPLAY_SIGNATURE), body, data));
  }

  // ---------------------------------------------------------------------
  // Properties
  // ---------------------------------------------------------------------

  /** "REPLAY" is always accepted and a missing or empty header always
      rejected; any other ASCII header is accepted exactly when it equals the
      digest of the body under the configured secret. */
  lemma SignatureDecision(sig: string, secret: Option<string>, body: string, hmac: Hmac)
    ensures VerifySignature(Some(REPLAY_SIGNATURE), secret, body, hmac) == Accept
    ensures VerifySignature(None, secret, body, hmac) == Reject
    ensures VerifySignature(Some(""), secret, body, hmac) == Reject
    ensures sig != REPLAY_SIGNATURE && sig != "" && secret.Some? && AllAscii(sig) ==>
      (VerifySignature(Some(sig), secret, body, hmac) == Accept <==> sig == hmac(secret.value, body))
  {
  }

  /** A delivery that fails the signature check gets 403 (or 500 when the
      check itself raises) before any sync, log entry or cache change. */
  lemma RejectedHasNoEffect(w: World, oracle: Oracle, now: string, secret: Option<string>, hmac: Hmac, d: Delivery)
    requires VerifySignature(d.signature, secret, d.body, hmac) != Accept
    ensures Webhook(w, oracle, now, secret, hmac, d).0 == w
    ensures Webhook(w, oracle, now, secret, hmac, d).1
         == if VerifySignature(d.signature, secret, d.body, hmac) == Reject then 403 else 500
  {
  }

  /** `order.failed`, checked before the generic extraction: no email in
      `order.member` gives 200 and no effect; otherwise one sync of that
      member with no subscription, then one "success" entry carrying the
      payload, whatever the sync's own outcome. */
  lemma OrderFailedEffect(w: World, oracle: Oracle, now: string, data: Dict<string, Json>,
                          order: Dict<string, Json>, member: Dict<string, Json>)
    requires GetOr(data, "event", Null) == Str("order.failed")
    requires Get(data, "order") == Some(Obj(order)) && Get(order, "member") == Some(Obj(member))
    ensures !Truthy(GetOr(member, "email", Null)) ==> Dispatch(w, oracle, now, Obj(data)) == (w, 200)
    ensures Truthy(GetOr(member, "email", Null)) ==>
      var s := Sync(w, oracle, now, member, Null, "order.failed", false, false);
      var r := Dispatch(w, oracle, now, Obj(data));
      && (s.1 ==> r == (w, 500))
      && (!s.1 ==> (r.1 == 200 && r.0.sent == s.0.sent
            && r.0.blobs == WithLogEntry(s.0.blobs, LogRecord(now, "order.failed", GetOr(member, "email", Null), "success", Null, Obj(data)))))
  {
    EscapeHasNoEffect(w, oracle, now, member, Null, "order.failed", false, false);
  }

  /** The classification of the event names the dispatcher knows. */
  lemma ClassifyKnown(e: string)
    ensures Classify(Str("order.failed")) == OrderFailed
    ensures Classify(Str("subscription.deactivated")) == Deactivated
    ensures Classify(Str("subscription.deleted")) == SubscriptionDeleted
    ensures Classify(Str("member.deleted")) == MemberDeleted
    ensures e in FULL_SYNC_EVENTS ==> Classify(Str(e)) == FullSync(e)
  {
  }

  /** The member comes from `member`, else `subscription.member`, else `{}`. */
  lemma MemberExtraction(data: Dict<string, Json>)
    ensures Truthy(GetOr(data, "member", Null)) ==> ExtractMember(data) == Some(GetOr(data, "member", Null))
    ensures !Truthy(GetOr(data, "member", Null)) && !HasKey(data, "subscription") ==> ExtractMember(data) == Some(Obj([]))
    ensures forall s :: !Truthy(GetOr(data, "member", Null)) && Get(data, "subscription") == Some(Obj(s)) ==>
      ExtractMember(data) == Some(if Truthy(GetOr(s, "member", Null)) then GetOr(s, "member", Null) else Obj([]))
  {
  }

  /** Any event but `order.failed` and `member.deleted` whose member has no
      email ends with 200 and changes nothing. */
  lemma MissingEmailSkips(w: World, oracle: Oracle, now: string, data: Dict<string, Json>, member: Dict<string, Json>)
    requires GetOr(data, "event", Null) !in {Str("order.failed"), Str("member.deleted")}
    requires ExtractMember(data) == Some(Obj(member))
    requires !Truthy(GetOr(member, "email", Null))
    ensures Dispatch(w, oracle, now, Obj(data)) == (w, 200)
  {
  }

  /** An event of no class, with an email, ends with 200 and changes nothing. */
  lemma UnrecognisedEventIgnored(w: World, oracle: Oracle, now: string, data: Dict<string, Json>, member: Dict<string, Json>)
    requires Classify(GetOr(data, "event", Null)) == Ignored
    requires ExtractMember(data) == Some(Obj(member))
    requires Truthy(GetOr(member, "email", Null))
    ensures Dispatch(w, oracle, now, Obj(data)) == (w, 200)
  {
  }

  /** Each of the seven full-sync events: one sync with the event's
      subscription (`{}` when absent), then one "success" entry with the
      payload, and for `member_updated` the event's `changed` map as its
      changes. */
  lemma FullSyncEffect(w: World, oracle: Oracle, now: string, data: Dict<string, Json>, member: Dict<string, Json>, event: string)
    requires event in FULL_SYNC_EVENTS && GetOr(data, "event", Null) == Str(event)
    requires ExtractMember(data) == Some(Obj(member))
    requires Truthy(GetOr(member, "email", Null))
    ensures var s := Sync(w, oracle, now, member, SubscriptionOf(data), event, false, false);
      var r := Dispatch(w, oracle, now, Obj(data));
      && (s.1 ==> r == (w, 500))
      && (!s.1 ==> (r.1 == 200 && r.0.sent == s.0.sent
            && r.0.blobs == WithLogEntry(s.0.blobs, LogRecord(now, event, GetOr(member, "email", Null), "success",
                 if event == "member_updated" then GetOr(data, "changed", Obj([])) else Null, Obj(data)))))
  {
    ClassifyKnown(event);
    assert Dispatch(w, oracle, now, Obj(data)) == OnFullSync(w, oracle, now, data, member, SubscriptionOf(data), event);
    EscapeHasNoEffect(w, oracle, now, member, SubscriptionOf(data), event, false, false);
  }

  /** The two entries a refused upsert leaves behind on a full-sync event. */
  function RefusalRecords(w: World, oracle: Oracle, now: string, data: Dict<string, Json>, member: Dict<string, Json>, event: string): (Json, Json)
    requires FieldMapping(w.blobs).Some?
    requires BuildMergeFields(FieldMapping(w.blobs).value, member, false, SubscriptionOf(data)).Some?
    requires LookupEmail(w.blobs, member).Str?
  {
    var mf := BuildMergeFields(FieldMapping(w.blobs).value, member, false, SubscriptionOf(data)).value;
    var email := GetOr(member, "email", Null);
    var reply := oracle(|w.sent|, Upsert(ContactHash(LookupEmail(w.blobs, member).s), email, mf));
    var diff := if event == "member_updated" then GetOr(data, "changed", Obj([])) else Null;
    (LogRecord(now, event, email, "error", if reply.Response? then ErrorDiff(reply.code, reply.text) else Null, Null),
     LogRecord(now, event, email, "success", diff, Obj(data)))
  }

  /** A refused upsert on a full-sync event: the sync's "error" entry, then
      the dispatcher's "success" entry, and status 200. */
  lemma RefusedUpsertLog(w: World, oracle: Oracle, now: string, data: Dict<string, Json>, member: Dict<string, Json>, event: string)
    requires Valid(w.blobs)
    requires event in FULL_SYNC_EVENTS && GetOr(data, "event", Null) == Str(event)
    requires ExtractMember(data) == Some(Obj(member))
    requires Truthy(GetOr(member, "email", Null))
    requires !Sync(w, oracle, now, member, SubscriptionOf(data), event, false, false).1
    requires var mf := BuildMergeFields(FieldMapping(w.blobs).value, member, false, SubscriptionOf(data)).value;
      var reply := oracle(|w.sent|, Upsert(ContactHash(LookupEmail(w.blobs, member).s), GetOr(member, "email", Null), mf));
      reply.Response? && reply.code !in {200, 201}
    ensures var r := Dispatch(w, oracle, now, Obj(data));
      var recs := RefusalRecords(w, oracle, now, data, member, event);
      r.1 == 200 && LogOf(r.0.blobs) == LogOf(w.blobs) + [recs.0, recs.1]
  {
    var mf := BuildMergeFields(FieldMapping(w.blobs).value, member, false, SubscriptionOf(data)).value;
    var key := ContactHash(LookupEmail(w.blobs, member).s);
    var email := GetOr(member, "email", Null);
    var r := Dispatch(w, oracle, now, Obj(data));
    var s := Sync(w, oracle, now, member, SubscriptionOf(data), event, false, false).0;
    var recs := RefusalRecords(w, oracle, now, data, member, event);
    FullSyncEffect(w, oracle, now, data, member, event);
    assert r.0.blobs == WithLogEntry(s.blobs, recs.1);
    assert s == Attempt(w, oracle, now, key, event, email, mf, MemberIdText(member), false);
    AttemptRefused(w, oracle, now, key, event, email, mf, MemberIdText(member));
    assert LogOf(s.blobs) == LogOf(w.blobs) + [recs.0];
  }

  /** The dispatcher logs "success" whatever the provider answered: an upsert
      refused with any status leaves an "error" entry from the sync followed
      by a "success" entry from the dispatcher. */
  lemma RefusedUpsertStillLogsSuccess(w: World, oracle: Oracle, now: string, data: Dict<string, Json>, member: Dict<string, Json>, event: string)
    requires Valid(w.blobs)
    requires event in FULL_SYNC_EVENTS && GetOr(data, "event", Null) == Str(event)
    requires ExtractMember(data) == Some(Obj(member))
    requires Truthy(GetOr(member, "email", Null))
    requires !Sync(w, oracle, now, member, SubscriptionOf(data), event, false, false).1
    requires var mf := BuildMergeFields(FieldMapping(w.blobs).value, member, false, SubscriptionOf(data)).value;
      var reply := oracle(|w.sent|, Upsert(ContactHash(LookupEmail(w.blobs, member).s), GetOr(member, "email", Null), mf));
      reply.Response? && reply.code !in {200, 201}
    ensures var r := Dispatch(w, oracle, now, Obj(data));
      var recs := RefusalRecords(w, oracle, now, data, member, event);
      && r.1 == 200
      && LogOf(r.0.blobs) == LogOf(w.blobs) + [recs.0, recs.1]
      && Get(recs.0.fields, "status") == Some(Str("error"))
      && Get(recs.1.fields, "status") == Some(Str("success"))
  {
    RefusedUpsertLog(w, oracle, now, data, member, event);
    var mf := BuildMergeFields(FieldMapping(w.blobs).value, member, false, SubscriptionOf(data)).value;
    var email := GetOr(member, "email", Null);
    var reply := oracle(|w.sent|, Upsert(ContactHash(LookupEmail(w.blobs, member).s), email, mf));
    var diff := if event == "member_updated" then GetOr(data, "changed", Obj([])) else Null;
    RecordFields(now, event, email, "error", ErrorDiff(reply.code, reply.text), Null);
    RecordFields(now, event, email, "success", diff, Obj(data));
  }

  /** The deactivation stub: `active` False, the plan name with its
      fallbacks, `autorenew` and `expires_at` passed through. */
  lemma DeactivatedStubContent(sub: Dict<string, Json>)
    ensures DeactivatedStub(Obj(sub)).Some? <==> PlanName(Obj(sub)).Some?
    ensures DeactivatedStub(Obj(sub)).Some? ==>
      var stub := DeactivatedStub(Obj(sub)).value.fields;
      && Get(stub, "active") == Some(Bool(false))
      && Get(stub, "plan_name") == PlanName(Obj(sub))
      && Get(stub, "autorenew") == Some(GetOr(sub, "autorenew", Null))
      && Get(stub, "expires_at") == Some(GetOr(sub, "expires_at", Null))
  {
    if PlanName(Obj(sub)).Some? {
      var stub := DeactivatedStub(Obj(sub)).value.fields;
      var renew, expires := GetOr(sub, "autorenew", Null), GetOr(sub, "expires_at", Null);
      var tail: Dict<string, Json> := [("expires_at", expires)];
      assert stub == [stub[0]] + ([stub[1]] + ([("autorenew", renew)] + tail));
      GetCons(("autorenew", renew), tail, "autorenew");
      GetCons(("autorenew", renew), tail, "expires_at");
      GetCons(stub[1], [("autorenew", renew)] + tail, "autorenew");
      GetCons(stub[1], [("autorenew", renew)] + tail, "expires_at");
      GetCons(stub[0], [stub[1]] + ([("autorenew", renew)] + tail), "autorenew");
      GetCons(stub[0], [stub[1]] + ([("autorenew", renew)] + tail), "expires_at");
    }
  }

  /** `subscription.deactivated` syncs the stub built from the event's
      subscription, then logs one "success" entry. */
  lemma DeactivatedEffect(w: World, oracle: Oracle, now: string, data: Dict<string, Json>, member: Dict<string, Json>)
    requires GetOr(data, "event", Null) == Str("subscription.deactivated")
    requires ExtractMember(data) == Some(Obj(member))
    requires Truthy(GetOr(member, "email", Null))
    requires DeactivatedStub(SubscriptionOf(data)).Some?
    ensures var s := Sync(w, oracle, now, member, DeactivatedStub(SubscriptionOf(data)).value, "subscription.deactivated", false, false);
      var r := Dispatch(w, oracle, now, Obj(data));
      && (s.1 ==> r == (w, 500))
      && (!s.1 ==> (r.1 == 200 && r.0.sent == s.0.sent
            && r.0.blobs == WithLogEntry(s.0.blobs, LogRecord(now, "subscription.deactivated", GetOr(member, "email", Null), "success", Null, Obj(data)))))
  {
    ClassifyKnown("");
    assert Dispatch(w, oracle, now, Obj(data)) == OnDeactivated(w, oracle, now, data, member, SubscriptionOf(data));
    EscapeHasNoEffect(w, oracle, now, member, DeactivatedStub(SubscriptionOf(data)).value, "subscription.deactivated", false, false);
  }

  /** In `subscription.deleted` the cache fallback never runs: the member
      reaching it has an email of its own (the missing-email return came
      first), so the member is synced unchanged with the inactive stub and
      that email is logged. */
  lemma SubscriptionDeletedUsesOwnEmail(w: World, oracle: Oracle, now: string, data: Dict<string, Json>, member: Dict<string, Json>)
    requires GetOr(data, "event", Null) == Str("subscription.deleted")
    requires ExtractMember(data) == Some(Obj(member))
    ensures var email := GetOr(member, "email", Null);
      Dispatch(w, oracle, now, Obj(data))
        == if !Truthy(email) then (w, 200)
           else Finish(Sync(w, oracle, now, member, INACTIVE_STUB, "subscription.deleted", false, false),
                       now, "subscription.deleted", email, Null, Obj(data))
  {
    var email := GetOr(member, "email", Null);
    ClassifyKnown("");
    if Truthy(email) {
      assert Dispatch(w, oracle, now, Obj(data)) == OnSubscriptionDeleted(w, oracle, now, data, member);
      assert Get(member, "email") == Some(email);
      SetExisting(member, "email", email);
    }
  }

  /** `member.deleted`: without an id or a cache hit nothing happens; with
      both, one override sync of the blank stub under the cached email, one
      "success" entry for that email, and then the id's cache entry is gone,
      whatever the provider answered. */
  lemma MemberDeletedEffect(w: World, oracle: Oracle, now: string, data: Dict<string, Json>, member: Dict<string, Json>)
    requires GetOr(data, "event", Null) == Str("member.deleted")
    requires ExtractMember(data) == Some(Obj(member))
    ensures var id := GetOr(member, "id", Null);
      !Truthy(id) || !Truthy(CachedEmail(w.blobs, id)) ==> Dispatch(w, oracle, now, Obj(data)) == (w, 200)
    ensures var id := GetOr(member, "id", Null);
      var cached := CachedEmail(w.blobs, id);
      Truthy(id) && Truthy(cached) ==>
        var s := Sync(w, oracle, now, DeletedMemberStub(cached, id), INACTIVE_STUB, "member.deleted", true, false);
        var r := Dispatch(w, oracle, now, Obj(data));
        && (s.1 ==> r == (w, 500))
        && (!s.1 ==> (r.1 == 200 && r.0.sent == s.0.sent
              && r.0.blobs == WithoutCacheEntry(WithLogEntry(s.0.blobs, LogRecord(now, "member.deleted", cached, "success", Null, Obj(data))), id)
              && CachedEmail(r.0.blobs, id) == Null
              && LogOf(r.0.blobs) == LogOf(s.0.blobs) + [LogRecord(now, "member.deleted", cached, "success", Null, Obj(data))]))
  {
    ClassifyKnown("");
    assert Dispatch(w, oracle, now, Obj(data)) == OnMemberDeleted(w, oracle, now, data, member);
    MemberDeletedBranch(w, oracle, now, data, member);
  }

  /** The `member.deleted` branch on its own. */
  lemma MemberDeletedBranch(w: World, oracle: Oracle, now: string, data: Dict<string, Json>, member: Dict<string, Json>)
    ensures var id := GetOr(member, "id", Null);
      !Truthy(id) || !Truthy(CachedEmail(w.blobs, id)) ==> OnMemberDeleted(w, oracle, now, data, member) == (w, 200)
    ensures var id := GetOr(member, "id", Null);
      var cached := CachedEmail(w.blobs, id);
      Truthy(id) && Truthy(cached) ==>
        var s := Sync(w, oracle, now, DeletedMemberStub(cached, id), INACTIVE_STUB, "member.deleted", true, false);
        var r := OnMemberDeleted(w, oracle, now, data, member);
        && (s.1 ==> r == (w, 500))
        && (!s.1 ==> (r.1 == 200 && r.0.sent == s.0.sent
              && r.0.blobs == WithoutCacheEntry(WithLogEntry(s.0.blobs, LogRecord(now, "member.deleted", cached, "success", Null, Obj(data))), id)
              && CachedEmail(r.0.blobs, id) == Null
              && LogOf(r.0.blobs) == LogOf(s.0.blobs) + [LogRecord(now, "member.deleted", cached, "success", Null, Obj(data))]))
  {
    var id := GetOr(member, "id", Null);
    var cached := CachedEmail(w.blobs, id);
    if Truthy(id) && Truthy(cached) {
      var s := Sync(w, oracle, now, DeletedMemberStub(cached, id), INACTIVE_STUB, "member.deleted", true, false);
      EscapeHasNoEffect(w, oracle, now, DeletedMemberStub(cached, id), INACTIVE_STUB, "member.deleted", true, false);
      if !s.1 {
        var logged := WithLogEntry(s.0.blobs, LogRecord(now, "member.deleted", cached, "success", Null, Obj(data)));
        EvictThenGet(logged, id, id);
        assert Load(WithoutCacheEntry(logged, id), LOG_FILE) == Load(logged, LOG_FILE);
      }
    }
  }

  /** The member-deletion sync finds the contact under the cached email and
      writes that same email back, with "USER DELETED" as the member id. */
  lemma MemberDeletedSyncTarget(b: Blobs, id: Json, cached: Json)
    requires Truthy(id) && CachedEmail(b, id) == cached
    ensures MemberIdText(DeletedMemberStub(cached, id)) == CacheKey(id)
    ensures LookupEmail(b, DeletedMemberStub(cached, id)) == cached
    ensures GetOr(DeletedMemberStub(cached, id), "email", Null) == cached
  {
    var stub := DeletedMemberStub(cached, id);
    assert stub[1..][0] == ("id", id);
    assert Get(stub, "id") == Some(id);
  }

  /** `replay_log`: no body, or a body without "event", is refused with 400
      and no effect; a dict with "event" goes through the dispatcher whatever
      the configured secret. */
  lemma ReplayChecks(w: World, oracle: Oracle, now: string, secret: Option<string>, hmac: Hmac, body: string, data: Json)
    ensures !Truthy(data) ==> ReplayLog(w, oracle, now, secret, hmac, body, data) == (w, 400)
    ensures data.Obj? && !HasKey(data.fields, "event") ==> ReplayLog(w, oracle, now, secret, hmac, body, data) == (w, 400)
    ensures data.Obj? && HasKey(data.fields, "event") ==>
      ReplayLog(w, oracle, now, secret, hmac, body, data) == Dispatch(w, oracle, now, data)
  {
  }

  /** The conditions under which a full-sync event goes through cleanly: a
      member with a string email, a usable field mapping, a lookup email that
      is a string, and a provider that accepts every upsert. */
  ghost predicate CleanFullSync(w: World, oracle: Oracle, data: Dict<string, Json>, member: Dict<string, Json>, event: string)
  {
    && event in FULL_SYNC_EVENTS && GetOr(data, "event", Null) == Str(event)
    && ExtractMember(data) == Some(Obj(member))
    && Truthy(GetOr(member, "email", Null))
    && CleanSync(w, oracle, member, SubscriptionOf(data), event)
  }

  /** One clean delivery through the endpoint: the sync's "success" entry and
      the dispatcher's, and the store stays usable. */
  lemma DeliveredOnce(w: World, oracle: Oracle, now: string, data: Dict<string, Json>, member: Dict<string, Json>, event: string)
    requires CleanFullSync(w, oracle, data, member, event)
    ensures var s := Sync(w, oracle, now, member, SubscriptionOf(data), event, false, false).0;
      var r := Dispatch(w, oracle, now, Obj(data));
      && r.1 == 200 && r.0.sent == s.sent && |s.sent| == |w.sent| + 1
      && CacheOf(r.0.blobs) == CacheOf(s.blobs)
      && Load(r.0.blobs, MERGE_MAP_FILE) == Load(w.blobs, MERGE_MAP_FILE)
      && |LogOf(r.0.blobs)| == |LogOf(w.blobs)| + 2
      && Valid(r.0.blobs)
  {
    SyncAccepted(w, oracle, now, member, SubscriptionOf(data), event);
    FullSyncEffect(w, oracle, now, data, member, event);
    var s := Sync(w, oracle, now, member, SubscriptionOf(data), event, false, false).0;
    var diff := if event == "member_updated" then GetOr(data, "changed", Obj([])) else Null;
    AppendOnly(s.blobs, LogRecord(now, event, GetOr(member, "email", Null), "success", diff, Obj(data)));
  }

  /** Two requests that are upserts with the same body (they may differ in
      the key only). */
  predicate SameUpsertBody(a: Request, b: Request)
  {
    a.UpsertMember? && b.UpsertMember?
    && a.emailAddress == b.emailAddress && a.statusIfNew == b.statusIfNew && a.mergeFields == b.mergeFields
  }

  /** The same full-sync event delivered twice to the endpoint, as written:
      the second delivery leaves the cache as the first left it and sends an
      upsert with the same body, but every delivery appends TWO log entries
      (the sync's and the dispatcher's), four in all. */
  lemma ReplayLogsTwicePerDelivery(w: World, oracle: Oracle, now: string, data: Dict<string, Json>, member: Dict<string, Json>, event: string)
    requires CleanFullSync(w, oracle, data, member, event)
    ensures var r1 := Dispatch(w, oracle, now, Obj(data));
      var r2 := Dispatch(r1.0, oracle, now, Obj(data));
      && r1.1 == 200 && r2.1 == 200
      && CacheOf(r2.0.blobs) == CacheOf(r1.0.blobs)
      && |r2.0.sent| == |w.sent| + 2 && r2.0.sent[..|w.sent| + 1] == r1.0.sent
      && SameUpsertBody(r2.0.sent[|w.sent|], r2.0.sent[|w.sent| + 1])
      && |LogOf(r1.0.blobs)| == |LogOf(w.blobs)| + 2
      && |LogOf(r2.0.blobs)| == |LogOf(w.blobs)| + 4
  {
    var sub := SubscriptionOf(data);
    var r1 := Dispatch(w, oracle, now, Obj(data));
    DeliveredOnce(w, oracle, now, data, member, event);
    SyncReplay(w, r1.0, oracle, now, member, sub, event);
    assert FieldMapping(r1.0.blobs) == FieldMapping(w.blobs);
    assert CleanFullSync(r1.0, oracle, data, member, event);
    DeliveredOnce(r1.0, oracle, now, data, member, event);
  }

  /** The same event delivered twice with the outcome logged once per
      delivery: one cache state, two upserts with the same body, and one log
      entry per delivery, two in all, as a replay is meant to add. */
  lemma ReplayLoggedOncePerDelivery(w: World, oracle: Oracle, now: string, member: Dict<string, Json>, sub: Json, event: string)
    requires CleanSync(w, oracle, member, sub, event)
    ensures var r1 := OnFullSyncLoggedOnce(w, oracle, now, member, sub, event);
      var r2 := OnFullSyncLoggedOnce(r1.0, oracle, now, member, sub, event);
      && r1.1 == 200 && r2.1 == 200
      && CacheOf(r2.0.blobs) == CacheOf(r1.0.blobs)
      && |r2.0.sent| == |w.sent| + 2 && r2.0.sent[..|w.sent| + 1] == r1.0.sent
      && SameUpsertBody(r2.0.sent[|w.sent|], r2.0.sent[|w.sent| + 1])
      && |LogOf(r1.0.blobs)| == |LogOf(w.blobs)| + 1
      && |LogOf(r2.0.blobs)| == |LogOf(w.blobs)| + 2
  {
    SyncAccepted(w, oracle, now, member, sub, event);
    var r1 := Sync(w, oracle, now, member, sub, event, false, false).0;
    SyncReplay(w, r1, oracle, now, member, sub, event);
    var r2 := Sync(r1, oracle, now, member, sub, event, false, false).0;
    assert r2.sent[..|w.sent| + 1] == r1.sent;
  }
}
