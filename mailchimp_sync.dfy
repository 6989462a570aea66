/** mailchimp_sync.py: `sync_to_mailchimp`, the decision procedure that pushes
    one member to the mailing list. It finds the contact by the email last
    cached for the member, writes the member's current email and merge fields
    into it, and then, depending on the provider's answer, updates the cache,
    logs, and moves the "Payment Failed" tag. */
module MailchimpSync {
  import opened Dicts
  import opened PyJson
  import opened Storage
  import opened CacheUtils
  import opened LogUtils
  import opened Utils
  import opened MailchimpApi

  const ADD_TAG_EVENTS: set<string> :=
    {"order.failed", "invoice.payment_failed", "charge.failed", "payment_intent.payment_failed"}
  const REMOVE_TAG_EVENTS: set<string> :=
    {"invoice.paid", "invoice.payment_succeeded", "charge.succeeded", "payment_intent.succeeded"}
  const PAYMENT_FAILED_TAG := "Payment Failed"
  const DELETED_MEMBER_ID := "USER DELETED"

  /** The merge-field dict sent to the provider, keyed by merge tag. */
  type MergeFields = Dict<Json, Json>

  /** Everything a sync can change: the stored documents and the requests
      the provider has received. */
  datatype World = World(blobs: Blobs, sent: seq<Request>)

  // ---------------------------------------------------------------------
  // Building the merge fields (mailchimp_sync.py:13-44)
  // ---------------------------------------------------------------------

  /** `load_merge_map()["MERGE_FIELDS"]`, the field mapping from source key
      to merge tag; None when the lookup raises. */
  function FieldMapping(b: Blobs): Option<Dict<string, Json>>
  {
    var doc := Load(b, MERGE_MAP_FILE);
    if doc.Obj? then
      var m := Get(doc.fields, "MERGE_FIELDS");
      if m.Some? && m.value.Obj? then Some(m.value.fields) else None
    else None
  }

  /** `MERGE_FIELDS[name]` used as a dict key; None for a missing name
      (KeyError) or a list or dict (TypeError: unhashable). */
  function TagFor(mapping: Dict<string, Json>, name: string): Option<Json>
  {
    match Get(mapping, name)
    case Some(t) => if Hashable(t) then Some(t) else None
    case None => None
  }

  /** `str(member.get("id"))` */
  function MemberIdText(member: Dict<string, Json>): string
  {
    PyStr(GetOr(member, "id", Null))
  }

  /** The email that locates the remote contact:
      `get_cached_email(member_id) or current_email`. */
  function LookupEmail(b: Blobs, member: Dict<string, Json>): Json
  {
    var cached := CachedEmail(b, Str(MemberIdText(member)));
    if Truthy(cached) then cached else GetOr(member, "email", Null)
  }

  /** The four fields every sync writes (mailchimp_sync.py:24-29). */
  function BaseMergeFields(mapping: Dict<string, Json>, member: Dict<string, Json>, overrideGuid: bool): Option<MergeFields>
  {
    var first := TagFor(mapping, "first_name");
    var last := TagFor(mapping, "last_name");
    var id := TagFor(mapping, "member_id");
    var signup := TagFor(mapping, "signup_date");
    if first.None? || last.None? || id.None? || signup.None? then None
    else
      var f0: MergeFields := [];
      var f1 := Set(f0, first.value, GetOr(member, "first_name", Str("")));
      var f2 := Set(f1, last.value, GetOr(member, "last_name", Str("")));
      var f3 := Set(f2, id.value, Str(if overrideGuid then DELETED_MEMBER_ID else MemberIdText(member)));
      Some(Set(f3, signup.value, Str(FormatDate(GetOr(member, "created_at", Null)))))
  }

  /** One pass of the loop at mailchimp_sync.py:32-36. */
  function MapStep(mf: MergeFields, item: (string, Json), member: Dict<string, Json>): Option<MergeFields>
  {
    var (sourceKey, tag) := item;
    if !Hashable(tag) then None
    else if HasKey(mf, tag) then Some(mf)
    else if HasKey(member, sourceKey) then Some(Set(mf, tag, Get(member, sourceKey).value))
    else Some(mf)
  }

  /** The whole loop, in the mapping's order. */
  function WithMapped(mf: MergeFields, items: Dict<string, Json>, member: Dict<string, Json>): Option<MergeFields>
    decreases |items|
  {
    if items == [] then Some(mf)
    else
      match MapStep(mf, items[0], member)
      case None => None
      case Some(next) => WithMapped(next, items[1..], member)
  }

  /** The value of the first mapped source key for `tag` that the member has. */
  function FirstMapped(items: Dict<string, Json>, member: Dict<string, Json>, tag: Json): Option<Json>
  {
    if items == [] then None
    else if items[0].1 == tag && HasKey(member, items[0].0) then Get(member, items[0].0)
    else FirstMapped(items[1..], member, tag)
  }

  /** `subscription.get("plan_name") or subscription.get("subscription_plan", {}).get("name", "")`;
      None when a `.get` meets something that is not a dict. */
  function PlanName(sub: Json): Option<Json>
  {
    if !sub.Obj? then None
    else
      var flat := GetOr(sub.fields, "plan_name", Null);
      if Truthy(flat) then Some(flat)
      else GetAttr(GetOr(sub.fields, "subscription_plan", Obj([])), "name", Str(""))
  }

  /** `if subscription: merge_fields.update({...})` (mailchimp_sync.py:38-44). */
  function WithSubscription(mf: MergeFields, mapping: Dict<string, Json>, sub: Json): Option<MergeFields>
  {
    if !Truthy(sub) then Some(mf)
    else
      var plan := TagFor(mapping, "plan_name");
      var active := TagFor(mapping, "plan_active");
      var renew := TagFor(mapping, "auto_renew");
      var expires := TagFor(mapping, "expires_at");
      var name := PlanName(sub);
      if plan.None? || active.None? || renew.None? || expires.None? || name.None? then None
      else
        var f1 := Set(mf, plan.value, name.value);
        var f2 := Set(f1, active.value, Str(ConvertBool(GetOr(sub.fields, "active", Null))));
        var f3 := Set(f2, renew.value, Str(ConvertAutorenew(GetOr(sub.fields, "autorenew", Null))));
        Some(Set(f3, expires.value, Str(FormatDate(GetOr(sub.fields, "expires_at", Null)))))
  }

  function BuildMergeFields(mapping: Dict<string, Json>, member: Dict<string, Json>, overrideGuid: bool, sub: Json): Option<MergeFields>
  {
    match BaseMergeFields(mapping, member, overrideGuid)
    case None => None
    case Some(base) =>
      match WithMapped(base, mapping, member)
      case None => None
      case Some(mapped) => WithSubscription(mapped, mapping, sub)
  }

  // ---------------------------------------------------------------------
  // The remote calls and their outcome (mailchimp_sync.py:46-114)
  // ---------------------------------------------------------------------

  /** The cache-write condition of mailchimp_sync.py:65. `member_id` is the
      result of `str()`, so it is never None; `override_guid` plays no part. */
  predicate CacheEligible(memberId: string, event: string)
  {
    memberId != "" && memberId != "None" && !StartsWith(event, "invoice.")
  }

  function TagStatus(event: string): string
  {
    if event in ADD_TAG_EVENTS then "active" else "inactive"
  }

  function ExceptionDiff(message: string): Json
  {
    Obj([("error", Str(message))])
  }

  function ErrorDiff(code: int, text: string): Json
  {
    Obj([("mailchimp_status", Int(code)), ("mailchimp_error", Str(text))])
  }

  function Logged(w: World, now: string, event: string, email: Json, status: string, diff: Json): World
  {
    w.(blobs := WithLogEntry(w.blobs, LogRecord(now, event, email, status, diff, Null)))
  }

  function Upsert(key: ContactKey, email: Json, mf: MergeFields): Request
  {
    UpsertMember(key, email, "subscribed", mf)
  }

  /** The tag step (mailchimp_sync.py:82-110). A response of any status only
      prints; an exception from the call is logged. */
  function TagStep(w: World, oracle: Oracle, now: string, key: ContactKey, event: string, email: Json): World
  {
    if event in ADD_TAG_EVENTS + REMOVE_TAG_EVENTS then
      var req := UpdateTags(key, PAYMENT_FAILED_TAG, TagStatus(event));
      var w1 := w.(sent := w.sent + [req]);
      match oracle(|w.sent|, req)
      case Raised(message) => Logged(w1, now, event, email, "exception", ExceptionDiff(message))
      case Response(_, _) => w1
    else w
  }

  /** The `try` block (mailchimp_sync.py:49-114). */
  function Attempt(w: World, oracle: Oracle, now: string, key: ContactKey, event: string,
                   current: Json, mf: MergeFields, memberId: string, tagOnly: bool): World
  {
    if tagOnly then TagStep(w, oracle, now, key, event, current)
    else
      var req := Upsert(key, current, mf);
      var w1 := w.(sent := w.sent + [req]);
      match oracle(|w.sent|, req)
      case Raised(message) => Logged(w1, now, event, current, "exception", ExceptionDiff(message))
      case Response(code, text) =>
        if code == 200 || code == 201 then
          var w2 := if CacheEligible(memberId, event)
            then w1.(blobs := WithCacheEntry(w1.blobs, Str(memberId), current)) else w1;
          TagStep(Logged(w2, now, event, current, "success", Null), oracle, now, key, event, current)
        else
          Logged(w1, now, event, current, "error", ErrorDiff(code, text))
  }

  /** `sync_to_mailchimp`: the world afterwards, and whether an exception
      escaped it (one raised before the `try`: a missing or malformed field
      mapping or subscription, or a lookup email that is not a string). */
  function Sync(w: World, oracle: Oracle, now: string, member: Dict<string, Json>, sub: Json,
                event: string, overrideGuid: bool, tagOnly: bool): (World, bool)
  {
    match FieldMapping(w.blobs)
    case None => (w, true)
    case Some(mapping) =>
      match BuildMergeFields(mapping, member, overrideGuid, sub)
      case None => (w, true)
      case Some(mf) =>
        var original := LookupEmail(w.blobs, member);
        if !original.Str? then (w, true)
        else (Attempt(w, oracle, now, ContactHash(original.s), event, GetOr(member, "email", Null),
                      mf, MemberIdText(member), tagOnly), false)
  }

  // ---------------------------------------------------------------------
  // The procedure
  // ---------------------------------------------------------------------

  method MergeFieldsFor(mapping: Dict<string, Json>, member: Dict<string, Json>, overrideGuid: bool, sub: Json)
    returns (mf: Option<MergeFields>)
    ensures mf == BuildMergeFields(mapping, member, overrideGuid, sub)
  {
    var base := BaseMergeFields(mapping, member, overrideGuid);
    if base.None? {
      return None;
    }
    var fields := base.value;
    var i := 0;
    while i < |mapping|
      invariant 0 <= i <= |mapping|
      invariant WithMapped(fields, mapping[i..], member) == WithMapped(base.value, mapping, member)
    {
      assert mapping[i..][1..] == mapping[i + 1..];
      var (sourceKey, tag) := mapping[i];
      if !Hashable(tag) {
        return None;
      }
      if !HasKey(fields, tag) && HasKey(member, sourceKey) {
        fields := Set(fields, tag, Get(member, sourceKey).value);
      }
      i := i + 1;
    }
    assert mapping[i..] == [];
    mf := WithSubscription(fields, mapping, sub);
  }

  method PostTags(store: Store, api: Api, now: string, key: ContactKey, event: string, email: Json)
    requires Valid(store.blobs)
    modifies store, api
    ensures Valid(store.blobs)
    ensures World(store.blobs, api.sent) == TagStep(World(old(store.blobs), old(api.sent)), api.oracle, now, key, event, email)
  {
    if event in ADD_TAG_EVENTS + REMOVE_TAG_EVENTS {
      var reply := api.Send(UpdateTags(key, PAYMENT_FAILED_TAG, TagStatus(event)));
      if reply.Raised? {
        AppendLogEntry(store, now, event, email, "exception", ExceptionDiff(reply.message), Null);
      }
    }
  }

  method SyncToMailchimp(store: Store, api: Api, now: string, member: Dict<string, Json>, sub: Json,
                         event: string, overrideGuid: bool, tagOnly: bool)
    returns (escaped: bool)
    requires Valid(store.blobs)
    modifies store, api
    ensures Valid(store.blobs)
    ensures (World(store.blobs, api.sent), escaped)
         == Sync(World(old(store.blobs), old(api.sent)), api.oracle, now, member, sub, event, overrideGuid, tagOnly)
  {
    var mergeMap := store.LoadJson(MERGE_MAP_FILE);
    if !mergeMap.Obj? {
      return true;
    }
    var mappingDoc := Get(mergeMap.fields, "MERGE_FIELDS");
    if !(mappingDoc.Some? && mappingDoc.value.Obj?) {
      return true;
    }
    var mapping := mappingDoc.value.fields;
    var memberId := PyStr(GetOr(member, "id", Null));
    var current := GetOr(member, "email", Null);
    var cached := GetCachedEmail(store, Str(memberId));
    var original := if Truthy(cached) then cached else current;
    var mf := MergeFieldsFor(mapping, member, overrideGuid, sub);
    if mf.None? || !original.Str? {
      return true;
    }
    escaped := false;
    PushMember(store, api, now, ContactHash(original.s), event, current, mf.value, memberId, tagOnly);
  }

  /** The `try` block: the upsert, its outcome, and the tag step. */
  method PushMember(store: Store, api: Api, now: string, key: ContactKey, event: string,
                    current: Json, mf: MergeFields, memberId: string, tagOnly: bool)
    requires Valid(store.blobs)
    modifies store, api
    ensures Valid(store.blobs)
    ensures World(store.blobs, api.sent)
         == Attempt(World(old(store.blobs), old(api.sent)), api.oracle, now, key, event, current, mf, memberId, tagOnly)
  {
    if !tagOnly {
      var reply := api.Send(Upsert(key, current, mf));
      match reply {
        case Raised(message) =>
          AppendLogEntry(store, now, event, current, "exception", ExceptionDiff(message), Null);
          return;
        case Response(code, text) =>
          if code == 200 || code == 201 {
            if CacheEligible(memberId, event) {
              UpdateCache(store, Str(memberId), current);
            }
            AppendLogEntry(store, now, event, current, "success", Null, Null);
          } else {
            AppendLogEntry(store, now, event, current, "error", ErrorDiff(code, text), Null);
            return;
          }
      }
    }
    PostTags(store, api, now, key, event, current);
  }

  // ---------------------------------------------------------------------
  // Properties
  // ---------------------------------------------------------------------

  /** The mapped-field loop never overwrites a tag already set (in
      particular the four base fields), and a tag not yet set receives the
      member's value for the first mapped source key the member has. */
  lemma {:induction false} MappedFieldsMeaning(mf: MergeFields, items: Dict<string, Json>, member: Dict<string, Json>, tag: Json)
    requires WithMapped(mf, items, member).Some?
    ensures HasKey(mf, tag) ==> Get(WithMapped(mf, items, member).value, tag) == Get(mf, tag)
    ensures !HasKey(mf, tag) ==> Get(WithMapped(mf, items, member).value, tag) == FirstMapped(items, member, tag)
    decreases |items|
  {
    if items != [] {
      var (sourceKey, t) := items[0];
      var next := MapStep(mf, items[0], member).value;
      MappedFieldsMeaning(next, items[1..], member, tag);
      if t != tag && !HasKey(mf, t) && HasKey(member, sourceKey) {
        GetSetOther(mf, t, Get(member, sourceKey).value, tag);
      }
      if t == tag && !HasKey(mf, t) && HasKey(member, sourceKey) {
        GetSetSame(mf, t, Get(member, sourceKey).value);
      }
    }
  }

  /** The loop fails (TypeError) exactly when some mapped tag is unhashable. */
  lemma {:induction false} MappedFailsOnlyOnUnhashable(mf: MergeFields, items: Dict<string, Json>, member: Dict<string, Json>)
    ensures WithMapped(mf, items, member).Some? <==> forall i :: 0 <= i < |items| ==> Hashable(items[i].1)
    decreases |items|
  {
    if items != [] {
      if Hashable(items[0].1) {
        MappedFailsOnlyOnUnhashable(MapStep(mf, items[0], member).value, items[1..], member);
        assert forall i :: 1 <= i < |items| ==> items[i] == items[1..][i - 1];
      }
    }
  }

  /** The eight standard names of the field mapping are present and name
      eight different merge tags. */
  predicate DistinctStandardTags(mapping: Dict<string, Json>)
  {
    var names := ["first_name", "last_name", "member_id", "signup_date", "plan_name", "plan_active", "auto_renew", "expires_at"];
    && (forall i :: 0 <= i < |names| ==> TagFor(mapping, names[i]).Some?)
    && (forall i, j :: 0 <= i < j < |names| ==> TagFor(mapping, names[i]) != TagFor(mapping, names[j]))
  }

  /** The merge tag the mapping gives a standard name. */
  function MappedTag(mapping: Dict<string, Json>, name: string): Json
    requires TagFor(mapping, name).Some?
  {
    TagFor(mapping, name).value
  }

  /** With a sane mapping, the four base fields hold the member's names, its
      id (or "USER DELETED" for an override) and its normalised signup date. */
  lemma BaseFieldsContent(mapping: Dict<string, Json>, member: Dict<string, Json>, overrideGuid: bool)
    requires DistinctStandardTags(mapping)
    ensures BaseMergeFields(mapping, member, overrideGuid).Some?
    ensures var mf := BaseMergeFields(mapping, member, overrideGuid).value;
      && Get(mf, MappedTag(mapping, "first_name")) == Some(GetOr(member, "first_name", Str("")))
      && Get(mf, MappedTag(mapping, "last_name")) == Some(GetOr(member, "last_name", Str("")))
      && Get(mf, MappedTag(mapping, "member_id")) == Some(Str(if overrideGuid then DELETED_MEMBER_ID else MemberIdText(member)))
      && Get(mf, MappedTag(mapping, "signup_date")) == Some(Str(FormatDate(GetOr(member, "created_at", Null))))
  {
    var names := ["first_name", "last_name", "member_id", "signup_date", "plan_name", "plan_active", "auto_renew", "expires_at"];
    assert TagFor(mapping, names[0]).Some? && TagFor(mapping, names[1]).Some?;
    assert TagFor(mapping, names[2]).Some? && TagFor(mapping, names[3]).Some?;
    var t1, t2, t3, t4 := MappedTag(mapping, "first_name"), MappedTag(mapping, "last_name"), MappedTag(mapping, "member_id"), MappedTag(mapping, "signup_date");
    assert TagFor(mapping, names[0]) != TagFor(mapping, names[1]);
    assert TagFor(mapping, names[0]) != TagFor(mapping, names[2]);
    assert TagFor(mapping, names[0]) != TagFor(mapping, names[3]);
    assert TagFor(mapping, names[1]) != TagFor(mapping, names[2]);
    assert TagFor(mapping, names[1]) != TagFor(mapping, names[3]);
    assert TagFor(mapping, names[2]) != TagFor(mapping, names[3]);
    var v1, v2 := GetOr(member, "first_name", Str("")), GetOr(member, "last_name", Str(""));
    var v3 := Str(if overrideGuid then DELETED_MEMBER_ID else MemberIdText(member));
    var v4 := Str(FormatDate(GetOr(member, "created_at", Null)));
    var f0: MergeFields := [];
    var f1 := Set(f0, t1, v1);
    var f2 := Set(f1, t2, v2);
    var f3 := Set(f2, t3, v3);
    var f4 := Set(f3, t4, v4);
    GetSetSame(f0, t1, v1);
    GetSetSame(f1, t2, v2);
    GetSetSame(f2, t3, v3);
    GetSetSame(f3, t4, v4);
    GetSetOther(f1, t2, v2, t1);
    GetSetOther(f2, t3, v3, t1);
    GetSetOther(f3, t4, v4, t1);
    GetSetOther(f2, t3, v3, t2);
    GetSetOther(f3, t4, v4, t2);
    GetSetOther(f3, t4, v4, t3);
  }

  /** A falsy subscription (None or `{}`) adds nothing; a truthy one sets the
      plan name, the Yes/No active label, the On/Off renewal label and the
      normalised expiry, and leaves every other tag as it was. */
  lemma SubscriptionFieldsContent(mf: MergeFields, mapping: Dict<string, Json>, sub: Json, other: Json)
    requires DistinctStandardTags(mapping)
    requires WithSubscription(mf, mapping, sub).Some?
    ensures !Truthy(sub) ==> WithSubscription(mf, mapping, sub).value == mf
    ensures Truthy(sub) ==> var r := WithSubscription(mf, mapping, sub).value;
      && Get(r, MappedTag(mapping, "plan_name")) == PlanName(sub)
      && Get(r, MappedTag(mapping, "plan_active")) == Some(Str(ConvertBool(GetOr(sub.fields, "active", Null))))
      && Get(r, MappedTag(mapping, "auto_renew")) == Some(Str(ConvertAutorenew(GetOr(sub.fields, "autorenew", Null))))
      && Get(r, MappedTag(mapping, "expires_at")) == Some(Str(FormatDate(GetOr(sub.fields, "expires_at", Null))))
      && (other !in {MappedTag(mapping, "plan_name"), MappedTag(mapping, "plan_active"), MappedTag(mapping, "auto_renew"), MappedTag(mapping, "expires_at")}
          ==> Get(r, other) == Get(mf, other))
  {
    if Truthy(sub) {
      var names := ["first_name", "last_name", "member_id", "signup_date", "plan_name", "plan_active", "auto_renew", "expires_at"];
      assert TagFor(mapping, names[4]).Some? && TagFor(mapping, names[5]).Some?;
      assert TagFor(mapping, names[6]).Some? && TagFor(mapping, names[7]).Some?;
      assert TagFor(mapping, names[4]) != TagFor(mapping, names[5]);
      assert TagFor(mapping, names[4]) != TagFor(mapping, names[6]);
      assert TagFor(mapping, names[4]) != TagFor(mapping, names[7]);
      assert TagFor(mapping, names[5]) != TagFor(mapping, names[6]);
      assert TagFor(mapping, names[5]) != TagFor(mapping, names[7]);
      assert TagFor(mapping, names[6]) != TagFor(mapping, names[7]);
      var t1, t2, t3, t4 := MappedTag(mapping, "plan_name"), MappedTag(mapping, "plan_active"), MappedTag(mapping, "auto_renew"), MappedTag(mapping, "expires_at");
      var v1 := PlanName(sub).value;
      var v2 := Str(ConvertBool(GetOr(sub.fields, "active", Null)));
      var v3 := Str(ConvertAutorenew(GetOr(sub.fields, "autorenew", Null)));
      var v4 := Str(FormatDate(GetOr(sub.fields, "expires_at", Null)));
      var f1 := Set(mf, t1, v1);
      var f2 := Set(f1, t2, v2);
      var f3 := Set(f2, t3, v3);
      var f4 := Set(f3, t4, v4);
      GetSetSame(mf, t1, v1);
      GetSetSame(f1, t2, v2);
      GetSetSame(f2, t3, v3);
      GetSetSame(f3, t4, v4);
      GetSetOther(f1, t2, v2, t1);
      GetSetOther(f2, t3, v3, t1);
      GetSetOther(f3, t4, v4, t1);
      GetSetOther(f2, t3, v3, t2);
      GetSetOther(f3, t4, v4, t2);
      GetSetOther(f3, t4, v4, t3);
      if other !in {t1, t2, t3, t4} {
        GetSetOther(mf, t1, v1, other);
        GetSetOther(f1, t2, v2, other);
        GetSetOther(f2, t3, v3, other);
        GetSetOther(f3, t4, v4, other);
      }
    }
  }

  /** The plan name falls back from `plan_name` to `subscription_plan.name`
      to "". */
  lemma PlanNameFallback(fields: Dict<string, Json>)
    ensures Truthy(GetOr(fields, "plan_name", Null)) ==> PlanName(Obj(fields)) == Some(GetOr(fields, "plan_name", Null))
    ensures !Truthy(GetOr(fields, "plan_name", Null)) && !HasKey(fields, "subscription_plan") ==>
      PlanName(Obj(fields)) == Some(Str(""))
    ensures (!Truthy(GetOr(fields, "plan_name", Null)) && Get(fields, "subscription_plan").Some?
             && Get(fields, "subscription_plan").value.Obj?) ==>
      PlanName(Obj(fields)) == Some(GetOr(Get(fields, "subscription_plan").value.fields, "name", Str("")))
  {
  }

  /** With a sane mapping, the member-id merge field is "USER DELETED" for an
      override sync and `str(member.id)` otherwise, whatever the loop and the
      subscription add. */
  lemma MemberIdField(mapping: Dict<string, Json>, member: Dict<string, Json>, overrideGuid: bool, sub: Json)
    requires DistinctStandardTags(mapping)
    requires BuildMergeFields(mapping, member, overrideGuid, sub).Some?
    ensures Get(BuildMergeFields(mapping, member, overrideGuid, sub).value, MappedTag(mapping, "member_id"))
         == Some(Str(if overrideGuid then DELETED_MEMBER_ID else MemberIdText(member)))
  {
    var names := ["first_name", "last_name", "member_id", "signup_date", "plan_name", "plan_active", "auto_renew", "expires_at"];
    assert TagFor(mapping, names[2]).Some?;
    assert TagFor(mapping, names[2]) != TagFor(mapping, names[4]);
    assert TagFor(mapping, names[2]) != TagFor(mapping, names[5]);
    assert TagFor(mapping, names[2]) != TagFor(mapping, names[6]);
    assert TagFor(mapping, names[2]) != TagFor(mapping, names[7]);
    BaseFieldsContent(mapping, member, overrideGuid);
    var base := BaseMergeFields(mapping, member, overrideGuid).value;
    var id := MappedTag(mapping, "member_id");
    MappedFieldsMeaning(base, mapping, member, id);
    var mapped := WithMapped(base, mapping, member).value;
    SubscriptionFieldsContent(mapped, mapping, sub, id);
  }

  lemma TagSetsDisjoint()
    ensures ADD_TAG_EVENTS * REMOVE_TAG_EVENTS == {}
  {
  }

  /** The tag step: no request for an event outside both tag sets; otherwise
      one "Payment Failed" request, "active" for the add set and "inactive"
      for the remove set. Whatever status comes back, nothing else changes;
      only an exception from the call adds one "exception" entry. */
  lemma TagStepEffect(w: World, oracle: Oracle, now: string, key: ContactKey, event: string, email: Json)
    ensures event !in ADD_TAG_EVENTS + REMOVE_TAG_EVENTS ==> TagStep(w, oracle, now, key, event, email) == w
    ensures event in ADD_TAG_EVENTS + REMOVE_TAG_EVENTS ==>
      var req := UpdateTags(key, PAYMENT_FAILED_TAG, if event in ADD_TAG_EVENTS then "active" else "inactive");
      var r := TagStep(w, oracle, now, key, event, email);
      && r.sent == w.sent + [req]
      && (oracle(|w.sent|, req).Response? ==> r.blobs == w.blobs)
      && (oracle(|w.sent|, req).Raised? ==>
            r.blobs == WithLogEntry(w.blobs, LogRecord(now, event, email, "exception", ExceptionDiff(oracle(|w.sent|, req).message), Null)))
  {
  }

  /** Log entries never disappear and the cache is never touched by the tag step. */
  lemma TagStepKeepsCache(w: World, oracle: Oracle, now: string, key: ContactKey, event: string, email: Json)
    requires Valid(w.blobs)
    ensures var r := TagStep(w, oracle, now, key, event, email);
      && CacheOf(r.blobs) == CacheOf(w.blobs)
      && |w.sent| <= |r.sent| && r.sent[..|w.sent|] == w.sent
      && (LogOf(r.blobs) == LogOf(w.blobs) || LogOf(r.blobs) == LogOf(w.blobs)
          + [LogRecord(now, event, email, "exception", ExceptionDiff(oracle(|w.sent|, UpdateTags(key, PAYMENT_FAILED_TAG, TagStatus(event))).message), Null)])
  {
    var r := TagStep(w, oracle, now, key, event, email);
    assert r.sent[..|w.sent|] == w.sent;
  }

  /** Upsert accepted (200 or 201): the cache entry for the member id becomes
      the current email exactly when the id is usable and the event is not an
      invoice event (override or not), and one "success" entry is appended
      before anything the tag step may add. */
  lemma AttemptAccepted(w: World, oracle: Oracle, now: string, key: ContactKey, event: string,
                        current: Json, mf: MergeFields, memberId: string)
    requires Valid(w.blobs)
    requires oracle(|w.sent|, Upsert(key, current, mf)).Response?
    requires oracle(|w.sent|, Upsert(key, current, mf)).code in {200, 201}
    ensures var r := Attempt(w, oracle, now, key, event, current, mf, memberId, false);
      && |w.sent| < |r.sent| && r.sent[..|w.sent| + 1] == w.sent + [Upsert(key, current, mf)]
      && CacheOf(r.blobs) == (if CacheEligible(memberId, event) then Set(CacheOf(w.blobs), memberId, current) else CacheOf(w.blobs))
      && |LogOf(w.blobs)| < |LogOf(r.blobs)|
      && LogOf(r.blobs)[..|LogOf(w.blobs)| + 1] == LogOf(w.blobs) + [LogRecord(now, event, current, "success", Null, Null)]
      && (event !in ADD_TAG_EVENTS + REMOVE_TAG_EVENTS ==> |LogOf(r.blobs)| == |LogOf(w.blobs)| + 1)
  {
    var req := Upsert(key, current, mf);
    var w1 := w.(sent := w.sent + [req]);
    var w2 := if CacheEligible(memberId, event) then w1.(blobs := WithCacheEntry(w1.blobs, Str(memberId), current)) else w1;
    CacheWritesKeepValid(w1.blobs, Str(memberId), current);
    var w3 := Logged(w2, now, event, current, "success", Null);
    AppendOnly(w2.blobs, LogRecord(now, event, current, "success", Null, Null));
    TagStepKeepsCache(w3, oracle, now, key, event, current);
    var r := TagStep(w3, oracle, now, key, event, current);
    assert r.sent[..|w.sent| + 1] == r.sent[..|w3.sent|][..|w.sent| + 1];
    assert LogOf(w2.blobs) == LogOf(w.blobs);
    if LogOf(r.blobs) != LogOf(w3.blobs) {
      assert LogOf(r.blobs)[..|LogOf(w.blobs)| + 1] == LogOf(w3.blobs);
    }
  }

  /** Upsert refused (any other status): one "error" entry carrying the
      status and body, the cache untouched, no tag request. */
  lemma AttemptRefused(w: World, oracle: Oracle, now: string, key: ContactKey, event: string,
                       current: Json, mf: MergeFields, memberId: string)
    requires Valid(w.blobs)
    requires oracle(|w.sent|, Upsert(key, current, mf)).Response?
    requires oracle(|w.sent|, Upsert(key, current, mf)).code !in {200, 201}
    ensures var r := Attempt(w, oracle, now, key, event, current, mf, memberId, false);
      var reply := oracle(|w.sent|, Upsert(key, current, mf));
      && r.sent == w.sent + [Upsert(key, current, mf)]
      && CacheOf(r.blobs) == CacheOf(w.blobs)
      && LogOf(r.blobs) == LogOf(w.blobs) + [LogRecord(now, event, current, "error", ErrorDiff(reply.code, reply.text), Null)]
  {
  }

  /** An exception from the upsert: exactly one "exception" entry, the
      cache untouched, no tag request. */
  lemma AttemptRaised(w: World, oracle: Oracle, now: string, key: ContactKey, event: string,
                      current: Json, mf: MergeFields, memberId: string)
    requires Valid(w.blobs)
    requires oracle(|w.sent|, Upsert(key, current, mf)).Raised?
    ensures var r := Attempt(w, oracle, now, key, event, current, mf, memberId, false);
      && r.sent == w.sent + [Upsert(key, current, mf)]
      && CacheOf(r.blobs) == CacheOf(w.blobs)
      && LogOf(r.blobs) == LogOf(w.blobs)
           + [LogRecord(now, event, current, "exception", ExceptionDiff(oracle(|w.sent|, Upsert(key, current, mf)).message), Null)]
  {
  }

  /** A tag-only sync sends no upsert, writes no cache entry and no success
      or error entry: at most a tag request and its exception entry. */
  lemma AttemptTagOnly(w: World, oracle: Oracle, now: string, key: ContactKey, event: string,
                       current: Json, mf: MergeFields, memberId: string)
    requires Valid(w.blobs)
    ensures var r := Attempt(w, oracle, now, key, event, current, mf, memberId, true);
      && CacheOf(r.blobs) == CacheOf(w.blobs)
      && (forall i :: |w.sent| <= i < |r.sent| ==> r.sent[i].UpdateTags?)
      && |r.sent| <= |w.sent| + 1
      && (LogOf(r.blobs) == LogOf(w.blobs) || (|LogOf(r.blobs)| == |LogOf(w.blobs)| + 1
            && Get(LogOf(r.blobs)[|LogOf(w.blobs)|].fields, "status") == Some(Str("exception"))))
  {
    var req := UpdateTags(key, PAYMENT_FAILED_TAG, TagStatus(event));
    var reply := oracle(|w.sent|, req);
    if event in ADD_TAG_EVENTS + REMOVE_TAG_EVENTS && reply.Raised? {
      RecordFields(now, event, current, "exception", ExceptionDiff(reply.message), Null);
    }
  }

  /** An exception that escapes `sync_to_mailchimp` is raised before any
      request, cache write or log entry. */
  lemma EscapeHasNoEffect(w: World, oracle: Oracle, now: string, member: Dict<string, Json>, sub: Json,
                          event: string, overrideGuid: bool, tagOnly: bool)
    ensures Sync(w, oracle, now, member, sub, event, overrideGuid, tagOnly).1 ==>
      Sync(w, oracle, now, member, sub, event, overrideGuid, tagOnly).0 == w
  {
  }

  /** The upsert is addressed by the hash of the lower-cased lookup email
      (the cached email for `str(member.id)` if truthy, else the event's),
      while its body carries the event's current email. */
  lemma UpsertTarget(w: World, oracle: Oracle, now: string, member: Dict<string, Json>, sub: Json,
                     event: string, overrideGuid: bool)
    requires Valid(w.blobs)
    requires !Sync(w, oracle, now, member, sub, event, overrideGuid, false).1
    ensures LookupEmail(w.blobs, member).Str?
    ensures var r := Sync(w, oracle, now, member, sub, event, overrideGuid, false).0;
      && |w.sent| < |r.sent|
      && r.sent[|w.sent|].UpsertMember?
      && r.sent[|w.sent|].key == Md5Hex(Lower(LookupEmail(w.blobs, member).s))
      && r.sent[|w.sent|].emailAddress == GetOr(member, "email", Null)
      && r.sent[|w.sent|].statusIfNew == "subscribed"
      && r.sent[|w.sent|].mergeFields == BuildMergeFields(FieldMapping(w.blobs).value, member, overrideGuid, sub).value
  {
    var mapping := FieldMapping(w.blobs).value;
    var mf := BuildMergeFields(mapping, member, overrideGuid, sub).value;
    var key := ContactHash(LookupEmail(w.blobs, member).s);
    var current := GetOr(member, "email", Null);
    var reply := oracle(|w.sent|, Upsert(key, current, mf));
    if reply.Response? && reply.code in {200, 201} {
      AttemptAccepted(w, oracle, now, key, event, current, mf, MemberIdText(member));
      var r := Attempt(w, oracle, now, key, event, current, mf, MemberIdText(member), false);
      assert r.sent[|w.sent|] == r.sent[..|w.sent| + 1][|w.sent|];
    }
  }

  /** The identity continuity the design relies on: when the member's id has
      a cached email that differs from the event's, the contact is found under
      the cached address, the upsert writes the new one, and once the provider
      accepts it the cache files the member under the new address. */
  lemma RenameFollowsCache(w: World, oracle: Oracle, now: string, member: Dict<string, Json>, sub: Json, event: string)
    requires Valid(w.blobs)
    requires Truthy(CachedEmail(w.blobs, Str(MemberIdText(member))))
    requires CacheEligible(MemberIdText(member), event)
    requires !Sync(w, oracle, now, member, sub, event, false, false).1
    requires var mf := BuildMergeFields(FieldMapping(w.blobs).value, member, false, sub).value;
      var reply := oracle(|w.sent|, Upsert(ContactHash(LookupEmail(w.blobs, member).s), GetOr(member, "email", Null), mf));
      reply.Response? && reply.code in {200, 201}
    ensures var r := Sync(w, oracle, now, member, sub, event, false, false).0;
      var cached := CachedEmail(w.blobs, Str(MemberIdText(member)));
      && cached.Str?
      && r.sent[|w.sent|].key == Md5Hex(Lower(cached.s))
      && r.sent[|w.sent|].emailAddress == GetOr(member, "email", Null)
      && CachedEmail(r.blobs, Str(MemberIdText(member))) == GetOr(member, "email", Null)
  {
    UpsertTarget(w, oracle, now, member, sub, event, false);
    var mf := BuildMergeFields(FieldMapping(w.blobs).value, member, false, sub).value;
    var id := MemberIdText(member);
    var current := GetOr(member, "email", Null);
    AttemptAccepted(w, oracle, now, ContactHash(LookupEmail(w.blobs, member).s), event, current, mf, id);
    GetSetSame(CacheOf(w.blobs), id, current);
  }

  /** A sync for an event outside the tag sets, with no exception and the
      upsert accepted: the one upsert is sent, the cache entry is written when
      the id is eligible, and one "success" entry is appended. */
  lemma SyncAccepted(w: World, oracle: Oracle, now: string, member: Dict<string, Json>, sub: Json, event: string)
    requires Valid(w.blobs)
    requires event !in ADD_TAG_EVENTS + REMOVE_TAG_EVENTS
    requires FieldMapping(w.blobs).Some?
    requires BuildMergeFields(FieldMapping(w.blobs).value, member, false, sub).Some?
    requires LookupEmail(w.blobs, member).Str?
    requires AcceptsEveryUpsert(oracle)
    ensures var r := Sync(w, oracle, now, member, sub, event, false, false);
      var email := GetOr(member, "email", Null);
      var id := MemberIdText(member);
      var mf := BuildMergeFields(FieldMapping(w.blobs).value, member, false, sub).value;
      && !r.1
      && r.0.sent == w.sent + [Upsert(ContactHash(LookupEmail(w.blobs, member).s), email, mf)]
      && CacheOf(r.0.blobs) == (if CacheEligible(id, event) then Set(CacheOf(w.blobs), id, email) else CacheOf(w.blobs))
      && LogOf(r.0.blobs) == LogOf(w.blobs) + [LogRecord(now, event, email, "success", Null, Null)]
      && Load(r.0.blobs, MERGE_MAP_FILE) == Load(w.blobs, MERGE_MAP_FILE)
      && Valid(r.0.blobs)
  {
    var email := GetOr(member, "email", Null);
    var id := MemberIdText(member);
    var mf := BuildMergeFields(FieldMapping(w.blobs).value, member, false, sub).value;
    var req := Upsert(ContactHash(LookupEmail(w.blobs, member).s), email, mf);
    assert oracle(|w.sent|, req).Response? && oracle(|w.sent|, req).code in {200, 201};
    var w1 := w.(sent := w.sent + [req]);
    var w2 := if CacheEligible(id, event) then w1.(blobs := WithCacheEntry(w1.blobs, Str(id), email)) else w1;
    CacheWritesKeepValid(w1.blobs, Str(id), email);
    AppendOnly(w2.blobs, LogRecord(now, event, email, "success", Null, Null));
    assert LogOf(w2.blobs) == LogOf(w.blobs);
  }

  /** The conditions under which a sync for an event outside the tag sets
      goes through: nothing raises before the upsert, the member's email is
      a string, and the provider accepts every upsert. */
  ghost predicate CleanSync(w: World, oracle: Oracle, member: Dict<string, Json>, sub: Json, event: string)
  {
    && Valid(w.blobs)
    && event !in ADD_TAG_EVENTS + REMOVE_TAG_EVENTS
    && FieldMapping(w.blobs).Some?
    && BuildMergeFields(FieldMapping(w.blobs).value, member, false, sub).Some?
    && LookupEmail(w.blobs, member).Str? && GetOr(member, "email", Null).Str?
    && AcceptsEveryUpsert(oracle)
  }

  /** Delivering the same event again, to a provider that accepts every
      upsert, from any state that kept the first sync's cache and field
      mapping: the second sync sends an upsert with the same body, leaves the
      cache as the first one left it, and appends one more "success" entry.
      Only the key can differ: the first upsert finds a renamed member under
      its old address. */
  lemma SyncReplay(w: World, v: World, oracle: Oracle, now: string, member: Dict<string, Json>, sub: Json, event: string)
    requires CleanSync(w, oracle, member, sub, event)
    requires Valid(v.blobs) && Load(v.blobs, MERGE_MAP_FILE) == Load(w.blobs, MERGE_MAP_FILE)
    requires CacheOf(v.blobs) == CacheOf(Sync(w, oracle, now, member, sub, event, false, false).0.blobs)
    ensures var r1 := Sync(w, oracle, now, member, sub, event, false, false).0;
      var r2 := Sync(v, oracle, now, member, sub, event, false, false);
      var mf := BuildMergeFields(FieldMapping(w.blobs).value, member, false, sub).value;
      && !r2.1
      && CacheOf(r2.0.blobs) == CacheOf(r1.blobs)
      && LookupEmail(v.blobs, member).Str?
      && r1.sent == w.sent + [Upsert(ContactHash(LookupEmail(w.blobs, member).s), GetOr(member, "email", Null), mf)]
      && r2.0.sent == v.sent + [Upsert(ContactHash(LookupEmail(v.blobs, member).s), GetOr(member, "email", Null), mf)]
      && LogOf(r2.0.blobs) == LogOf(v.blobs) + [LogRecord(now, event, GetOr(member, "email", Null), "success", Null, Null)]
      && Valid(r2.0.blobs)
  {
    var email := GetOr(member, "email", Null);
    var id := MemberIdText(member);
    SyncAccepted(w, oracle, now, member, sub, event);
    var r1 := Sync(w, oracle, now, member, sub, event, false, false).0;
    assert FieldMapping(v.blobs) == FieldMapping(w.blobs);
    if CacheEligible(id, event) {
      GetSetSame(CacheOf(w.blobs), id, email);
      assert CachedEmail(v.blobs, Str(id)) == email;
      assert LookupEmail(v.blobs, member) == email;
      SyncAccepted(v, oracle, now, member, sub, event);
      SetExisting(CacheOf(v.blobs), id, email);
    } else {
      assert LookupEmail(v.blobs, member) == LookupEmail(w.blobs, member);
      SyncAccepted(v, oracle, now, member, sub, event);
    }
  }
}
