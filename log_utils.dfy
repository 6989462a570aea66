/** log_utils.py: the audit log, a JSON list of records to which each call
    appends exactly one, by loading the whole list and saving it back. */
module LogUtils {
  import opened Dicts
  import opened PyJson
  import opened Storage

  /** The record `append_log_entry` builds. `now` is the value of
      `datetime.utcnow().isoformat()` at the call. The optional parts are
      present only when truthy, so `{}` and None are both left out. */
  function LogRecord(now: string, event: string, email: Json, status: string, diff: Json, payload: Json): Json
  {
    Obj([("timestamp", Str(now + "Z")), ("event", Str(event)), ("email", email), ("status", Str(status))]
      + (if Truthy(diff) then [("changes", diff)] else [])
      + (if Truthy(payload) then [("payload", payload)] else []))
  }

  /** The stored records. */
  function LogOf(b: Blobs): seq<Json>
  {
    var l := Load(b, LOG_FILE);
    if l.Arr? then l.items else []
  }

  function WithLogEntry(b: Blobs, record: Json): Blobs
  {
    b[LOG_FILE := Arr(LogOf(b) + [record])]
  }

  method AppendLogEntry(store: Store, now: string, event: string, email: Json, status: string, diff: Json, payload: Json)
    requires Valid(store.blobs)
    modifies store
    ensures store.blobs == WithLogEntry(old(store.blobs), LogRecord(now, event, email, status, diff, payload))
    ensures Valid(store.blobs)
  {
    var log := LogRecord(now, event, email, status, diff, payload);
    var logs := store.LoadJson(LOG_FILE);
    logs := Arr(logs.items + [log]);
    store.SaveJson(LOG_FILE, logs);
    AppendOnly(old(store.blobs), log);
  }

  /** Lookup in the four fixed fields of a record. */
  lemma FixedGet(now: string, event: string, email: Json, status: string, k: string)
    ensures Get([("timestamp", Str(now + "Z")), ("event", Str(event)), ("email", email), ("status", Str(status))], k) ==
      if k == "timestamp" then Some(Str(now + "Z"))
      else if k == "event" then Some(Str(event))
      else if k == "email" then Some(email)
      else if k == "status" then Some(Str(status))
      else None
  {
    var head: Dict<string, Json> := [("timestamp", Str(now + "Z")), ("event", Str(event)), ("email", email), ("status", Str(status))];
    var e: Dict<string, Json> := [];
    assert head == [head[0]] + ([head[1]] + ([head[2]] + ([head[3]] + e)));
    GetCons(head[3], e, k);
    GetCons(head[2], [head[3]] + e, k);
    GetCons(head[1], [head[2]] + ([head[3]] + e), k);
    GetCons(head[0], [head[1]] + ([head[2]] + ([head[3]] + e)), k);
  }

  /** Lookup in an optional one-item part of a record. */
  lemma OptionalGet(key: string, v: Json, k: string)
    ensures Get(if Truthy(v) then [(key, v)] else [], k) == if k == key && Truthy(v) then Some(v) else None
  {
  }

  /** What reading any key of a record gives. */
  lemma RecordGet(now: string, event: string, email: Json, status: string, diff: Json, payload: Json, k: string)
    ensures Get(LogRecord(now, event, email, status, diff, payload).fields, k) ==
      if k == "timestamp" then Some(Str(now + "Z"))
      else if k == "event" then Some(Str(event))
      else if k == "email" then Some(email)
      else if k == "status" then Some(Str(status))
      else if k == "changes" && Truthy(diff) then Some(diff)
      else if k == "payload" && Truthy(payload) then Some(payload)
      else None
  {
    var head: Dict<string, Json> := [("timestamp", Str(now + "Z")), ("event", Str(event)), ("email", email), ("status", Str(status))];
    var opt1: Dict<string, Json> := if Truthy(diff) then [("changes", diff)] else [];
    var opt2: Dict<string, Json> := if Truthy(payload) then [("payload", payload)] else [];
    assert LogRecord(now, event, email, status, diff, payload).fields == head + (opt1 + opt2);
    FixedGet(now, event, email, status, k);
    OptionalGet("changes", diff, k);
    OptionalGet("payload", payload, k);
    GetConcat(opt1, opt2, k);
    GetConcat(head, opt1 + opt2, k);
  }

  /** Every record carries the four fixed fields; `changes` and `payload`
      appear exactly when the argument is truthy; the timestamp ends in "Z". */
  lemma RecordFields(now: string, event: string, email: Json, status: string, diff: Json, payload: Json)
    ensures var r := LogRecord(now, event, email, status, diff, payload).fields;
      && Get(r, "timestamp") == Some(Str(now + "Z"))
      && Get(r, "event") == Some(Str(event))
      && Get(r, "email") == Some(email)
      && Get(r, "status") == Some(Str(status))
      && (now + "Z")[|now|] == 'Z'
      && (HasKey(r, "changes") <==> Truthy(diff))
      && (Truthy(diff) ==> Get(r, "changes") == Some(diff))
      && (HasKey(r, "payload") <==> Truthy(payload))
      && (Truthy(payload) ==> Get(r, "payload") == Some(payload))
  {
    RecordGet(now, event, email, status, diff, payload, "timestamp");
    RecordGet(now, event, email, status, diff, payload, "event");
    RecordGet(now, event, email, status, diff, payload, "email");
    RecordGet(now, event, email, status, diff, payload, "status");
    RecordGet(now, event, email, status, diff, payload, "changes");
    RecordGet(now, event, email, status, diff, payload, "payload");
  }

  /** An append adds one record at the end, keeps every earlier one, and
      touches no other document. */
  lemma AppendOnly(b: Blobs, record: Json)
    requires Valid(b)
    ensures Valid(WithLogEntry(b, record))
    ensures |LogOf(WithLogEntry(b, record))| == |LogOf(b)| + 1
    ensures LogOf(WithLogEntry(b, record))[..|LogOf(b)|] == LogOf(b)
    ensures LogOf(WithLogEntry(b, record))[|LogOf(b)|] == record
    ensures forall name :: name in b && name != LOG_FILE ==>
      name in WithLogEntry(b, record) && WithLogEntry(b, record)[name] == b[name]
  {
    assert (LogOf(b) + [record])[..|LogOf(b)|] == LogOf(b);
  }
}
