/**
 * The stub consumer of docking.* topics (zeropain/docking/memshadow_consumer.py):
 * a subscription that always succeeds, a no-op rerank and a slow-job alert.
 * Payloads are JSON objects; a payload that is not one fails with the
 * AttributeError of its `get`.
 */
module MemshadowConsumer {
  import opened Wrappers
  import opened OrderedDict
  import opened Json

  /** MemshadowConsumerStub.subscribe(topic, handler): nothing is registered. */
  function Subscribe(topic: string): (ok: bool)
    ensures ok
  {
    true
  }

  /** payload.get(key, default) */
  function GetOr(payload: Json, key: string, default: Json): Json
  {
    Field(payload, key).GetOr(default)
  }

  /** rerank_handler(payload) */
  function RerankHandler(payload: Json): (r: Result<Json, string>)
    ensures r.Ok? <==> payload.JObj?
    ensures r.Ok? ==> r.value.JObj? && Keys(r.value.fields) == ["job_id", "type", "scores", "notes"]
    ensures r.Ok? ==> Field(r.value, "type") == Some(JStr("docking.rerank"))
    ensures r.Ok? ==> Field(r.value, "job_id") == Some(GetOr(payload, "job_id", JNull))
    ensures r.Ok? ==> Field(r.value, "scores") == Some(GetOr(payload, "scores", JArr([])))
  {
    if !payload.JObj? then Err("AttributeError: 'get'")
    else
      var out := [("job_id", GetOr(payload, "job_id", JNull)), ("type", JStr("docking.rerank")),
                  ("scores", GetOr(payload, "scores", JArr([]))), ("notes", JStr("noop rerank stub"))];
      FieldAt(out, 0, "job_id");
      FieldAt(out, 1, "type");
      FieldAt(out, 2, "scores");
      Ok(Obj(out))
  }

  /**
   * telem.get("elapsed_sec", 0) > 600 in Python's terms: numbers compare
   * by value, booleans as 0 and 1; anything else raises TypeError.
   */
  function SlowJob(elapsed: Json): (r: Result<bool, string>)
    ensures r.Ok? <==> elapsed.JInt? || elapsed.JNum? || elapsed.JInf? || elapsed.JBool?
    ensures r.Err? ==> r.error == "TypeError: '>' not supported"
    ensures elapsed.JBool? ==> r == Ok(false)
    ensures elapsed.JInf? ==> r == Ok(true)
  {
    match elapsed
    case JInt(i) => Ok(i > 600)
    case JNum(x) => Ok(x > 600.0)
    case JInf => Ok(true)
    case JBool(_) => Ok(false)
    case _ => Err("TypeError: '>' not supported")
  }

  function AlertOutput(payload: Json, alerts: seq<string>): Json
  {
    Obj([("job_id", GetOr(payload, "job_id", JNull)), ("type", JStr("docking.alert")), ("alerts", Strings(alerts))])
  }

  /** payload.get("telemetry", {}) */
  function Telemetry(payload: Json): Json
  {
    GetOr(payload, "telemetry", JObj(Empty()))
  }

  /** telem.get("elapsed_sec", 0) */
  function Elapsed(payload: Json): Json
  {
    GetOr(Telemetry(payload), "elapsed_sec", JInt(0))
  }

  /** alert_handler(payload): a "slow_job" alert when the job took more than 600 seconds. */
  method AlertHandler(payload: Json) returns (r: Result<Json, string>)
    ensures (payload.JObj? && Telemetry(payload).JObj? && SlowJob(Elapsed(payload)).Ok?) ==>
      r == Ok(AlertOutput(payload, if SlowJob(Elapsed(payload)).value then ["slow_job"] else []))
    ensures !payload.JObj? || !Telemetry(payload).JObj? || SlowJob(Elapsed(payload)).Err? ==> r.Err?
  {
    if !payload.JObj? {
      return Err("AttributeError: 'get'");
    }
    var telem := Telemetry(payload);
    if !telem.JObj? {
      return Err("AttributeError: 'get'");
    }
    var alerts: seq<string> := [];
    var slow := SlowJob(GetOr(telem, "elapsed_sec", JInt(0)));
    if slow.Err? {
      return Err(slow.error);
    }
    if slow.value {
      alerts := alerts + ["slow_job"];
      assert alerts == ["slow_job"];
    }
    r := Ok(AlertOutput(payload, alerts));
  }

  /**
   * The alert output has type "docking.alert", copies job_id, and lists
   * "slow_job" exactly when elapsed_sec exceeds 600; missing telemetry
   * raises no alert.
   */
  lemma AlertFacts(payload: Json, alerts: seq<string>)
    ensures Field(AlertOutput(payload, alerts), "type") == Some(JStr("docking.alert"))
    ensures Field(AlertOutput(payload, alerts), "job_id") == Some(GetOr(payload, "job_id", JNull))
    ensures Field(AlertOutput(payload, alerts), "alerts") == Some(Strings(alerts))
  {
    var out := AlertOutput(payload, alerts).fields.entries;
    FieldAt(out, 0, "job_id");
    FieldAt(out, 1, "type");
    FieldAt(out, 2, "alerts");
  }

  /** With numeric elapsed seconds the alert is raised iff they exceed 600. */
  lemma SlowJobThreshold(x: real, i: int)
    ensures SlowJob(JNum(x)) == Ok(x > 600.0)
    ensures SlowJob(JInt(i)) == Ok(i > 600)
  {
  }

  /** A payload without telemetry raises no alert. */
  lemma NoTelemetryNoAlert(payload: Json)
    requires payload.JObj? && Field(payload, "telemetry").None?
    ensures Telemetry(payload).JObj? && SlowJob(Elapsed(payload)) == Ok(false)
  {
  }
}
