/**
 * `Query.processResponse`: read the response envelope, scan the root's part
 * of it below the query's parent, and hand back the follow-up queries.
 */
module Responses {
  import opened Wrappers
  import opened Json
  import opened Nodes
  import opened Elements
  import opened Queries
  import opened ScanSpec
  import opened Scanner

  /** `TQLError` (also spelled `TQL.Error`). */
  datatype TqlError = AlreadyParsed | ApiError(message: string)

  const EnvelopeMessage: string := "Could not read a `data` or `data.node` from payload"

  /** The object the root is read from: `data`, or `data.node` when the query has a parent. */
  function DataObject(q: Query, json: Option<Json>): Option<map<string, Json>> {
    if json.Some? && json.value.JObject? then
      match ObjectAt(json.value.fields, "data")
      case None => None
      case Some(allData) => if q.parent.None? then Some(allData) else ObjectAt(allData, "node")
    else None
  }

  /** The `guard` of `processResponse`: the root element's entry in the data object. */
  function TopData(q: Query, json: Option<Json>): Option<Json> {
    match DataObject(q, json)
    case Some(data) => if Name(q.rootElement) in data then Some(data[Name(q.rootElement)]) else None
    case None => None
  }

  /**
   * The envelope is rejected exactly when the payload is not an object, has
   * no `data` object, lacks a `node` object below `data` while the query has
   * a parent, or lacks the root element's name as a key.
   */
  lemma EnvelopeRejected(q: Query, json: Option<Json>)
    ensures TopData(q, json).None? <==>
      || json.None? || !json.value.JObject?
      || ObjectAt(json.value.fields, "data").None?
      || (q.parent.Some? && ObjectAt(ObjectAt(json.value.fields, "data").value, "node").None?)
      || Name(q.rootElement) !in (if q.parent.None? then ObjectAt(json.value.fields, "data").value
                                  else ObjectAt(ObjectAt(json.value.fields, "data").value, "node").value)
  {
  }

  /**
   * `processResponse`. A rejected envelope yields no queries when empty
   * responses are allowed and an `apiError` whose message starts with the
   * log prefix otherwise. An accepted one is scanned from the root with the
   * query's parent, and the result is exactly the follow-up queries appended
   * during the scan; `alreadyParsed` never comes out. `delivered` lists the
   * callback invocations.
   */
  method ProcessResponse(q: Query, json: Option<Json>, oracle: Node -> bool)
    returns (r: Result<seq<Query>, TqlError>, delivered: seq<Node>)
    ensures TopData(q, json).None? ==>
      delivered == [] && r == (if q.allowsEmptyResponse then Ok([]) else Err(ApiError(LogPrefix(q) + EnvelopeMessage)))
    ensures TopData(q, json).Some? ==>
      var t := ElementScan(q.rootElement, q, TopData(q, json).value, q.parent, oracle);
      r == Ok(t.extraQueries) && delivered == t.delivered
    ensures r.Err? ==> r.error.ApiError? && r.error.message[..|LogPrefix(q)|] == LogPrefix(q)
    ensures r.Ok? ==> forall x :: x in r.value ==> Continues(x, q)
    ensures WellParented(delivered, q.parent) && forall n :: n in delivered ==> BuiltFromPayload(n)
  {
    var topData := TopData(q, json);
    if topData.None? {
      delivered := [];
      if q.allowsEmptyResponse {
        return Ok([]), delivered;
      }
      var message := LogPrefix(q) + EnvelopeMessage;
      assert message[..|LogPrefix(q)|] == LogPrefix(q);
      return Err(ApiError(message)), delivered;
    }
    var log := new ScanLog();
    ScanElement(q.rootElement, q, topData.value, q.parent, oracle, log);
    ElementScanOk(q.rootElement, q, topData.value, q.parent, oracle);
    r := Ok(log.extraQueries);
    delivered := log.delivered;
    assert log.extraQueries == ElementScan(q.rootElement, q, topData.value, q.parent, oracle).extraQueries;
    assert r.value == log.extraQueries;
  }
}
