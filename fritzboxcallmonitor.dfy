/**
 * The call-monitor line of the fritzbox/ revision: the same `;`-separated
 * line as in A1CallMonitor, but the timestamp is kept whole, a fourth field
 * is always unpacked, and the printout shows the connection id and the
 * device.
 */
module FritzboxCallMonitor {
  import opened Wrappers
  import opened PyStr
  import CM = A1CallMonitor

  /** One event from the router: the timestamp as sent, the type, the
      connection id, and the type's fields. */
  datatype Event = Event(
    timestamp: string, kind: string, connId: string,
    duration: Option<string>, extId: Option<string>,
    caller: Option<string>, callee: Option<string>, device: Option<string>)

  /** `CallMonitorLine.__init__` over the fields of the line: timestamp,
      type, connection id and one parameter are unpacked (ValueError with
      fewer than four fields), then the remaining fields the type needs are
      read (IndexError when the line is too short). */
  function ParseParams(params: seq<string>): (r: Result<Event, PyError>)
    ensures r.Ok? <==> |params| >= 4 && |params| >= 3 + CM.Needed(params[1])
    ensures r.Err? ==> (r.error == ValueError <==> |params| < 4)
    ensures r.Err? ==> r.error == ValueError || r.error == IndexError
    ensures r.Ok? ==> r.value.timestamp == params[0] && r.value.kind == params[1] && r.value.connId == params[2]
  {
    if |params| < 4 then Err(ValueError)
    else
      var param, more := params[3], params[4..];
      var base := Event(params[0], params[1], params[2], None, None, None, None, None);
      match CM.TypeOf(params[1])
      case None => Ok(base)
      case Some(DISCONNECT) => Ok(base.(duration := Some(param)))
      case Some(CONNECT) =>
        if |more| < 1 then Err(IndexError)
        else Ok(base.(extId := Some(param), caller := Some(more[0])))
      case Some(RING) =>
        if |more| < 2 then Err(IndexError)
        else Ok(base.(caller := Some(param), callee := Some(more[0]), device := Some(more[1])))
      case Some(CALL) =>
        if |more| < 3 then Err(IndexError)
        else Ok(base.(extId := Some(param), caller := Some(more[0]), callee := Some(more[1]), device := Some(more[2])))
  }

  /** `CallMonitorLine(line)` */
  function Parse(raw: string): Result<Event, PyError>
  {
    ParseParams(CM.Params(raw))
  }

  /** `__str__`: timestamp, type and connection id, then the fields that
      matter for the type; an unknown type prints a fixed notice. */
  function Show(e: Event): (r: string)
    ensures CM.TypeOf(e.kind).None? ==> r == "NOT IMPLEMENTED CALL TYPE " + e.kind
    ensures CM.TypeOf(e.kind).Some? ==> e.timestamp + " type:" + e.kind + " conn_id:" + e.connId <= r
  {
    var start := e.timestamp + " type:" + e.kind + " conn_id:" + e.connId;
    match CM.TypeOf(e.kind)
    case Some(RING) => start + " from:" + CM.Repr(e.caller) + " to:" + CM.Repr(e.callee) + " device:" + CM.Repr(e.device)
    case Some(CALL) => start + " from:" + CM.Repr(e.caller) + " to:" + CM.Repr(e.callee) + " device:" + CM.Repr(e.device)
    case Some(CONNECT) => start + " to:" + CM.Repr(e.caller)
    case Some(DISCONNECT) => start + " duration:" + (if e.duration.Some? then e.duration.value else "0")
    case None => "NOT IMPLEMENTED CALL TYPE " + e.kind
  }

  /** The event and the a1fbox line hold the same type and fields, with the
      timestamp standing for the line's unsplit date and time. */
  predicate Corresponds(e: Event, l: CM.CallMonitorLine)
  {
    && e.timestamp == l.datetime && e.kind == l.kind && e.connId == l.connId
    && e.duration == l.duration && e.extId == l.extId
    && e.caller == l.caller && e.callee == l.callee && e.device == l.device
  }

  /** Where the a1fbox revision can split the timestamp, the two revisions
      accept the same lines with at least four fields, fail with the same
      exception otherwise, and read the same fields. */
  lemma ParseParamsAgree(params: seq<string>)
    requires |params| >= 4 && |Split(params[0], ' ')| == 2
    ensures ParseParams(params).Ok? <==> CM.ParseParams(params).Ok?
    ensures ParseParams(params).Err? ==> ParseParams(params).error == CM.ParseParams(params).error
    ensures ParseParams(params).Ok? ==> Corresponds(ParseParams(params).value, CM.ParseParams(params).value)
  {
  }

  /** A line of exactly three fields is refused here, even with an unknown
      type that the a1fbox revision accepts. */
  lemma ThreeFieldsRefused(params: seq<string>)
    requires |params| == 3
    ensures ParseParams(params) == Err(ValueError)
    ensures |Split(params[0], ' ')| == 2 && CM.TypeOf(params[1]).None? ==> CM.ParseParams(params).Ok?
  {
  }
}
