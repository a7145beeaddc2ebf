/** The backend's HTTP views: default filling of the documents they store
    and the dispatch from request method and client result to a JSON
    response and its status. A view calls the MongoDB client; what each
    call returns (or the exception it raises) is a parameter, and the model
    records the calls a view makes in order. */
module Views {
  import opened Wrappers
  import opened PyValues

  /** How a call into the client ended. */
  datatype Call = Raised(message: string) | Returned(value: PyValue)

  /** How `json.loads(request.body)` ended. */
  datatype Body = Unparsable(message: string) | Parsed(value: PyValue)

  /** The client operations a view can issue. */
  datatype ClientCall =
    | SaveMeetingCall(meeting: map<string, PyValue>)
    | SaveRecordingCall(recording: map<string, PyValue>)
    | GetAllMeetingsCall
    | GetMeetingCall(meetingId: string)
    | GetRecordingsCall(meetingId: string)
    | GetManualInsightsCall(meetingId: string)
    | DeleteMeetingCall(meetingId: string)
    | UpdateMeetingEndCall(meetingId: string)

  datatype Response = Response(status: nat, body: map<string, PyValue>, headers: map<string, string>)

  /** A view's response and the client calls it made. */
  datatype Handled = Handled(response: Response, calls: seq<ClientCall>)

  function Success(body: map<string, PyValue>): Response {
    Response(200, body, map[])
  }

  function Failure(status: nat, error: string): Response {
    Response(status, map["success" := PBool(false), "error" := PStr(error)], map[])
  }

  /** A response whose `success` flag, when it has one, is true exactly
      when its status is 200. */
  predicate Consistent(r: Response) {
    "success" in r.body ==> (r.body["success"] == PBool(true) <==> r.status == 200)
  }

  /** Python's name for the type of `v`, as its error messages print it. */
  function TypeName(v: PyValue): string {
    match v
    case PNone => "NoneType"
    case PBool(_) => "bool"
    case PInt(_) => "int"
    case PFloat(_) => "float"
    case PStr(_) => "str"
    case PList(_) => "list"
    case PDict(_) => "dict"
    case PObjectId(_) => "ObjectId"
    case PDateTime(_, _) => "datetime"
  }

  /** The request body as a dict, or the message of the exception that
      reading it raises: invalid JSON, or `data.get` on a JSON value that
      is not an object. */
  function DictBody(body: Body): (r: Parse<map<string, PyValue>>)
    ensures r.Ok? <==> body.Parsed? && body.value.PDict?
    ensures r.Ok? ==> r.value == body.value.entries
    ensures body.Unparsable? ==> r == Err(body.message)
  {
    match body
    case Unparsable(msg) => Err(msg)
    case Parsed(PDict(d)) => Ok(d)
    case Parsed(v) => Err("'" + TypeName(v) + "' object has no attribute 'get'")
  }

  datatype Parse<T> = Ok(value: T) | Err(message: string)

  // ----- get_meeting_history --------------------------------------------------

  function GetMeetingHistory(meetings: Call): (h: Handled)
    ensures h.calls == [GetAllMeetingsCall] && Consistent(h.response)
    ensures meetings.Returned? ==>
              h.response == Success(map["success" := PBool(true), "meetings" := meetings.value])
    ensures meetings.Raised? ==> h.response == Failure(500, meetings.message)
  {
    match meetings
    case Raised(msg) => Handled(Failure(500, msg), [GetAllMeetingsCall])
    case Returned(ms) => Handled(Success(map["success" := PBool(true), "meetings" := ms]), [GetAllMeetingsCall])
  }

  // ----- get_meeting_detail ---------------------------------------------------

  /** A falsy meeting answers 404 before any recording is fetched;
      otherwise the meeting, its recordings and its manual insights are
      fetched in that order. */
  function GetMeetingDetail(meetingId: string, meeting: Call, recordings: Call, insights: Call): (h: Handled)
    ensures Consistent(h.response)
    ensures |h.calls| >= 1 && h.calls[0] == GetMeetingCall(meetingId)
    ensures meeting.Returned? && !Truthy(meeting.value) ==>
              h.response == Failure(404, "Meeting not found") && h.calls == [GetMeetingCall(meetingId)]
    ensures h.response.status == 200 <==>
              meeting.Returned? && Truthy(meeting.value) && recordings.Returned? && insights.Returned?
    ensures h.response.status == 200 ==>
              && h.calls == [GetMeetingCall(meetingId), GetRecordingsCall(meetingId), GetManualInsightsCall(meetingId)]
              && h.response.body == map["success" := PBool(true), "meeting" := meeting.value,
                                        "recordings" := recordings.value, "manual_insights" := insights.value]
    ensures h.response.status != 200 ==> h.response.status in {404, 500} && "success" in h.response.body && h.response.body["success"] == PBool(false)
  {
    var calls := [GetMeetingCall(meetingId)];
    match meeting
    case Raised(msg) => Handled(Failure(500, msg), calls)
    case Returned(m) =>
      if !Truthy(m) then Handled(Failure(404, "Meeting not found"), calls)
      else
        var calls := calls + [GetRecordingsCall(meetingId)];
        match recordings
        case Raised(msg) => Handled(Failure(500, msg), calls)
        case Returned(recs) =>
          var calls := calls + [GetManualInsightsCall(meetingId)];
          match insights
          case Raised(msg) => Handled(Failure(500, msg), calls)
          case Returned(ins) =>
            Handled(Success(map["success" := PBool(true), "meeting" := m, "recordings" := recs,
                           "manual_insights" := ins]), calls)
  }

  // ----- delete_meeting -------------------------------------------------------

  const CorsHeaders: map<string, string> :=
    map["Access-Control-Allow-Origin" := "*",
        "Access-Control-Allow-Methods" := "DELETE, OPTIONS",
        "Access-Control-Allow-Headers" := "Content-Type, Authorization"]

  /** OPTIONS answers the CORS preflight, DELETE deletes, and every other
      method is refused with 405 without touching the database. */
  function DeleteMeeting(httpMethod: string, meetingId: string, deleted: Call): (h: Handled)
    ensures Consistent(h.response)
    ensures httpMethod == "OPTIONS" ==> h.calls == [] && h.response == Response(200, map[], CorsHeaders)
    ensures httpMethod == "DELETE" ==>
              && h.calls == [DeleteMeetingCall(meetingId)]
              && (h.response.status == 200 <==> deleted.Returned? && Truthy(deleted.value))
              && (h.response.status == 200 ==>
                    h.response.body == map["success" := PBool(true), "message" := PStr("Meeting deleted successfully")])
              && (deleted.Raised? ==> h.response == Failure(500, deleted.message))
              && (deleted.Returned? && !Truthy(deleted.value) ==> h.response == Failure(500, "Failed to delete meeting"))
    ensures httpMethod != "OPTIONS" && httpMethod != "DELETE" ==>
              h.calls == [] && h.response == Failure(405, "Method not allowed")
  {
    if httpMethod == "OPTIONS" then Handled(Response(200, map[], CorsHeaders), [])
    else if httpMethod == "DELETE" then
      var calls := [DeleteMeetingCall(meetingId)];
      match deleted
      case Raised(msg) => Handled(Failure(500, msg), calls)
      case Returned(ok) =>
        if Truthy(ok) then Handled(Success(map["success" := PBool(true), "message" := PStr("Meeting deleted successfully")]), calls)
        else Handled(Failure(500, "Failed to delete meeting"), calls)
    else Handled(Failure(405, "Method not allowed"), [])
  }

  // ----- save_meeting ---------------------------------------------------------

  /** The meeting document built from the request body. */
  function MeetingData(d: map<string, PyValue>): (m: map<string, PyValue>)
    ensures m.Keys == {"title", "source_language", "target_language", "status"}
    ensures m["status"] == PStr("active")
    ensures m["title"] == (if "title" in d then d["title"] else PStr("Untitled Meeting"))
    ensures m["source_language"] == (if "source_language" in d then d["source_language"] else PStr("en"))
    ensures m["target_language"] == (if "target_language" in d then d["target_language"] else PStr("en"))
  {
    map["title" := DictGet(d, "title", PStr("Untitled Meeting")),
        "source_language" := DictGet(d, "source_language", PStr("en")),
        "target_language" := DictGet(d, "target_language", PStr("en")),
        "status" := PStr("active")]
  }

  /** `save_meeting`: succeeds exactly when the body is a JSON object and
      the client returns a truthy id. */
  function SaveMeeting(body: Body, saved: Call): (h: Handled)
    ensures Consistent(h.response)
    ensures DictBody(body).Err? ==> h.calls == [] && h.response == Failure(500, DictBody(body).message)
    ensures DictBody(body).Ok? ==> h.calls == [SaveMeetingCall(MeetingData(DictBody(body).value))]
    ensures h.response.status == 200 <==> DictBody(body).Ok? && saved.Returned? && Truthy(saved.value)
    ensures h.response.status == 200 ==>
              h.response.body == map["success" := PBool(true), "meeting_id" := saved.value]
    ensures h.response.status != 200 ==> h.response.status == 500
  {
    match DictBody(body)
    case Err(msg) => Handled(Failure(500, msg), [])
    case Ok(d) =>
      var calls := [SaveMeetingCall(MeetingData(d))];
      match saved
      case Raised(msg) => Handled(Failure(500, msg), calls)
      case Returned(id) =>
        if Truthy(id) then Handled(Success(map["success" := PBool(true), "meeting_id" := id]), calls)
        else Handled(Failure(500, "Failed to save meeting"), calls)
  }

  // ----- save_recording -------------------------------------------------------

  /** The recording document built from the request body. */
  function RecordingData(d: map<string, PyValue>): (m: map<string, PyValue>)
    ensures m.Keys == {"meeting_id", "recording_id", "transcripts", "insights", "target_language", "duration"}
    ensures m["meeting_id"] == DictGet(d, "meeting_id", PNone)
    ensures m["recording_id"] == DictGet(d, "recording_id", PNone)
    ensures m["transcripts"] == (if "transcripts" in d then d["transcripts"] else PList([]))
    ensures m["insights"] == (if "insights" in d then d["insights"] else PList([]))
    ensures m["target_language"] == (if "target_language" in d then d["target_language"] else PStr("en"))
    ensures m["duration"] == (if "duration" in d then d["duration"] else PInt(0))
  {
    map["meeting_id" := DictGet(d, "meeting_id", PNone),
        "recording_id" := DictGet(d, "recording_id", PNone),
        "transcripts" := DictGet(d, "transcripts", PList([])),
        "insights" := DictGet(d, "insights", PList([])),
        "target_language" := DictGet(d, "target_language", PStr("en")),
        "duration" := DictGet(d, "duration", PInt(0))]
  }

  function SaveRecording(body: Body, saved: Call): (h: Handled)
    ensures Consistent(h.response)
    ensures DictBody(body).Err? ==> h.calls == [] && h.response == Failure(500, DictBody(body).message)
    ensures DictBody(body).Ok? ==> h.calls == [SaveRecordingCall(RecordingData(DictBody(body).value))]
    ensures h.response.status == 200 <==> DictBody(body).Ok? && saved.Returned? && Truthy(saved.value)
    ensures h.response.status == 200 ==>
              h.response.body == map["success" := PBool(true), "recording_id" := saved.value]
    ensures h.response.status != 200 ==> h.response.status == 500
  {
    match DictBody(body)
    case Err(msg) => Handled(Failure(500, msg), [])
    case Ok(d) =>
      var calls := [SaveRecordingCall(RecordingData(d))];
      match saved
      case Raised(msg) => Handled(Failure(500, msg), calls)
      case Returned(id) =>
        if Truthy(id) then Handled(Success(map["success" := PBool(true), "recording_id" := id]), calls)
        else Handled(Failure(500, "Failed to save recording"), calls)
  }

  // ----- end_meeting ----------------------------------------------------------

  function EndMeeting(meetingId: string, ended: Call): (h: Handled)
    ensures Consistent(h.response)
    ensures h.calls == [UpdateMeetingEndCall(meetingId)]
    ensures h.response.status == 200 <==> ended.Returned? && Truthy(ended.value)
    ensures h.response.status == 200 ==>
              h.response.body == map["success" := PBool(true), "message" := PStr("Meeting ended successfully")]
    ensures ended.Raised? ==> h.response == Failure(500, ended.message)
    ensures ended.Returned? && !Truthy(ended.value) ==> h.response == Failure(500, "Failed to end meeting")
  {
    var calls := [UpdateMeetingEndCall(meetingId)];
    match ended
    case Raised(msg) => Handled(Failure(500, msg), calls)
    case Returned(ok) =>
      if Truthy(ok) then Handled(Success(map["success" := PBool(true), "message" := PStr("Meeting ended successfully")]), calls)
      else Handled(Failure(500, "Failed to end meeting"), calls)
  }
}
