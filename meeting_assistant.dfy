/** The client session controller of `useMeetingAssistant`: a connection
    status machine over one socket handle, a recording status machine over
    the microphone, audio-context and worklet handles, the sends gated on
    the socket being OPEN, and the reducer over the inbound messages. */
module MeetingAssistant {
  import opened Wrappers
  import opened JsValues
  import opened AudioFramer

  datatype ConnectionStatus = Disconnected | Connecting | Connected | Error
  datatype RecordingStatus = Stopped | Starting | Recording | Stopping

  /** The `readyState` of a browser WebSocket. */
  datatype ReadyState = SocketConnecting | SocketOpen | SocketClosing | SocketClosed

  /** The `state` of an AudioContext: only whether it is closed matters. */
  datatype ContextState = ContextRunning | ContextClosed

  /** What the client puts on the socket: a binary audio frame, or the
      JSON text `{"target_language": <name>}`. */
  datatype Outbound<S> = Binary(samples: seq<S>) | LanguageChange(languageName: string)

  /** How the awaited steps of `startRecording` turn out: the microphone is
      refused, the AudioContext cannot be created, the worklet module (or
      the worklet node) cannot be loaded, or everything succeeds. */
  datatype StartOutcome = MicrophoneDenied | ContextFailed | ModuleLoadFailed | Started

  // ----- Inbound messages -------------------------------------------------

  /** The two lists the `onmessage` handler updates. */
  datatype Lists = Lists(transcripts: seq<JsValue>, insights: seq<JsValue>)

  /** The transcript a `preliminary_transcript` message adds: the fields of
      `data.data`, then a fresh client id and the receipt time. */
  function NewTranscript(payload: JsValue, id: string, now: string): (t: JsValue)
    ensures t.Obj? && "id" in t.fields && t.fields["id"] == Str(id)
    ensures "timestamp" in t.fields && t.fields["timestamp"] == Str(now)
    ensures forall k :: k in Spread(payload) && k != "id" && k != "timestamp" ==>
              k in t.fields && t.fields[k] == Spread(payload)[k]
  {
    Obj(Spread(payload)["id" := Str(id)]["timestamp" := Str(now)])
  }

  predicate IsPreliminary(data: JsValue)
    requires !Nullish(data)
  {
    Get(data, "type") == Str("preliminary_transcript") && Truthy(Get(data, "data"))
  }

  predicate IsEnriched(data: JsValue)
    requires !Nullish(data)
  {
    Get(data, "type") == Str("enriched_transcripts") &&
    GetOpt(Get(data, "data"), "enriched_transcripts").Arr?
  }

  predicate IsInsight(data: JsValue)
    requires !Nullish(data)
  {
    Get(data, "type") == Str("insight")
  }

  /** The `onmessage` handler as a reducer. `parsed` is what `JSON.parse`
      gives (None when it throws); `id` and `now` stand for
      `crypto.randomUUID()` and the ISO time. A `null` message makes
      `data.type` throw, which the handler catches. Insights are only ever
      appended to. */
  function Receive(lists: Lists, parsed: Option<JsValue>, id: string, now: string): (r: Lists)
    ensures lists.insights <= r.insights
    ensures r.transcripts != lists.transcripts ==> parsed.Some? && !Nullish(parsed.value)
  {
    if parsed.None? || Nullish(parsed.value) then lists
    else
      var data := parsed.value;
      if IsPreliminary(data) then
        lists.(transcripts := lists.transcripts + [NewTranscript(Get(data, "data"), id, now)])
      else if IsEnriched(data) then
        var replaced := GetOpt(Get(data, "data"), "enriched_transcripts").items;
        var extra := Get(data, "insights");
        Lists(replaced, if extra.Arr? then lists.insights + extra.items else lists.insights)
      else if IsInsight(data) then
        lists.(insights := lists.insights + [Get(data, "insight")])
      else
        lists
  }

  /** A `preliminary_transcript` with truthy data appends exactly one
      transcript, carrying the new id, and keeps the earlier ones. */
  lemma ReceivePreliminary(lists: Lists, data: JsValue, id: string, now: string)
    requires !Nullish(data) && IsPreliminary(data)
    ensures var r := Receive(lists, Some(data), id, now);
      && |r.transcripts| == |lists.transcripts| + 1
      && r.transcripts[..|lists.transcripts|] == lists.transcripts
      && r.transcripts[|lists.transcripts|] == NewTranscript(Get(data, "data"), id, now)
      && r.insights == lists.insights
  {
  }

  /** An `enriched_transcripts` message whose `data.enriched_transcripts`
      is an array replaces the whole list with it, whatever was there, and
      appends the `insights` array when there is one. */
  lemma {:induction false} ReceiveEnriched(lists: Lists, data: JsValue, id: string, now: string)
    requires !Nullish(data) && !IsPreliminary(data) && IsEnriched(data)
    ensures var r := Receive(lists, Some(data), id, now);
      && r.transcripts == Get(Get(data, "data"), "enriched_transcripts").items
      && (Get(data, "insights").Arr? ==> r.insights == lists.insights + Get(data, "insights").items)
      && (!Get(data, "insights").Arr? ==> r.insights == lists.insights)
  {
    assert Get(data, "data") != Undefined && Get(data, "data") != Null by {
      assert GetOpt(Get(data, "data"), "enriched_transcripts").Arr?;
    }
  }

  /** Transcripts A, B followed by an enriched batch [X, Y] leave exactly
      [X, Y]. */
  lemma EnrichedReplacesExample(a: JsValue, b: JsValue, x: JsValue, y: JsValue, id: string, now: string)
    ensures var msg := Obj(map["type" := Str("enriched_transcripts"),
                               "data" := Obj(map["enriched_transcripts" := Arr([x, y])])]);
      Receive(Lists([a, b], []), Some(msg), id, now).transcripts == [x, y]
  {
    var msg := Obj(map["type" := Str("enriched_transcripts"),
                       "data" := Obj(map["enriched_transcripts" := Arr([x, y])])]);
    assert !IsPreliminary(msg);
    ReceiveEnriched(Lists([a, b], []), msg, id, now);
  }

  /** An `insight` message appends its `insight` field, whatever it is. */
  lemma ReceiveInsight(lists: Lists, data: JsValue, id: string, now: string)
    requires !Nullish(data) && IsInsight(data)
    ensures Receive(lists, Some(data), id, now) ==
              lists.(insights := lists.insights + [Get(data, "insight")])
  {
  }

  /** Unparsable text, a `null` message, an `error` message and every
      other shape leave both lists unchanged; and these are the only
      messages that do. */
  lemma ReceiveIgnored(lists: Lists, parsed: Option<JsValue>, id: string, now: string)
    ensures (parsed.None? || Nullish(parsed.value) ||
             !(IsPreliminary(parsed.value) || IsEnriched(parsed.value) || IsInsight(parsed.value)))
            ==> Receive(lists, parsed, id, now) == lists
    ensures parsed.Some? && !Nullish(parsed.value) && IsPreliminary(parsed.value)
            ==> Receive(lists, parsed, id, now) != lists
    ensures parsed.Some? && !Nullish(parsed.value) && IsInsight(parsed.value)
            ==> Receive(lists, parsed, id, now) != lists
  {
    if parsed.Some? && !Nullish(parsed.value) && !IsPreliminary(parsed.value) && IsInsight(parsed.value) {
      var r := Receive(lists, parsed, id, now);
      if !IsEnriched(parsed.value) {
        assert |r.insights| == |lists.insights| + 1;
      }
    }
  }

  // ----- The hook's state ---------------------------------------------------

  class Assistant<S> {
    var isConnected: bool
    var isRecording: bool
    var transcripts: seq<JsValue>
    var insights: seq<JsValue>
    var connectionStatus: ConnectionStatus
    var recordingStatus: RecordingStatus
    /** `wsRef.current`: None is `null`, otherwise the socket's readyState. */
    var ws: Option<ReadyState>
    /** `audioContextRef.current`. */
    var audioContext: Option<ContextState>
    /** Whether `audioWorkletNodeRef.current` and `streamRef.current` are set. */
    var workletNode: bool
    var stream: bool
    /** Every message put on a socket, in order. */
    var sent: seq<Outbound<S>>

    /** Between handlers `isRecording` and `recordingStatus` agree, and a
        recording holds its worklet node and its stream. */
    predicate Valid()
      reads this
    {
      && (isRecording <==> recordingStatus == Recording)
      && (recordingStatus == Recording || recordingStatus == Stopped)
      && (isRecording ==> workletNode && stream)
    }

    predicate IsOpen()
      reads this
    {
      ws == Some(SocketOpen)
    }

    constructor ()
      ensures Valid()
      ensures !isConnected && !isRecording && transcripts == [] && insights == []
      ensures connectionStatus == Disconnected && recordingStatus == Stopped
      ensures ws == None && audioContext == None && !workletNode && !stream && sent == []
    {
      isConnected := false;
      isRecording := false;
      transcripts := [];
      insights := [];
      connectionStatus := Disconnected;
      recordingStatus := Stopped;
      ws := None;
      audioContext := None;
      workletNode := false;
      stream := false;
      sent := [];
    }

    /** `connect`. `constructorThrows` says whether `new WebSocket(..)`
        throws. A socket that is already OPEN makes it a no-op. */
    method Connect(constructorThrows: bool)
      requires Valid()
      modifies this
      ensures Valid()
      ensures old(IsOpen()) ==> unchanged(this)
      ensures !old(IsOpen()) && constructorThrows ==>
                connectionStatus == Error && ws == old(ws)
      ensures !old(IsOpen()) && !constructorThrows ==>
                connectionStatus == Connecting && ws == Some(SocketConnecting)
      ensures isConnected == old(isConnected) && isRecording == old(isRecording)
      ensures recordingStatus == old(recordingStatus) && sent == old(sent)
      ensures transcripts == old(transcripts) && insights == old(insights)
      ensures audioContext == old(audioContext) && workletNode == old(workletNode) && stream == old(stream)
    {
      if IsOpen() {
        return;
      }
      connectionStatus := Connecting;
      if constructorThrows {
        connectionStatus := Error;
      } else {
        ws := Some(SocketConnecting);
      }
    }

    /** `ws.onopen` for the socket held in `wsRef`. The automatic
        `startRecording` it schedules is not modelled. */
    method OnOpen()
      requires Valid()
      modifies this
      ensures Valid()
      ensures isConnected && connectionStatus == Connected
      ensures ws == (if old(ws).Some? then Some(SocketOpen) else None)
      ensures isRecording == old(isRecording) && recordingStatus == old(recordingStatus)
      ensures sent == old(sent) && transcripts == old(transcripts) && insights == old(insights)
      ensures audioContext == old(audioContext) && workletNode == old(workletNode) && stream == old(stream)
    {
      if ws.Some? {
        ws := Some(SocketOpen);
      }
      isConnected := true;
      connectionStatus := Connected;
    }

    /** `ws.onclose`. The handler tests the `isRecording` captured when
        `connect` was first created, which is always false, so a lost
        connection never stops a recording. */
    method OnClose()
      requires Valid()
      modifies this
      ensures Valid()
      ensures !isConnected && connectionStatus == Disconnected
      ensures ws == (if old(ws).Some? then Some(SocketClosed) else None)
      ensures isRecording == old(isRecording) && recordingStatus == old(recordingStatus)
      ensures sent == old(sent) && transcripts == old(transcripts) && insights == old(insights)
      ensures audioContext == old(audioContext) && workletNode == old(workletNode) && stream == old(stream)
    {
      if ws.Some? {
        ws := Some(SocketClosed);
      }
      isConnected := false;
      connectionStatus := Disconnected;
      // the captured `isRecording` is false: no call to StopRecording
    }

    /** `ws.onerror`. */
    method OnError()
      requires Valid()
      modifies this
      ensures Valid()
      ensures !isConnected && connectionStatus == Error
      ensures ws == old(ws) && isRecording == old(isRecording) && recordingStatus == old(recordingStatus)
      ensures sent == old(sent) && transcripts == old(transcripts) && insights == old(insights)
      ensures audioContext == old(audioContext) && workletNode == old(workletNode) && stream == old(stream)
    {
      connectionStatus := Error;
      isConnected := false;
    }

    /** `ws.onmessage`: the reducer applied to both lists. */
    method OnMessage(parsed: Option<JsValue>, id: string, now: string)
      requires Valid()
      modifies this
      ensures Valid()
      ensures Lists(transcripts, insights) == Receive(Lists(old(transcripts), old(insights)), parsed, id, now)
      ensures old(insights) <= insights
      ensures isConnected == old(isConnected) && connectionStatus == old(connectionStatus) && ws == old(ws)
      ensures isRecording == old(isRecording) && recordingStatus == old(recordingStatus) && sent == old(sent)
      ensures audioContext == old(audioContext) && workletNode == old(workletNode) && stream == old(stream)
    {
      var r := Receive(Lists(transcripts, insights), parsed, id, now);
      transcripts := r.transcripts;
      insights := r.insights;
    }

    /** `disconnect`: stops an active recording first, then closes and
        drops the socket. */
    method Disconnect()
      requires Valid()
      modifies this
      ensures Valid()
      ensures !isConnected && connectionStatus == Disconnected && ws == None
      ensures !isRecording && recordingStatus == Stopped
      ensures old(isRecording) ==> !workletNode && !stream
      ensures old(isRecording) ==>
                audioContext == (if old(audioContext) == Some(ContextClosed) then old(audioContext) else None)
      ensures !old(isRecording) ==> workletNode == old(workletNode) && stream == old(stream) &&
                                    audioContext == old(audioContext)
      ensures sent == old(sent) && transcripts == old(transcripts) && insights == old(insights)
    {
      if isRecording {
        StopRecording();
      }
      if ws.Some? {
        ws := None;
      }
      isConnected := false;
      connectionStatus := Disconnected;
    }

    /** `startRecording`, with the outcome of its awaited steps as a
        parameter. `ok` is false when the returned promise rejects. */
    method StartRecording(outcome: StartOutcome) returns (ok: bool)
      requires Valid()
      modifies this
      ensures Valid()
      ensures !old(IsOpen()) || old(isRecording) ==> ok && unchanged(this)
      ensures old(IsOpen()) && !old(isRecording) && outcome == Started ==>
                ok && isRecording && recordingStatus == Recording &&
                stream && audioContext == Some(ContextRunning) && workletNode
      ensures old(IsOpen()) && !old(isRecording) && outcome != Started ==>
                !ok && !isRecording && recordingStatus == Stopped &&
                stream == (outcome != MicrophoneDenied || old(stream)) && workletNode == old(workletNode) &&
                audioContext == (if outcome == MicrophoneDenied || outcome == ContextFailed
                                 then old(audioContext) else Some(ContextRunning))
      ensures isConnected == old(isConnected) && connectionStatus == old(connectionStatus) && ws == old(ws)
      ensures sent == old(sent) && transcripts == old(transcripts) && insights == old(insights)
    {
      ok := true;
      if ws.None? || ws.value != SocketOpen {
        return;
      }
      if isRecording {
        return;
      }
      recordingStatus := Starting;
      if outcome == MicrophoneDenied {
        recordingStatus := Stopped;
        ok := false;
        return;
      }
      stream := true;
      if outcome == ContextFailed {
        recordingStatus := Stopped;
        ok := false;
        return;
      }
      audioContext := Some(ContextRunning);
      if outcome == ModuleLoadFailed {
        recordingStatus := Stopped;
        ok := false;
        return;
      }
      workletNode := true;
      isRecording := true;
      recordingStatus := Recording;
    }

    /** The browser closes the audio context on its own. */
    method OnContextClosed()
      requires Valid()
      modifies this
      ensures Valid()
      ensures audioContext == (if old(audioContext).Some? then Some(ContextClosed) else None)
      ensures isConnected == old(isConnected) && connectionStatus == old(connectionStatus) && ws == old(ws)
      ensures isRecording == old(isRecording) && recordingStatus == old(recordingStatus)
      ensures workletNode == old(workletNode) && stream == old(stream)
      ensures sent == old(sent) && transcripts == old(transcripts) && insights == old(insights)
    {
      if audioContext.Some? {
        audioContext := Some(ContextClosed);
      }
    }

    /** `stopRecording`: a no-op unless recording. The context handle is
        dropped only when the context was not already closed. */
    method StopRecording()
      requires Valid()
      modifies this
      ensures Valid()
      ensures !old(isRecording) ==> unchanged(this)
      ensures old(isRecording) ==> !isRecording && recordingStatus == Stopped && !workletNode && !stream
      ensures old(isRecording) ==>
                audioContext == (if old(audioContext) == Some(ContextClosed) then old(audioContext) else None)
      ensures isConnected == old(isConnected) && connectionStatus == old(connectionStatus) && ws == old(ws)
      ensures sent == old(sent) && transcripts == old(transcripts) && insights == old(insights)
    {
      if !isRecording {
        return;
      }
      recordingStatus := Stopping;
      if workletNode {
        workletNode := false;
      }
      if audioContext.Some? && audioContext.value != ContextClosed {
        audioContext := None;
      }
      if stream {
        stream := false;
      }
      isRecording := false;
      recordingStatus := Stopped;
    }

    /** The worklet port's `onmessage`: an `audio_data` frame becomes one
        binary message while the socket is OPEN, and is dropped otherwise. */
    method OnWorkletMessage(m: FrameMessage<S>)
      requires Valid()
      modifies this
      ensures Valid()
      ensures m.kind == "audio_data" && old(IsOpen()) ==> sent == old(sent) + [Binary(m.data)]
      ensures !(m.kind == "audio_data" && old(IsOpen())) ==> sent == old(sent)
      ensures isConnected == old(isConnected) && connectionStatus == old(connectionStatus) && ws == old(ws)
      ensures isRecording == old(isRecording) && recordingStatus == old(recordingStatus)
      ensures transcripts == old(transcripts) && insights == old(insights)
      ensures audioContext == old(audioContext) && workletNode == old(workletNode) && stream == old(stream)
    {
      if m.kind == "audio_data" && ws == Some(SocketOpen) {
        sent := sent + [Binary(m.data)];
      }
    }

    /** `changeTargetLanguage`: sends the language name only while OPEN. */
    method ChangeTargetLanguage(languageName: string)
      requires Valid()
      modifies this
      ensures Valid()
      ensures old(IsOpen()) ==> sent == old(sent) + [LanguageChange(languageName)]
      ensures !old(IsOpen()) ==> sent == old(sent)
      ensures isConnected == old(isConnected) && connectionStatus == old(connectionStatus) && ws == old(ws)
      ensures isRecording == old(isRecording) && recordingStatus == old(recordingStatus)
      ensures transcripts == old(transcripts) && insights == old(insights)
      ensures audioContext == old(audioContext) && workletNode == old(workletNode) && stream == old(stream)
    {
      if ws.Some? && ws.value == SocketOpen {
        sent := sent + [LanguageChange(languageName)];
      }
    }
  }
}
