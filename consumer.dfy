/** The per-connection state of the meeting WebSocket consumer: the target
    language, the fast-path `audio_buffer` that binary messages append to,
    and the slow-path `long_audio_buffer` and `recent_transcripts` that
    the two periodic ticks fill and drain. */
module Consumer {
  import opened Wrappers
  import opened Text
  import opened PyValues

  // ----- Languages ----------------------------------------------------------

  const LanguageMap: map<string, string> :=
    map["English" := "en", "Spanish" := "es", "Chinese" := "zh", "French" := "fr"]

  /** The set of the map's values. */
  const LanguageCodes: set<string> := {"en", "es", "zh", "fr"}

  lemma LanguageCodesAreMapValues()
    ensures LanguageCodes == LanguageMap.Values
  {
    assert LanguageMap["English"] == "en" && LanguageMap["Spanish"] == "es";
    assert LanguageMap["Chinese"] == "zh" && LanguageMap["French"] == "fr";
  }

  /** The code a `target_language` value resolves to: a code is kept, a
      full language name is mapped, anything else hashable becomes `'en'`;
      an unhashable value (a list or an object) makes the membership test
      raise (None). */
  function ResolveLanguage(v: PyValue): (r: Option<string>)
    ensures r.None? <==> !Hashable(v)
    ensures r.Some? ==> r.value in LanguageCodes
  {
    match InStringKeys(v, LanguageCodes)
    case None => None
    case Some(isCode) =>
      if isCode then Some(v.s)
      else if InStringKeys(v, LanguageMap.Keys) == Some(true) then Some(LanguageMap[v.s])
      else Some("en")
  }

  lemma ResolveLanguageCases(v: PyValue)
    ensures v.PStr? && v.s in LanguageCodes ==> ResolveLanguage(v) == Some(v.s)
    ensures v.PStr? && v.s in LanguageMap ==> ResolveLanguage(v) == Some(LanguageMap[v.s])
    ensures Hashable(v) && !(v.PStr? && (v.s in LanguageCodes || v.s in LanguageMap)) ==>
              ResolveLanguage(v) == Some("en")
  {
  }

  /** What a parsed text message asks for. */
  datatype Command = Ignored | Failed | SetLanguage(code: string)

  /** `'target_language' in data`, then the lookup and resolution. A list
      or a string that passes the membership test cannot be indexed by a
      string, and a number, a boolean or `None` cannot be tested at all:
      those raise and become `Failed`. */
  function TextCommand(data: PyValue): (c: Command)
    ensures c.SetLanguage? ==> c.code in LanguageCodes
    ensures c.SetLanguage? <==>
              data.PDict? && "target_language" in data.entries && Hashable(data.entries["target_language"])
    ensures c == Ignored <==> StrIn("target_language", data) == Some(false)
  {
    match StrIn("target_language", data)
    case None => Failed
    case Some(present) =>
      if !present then Ignored
      else if !data.PDict? then Failed
      else
        match ResolveLanguage(data.entries["target_language"])
        case None => Failed
        case Some(code) => SetLanguage(code)
  }

  /** A message `{"target_language": name}` as the client sends it always
      resolves, and to the name's code when it is one of the four. */
  lemma ClientLanguageMessage(name: string)
    ensures TextCommand(PDict(map["target_language" := PStr(name)])).SetLanguage?
    ensures name in LanguageMap ==>
              TextCommand(PDict(map["target_language" := PStr(name)])) == SetLanguage(LanguageMap[name])
  {
    ResolveLanguageCases(PStr(name));
  }

  // ----- Audio samples ------------------------------------------------------

  /** One float32 sample, as its four bytes. */
  type Sample = seq<bv8>

  /** `np.frombuffer(b, dtype=np.float32)`: the bytes, four at a time. */
  function Float32Samples(b: seq<bv8>): (r: seq<Sample>)
    requires |b| % 4 == 0
    ensures |r| == |b| / 4
    ensures forall k :: 0 <= k < |r| ==> r[k] == b[4 * k .. 4 * k + 4]
    decreases |b|
  {
    if b == [] then []
    else
      var rest := Float32Samples(b[4..]);
      assert forall k :: 0 <= k < |rest| ==> rest[k] == b[4 * (k + 1) .. 4 * (k + 1) + 4];
      [b[..4]] + rest
  }

  /** `np.concatenate` of a list of chunks. */
  function Concatenate(chunks: seq<seq<Sample>>): (r: seq<Sample>)
    ensures chunks == [] ==> r == []
  {
    if chunks == [] then [] else chunks[0] + Concatenate(chunks[1..])
  }

  lemma {:induction false} ConcatenateAppend(chunks: seq<seq<Sample>>, c: seq<Sample>)
    ensures Concatenate(chunks + [c]) == Concatenate(chunks) + c
    decreases |chunks|
  {
    if chunks != [] {
      assert (chunks + [c])[1..] == chunks[1..] + [c];
      ConcatenateAppend(chunks[1..], c);
    }
  }

  // ----- Slow path text -------------------------------------------------------

  /** `[t.get('original_transcript', '') for t in items]`, or None when an
      item is not a dict, and then `'\n'.join` that raises when a value is
      not a string. */
  function Originals(items: seq<PyValue>): (r: Option<seq<string>>)
    ensures r.Some? ==> |r.value| == |items|
    ensures r.Some? <==> forall k :: 0 <= k < |items| ==>
              items[k].PDict? && DictGet(items[k].entries, "original_transcript", PStr("")).PStr?
    ensures r.Some? ==> forall k :: 0 <= k < |items| ==>
              PStr(r.value[k]) == DictGet(items[k].entries, "original_transcript", PStr(""))
  {
    if items == [] then Some([])
    else if !items[0].PDict? then None
    else
      var v := DictGet(items[0].entries, "original_transcript", PStr(""));
      if !v.PStr? then None
      else
        match Originals(items[1..])
        case None => None
        case Some(rest) => Some([v.s] + rest)
  }

  /** The text handed to insight extraction, for a truthy
      `enriched_transcripts` value: only a list can be walked without
      raising, since iterating a dict or a string yields strings, which
      have no `.get`, and a number is not iterable. */
  function TranscriptText(transcripts: PyValue): (r: Option<string>)
    ensures r.Some? <==> transcripts.PList? && Originals(transcripts.items).Some?
    ensures r.Some? ==> r.value == Join(Originals(transcripts.items).value, "\n")
  {
    if !transcripts.PList? then None
    else
      match Originals(transcripts.items)
      case None => None
      case Some(texts) => Some(Join(texts, "\n"))
  }

  /** What the slow path sends for an enrichment result: nothing for a
      falsy result or when walking it raises, and otherwise the result
      with the insights extracted from its joined original text, or no
      insights when there are no transcripts or the text is blank. */
  function EnrichmentReply(enriched: PyValue, extract: string -> seq<PyValue>): (r: Option<Reply>)
    ensures r.Some? ==> Truthy(enriched) && enriched.PDict? && r.value.EnrichedTranscripts? && r.value.data == enriched
  {
    if !Truthy(enriched) || !enriched.PDict? then None
    else
      var transcripts := DictGet(enriched.entries, "enriched_transcripts", PNone);
      if !Truthy(transcripts) then Some(EnrichedTranscripts(enriched, []))
      else
        match TranscriptText(transcripts)
        case None => None
        case Some(text) => Some(EnrichedTranscripts(enriched, if NonBlank(text) then extract(text) else []))
  }

  /** Insights are requested only for non-blank transcript text: a reply
      with insights has a list of transcripts whose joined originals are
      non-blank, and those insights are what extraction returned. */
  lemma EnrichmentReplyShape(enriched: PyValue, extract: string -> seq<PyValue>)
    ensures var r := EnrichmentReply(enriched, extract);
      r.Some? && r.value.insights != [] ==>
        var transcripts := DictGet(enriched.entries, "enriched_transcripts", PNone);
        && TranscriptText(transcripts).Some?
        && NonBlank(TranscriptText(transcripts).value)
        && r.value.insights == extract(TranscriptText(transcripts).value)
  {
  }

  /** A result whose transcripts all carry string originals, every one of
      them blank or empty, is sent with no insights. */
  lemma {:induction false} BlankTextNoInsights(enriched: PyValue, extract: string -> seq<PyValue>)
    requires Truthy(enriched) && enriched.PDict?
    requires var t := DictGet(enriched.entries, "enriched_transcripts", PNone);
      t.PList? && forall k :: 0 <= k < |t.items| ==>
        t.items[k].PDict? && DictGet(t.items[k].entries, "original_transcript", PStr("")) == PStr("")
    ensures EnrichmentReply(enriched, extract) == Some(EnrichedTranscripts(enriched, []))
  {
    var t := DictGet(enriched.entries, "enriched_transcripts", PNone);
    if t.items != [] {
      var texts := OriginalsAllEmpty(t.items);
      JoinOfEmptiesBlank(texts);
    }
  }

  lemma {:induction false} OriginalsAllEmpty(items: seq<PyValue>) returns (texts: seq<string>)
    requires forall k :: 0 <= k < |items| ==>
      items[k].PDict? && DictGet(items[k].entries, "original_transcript", PStr("")) == PStr("")
    ensures Originals(items) == Some(texts)
    ensures forall k :: 0 <= k < |texts| ==> texts[k] == ""
    decreases |items|
  {
    if items == [] {
      texts := [];
    } else {
      var rest := OriginalsAllEmpty(items[1..]);
      texts := [""] + rest;
    }
  }

  lemma {:induction false} JoinOfEmptiesBlank(texts: seq<string>)
    requires forall k :: 0 <= k < |texts| ==> texts[k] == ""
    ensures !NonBlank(Join(texts, "\n"))
    decreases |texts|
  {
    if |texts| > 1 {
      JoinOfEmptiesBlank(texts[1..]);
      assert Join(texts, "\n") == "\n" + Join(texts[1..], "\n");
    }
  }

  // ----- The consumer ------------------------------------------------------

  /** How a call into the processor ends. */
  datatype Outcome = Raised | Returned(value: PyValue)

  /** What the consumer sends to its client. */
  datatype Reply =
    | ErrorReply(error: string)
    | LanguageChanged(targetLanguage: string)
    | PreliminaryTranscript(data: PyValue)
    | EnrichedTranscripts(data: PyValue, insights: seq<PyValue>)

  class MeetingConsumer {
    /** Whether `get_audio_processor()` succeeded in `__init__`. */
    const hasProcessor: bool
    var targetLanguage: string
    var audioBuffer: seq<seq<Sample>>
    var longAudioBuffer: seq<seq<Sample>>
    var recentTranscripts: seq<PyValue>
    /** Every message sent to the client, in order. */
    var sent: seq<Reply>

    /** The target language is always a known code; the two slow-path
        lists grow and shrink together; every stored transcript is truthy;
        without a processor no audio is ever buffered. */
    predicate Valid()
      reads this
    {
      && targetLanguage in LanguageCodes
      && |longAudioBuffer| == |recentTranscripts|
      && (forall k :: 0 <= k < |recentTranscripts| ==> Truthy(recentTranscripts[k]))
      && (!hasProcessor ==> audioBuffer == [] && longAudioBuffer == [] && recentTranscripts == [])
    }

    constructor (processorLoads: bool)
      ensures Valid()
      ensures hasProcessor == processorLoads && targetLanguage == "en"
      ensures audioBuffer == [] && longAudioBuffer == [] && recentTranscripts == [] && sent == []
    {
      hasProcessor := processorLoads;
      targetLanguage := "en";
      audioBuffer := [];
      longAudioBuffer := [];
      recentTranscripts := [];
      sent := [];
    }

    /** `receive`. `parsed` is what `json.loads(text_data)` gives (None when
        it raises JSONDecodeError). Empty bytes are falsy and fall through
        to the text branch, so the "empty audio data" reply cannot be sent,
        and a non-empty payload whose length is a multiple of four always
        yields at least one sample. */
    method Receive(textData: Option<string>, bytesData: Option<seq<bv8>>, parsed: Option<PyValue>)
      requires Valid()
      modifies this
      ensures Valid()
      ensures longAudioBuffer == old(longAudioBuffer) && recentTranscripts == old(recentTranscripts)
      ensures bytesData.Some? && bytesData.value != [] ==>
                targetLanguage == old(targetLanguage) &&
                if |bytesData.value| % 4 != 0 then
                  audioBuffer == old(audioBuffer) && sent == old(sent) + [ErrorReply("Invalid audio data format")]
                else if !hasProcessor then
                  audioBuffer == old(audioBuffer) &&
                  sent == old(sent) + [ErrorReply("Audio processing service not available")]
                else
                  audioBuffer == old(audioBuffer) + [Float32Samples(bytesData.value)] && sent == old(sent)
      ensures !(bytesData.Some? && bytesData.value != []) ==> audioBuffer == old(audioBuffer)
      ensures !(bytesData.Some? && bytesData.value != []) && textData.Some? && textData.value != [] ==>
                if parsed.None? then
                  targetLanguage == old(targetLanguage) && sent == old(sent) + [ErrorReply("Invalid JSON format")]
                else
                  match TextCommand(parsed.value)
                  case Ignored => targetLanguage == old(targetLanguage) && sent == old(sent)
                  case Failed => targetLanguage == old(targetLanguage) &&
                                 sent == old(sent) + [ErrorReply("Failed to process text command")]
                  case SetLanguage(code) => targetLanguage == code && sent == old(sent) + [LanguageChanged(code)]
      ensures !(bytesData.Some? && bytesData.value != []) && !(textData.Some? && textData.value != []) ==>
                targetLanguage == old(targetLanguage) && sent == old(sent)
    {
      if bytesData.Some? && bytesData.value != [] {
        var b := bytesData.value;
        if |b| % 4 != 0 {
          sent := sent + [ErrorReply("Invalid audio data format")];
          return;
        }
        var audioChunk := Float32Samples(b);
        if !hasProcessor {
          sent := sent + [ErrorReply("Audio processing service not available")];
          return;
        }
        audioBuffer := audioBuffer + [audioChunk];
      } else if textData.Some? && textData.value != [] {
        if parsed.None? {
          sent := sent + [ErrorReply("Invalid JSON format")];
          return;
        }
        match TextCommand(parsed.value) {
          case Ignored =>
          case Failed =>
            sent := sent + [ErrorReply("Failed to process text command")];
          case SetLanguage(code) =>
            targetLanguage := code;
            sent := sent + [LanguageChanged(targetLanguage)];
        }
      }
    }

    /** One fast-path tick. `transcribe` stands for the processor call on
        the combined audio; the shipped processor has no
        `process_chunk_for_transcription`, so there it is always `Raised`.
        The buffer is cleared before the call, whatever it returns. */
    method FastTick(transcribe: seq<Sample> -> Outcome)
      requires Valid()
      modifies this
      ensures Valid()
      ensures targetLanguage == old(targetLanguage)
      ensures audioBuffer == []
      ensures var combined := Concatenate(old(audioBuffer));
              var outcome := transcribe(combined);
              if old(audioBuffer) != [] && outcome.Returned? && Truthy(outcome.value) then
                && recentTranscripts == old(recentTranscripts) + [outcome.value]
                && longAudioBuffer == old(longAudioBuffer) + [combined]
                && sent == old(sent) + [PreliminaryTranscript(outcome.value)]
              else
                recentTranscripts == old(recentTranscripts) && longAudioBuffer == old(longAudioBuffer) &&
                sent == old(sent)
    {
      if audioBuffer != [] {
        var combinedAudio := Concatenate(audioBuffer);
        audioBuffer := [];
        if hasProcessor {
          match transcribe(combinedAudio) {
            case Raised =>
              audioBuffer := [];
            case Returned(result) =>
              if Truthy(result) {
                recentTranscripts := recentTranscripts + [result];
                longAudioBuffer := longAudioBuffer + [combinedAudio];
                sent := sent + [PreliminaryTranscript(result)];
              }
          }
        }
      }
    }

    /** One slow-path tick. `enrich` stands for `enrich_transcript_batch`
        on the combined long audio, the batch and the target language;
        `extract` for the insight extraction, which returns a list. Runs
        only when both slow-path lists are non-empty and clears both
        before the call. */
    method SlowTick(enrich: (seq<Sample>, seq<PyValue>, string) -> Outcome, extract: string -> seq<PyValue>)
      requires Valid()
      modifies this
      ensures Valid()
      ensures targetLanguage == old(targetLanguage) && audioBuffer == old(audioBuffer)
      ensures old(longAudioBuffer) == [] || old(recentTranscripts) == [] ==>
                longAudioBuffer == old(longAudioBuffer) && recentTranscripts == old(recentTranscripts) &&
                sent == old(sent)
      ensures old(longAudioBuffer) != [] && old(recentTranscripts) != [] ==>
                longAudioBuffer == [] && recentTranscripts == []
      ensures var outcome := enrich(Concatenate(old(longAudioBuffer)), old(recentTranscripts), old(targetLanguage));
              if old(longAudioBuffer) != [] && old(recentTranscripts) != [] && hasProcessor &&
                 outcome.Returned? && EnrichmentReply(outcome.value, extract).Some?
              then sent == old(sent) + [EnrichmentReply(outcome.value, extract).value]
              else sent == old(sent)
    {
      if longAudioBuffer != [] && recentTranscripts != [] {
        var combinedLongAudio := Concatenate(longAudioBuffer);
        longAudioBuffer := [];
        var batchTranscripts := recentTranscripts;
        recentTranscripts := [];
        if hasProcessor {
          match enrich(combinedLongAudio, batchTranscripts, targetLanguage) {
            case Raised =>
              longAudioBuffer := [];
              recentTranscripts := [];
            case Returned(enriched) =>
              var insights: seq<PyValue> := [];
              EnrichmentReplyShape(enriched, extract);
              if Truthy(enriched) {
                if !enriched.PDict? {
                  // `.get` on a non-dict raises AttributeError: nothing is sent
                  longAudioBuffer := [];
                  recentTranscripts := [];
                  return;
                }
                var transcripts := DictGet(enriched.entries, "enriched_transcripts", PNone);
                if Truthy(transcripts) {
                  var text := TranscriptText(transcripts);
                  if text.None? {
                    longAudioBuffer := [];
                    recentTranscripts := [];
                    return;
                  }
                  if NonBlank(text.value) {
                    insights := extract(text.value);
                  }
                }
                sent := sent + [EnrichedTranscripts(enriched, insights)];
              }
          }
        }
      }
    }
  }
}
