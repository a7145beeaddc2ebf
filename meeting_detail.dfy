/** The data derivations of the meeting detail page: the stored
    recordings flattened into transcript messages, the stored insights split
    into key points, decisions and tasks, the language labels and the
    figures and file name of the PDF export. The recordings are what the
    backend returns for the meeting; `crypto.randomUUID()`, `Date.now()` and
    the export date are parameters. */
module MeetingDetail {
  import opened Wrappers
  import opened Text
  import opened JsValues

  /** A stored transcript. The backend always writes `speaker_label` as a
      string; the other fields are read as whatever JSON value they hold. */
  datatype Transcript = Transcript(id: JsValue, speakerLabel: string, original: JsValue,
                                   translated: JsValue, timestamp: JsValue, detectedLanguage: JsValue)

  datatype Recording = Recording(createdAt: string, targetLanguage: string,
                                 transcripts: seq<Transcript>, insights: seq<JsValue>)

  // ----- flattening recordings to transcripts ---------------------------------

  /** `recordings.reduce((acc, r) => acc + r.transcripts.length, 0)`. */
  function TotalTranscripts(recs: seq<Recording>): nat {
    if recs == [] then 0 else TotalTranscripts(recs[..|recs| - 1]) + |recs[|recs| - 1].transcripts|
  }

  /** Where the transcripts of recording `r` begin in the flattened list. */
  function Offset(recs: seq<Recording>, r: nat): nat
    requires r <= |recs|
  {
    TotalTranscripts(recs[..r])
  }

  /** `recordings.flatMap((rec, r) => rec.transcripts.map((tr, t) => f(r, rec, t, tr)))`. */
  function Flat<T>(recs: seq<Recording>, f: (nat, Recording, nat, Transcript) -> T): (out: seq<T>)
    ensures |out| == TotalTranscripts(recs)
  {
    if recs == [] then []
    else
      var n := |recs| - 1;
      var ts := recs[n].transcripts;
      Flat(recs[..n], f) + seq(|ts|, t requires 0 <= t < |ts| => f(n, recs[n], t, ts[t]))
  }

  /** Transcript `t` of recording `r` lands at `Offset(recs, r) + t`. */
  lemma {:induction false} FlatAt<T>(recs: seq<Recording>, f: (nat, Recording, nat, Transcript) -> T, r: nat, t: nat)
    requires r < |recs| && t < |recs[r].transcripts|
    ensures Offset(recs, r) + t < |Flat(recs, f)|
    ensures Flat(recs, f)[Offset(recs, r) + t] == f(r, recs[r], t, recs[r].transcripts[t])
  {
    var n := |recs| - 1;
    var init := recs[..n];
    if r < n {
      assert init[..r] == recs[..r];
      FlatAt(init, f, r, t);
      OffsetBound(init, r);
    } else {
      assert init == recs[..r];
    }
  }

  lemma {:induction false} OffsetBound(recs: seq<Recording>, r: nat)
    requires r < |recs|
    ensures Offset(recs, r) + |recs[r].transcripts| <= TotalTranscripts(recs)
  {
    var n := |recs| - 1;
    if r < n {
      assert recs[..n][..r] == recs[..r];
      OffsetBound(recs[..n], r);
    } else {
      assert recs[..n] == recs[..r];
    }
  }

  /** Every entry of the flattened list comes from one stored transcript. */
  lemma {:induction false} FlatCovers<T>(recs: seq<Recording>, f: (nat, Recording, nat, Transcript) -> T, i: nat)
      returns (r: nat, t: nat)
    requires i < |Flat(recs, f)|
    ensures r < |recs| && t < |recs[r].transcripts| && i == Offset(recs, r) + t
  {
    var n := |recs| - 1;
    var init := recs[..n];
    if i < TotalTranscripts(init) {
      r, t := FlatCovers(init, f, i);
      assert init[..r] == recs[..r];
    } else {
      r, t := n, i - TotalTranscripts(init);
      assert init == recs[..n];
    }
  }

  /** Positions are distinct for distinct transcripts. */
  lemma {:induction false} OffsetInjective(recs: seq<Recording>, r1: nat, t1: nat, r2: nat, t2: nat)
    requires r1 < |recs| && t1 < |recs[r1].transcripts|
    requires r2 < |recs| && t2 < |recs[r2].transcripts|
    requires r1 < r2
    ensures Offset(recs, r1) + t1 < Offset(recs, r2) + t2
  {
    OffsetBound(recs[..r2], r1);
    assert recs[..r2][..r1] == recs[..r1];
  }

  // ----- translatedMessages ---------------------------------------------------

  /** The id of transcript `t` of recording `r`: `${r}-${t}`. */
  function PairId(r: nat, t: nat): string {
    NatToString(r) + "-" + NatToString(t)
  }

  lemma PairIdInjective(r1: nat, t1: nat, r2: nat, t2: nat)
    ensures PairId(r1, t1) == PairId(r2, t2) <==> r1 == r2 && t1 == t2
  {
    if PairId(r1, t1) == PairId(r2, t2) {
      var a, b := NatToString(r1), NatToString(r2);
      var s := PairId(r1, t1);
      assert s[|a|] == '-';
      assert PairId(r2, t2)[|b|] == '-';
      if |a| != |b| {
        assert false;
      }
      assert a == s[..|a|] == b;
      assert NatToString(t1) == s[|a| + 1..] == NatToString(t2);
      NatToStringInjective(r1, r2);
      NatToStringInjective(t1, t2);
    }
  }

  /** `label.replace('SPEAKER_', 'S')`. */
  function SpeakerInitials(speaker: string): string {
    ReplaceFirst(speaker, "SPEAKER_", "S")
  }

  /** The initials of a label the backend allocates, and of a label that
      does not contain `SPEAKER_`. */
  lemma SpeakerInitialsOf(n: nat, other: string)
    ensures SpeakerInitials("SPEAKER_" + NatToString(n)) == "S" + NatToString(n)
    ensures (forall i: nat :: !OccursAt(other, "SPEAKER_", i)) ==> SpeakerInitials(other) == other
  {
    var s := "SPEAKER_" + NatToString(n);
    assert OccursAt(s, "SPEAKER_", 0);
    ReplaceFirstAt(s, "SPEAKER_", "S", 0);
    assert s[8..] == NatToString(n);
    if forall i: nat :: !OccursAt(other, "SPEAKER_", i) {
      ReplaceFirstAbsent(other, "SPEAKER_", "S");
    }
  }

  /** `a || b`. */
  function Or(a: JsValue, b: JsValue): (r: JsValue)
    ensures Truthy(a) ==> r == a
    ensures !Truthy(a) ==> r == b
  {
    if Truthy(a) then a else b
  }

  /** An entry of `translatedMessages` (the colour is a constant). */
  datatype TranslatedMessage = TranslatedMessage(id: string, speaker: string, speakerInitials: string,
                                                 text: JsValue, translatedText: JsValue, timestamp: string)

  function TranslatedMessageOf(r: nat, rec: Recording, t: nat, tr: Transcript): TranslatedMessage {
    TranslatedMessage(PairId(r, t), tr.speakerLabel, SpeakerInitials(tr.speakerLabel),
                      tr.original, Or(tr.translated, tr.original), rec.createdAt)
  }

  /** `translatedMessages`, as the effect sets it from non-empty recordings. */
  function TranslatedMessages(recs: seq<Recording>): seq<TranslatedMessage> {
    Flat(recs, TranslatedMessageOf)
  }

  /** One entry per stored transcript, recording by recording and in
      transcript order within a recording. */
  lemma TranslatedMessagesAt(recs: seq<Recording>, r: nat, t: nat)
    requires r < |recs| && t < |recs[r].transcripts|
    ensures |TranslatedMessages(recs)| == TotalTranscripts(recs)
    ensures Offset(recs, r) + t < |TranslatedMessages(recs)|
    ensures TranslatedMessages(recs)[Offset(recs, r) + t]
            == TranslatedMessageOf(r, recs[r], t, recs[r].transcripts[t])
  {
    FlatAt(recs, TranslatedMessageOf, r, t);
  }

  /** The ids of `translatedMessages` are pairwise distinct. */
  lemma TranslatedMessageIdsDistinct(recs: seq<Recording>, i: nat, j: nat)
    requires i < j < |TranslatedMessages(recs)|
    ensures TranslatedMessages(recs)[i].id != TranslatedMessages(recs)[j].id
  {
    var ms := TranslatedMessages(recs);
    var r1, t1 := FlatCovers(recs, TranslatedMessageOf, i);
    var r2, t2 := FlatCovers(recs, TranslatedMessageOf, j);
    FlatAt(recs, TranslatedMessageOf, r1, t1);
    FlatAt(recs, TranslatedMessageOf, r2, t2);
    PairIdInjective(r1, t1, r2, t2);
    if r1 > r2 {
      OffsetInjective(recs, r2, t2, r1, t1);
    }
  }

  // ----- allMessages and allTranslations --------------------------------------

  /** An entry of `allMessages` (the colour is a constant). */
  datatype Message = Message(id: JsValue, speaker: string, speakerInitials: string,
                             text: JsValue, detectedLanguage: JsValue)

  /** An entry of `allTranslations` (the colour is a constant). */
  datatype TranslationLine = TranslationLine(id: JsValue, speaker: string, speakerInitials: string,
                                             text: JsValue, translatedText: JsValue, timestamp: JsValue)

  /** `uuid(r, t)` is the `crypto.randomUUID()` drawn for transcript `t`
      of recording `r`. */
  function MessageOf(uuid: (nat, nat) -> string): (nat, Recording, nat, Transcript) -> Message {
    (r: nat, rec: Recording, t: nat, tr: Transcript) =>
      Message(Or(tr.id, Str(uuid(r, t))), tr.speakerLabel, SpeakerInitials(tr.speakerLabel),
              tr.original, tr.detectedLanguage)
  }

  /** `now` is `Date.now()`. */
  function TranslationLineOf(uuid: (nat, nat) -> string, now: real): (nat, Recording, nat, Transcript) -> TranslationLine {
    (r: nat, rec: Recording, t: nat, tr: Transcript) =>
      TranslationLine(Or(tr.id, Str(uuid(r, t))), tr.speakerLabel, SpeakerInitials(tr.speakerLabel),
                      tr.original, Or(tr.translated, Str("")), Or(tr.timestamp, Num(now)))
  }

  function AllMessages(recs: seq<Recording>, uuid: (nat, nat) -> string): seq<Message> {
    Flat(recs, MessageOf(uuid))
  }

  function AllTranslations(recs: seq<Recording>, uuid: (nat, nat) -> string, now: real): seq<TranslationLine> {
    Flat(recs, TranslationLineOf(uuid, now))
  }

  /** The three lists line up entry by entry: same length, same original
      text and initials at every position, and a message's id is the
      stored one when it is truthy and a fresh uuid otherwise. */
  lemma ViewsAlign(recs: seq<Recording>, uuid: (nat, nat) -> string, now: real, r: nat, t: nat)
    requires r < |recs| && t < |recs[r].transcripts|
    ensures |AllMessages(recs, uuid)| == |AllTranslations(recs, uuid, now)| == |TranslatedMessages(recs)|
    ensures var i := Offset(recs, r) + t;
            var tr := recs[r].transcripts[t];
            && i < |AllMessages(recs, uuid)|
            && AllMessages(recs, uuid)[i].text == AllTranslations(recs, uuid, now)[i].text
               == TranslatedMessages(recs)[i].text == tr.original
            && AllMessages(recs, uuid)[i].speakerInitials == TranslatedMessages(recs)[i].speakerInitials
            && AllMessages(recs, uuid)[i].id == (if Truthy(tr.id) then tr.id else Str(uuid(r, t)))
  {
    var tr := recs[r].transcripts[t];
    FlatAt(recs, TranslatedMessageOf, r, t);
    FlatAt(recs, MessageOf(uuid), r, t);
    FlatAt(recs, TranslationLineOf(uuid, now), r, t);
    assert MessageOf(uuid)(r, recs[r], t, tr).id == Or(tr.id, Str(uuid(r, t)));
  }

  /** A stored translation is shown by both translation views; a missing
      one falls back to the original text in `translatedMessages` but to
      `''` in `allTranslations`. */
  lemma TranslationFallback(recs: seq<Recording>, uuid: (nat, nat) -> string, now: real, r: nat, t: nat)
    requires r < |recs| && t < |recs[r].transcripts|
    ensures var i := Offset(recs, r) + t;
            var tr := recs[r].transcripts[t];
            && i < |AllTranslations(recs, uuid, now)| && i < |TranslatedMessages(recs)|
            && TranslatedMessages(recs)[i].translatedText == (if Truthy(tr.translated) then tr.translated else tr.original)
            && AllTranslations(recs, uuid, now)[i].translatedText == (if Truthy(tr.translated) then tr.translated else Str(""))
  {
    var tr := recs[r].transcripts[t];
    FlatAt(recs, TranslatedMessageOf, r, t);
    FlatAt(recs, TranslationLineOf(uuid, now), r, t);
    assert TranslationLineOf(uuid, now)(r, recs[r], t, tr).translatedText == Or(tr.translated, Str(""));
  }

  // ----- insights -------------------------------------------------------------

  /** `recordings.flatMap(rec => rec.insights)`. */
  function AllInsights(recs: seq<Recording>): seq<JsValue>
  {
    if recs == [] then [] else AllInsights(recs[..|recs| - 1]) + recs[|recs| - 1].insights
  }

  /** Reading `insight.data` throws on a null or undefined insight. */
  predicate Readable(insights: seq<JsValue>) {
    forall i :: 0 <= i < |insights| ==> !Nullish(insights[i])
  }

  /** `insight.data?.insight_type`. */
  function InsightType(insight: JsValue): JsValue
    requires !Nullish(insight)
  {
    GetOpt(Get(insight, "data"), "insight_type")
  }

  /** The `data` of the insights whose type is `kind`, in order:
      `insights.filter(x => x.data?.insight_type === kind).map(x => x.data)`. */
  function OfType(insights: seq<JsValue>, kind: string): (out: seq<JsValue>)
    requires Readable(insights)
    ensures |out| <= |insights|
    ensures forall i :: 0 <= i < |out| ==> !Nullish(out[i]) && Get(out[i], "insight_type") == Str(kind)
  {
    if insights == [] then []
    else
      var n := |insights| - 1;
      var rest := OfType(insights[..n], kind);
      if InsightType(insights[n]) == Str(kind) then rest + [Get(insights[n], "data")] else rest
  }

  /** The insights of none of the three kinds the page shows. */
  function Unshown(insights: seq<JsValue>): seq<JsValue>
    requires Readable(insights)
  {
    if insights == [] then []
    else
      var n := |insights| - 1;
      var rest := Unshown(insights[..n]);
      if InsightType(insights[n]) in {Str("key_point"), Str("decision"), Str("action_item")} then rest
      else rest + [insights[n]]
  }

  /** Filtering keeps the order: the selection of a concatenation is the
      concatenation of the selections. */
  lemma {:induction false} OfTypeAppend(xs: seq<JsValue>, ys: seq<JsValue>, kind: string)
    requires Readable(xs) && Readable(ys)
    ensures Readable(xs + ys)
    ensures OfType(xs + ys, kind) == OfType(xs, kind) + OfType(ys, kind)
    decreases |ys|
  {
    assert forall i :: 0 <= i < |xs + ys| ==> (xs + ys)[i] == if i < |xs| then xs[i] else ys[i - |xs|];
    if ys == [] {
      assert xs + ys == xs;
    } else {
      var n := |ys| - 1;
      OfTypeAppend(xs, ys[..n], kind);
      assert (xs + ys)[..|xs + ys| - 1] == xs + ys[..n];
    }
  }

  /** Every insight lands in exactly one of the three lists or is dropped. */
  lemma {:induction false} SplitPartitions(insights: seq<JsValue>)
    requires Readable(insights)
    ensures |OfType(insights, "key_point")| + |OfType(insights, "decision")|
            + |OfType(insights, "action_item")| + |Unshown(insights)| == |insights|
  {
    if insights != [] {
      var n := |insights| - 1;
      SplitPartitions(insights[..n]);
    }
  }

  datatype Point = Point(text: JsValue, source: string)

  datatype AiTask = AiTask(id: JsValue, text: JsValue, assignee: JsValue, deadline: Option<JsValue>, source: string)

  datatype InsightSplit = InsightSplit(keyPoints: seq<Point>, decisions: seq<Point>, tasks: seq<AiTask>)

  /** One `action_item` data object as a task; `uuid(i)` is the
      `crypto.randomUUID()` drawn for the `i`-th task. */
  function TaskOf(data: JsValue, uuid: nat -> string, i: nat): AiTask
    requires !Nullish(data)
  {
    var due := Get(data, "due_date");
    AiTask(Or(Get(data, "id"), Str(uuid(i))), Get(data, "task"), Get(data, "assignee"),
           if Truthy(due) then Some(due) else None, "ai")
  }

  /** `keyPoints`, `decisions` and `tasks`; None when an insight is null or
      undefined, on which the page's render throws. */
  function SplitInsights(recs: seq<Recording>, uuid: nat -> string): (out: Option<InsightSplit>)
    ensures out.None? <==> !Readable(AllInsights(recs))
    ensures out.Some? ==>
              var all := AllInsights(recs);
              && |out.value.keyPoints| == |OfType(all, "key_point")|
              && |out.value.decisions| == |OfType(all, "decision")|
              && |out.value.tasks| == |OfType(all, "action_item")|
              && (forall i :: 0 <= i < |out.value.keyPoints| ==>
                    out.value.keyPoints[i] == Point(Get(OfType(all, "key_point")[i], "point"), "ai"))
              && (forall i :: 0 <= i < |out.value.decisions| ==>
                    out.value.decisions[i] == Point(Get(OfType(all, "decision")[i], "decision"), "ai"))
              && (forall i :: 0 <= i < |out.value.tasks| ==>
                    var data := OfType(all, "action_item")[i];
                    var task := out.value.tasks[i];
                    && task.source == "ai" && task.text == Get(data, "task")
                    && task.assignee == Get(data, "assignee")
                    && (Truthy(Get(data, "id")) ==> task.id == Get(data, "id"))
                    && (!Truthy(Get(data, "id")) ==> task.id == Str(uuid(i)))
                    && (task.deadline.Some? <==> Truthy(Get(data, "due_date")))
                    && (task.deadline.Some? ==> task.deadline.value == Get(data, "due_date")))
  {
    var all := AllInsights(recs);
    if !Readable(all) then None
    else
      var kp := OfType(all, "key_point");
      var ds := OfType(all, "decision");
      var ts := OfType(all, "action_item");
      Some(InsightSplit(seq(|kp|, i requires 0 <= i < |kp| => Point(Get(kp[i], "point"), "ai")),
                        seq(|ds|, i requires 0 <= i < |ds| => Point(Get(ds[i], "decision"), "ai")),
                        seq(|ts|, i requires 0 <= i < |ts| => TaskOf(ts[i], uuid, i))))
  }

  // ----- labels and export ----------------------------------------------------

  const LanguageNames: map<string, string> :=
    map["en" := "English", "es" := "Spanish", "fr" := "French", "zh" := "Chinese"]

  /** `languageMap[code] || code`. */
  function LanguageLabel(code: string): (name: string)
    ensures name == code <==> code !in LanguageNames
    ensures code in LanguageNames ==> name == LanguageNames[code]
  {
    if code in LanguageNames then LanguageNames[code] else code
  }

  /** The export writes a stored translation only when it is present and
      differs from the original. */
  predicate TranslationWritten(tr: Transcript) {
    Truthy(tr.translated) && tr.translated != tr.original
  }

  /** The export's transcript lines match the page's messages: a line is
      written with its translation exactly when `translatedMessages` shows a
      different text. */
  lemma TranslationWrittenIffShown(recs: seq<Recording>, r: nat, t: nat)
    requires r < |recs| && t < |recs[r].transcripts|
    ensures var tr := recs[r].transcripts[t];
            var i := Offset(recs, r) + t;
            && i < |TranslatedMessages(recs)|
            && (TranslationWritten(tr) <==> TranslatedMessages(recs)[i].translatedText != TranslatedMessages(recs)[i].text)
  {
    TranslatedMessagesAt(recs, r, t);
  }

  /** `title.replace(/[^a-zA-Z0-9]/g, '_')`. */
  function Sanitize(title: string): (s: string)
    ensures |s| == |title|
    ensures forall i :: 0 <= i < |s| ==> if IsAsciiAlphanumeric(title[i]) then s[i] == title[i] else s[i] == '_'
  {
    seq(|title|, i requires 0 <= i < |title| => if IsAsciiAlphanumeric(title[i]) then title[i] else '_')
  }

  lemma SanitizeIdempotent(title: string)
    ensures Sanitize(Sanitize(title)) == Sanitize(title)
    ensures forall i :: 0 <= i < |Sanitize(title)| ==> IsAsciiAlphanumeric(Sanitize(title)[i]) || Sanitize(title)[i] == '_'
  {
  }

  /** The PDF's file name for the meeting's `title` (None for no meeting)
      and the ISO timestamp of the export; None when `meeting.title` is not
      a string, on which `replace` throws and the export fails. */
  function ExportFileName(title: Option<JsValue>, isoNow: string): (name: Option<string>)
    ensures name.None? <==> title.Some? && !title.value.Str?
    ensures name.Some? ==>
              var stem := if title.Some? && title.value.s != "" then Sanitize(title.value.s) else "meeting";
              name.value == stem + "_" + Split(isoNow, 'T')[0] + ".pdf"
  {
    match title
    case None => Some("meeting_" + Split(isoNow, 'T')[0] + ".pdf")
    case Some(Str(s)) =>
      var stem := Sanitize(s);
      Some((if stem == "" then "meeting" else stem) + "_" + Split(isoNow, 'T')[0] + ".pdf")
    case Some(_) => None
  }

  /** The stem keeps the title's length and is made of letters, digits and
      underscores only; a name is produced exactly when the title is a
      string or there is no meeting. */
  lemma ExportFileNameStem(title: string, isoNow: string)
    ensures title != "" ==>
              ExportFileName(Some(Str(title)), isoNow) == Some(Sanitize(title) + "_" + Split(isoNow, 'T')[0] + ".pdf")
    ensures ExportFileName(Some(Str("")), isoNow) == ExportFileName(None, isoNow)
  {
  }

  /** The PDF's heading: `meeting?.title || 'Meeting Transcript'`. */
  function TitleText(title: Option<JsValue>): (text: JsValue)
    ensures title.Some? && Truthy(title.value) ==> text == title.value
    ensures !(title.Some? && Truthy(title.value)) ==> text == Str("Meeting Transcript")
  {
    if title.Some? then Or(title.value, Str("Meeting Transcript")) else Str("Meeting Transcript")
  }
}
