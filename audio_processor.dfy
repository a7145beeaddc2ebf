/** The bookkeeping of the backend's `AudioProcessor`: the persistent
    speaker map that renames diarization labels to `SPEAKER_<n>`, the scan
    of Whisper's tokens for the detected language, the three-scenario
    translation router and the per-transcript loop of
    `enrich_transcript_batch`. The models themselves are parameters. */
module AudioProcessing {
  import opened Wrappers
  import opened Text
  import opened PyValues

  // ----- Speaker names ------------------------------------------------------

  function SpeakerName(n: nat): string {
    "SPEAKER_" + NatToString(n)
  }

  lemma SpeakerNameInjective(m: nat, n: nat)
    ensures SpeakerName(m) == SpeakerName(n) <==> m == n
  {
    if SpeakerName(m) == SpeakerName(n) {
      assert NatToString(m) == SpeakerName(m)[8..];
      assert NatToString(n) == SpeakerName(n)[8..];
      NatToStringInjective(m, n);
    }
  }

  /** One diarization turn: its time span and the diarizer's own label. */
  datatype Track = Track(start: real, end: real, pyannoteLabel: string)

  /** The labels of `tracks` not in `seen`, each once, in order of first
      appearance: the labels a run of the speaker loop allocates names for. */
  function NewLabels(tracks: seq<Track>, seen: set<string>): (r: seq<string>)
    ensures |r| <= |tracks|
  {
    if tracks == [] then []
    else
      var init := tracks[..|tracks| - 1];
      var last := tracks[|tracks| - 1].pyannoteLabel;
      if last in seen || last in Labels(init) then NewLabels(init, seen)
      else NewLabels(init, seen) + [last]
  }

  function Labels(tracks: seq<Track>): (r: set<string>)
    ensures forall k :: 0 <= k < |tracks| ==> tracks[k].pyannoteLabel in r
    ensures forall l :: l in r ==> exists k :: 0 <= k < |tracks| && tracks[k].pyannoteLabel == l
  {
    set k | 0 <= k < |tracks| :: tracks[k].pyannoteLabel
  }

  lemma LabelsSnoc(tracks: seq<Track>, i: nat, seen: set<string>)
    requires i < |tracks|
    ensures tracks[..i + 1][..i] == tracks[..i] && tracks[..i + 1][i] == tracks[i]
    ensures Labels(tracks[..i + 1]) == Labels(tracks[..i]) + {tracks[i].pyannoteLabel}
    ensures NewLabels(tracks[..i + 1], seen) ==
              NewLabels(tracks[..i], seen) +
              (if tracks[i].pyannoteLabel in seen || tracks[i].pyannoteLabel in Labels(tracks[..i])
               then [] else [tracks[i].pyannoteLabel])
  {
    assert tracks[..i + 1][..i] == tracks[..i];
  }

  /** Every new label is unseen, and they are pairwise distinct. */
  lemma {:induction false} NewLabelsFresh(tracks: seq<Track>, seen: set<string>)
    ensures forall k :: 0 <= k < |NewLabels(tracks, seen)| ==>
              NewLabels(tracks, seen)[k] !in seen && NewLabels(tracks, seen)[k] in Labels(tracks)
    ensures forall i, j :: 0 <= i < j < |NewLabels(tracks, seen)| ==>
              NewLabels(tracks, seen)[i] != NewLabels(tracks, seen)[j]
    decreases |tracks|
  {
    if tracks != [] {
      var init := tracks[..|tracks| - 1];
      NewLabelsFresh(init, seen);
      assert Labels(init) <= Labels(tracks);
    }
  }

  // ----- Language tokens ----------------------------------------------------

  /** A special token `<|xx|>` with a non-empty inside. */
  predicate IsLanguageToken(t: string) {
    |t| > 4 && t[..2] == "<|" && t[|t| - 2..] == "|>"
  }

  function TokenInner(t: string): string
    requires |t| >= 4
  {
    t[2..|t| - 2]
  }

  /** The inside of the first language token, or `'en'` when none is. */
  function FirstLanguage(tokens: seq<string>): (lang: string)
  {
    if tokens == [] then "en"
    else if IsLanguageToken(tokens[0]) then TokenInner(tokens[0])
    else FirstLanguage(tokens[1..])
  }

  /** FirstLanguage picks the first language token and ignores the rest,
      falling back to `'en'` only when there is none. */
  lemma {:induction false} FirstLanguageSpec(tokens: seq<string>)
    ensures (forall k :: 0 <= k < |tokens| ==> !IsLanguageToken(tokens[k])) ==> FirstLanguage(tokens) == "en"
    ensures forall k :: (0 <= k < |tokens| && IsLanguageToken(tokens[k]) &&
                         (forall j :: 0 <= j < k ==> !IsLanguageToken(tokens[j]))) ==>
              FirstLanguage(tokens) == TokenInner(tokens[k])
    decreases |tokens|
  {
    if tokens != [] {
      FirstLanguageSpec(tokens[1..]);
      assert forall k :: 1 <= k < |tokens| ==> tokens[k] == tokens[1..][k - 1];
    }
  }

  /** The token scan: stops at the first language token. */
  method DetectLanguage(tokens: seq<string>) returns (lang: string)
    ensures lang == FirstLanguage(tokens)
  {
    lang := "en";
    var i := 0;
    while i < |tokens|
      invariant 0 <= i <= |tokens|
      invariant FirstLanguage(tokens) == FirstLanguage(tokens[i..])
      invariant lang == "en"
    {
      var token := tokens[i];
      if IsLanguageToken(token) {
        lang := TokenInner(token);
        assert tokens[i..][0] == token;
        return;
      }
      assert tokens[i..][1..] == tokens[i + 1..];
      i := i + 1;
    }
  }

  // ----- Translation routing --------------------------------------------------

  /** How `_translate_text` ends: its logging line raises on a text that
      cannot be sliced, the model call fails (None), or it translates. */
  datatype Translation = TranslateRaised | TranslateFailed | Translated(text: string)

  /** `_perform_intelligent_translation`. `pairs` are the loaded language
      pairs and `translate` the model call. None is Python's `None`. */
  function Route(orig: PyValue, src: PyValue, target: string, pairs: set<(string, string)>,
                 translate: (PyValue, (string, string)) -> Translation): (r: PyValue)
    ensures r != orig ==> src != PStr(target) && src.PStr?
  {
    if src == PStr(target) then orig                     // scenario A
    else if !src.PStr? then orig                         // no pair matches; a list raises
    else if (src.s, target) in pairs then                // scenario B
      match translate(orig, (src.s, target))
      case TranslateRaised => orig
      case TranslateFailed => PNone
      case Translated(t) => PStr(t)
    else if (src.s, "en") !in pairs then orig            // scenario C, step 1
    else
      match translate(orig, (src.s, "en"))
      case TranslateRaised => orig
      case TranslateFailed => orig
      case Translated(english) =>
        if ("en", target) !in pairs then PStr(english)   // step 2
        else
          match translate(PStr(english), ("en", target))
          case TranslateRaised => orig
          case TranslateFailed => PStr(english)
          case Translated(t) => PStr(t)
  }

  /** Scenario A consults no translator: the result is the original for
      any pair set and any translation function. */
  lemma RouteSameLanguage(orig: PyValue, target: string, pairs: set<(string, string)>,
                          tr: (PyValue, (string, string)) -> Translation,
                          pairs2: set<(string, string)>, tr2: (PyValue, (string, string)) -> Translation)
    ensures Route(orig, PStr(target), target, pairs, tr) == orig
    ensures Route(orig, PStr(target), target, pairs, tr) == Route(orig, PStr(target), target, pairs2, tr2)
  {
  }

  /** Scenario B uses exactly the direct pair: two translators that agree
      on it give the same result, which is that translation. */
  lemma RouteDirect(orig: PyValue, src: string, target: string, pairs: set<(string, string)>,
                    tr: (PyValue, (string, string)) -> Translation,
                    tr2: (PyValue, (string, string)) -> Translation)
    requires src != target && (src, target) in pairs
    requires tr(orig, (src, target)) == tr2(orig, (src, target))
    ensures Route(orig, PStr(src), target, pairs, tr) == Route(orig, PStr(src), target, pairs, tr2)
    ensures tr(orig, (src, target)).Translated? ==>
              Route(orig, PStr(src), target, pairs, tr) == PStr(tr(orig, (src, target)).text)
  {
  }

  /** The pivot fallbacks: a missing or failed first step gives back the
      original, a missing or failed second step the English text. */
  lemma RoutePivot(orig: PyValue, src: string, target: string, pairs: set<(string, string)>,
                   tr: (PyValue, (string, string)) -> Translation)
    requires src != target && (src, target) !in pairs
    ensures (src, "en") !in pairs ==> Route(orig, PStr(src), target, pairs, tr) == orig
    ensures (src, "en") in pairs && !tr(orig, (src, "en")).Translated? ==>
              Route(orig, PStr(src), target, pairs, tr) == orig
    ensures (src, "en") in pairs && tr(orig, (src, "en")).Translated? ==>
              var english := tr(orig, (src, "en")).text;
              && (("en", target) !in pairs ==> Route(orig, PStr(src), target, pairs, tr) == PStr(english))
              && (("en", target) in pairs && tr(PStr(english), ("en", target)) == TranslateFailed ==>
                    Route(orig, PStr(src), target, pairs, tr) == PStr(english))
              && (("en", target) in pairs && tr(PStr(english), ("en", target)).Translated? ==>
                    Route(orig, PStr(src), target, pairs, tr) == PStr(tr(PStr(english), ("en", target)).text))
  {
  }

  /** Any exception along the way gives back the original. */
  lemma RouteRaised(orig: PyValue, src: string, target: string, pairs: set<(string, string)>,
                    tr: (PyValue, (string, string)) -> Translation)
    requires src != target
    requires forall key :: tr(orig, key) == TranslateRaised
    ensures Route(orig, PStr(src), target, pairs, tr) == orig
  {
  }

  // ----- Transcript entries ---------------------------------------------------

  /** One entry of the translation loop: the dict with its
      `translated_transcript` set, or None when the entry is not a dict
      (`t.get` raises, and the whole batch fails). */
  function EnrichEntry(t: PyValue, target: string, pairs: set<(string, string)>,
                       translate: (PyValue, (string, string)) -> Translation): (r: Option<PyValue>)
    ensures r.Some? <==> t.PDict?
  {
    if !t.PDict? then None
    else
      var orig := DictGet(t.entries, "original_transcript", PStr(""));
      var src := DictGet(t.entries, "detected_language", PStr("en"));
      var translated := if src == PStr(target) then orig else Route(orig, src, target, pairs, translate);
      Some(PDict(t.entries["translated_transcript" := translated]))
  }

  /** Every enriched entry keeps its other fields and gets
      `translated_transcript`: the original when the language already
      matches (`''` if it has none), the routed translation otherwise,
      reading a missing language as `'en'`. */
  lemma EnrichEntryFields(t: PyValue, target: string, pairs: set<(string, string)>,
                          translate: (PyValue, (string, string)) -> Translation)
    requires t.PDict?
    ensures var e := EnrichEntry(t, target, pairs, translate).value.entries;
      && "translated_transcript" in e
      && (forall k :: k in t.entries && k != "translated_transcript" ==> k in e && e[k] == t.entries[k])
      && e.Keys == t.entries.Keys + {"translated_transcript"}
      && ("detected_language" !in t.entries && target == "en" ==>
            e["translated_transcript"] == DictGet(t.entries, "original_transcript", PStr("")))
      && ("original_transcript" !in t.entries && DictGet(t.entries, "detected_language", PStr("en")) == PStr(target) ==>
            e["translated_transcript"] == PStr(""))
      && ("detected_language" !in t.entries && target != "en" ==>
            e["translated_transcript"] ==
              Route(DictGet(t.entries, "original_transcript", PStr("")), PStr("en"), target, pairs, translate))
  {
  }

  /** What Whisper gives for one segment: decoded text and token strings. */
  datatype WhisperOutput = WhisperOutput(decoded: string, tokens: seq<string>)

  /** The transcript generated for one diarization segment. */
  function SegmentTranscript(seg: Track, speaker: string, whisper: Option<WhisperOutput>): (t: PyValue)
    ensures t.PDict? && "speaker_label" in t.entries && t.entries["speaker_label"] == PStr(speaker)
    ensures "original_transcript" in t.entries && "detected_language" in t.entries
    ensures whisper.None? ==>
              t.entries["original_transcript"] == PStr("") && t.entries["detected_language"] == PStr("en")
  {
    var base := map["start" := PFloat(seg.start), "end" := PFloat(seg.end), "speaker_label" := PStr(speaker)];
    match whisper
    case None => PDict(base["original_transcript" := PStr("")]["detected_language" := PStr("en")])
    case Some(w) =>
      PDict(base["original_transcript" := PStr(Strip(w.decoded))]["detected_language" := PStr(FirstLanguage(w.tokens))])
  }

  /** A diarization result row. */
  function SegmentDict(seg: Track, speaker: string): PyValue {
    PDict(map["start" := PFloat(seg.start), "end" := PFloat(seg.end),
              "pyannote_label" := PStr(seg.pyannoteLabel), "speaker" := PStr(speaker)])
  }

  /** The speaker loop's invariant after the turns `done`, starting from
      the map `m0` with allocation order `o0`. */
  ghost predicate Assigned(m0: map<string, string>, o0: seq<string>, done: seq<Track>,
                           m: map<string, string>, o: seq<string>, segments: seq<PyValue>, speakers: seq<string>)
  {
    && KeysAssigned(m0, o0, done, m, o)
    && RowsAssigned(done, m, segments, speakers)
  }

  /** The allocation order and the map's domain after the turns `done`. */
  ghost predicate KeysAssigned(m0: map<string, string>, o0: seq<string>, done: seq<Track>,
                               m: map<string, string>, o: seq<string>)
  {
    && o == o0 + NewLabels(done, m0.Keys)
    && (forall l :: l in m0 ==> l in m && m[l] == m0[l])
    && (forall l :: l in m <==> l in m0 || l in Labels(done))
  }

  /** Every turn in `done` got its label's current name. */
  ghost predicate RowsAssigned(done: seq<Track>, m: map<string, string>, segments: seq<PyValue>, speakers: seq<string>)
  {
    && |segments| == |done| && |speakers| == |done|
    && (forall k :: 0 <= k < |done| ==>
          done[k].pyannoteLabel in m && speakers[k] == m[done[k].pyannoteLabel] &&
          segments[k] == SegmentDict(done[k], speakers[k]))
  }

  /** The speaker loop's invariant once every track is done. */
  lemma AssignedAll(m0: map<string, string>, o0: seq<string>, tracks: seq<Track>,
                    m: map<string, string>, o: seq<string>, segments: seq<PyValue>, speakers: seq<string>)
    requires Assigned(m0, o0, tracks, m, o, segments, speakers)
    ensures o == o0 + NewLabels(tracks, m0.Keys)
    ensures forall l :: l in m0 ==> l in m && m[l] == m0[l]
    ensures forall l :: l in m <==> l in m0 || l in Labels(tracks)
    ensures |segments| == |tracks| && |speakers| == |tracks|
    ensures forall k :: 0 <= k < |tracks| ==>
              tracks[k].pyannoteLabel in m && speakers[k] == m[tracks[k].pyannoteLabel] &&
              segments[k] == SegmentDict(tracks[k], speakers[k])
  {
  }

  /** One turn of the speaker loop keeps its invariant. */
  lemma AssignedStep(m0: map<string, string>, o0: seq<string>, tracks: seq<Track>, i: nat,
                     m: map<string, string>, o: seq<string>, m': map<string, string>, o': seq<string>,
                     segments: seq<PyValue>, speakers: seq<string>, persistent: string)
    requires i < |tracks| && Assigned(m0, o0, tracks[..i], m, o, segments, speakers)
    requires var tag := tracks[i].pyannoteLabel;
      && tag in m' && m'[tag] == persistent
      && (forall l :: l in m ==> l in m' && m'[l] == m[l])
      && (tag !in m ==> m' == m[tag := persistent] && o' == o + [tag])
      && (tag in m ==> m' == m && o' == o)
    ensures Assigned(m0, o0, tracks[..i + 1], m', o', segments + [SegmentDict(tracks[i], persistent)],
                     speakers + [persistent])
  {
    KeysStep(m0, o0, tracks, i, m, o, m', o', persistent);
    RowsStep(tracks, i, m, m', segments, speakers, persistent);
  }

  lemma KeysStep(m0: map<string, string>, o0: seq<string>, tracks: seq<Track>, i: nat,
                 m: map<string, string>, o: seq<string>, m': map<string, string>, o': seq<string>,
                 persistent: string)
    requires i < |tracks| && KeysAssigned(m0, o0, tracks[..i], m, o)
    requires var tag := tracks[i].pyannoteLabel;
      && tag in m'
      && (forall l :: l in m ==> l in m' && m'[l] == m[l])
      && (tag !in m ==> m' == m[tag := persistent] && o' == o + [tag])
      && (tag in m ==> m' == m && o' == o)
    ensures KeysAssigned(m0, o0, tracks[..i + 1], m', o')
  {
    LabelsSnoc(tracks, i, m0.Keys);
  }

  lemma RowsStep(tracks: seq<Track>, i: nat, m: map<string, string>, m': map<string, string>,
                 segments: seq<PyValue>, speakers: seq<string>, persistent: string)
    requires i < |tracks| && RowsAssigned(tracks[..i], m, segments, speakers)
    requires tracks[i].pyannoteLabel in m' && m'[tracks[i].pyannoteLabel] == persistent
    requires forall l :: l in m ==> l in m' && m'[l] == m[l]
    ensures RowsAssigned(tracks[..i + 1], m', segments + [SegmentDict(tracks[i], persistent)],
                         speakers + [persistent])
  {
    var segments' := segments + [SegmentDict(tracks[i], persistent)];
    var speakers' := speakers + [persistent];
    forall k | 0 <= k < i + 1
      ensures tracks[..i + 1][k].pyannoteLabel in m' && speakers'[k] == m'[tracks[..i + 1][k].pyannoteLabel] &&
              segments'[k] == SegmentDict(tracks[..i + 1][k], speakers'[k])
    {
      if k < i {
        assert tracks[..i + 1][k] == tracks[..i][k];
      }
    }
  }

  // ----- The processor ------------------------------------------------------

  class AudioProcessor {
    /** The language pairs whose translation models loaded. */
    const pairs: set<(string, string)>
    var speakerMap: map<string, string>
    var nextSpeakerId: nat
    /** The diarizer labels in the order they were first seen. */
    ghost var order: seq<string>

    /** The map sends the n-th label ever seen to `SPEAKER_n`, and holds
        nothing else. */
    ghost predicate Valid()
      reads this
    {
      && nextSpeakerId == |order| + 1
      && (forall i, j :: 0 <= i < j < |order| ==> order[i] != order[j])
      && (forall l :: l in speakerMap <==> l in order)
      && (forall k :: 0 <= k < |order| ==> order[k] in speakerMap && speakerMap[order[k]] == SpeakerName(k + 1))
    }

    constructor (loadedPairs: set<(string, string)>)
      ensures Valid()
      ensures pairs == loadedPairs && speakerMap == map[] && nextSpeakerId == 1
    {
      pairs := loadedPairs;
      speakerMap := map[];
      nextSpeakerId := 1;
      order := [];
    }

    /** The values of the map are exactly SPEAKER_1 .. SPEAKER_{next-1}. */
    lemma ValuesAreAllocatedNames()
      requires Valid()
      ensures forall v :: v in speakerMap.Values <==> exists n :: 1 <= n < nextSpeakerId && v == SpeakerName(n)
    {
      forall v | v in speakerMap.Values
        ensures exists n :: 1 <= n < nextSpeakerId && v == SpeakerName(n)
      {
        var l :| l in speakerMap && speakerMap[l] == v;
        var k :| 0 <= k < |order| && order[k] == l;
        assert v == SpeakerName(k + 1);
      }
      forall v | exists n :: 1 <= n < nextSpeakerId && v == SpeakerName(n)
        ensures v in speakerMap.Values
      {
        var n :| 1 <= n < nextSpeakerId && v == SpeakerName(n);
        assert order[n - 1] in speakerMap && speakerMap[order[n - 1]] == v;
      }
    }

    /** No two labels share a persistent name. */
    lemma Injective()
      requires Valid()
      ensures forall a, b :: a in speakerMap && b in speakerMap && speakerMap[a] == speakerMap[b] ==> a == b
    {
      forall a, b | a in speakerMap && b in speakerMap && speakerMap[a] == speakerMap[b]
        ensures a == b
      {
        var i :| 0 <= i < |order| && order[i] == a;
        var j :| 0 <= j < |order| && order[j] == b;
        SpeakerNameInjective(i + 1, j + 1);
      }
    }

    /** The body of the speaker loop for one label. */
    method MapLabel(pyannoteLabel: string) returns (persistent: string)
      requires Valid()
      modifies this
      ensures Valid()
      ensures pyannoteLabel !in old(speakerMap) ==>
                && persistent == SpeakerName(old(nextSpeakerId))
                && nextSpeakerId == old(nextSpeakerId) + 1
                && speakerMap == old(speakerMap)[pyannoteLabel := persistent]
                && order == old(order) + [pyannoteLabel]
      ensures pyannoteLabel in speakerMap && speakerMap[pyannoteLabel] == persistent
      ensures forall l :: l in old(speakerMap) ==> l in speakerMap && speakerMap[l] == old(speakerMap)[l]
      ensures pyannoteLabel in old(speakerMap) ==>
                persistent == old(speakerMap)[pyannoteLabel] && speakerMap == old(speakerMap) &&
                nextSpeakerId == old(nextSpeakerId) && order == old(order)
    {
      if pyannoteLabel !in speakerMap {
        persistent := SpeakerName(nextSpeakerId);
        speakerMap := speakerMap[pyannoteLabel := persistent];
        nextSpeakerId := nextSpeakerId + 1;
        order := order + [pyannoteLabel];
      } else {
        persistent := speakerMap[pyannoteLabel];
      }
    }

    /** The speaker loop over one diarization: every turn gets the
        persistent name of its label, allocating names for new labels in
        order; existing mappings never change. */
    method AssignSpeakers(tracks: seq<Track>) returns (segments: seq<PyValue>, speakers: seq<string>)
      requires Valid()
      modifies this
      ensures Valid()
      ensures order == old(order) + NewLabels(tracks, old(speakerMap).Keys)
      ensures nextSpeakerId == old(nextSpeakerId) + |NewLabels(tracks, old(speakerMap).Keys)|
      ensures forall l :: l in old(speakerMap) ==> l in speakerMap && speakerMap[l] == old(speakerMap)[l]
      ensures forall l :: l in speakerMap <==> l in old(speakerMap) || l in Labels(tracks)
      ensures |segments| == |tracks| && |speakers| == |tracks|
      ensures forall k :: 0 <= k < |tracks| ==>
                tracks[k].pyannoteLabel in speakerMap && speakers[k] == speakerMap[tracks[k].pyannoteLabel] &&
                segments[k] == SegmentDict(tracks[k], speakers[k])
    {
      segments, speakers := AssignLoop(tracks);
      AssignedAll(old(speakerMap), old(order), tracks, speakerMap, order, segments, speakers);
    }

    /** The loop of `AssignSpeakers`, stated through its invariant. */
    method AssignLoop(tracks: seq<Track>) returns (segments: seq<PyValue>, speakers: seq<string>)
      requires Valid()
      modifies this
      ensures Valid()
      ensures Assigned(old(speakerMap), old(order), tracks, speakerMap, order, segments, speakers)
    {
      segments := [];
      speakers := [];
      var i := 0;
      while i < |tracks|
        invariant 0 <= i <= |tracks|
        invariant Valid()
        invariant Assigned(old(speakerMap), old(order), tracks[..i], speakerMap, order, segments, speakers)
      {
        segments, speakers := AssignOne(old(speakerMap), old(order), tracks, i, segments, speakers);
        i := i + 1;
      }
      assert tracks[..i] == tracks;
    }

    /** One turn of the speaker loop: the turn's label is mapped and its
        row appended. */
    method AssignOne(ghost m0: map<string, string>, ghost o0: seq<string>, tracks: seq<Track>, i: nat,
                     segments: seq<PyValue>, speakers: seq<string>)
      returns (segments': seq<PyValue>, speakers': seq<string>)
      requires Valid() && i < |tracks|
      requires Assigned(m0, o0, tracks[..i], speakerMap, order, segments, speakers)
      modifies this
      ensures Valid()
      ensures Assigned(m0, o0, tracks[..i + 1], speakerMap, order, segments', speakers')
    {
      var track := tracks[i];
      ghost var before := speakerMap;
      ghost var beforeOrder := order;
      var persistent := MapLabel(track.pyannoteLabel);
      AssignedStep(m0, o0, tracks, i, before, beforeOrder, speakerMap, order, segments, speakers, persistent);
      segments' := segments + [SegmentDict(track, persistent)];
      speakers' := speakers + [persistent];
    }

    /** Transcripts generated from the diarization segments, when the
        caller gives no transcript list. `whisper[k]` is Whisper's output
        for segment k, or None when the model is missing or raises. */
    method GenerateTranscripts(tracks: seq<Track>, speakers: seq<string>, whisper: seq<Option<WhisperOutput>>)
      returns (list: seq<PyValue>)
      requires |speakers| == |tracks| == |whisper|
      ensures |list| == |tracks|
      ensures forall k :: 0 <= k < |tracks| ==> list[k] == SegmentTranscript(tracks[k], speakers[k], whisper[k])
    {
      list := [];
      var i := 0;
      while i < |tracks|
        invariant 0 <= i <= |tracks|
        invariant |list| == i
        invariant forall k :: 0 <= k < i ==> list[k] == SegmentTranscript(tracks[k], speakers[k], whisper[k])
      {
        var transcript := Transcribe(tracks[i], speakers[i], whisper[i]);
        list := list + [transcript];
        i := i + 1;
      }
    }

    /** The transcript of one segment, from Whisper's output for it. */
    method Transcribe(seg: Track, speaker: string, whisper: Option<WhisperOutput>) returns (t: PyValue)
      ensures t == SegmentTranscript(seg, speaker, whisper)
    {
      var transcript := map["start" := PFloat(seg.start), "end" := PFloat(seg.end), "speaker_label" := PStr(speaker)];
      match whisper {
        case Some(w) =>
          var detected := DetectLanguage(w.tokens);
          transcript := transcript["original_transcript" := PStr(Strip(w.decoded))];
          transcript := transcript["detected_language" := PStr(detected)];
        case None =>
          transcript := transcript["original_transcript" := PStr("")];
          transcript := transcript["detected_language" := PStr("en")];
      }
      t := PDict(transcript);
    }

    /** The translation loop: one enriched entry per transcript, in order,
        or None as soon as an entry is not a dict. */
    method TranslateAll(list: seq<PyValue>, target: string,
                        translate: (PyValue, (string, string)) -> Translation)
      returns (enriched: Option<seq<PyValue>>)
      ensures enriched.Some? <==> forall k :: 0 <= k < |list| ==> list[k].PDict?
      ensures enriched.Some? ==>
                && |enriched.value| == |list|
                && forall k :: 0 <= k < |list| ==> Some(enriched.value[k]) == EnrichEntry(list[k], target, pairs, translate)
    {
      var out: seq<PyValue> := [];
      var i := 0;
      while i < |list|
        invariant 0 <= i <= |list|
        invariant |out| == i
        invariant forall k :: 0 <= k < i ==> list[k].PDict? && Some(out[k]) == EnrichEntry(list[k], target, pairs, translate)
      {
        var t := list[i];
        if !t.PDict? {
          return None;
        }
        var orig := DictGet(t.entries, "original_transcript", PStr(""));
        var srcLang := DictGet(t.entries, "detected_language", PStr("en"));
        var translated: PyValue;
        if srcLang == PStr(target) {
          translated := orig;
        } else {
          translated := Route(orig, srcLang, target, pairs, translate);
        }
        out := out + [PDict(t.entries["translated_transcript" := translated])];
        i := i + 1;
      }
      enriched := Some(out);
    }

    /** `enrich_transcript_batch`. `diarization` is the diarizer's turns (None
        when the model is missing or raises), `whisper` Whisper's output per
        turn. The result is None exactly when a transcript is not a dict. */
    method EnrichTranscriptBatch(transcriptList: Option<seq<PyValue>>, target: string,
                                 diarization: Option<seq<Track>>, whisper: seq<Option<WhisperOutput>>,
                                 translate: (PyValue, (string, string)) -> Translation)
      returns (result: Option<PyValue>)
      requires Valid()
      requires transcriptList.None? && diarization.Some? ==> |whisper| == |diarization.value|
      modifies this
      ensures Valid()
      ensures diarization.None? ==> speakerMap == old(speakerMap) && nextSpeakerId == old(nextSpeakerId)
      ensures diarization.Some? ==>
                nextSpeakerId == old(nextSpeakerId) + |NewLabels(diarization.value, old(speakerMap).Keys)| &&
                forall l :: l in old(speakerMap) ==> l in speakerMap && speakerMap[l] == old(speakerMap)[l]
      ensures diarization.Some? ==>
                forall l :: l in speakerMap <==> l in old(speakerMap) || l in Labels(diarization.value)
      ensures transcriptList.Some? ==>
                (result.Some? <==> forall k :: 0 <= k < |transcriptList.value| ==> transcriptList.value[k].PDict?)
      ensures transcriptList.None? ==> result.Some?
      ensures result.Some? ==>
                && result.value.PDict? && "diarization_result" in result.value.entries
                && var rows := result.value.entries["diarization_result"];
                && rows.PList?
                && (diarization.None? ==> rows.items == [])
                && (diarization.Some? ==>
                      var turns := diarization.value;
                      |rows.items| == |turns| &&
                      forall k :: 0 <= k < |turns| ==>
                        turns[k].pyannoteLabel in speakerMap &&
                        rows.items[k] == SegmentDict(turns[k], speakerMap[turns[k].pyannoteLabel]))
      ensures result.Some? ==>
                && result.value.PDict?
                && "enriched_transcripts" in result.value.entries && "diarization_result" in result.value.entries
                && result.value.entries["enriched_transcripts"].PList?
                && (transcriptList.Some? ==>
                      var es := result.value.entries["enriched_transcripts"].items;
                      |es| == |transcriptList.value| &&
                      forall k :: 0 <= k < |es| ==>
                        Some(es[k]) == EnrichEntry(transcriptList.value[k], target, pairs, translate))
                && (transcriptList.None? && diarization.None? ==> result.value.entries["enriched_transcripts"].items == [])
                && (transcriptList.None? && diarization.Some? ==>
                      var es := result.value.entries["enriched_transcripts"].items;
                      var turns := diarization.value;
                      |es| == |turns| &&
                      forall k :: 0 <= k < |turns| ==>
                        turns[k].pyannoteLabel in speakerMap &&
                        Some(es[k]) == EnrichEntry(SegmentTranscript(turns[k], speakerMap[turns[k].pyannoteLabel], whisper[k]),
                                                   target, pairs, translate))
    {
      var diarizationResult: seq<PyValue> := [];
      var speakers: seq<string> := [];
      if diarization.Some? {
        diarizationResult, speakers := AssignSpeakers(diarization.value);
      }
      var list: seq<PyValue>;
      if transcriptList.None? {
        if diarization.Some? {
          list := GenerateTranscripts(diarization.value, speakers, whisper);
        } else {
          list := [];
        }
      } else {
        list := transcriptList.value;
      }
      var enriched := TranslateAll(list, target, translate);
      if enriched.None? {
        return None;
      }
      result := Some(PDict(map["enriched_transcripts" := PList(enriched.value),
                               "diarization_result" := PList(diarizationResult)]));
    }
  }
}
