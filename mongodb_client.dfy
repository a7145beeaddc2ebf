/** The read side of the backend's MongoDB client: the aggregation and
    de-duplication of a meeting's manual-insight documents, and the
    reshaping of stored meeting documents for the frontend. Query results
    are inputs; a failed connection and a raising driver both surface as a
    failed query. */
module MongoClient {
  import opened Wrappers
  import opened Text
  import opened PyValues

  type Document = map<string, PyValue>

  /** What a query gave: nothing because the connection or the driver
      failed, or the documents it returned. */
  datatype Query<T> = QueryFailed | Fetched(result: T)

  // ----- list.extend ----------------------------------------------------------

  /** The elements `list.extend(v)` appends, or None when it raises.
      Iterating a string yields its characters; iterating a dict yields its
      keys, which are strings: any string element makes the later
      de-duplication raise (`'x'['text']`), so a non-empty dict is folded
      into the raising case directly. */
  function Elements(v: PyValue): (r: Option<seq<PyValue>>)
    ensures v.PList? ==> r == Some(v.items)
    ensures v.PStr? ==> (r.Some? && |r.value| == |v.s| &&
                         forall i :: 0 <= i < |v.s| ==> r.value[i] == PStr([v.s[i]]))
    ensures r.None? <==> !(v.PList? || v.PStr? || v == PDict(map[]))
  {
    match v
    case PList(xs) => Some(xs)
    case PStr(s) => Some(seq(|s|, i requires 0 <= i < |s| => PStr([s[i]])))
    case PDict(m) => if m == map[] then Some([]) else None
    case _ => None
  }

  /** What one document adds to the aggregated `field` list. */
  function Contribution(d: Document, field: string): Option<seq<PyValue>> {
    if field in d then Elements(d[field]) else Some([])
  }

  /** The aggregated `field` list: the concatenation of every document's
      list, in `find` order, or None when some `extend` raises. */
  function Collected(docs: seq<Document>, field: string): Option<seq<PyValue>>
  {
    if docs == [] then Some([])
    else
      var a := Collected(docs[..|docs| - 1], field);
      var b := Contribution(docs[|docs| - 1], field);
      if a.Some? && b.Some? then Some(a.value + b.value) else None
  }

  /** Aggregation is a homomorphism from concatenated document lists to
      concatenated element lists. */
  lemma {:induction false} CollectedAppend(xs: seq<Document>, ys: seq<Document>, field: string)
    requires Collected(xs, field).Some? && Collected(ys, field).Some?
    ensures Collected(xs + ys, field) == Some(Collected(xs, field).value + Collected(ys, field).value)
    decreases |ys|
  {
    if ys == [] {
      assert xs + ys == xs;
      assert Collected(xs, field).value + [] == Collected(xs, field).value;
    } else {
      var init := ys[..|ys| - 1];
      var last := ys[|ys| - 1];
      assert (xs + ys)[..|xs + ys| - 1] == xs + init;
      assert (xs + ys)[|xs + ys| - 1] == last;
      assert Collected(init, field).Some? && Contribution(last, field).Some?;
      CollectedAppend(xs, init, field);
      var x, i, l := Collected(xs, field).value, Collected(init, field).value, Contribution(last, field).value;
      assert Collected(xs + ys, field) == Some((x + i) + l);
      assert Collected(ys, field) == Some(i + l);
      assert (x + i) + l == x + (i + l);
    }
  }

  /** Aggregation fails exactly when one document's `extend` raises. */
  lemma {:induction false} CollectedFails(docs: seq<Document>, field: string)
    ensures Collected(docs, field).None? <==>
              exists k :: 0 <= k < |docs| && Contribution(docs[k], field).None?
    decreases |docs|
  {
    if docs != [] {
      var init := docs[..|docs| - 1];
      CollectedFails(init, field);
      assert forall k :: 0 <= k < |init| ==> init[k] == docs[k];
    }
  }

  // ----- First-occurrence de-duplication --------------------------------------

  /** The positions of `ks` holding a key's first occurrence, ascending. */
  function FirstOccurrences<K(==)>(ks: seq<K>): (idx: seq<nat>)
    ensures forall j :: 0 <= j < |idx| ==> idx[j] < |ks|
  {
    if ks == [] then []
    else
      FirstOccurrences(ks[..|ks| - 1]) + (if ks[|ks| - 1] in ks[..|ks| - 1] then [] else [|ks| - 1])
  }

  /** The items at the positions `idx`. */
  function Pick<T>(xs: seq<T>, idx: seq<nat>): (r: seq<T>)
    requires forall j :: 0 <= j < |idx| ==> idx[j] < |xs|
    ensures |r| == |idx| && forall j :: 0 <= j < |idx| ==> r[j] == xs[idx[j]]
  {
    seq(|idx|, j requires 0 <= j < |idx| => xs[idx[j]])
  }

  /** The kept positions are ascending. */
  lemma {:induction false} FirstOccurrencesAscending<K>(ks: seq<K>)
    ensures forall j, j' :: 0 <= j < j' < |FirstOccurrences(ks)| ==>
              FirstOccurrences(ks)[j] < FirstOccurrences(ks)[j']
    decreases |ks|
  {
    if ks != [] {
      FirstOccurrencesAscending(ks[..|ks| - 1]);
    }
  }

  /** Each kept position holds its key's first occurrence. */
  lemma {:induction false} FirstOccurrencesFirst<K>(ks: seq<K>)
    ensures forall j :: 0 <= j < |FirstOccurrences(ks)| ==>
              ks[FirstOccurrences(ks)[j]] !in ks[..FirstOccurrences(ks)[j]]
    decreases |ks|
  {
    if ks != [] {
      var init := ks[..|ks| - 1];
      FirstOccurrencesFirst(init);
      forall i | 0 <= i < |init| ensures init[..i] == ks[..i] && init[i] == ks[i] {
      }
    }
  }

  /** Every first occurrence is kept. */
  lemma {:induction false} FirstOccurrencesKept<K>(ks: seq<K>)
    ensures forall i :: 0 <= i < |ks| && ks[i] !in ks[..i] ==> i in FirstOccurrences(ks)
    decreases |ks|
  {
    if ks != [] {
      var init := ks[..|ks| - 1];
      FirstOccurrencesKept(init);
      forall i | 0 <= i < |init| ensures init[..i] == ks[..i] && init[i] == ks[i] {
      }
    }
  }

  /** De-duplication keeps no key twice. */
  lemma FirstOccurrencesDistinct<K>(ks: seq<K>)
    ensures forall j, j' :: 0 <= j < j' < |FirstOccurrences(ks)| ==>
              ks[FirstOccurrences(ks)[j]] != ks[FirstOccurrences(ks)[j']]
  {
    FirstOccurrencesAscending(ks);
    FirstOccurrencesFirst(ks);
    var idx := FirstOccurrences(ks);
    forall j, j' | 0 <= j < j' < |idx| ensures ks[idx[j]] != ks[idx[j']] {
      assert ks[..idx[j']][idx[j]] == ks[idx[j]];
    }
  }

  /** De-duplication is complete: every key of the input is kept, at its
      first occurrence. */
  lemma FirstOccurrencesComplete<K>(ks: seq<K>, i: nat)
    requires i < |ks|
    ensures exists j :: 0 <= j < |FirstOccurrences(ks)| && ks[FirstOccurrences(ks)[j]] == ks[i] &&
              FirstOccurrences(ks)[j] <= i
  {
    FirstOccurrencesKept(ks);
    var f := First(ks, ks[i]);
    assert ks[..i][..f] == ks[..f];
    assert f in FirstOccurrences(ks);
  }

  /** The earliest position of `k`, which occurs in `ks`. */
  function First<K(==)>(ks: seq<K>, k: K): (f: nat)
    requires k in ks
    ensures f < |ks| && ks[f] == k && k !in ks[..f]
  {
    if ks[0] == k then 0
    else
      var f := First(ks[1..], k);
      assert ks[..f + 1] == [ks[0]] + ks[1..][..f];
      f + 1
  }

  /** The keys of `items`, or None when computing one raises. */
  function KeysOf<K>(items: seq<PyValue>, keyOf: PyValue -> Option<K>): (r: Option<seq<K>>)
    ensures r.Some? ==> |r.value| == |items|
  {
    if items == [] then Some([])
    else
      var ks := KeysOf(items[..|items| - 1], keyOf);
      var k := keyOf(items[|items| - 1]);
      if ks.Some? && k.Some? then Some(ks.value + [k.value]) else None
  }

  /** KeysOf succeeds exactly when every key does, and then lists them. */
  lemma {:induction false} KeysOfPointwise<K>(items: seq<PyValue>, keyOf: PyValue -> Option<K>)
    ensures KeysOf(items, keyOf).Some? <==> forall i :: 0 <= i < |items| ==> keyOf(items[i]).Some?
    ensures KeysOf(items, keyOf).Some? ==>
              forall i :: 0 <= i < |items| ==> KeysOf(items, keyOf).value[i] == keyOf(items[i]).value
    decreases |items|
  {
    if items != [] {
      var init := items[..|items| - 1];
      KeysOfPointwise(init, keyOf);
      assert forall i :: 0 <= i < |init| ==> init[i] == items[i];
    }
  }

  /** The de-duplicated list, or None when a key raises. */
  function Unique<K(==)>(items: seq<PyValue>, keyOf: PyValue -> Option<K>): Option<seq<PyValue>> {
    match KeysOf(items, keyOf)
    case None => None
    case Some(ks) => Some(Pick(items, FirstOccurrences(ks)))
  }

  /** One more item extends the keys by its key and the kept list by the
      item exactly when its key is new. */
  lemma UniqueSnoc<K>(items: seq<PyValue>, keyOf: PyValue -> Option<K>, i: nat, ks: seq<K>, k: K)
    requires i < |items| && KeysOf(items[..i], keyOf) == Some(ks) && keyOf(items[i]) == Some(k)
    ensures KeysOf(items[..i + 1], keyOf) == Some(ks + [k])
    ensures Pick(items[..i + 1], FirstOccurrences(ks + [k])) ==
              Pick(items[..i], FirstOccurrences(ks)) + (if k in ks then [] else [items[i]])
  {
    var xs := items[..i + 1];
    assert xs[..i] == items[..i] && xs[i] == items[i];
    assert (ks + [k])[..i] == ks;
    var idx := FirstOccurrences(ks);
    assert forall j :: 0 <= j < |idx| ==> xs[idx[j]] == items[..i][idx[j]];
  }

  /** The de-duplication loop shared by key points, decisions and tasks:
      an item is kept when its key has not been seen; a key that raises
      ends the whole call. */
  method UniqueBy<K(==)>(items: seq<PyValue>, keyOf: PyValue -> Option<K>) returns (unique: Option<seq<PyValue>>)
    ensures unique == Unique(items, keyOf)
  {
    var seen: set<K> := {};
    var out: seq<PyValue> := [];
    ghost var ks: seq<K> := [];
    for i := 0 to |items|
      invariant KeysOf(items[..i], keyOf) == Some(ks)
      invariant forall k :: k in seen <==> k in ks
      invariant out == Pick(items[..i], FirstOccurrences(ks))
    {
      var key := keyOf(items[i]);
      if key.None? {
        KeysOfPointwise(items, keyOf);
        return None;
      }
      UniqueSnoc(items, keyOf, i, ks, key.value);
      if key.value !in seen {
        seen := seen + {key.value};
        out := out + [items[i]];
      }
      ks := ks + [key.value];
    }
    assert items[..|items|] == items;
    unique := Some(out);
  }

  /** `item['text']`, which must then be hashable to go into a set. */
  function TextKey(item: PyValue): (r: Option<PyValue>)
    ensures r.Some? <==> item.PDict? && "text" in item.entries && Hashable(item.entries["text"])
  {
    if item.PDict? && "text" in item.entries && Hashable(item.entries["text"])
    then Some(item.entries["text"]) else None
  }

  /** `f"{task['text']}_{task.get('assignee', '')}_{task.get('deadline', '')}"`. */
  function TaskKey(task: PyValue, repr: PyValue -> string): (r: Option<string>)
    ensures r.Some? <==> task.PDict? && "text" in task.entries
  {
    if task.PDict? && "text" in task.entries then
      Some(PyStr(task.entries["text"], repr) + "_" +
           PyStr(DictGet(task.entries, "assignee", PStr("")), repr) + "_" +
           PyStr(DictGet(task.entries, "deadline", PStr("")), repr))
    else None
  }

  /** The task key as a key function for UniqueBy. */
  function TaskKeyOf(repr: PyValue -> string): PyValue -> Option<string> {
    t => TaskKey(t, repr)
  }

  /** Of two items with the same key only the first is kept. */
  lemma SameKeyDropped<K>(a: PyValue, b: PyValue, keyOf: PyValue -> Option<K>)
    requires keyOf(a).Some? && keyOf(a) == keyOf(b)
    ensures Unique([a, b], keyOf) == Some([a])
  {
    var items := [a, b];
    var k := keyOf(a).value;
    var e: seq<K> := [];
    assert items[..0] == [] && items[..2] == items;
    UniqueSnoc(items, keyOf, 0, e, k);
    assert e + [k] == [k];
    assert Pick(items[..0], FirstOccurrences(e)) == [];
    assert Pick(items[..1], FirstOccurrences([k])) == [a];
    UniqueSnoc(items, keyOf, 1, [k], k);
    assert KeysOf(items, keyOf) == Some([k] + [k]);
    assert Pick(items, FirstOccurrences([k] + [k])) == [a];
  }

  /** The task key does not separate its fields: a text containing `_`
      and an assignee can trade characters, so two different tasks share a
      key and the second is dropped as a duplicate. */
  lemma TaskKeyCollision(repr: PyValue -> string)
    ensures var t1 := PDict(map["text" := PStr("a_b")]);
            var t2 := PDict(map["text" := PStr("a"), "assignee" := PStr("b_")]);
            && t1 != t2
            && TaskKey(t1, repr) == TaskKey(t2, repr)
            && Unique([t1, t2], TaskKeyOf(repr)) == Some([t1])
  {
    var t1 := PDict(map["text" := PStr("a_b")]);
    var t2 := PDict(map["text" := PStr("a"), "assignee" := PStr("b_")]);
    assert t1.entries["text"] != t2.entries["text"];
    assert "assignee" !in t1.entries && "deadline" !in t1.entries && "deadline" !in t2.entries;
    assert TaskKey(t1, repr) == Some("a_b" + "_" + "" + "_" + "");
    assert TaskKey(t2, repr) == Some("a" + "_" + "b_" + "_" + "");
    assert "a_b" + "_" + "" + "_" + "" == "a" + "_" + "b_" + "_" + "";
    SameKeyDropped(t1, t2, TaskKeyOf(repr));
  }

  // ----- get_manual_insights --------------------------------------------------

  /** The aggregate of a non-empty `find` result, or None when the
      aggregation or a de-duplication raises. */
  function Aggregated(meetingId: string, docs: seq<Document>, repr: PyValue -> string): (r: Option<Document>)
    requires docs != []
    ensures r.Some? ==>
              && r.value.Keys == {"meeting_id", "keyPoints", "decisions", "tasks", "timestamp"}
              && r.value["meeting_id"] == PStr(meetingId)
              && r.value["timestamp"] == DictGet(docs[0], "timestamp", PStr(""))
  {
    var kp := Collected(docs, "keyPoints");
    var ds := Collected(docs, "decisions");
    var ts := Collected(docs, "tasks");
    if kp.None? || ds.None? || ts.None? then None
    else
      var ukp := Unique(kp.value, TextKey);
      var uds := Unique(ds.value, TextKey);
      var uts := Unique(ts.value, TaskKeyOf(repr));
      if ukp.None? || uds.None? || uts.None? then None
      else
        Some(map["meeting_id" := PStr(meetingId), "keyPoints" := PList(ukp.value),
                 "decisions" := PList(uds.value), "tasks" := PList(uts.value),
                 "timestamp" := DictGet(docs[0], "timestamp", PStr(""))])
  }

  /** The aggregate of a meeting's manual insights: `{}` when the query
      failed, found nothing or something raised. */
  function ManualInsights(meetingId: string, found: Query<seq<Document>>, repr: PyValue -> string): (r: PyValue)
    ensures r.PDict?
    ensures found.QueryFailed? || found.result == [] ==> r == PDict(map[])
    ensures found.Fetched? && found.result != [] ==>
              r == (match Aggregated(meetingId, found.result, repr)
                    case None => PDict(map[])
                    case Some(m) => PDict(m))
  {
    match found
    case QueryFailed => PDict(map[])
    case Fetched(docs) =>
      if docs == [] then PDict(map[])
      else
        match Aggregated(meetingId, docs, repr)
        case None => PDict(map[])
        case Some(m) => PDict(m)
  }

  /** When nothing raises, each returned list is the de-duplication of the
      concatenation of that list over the documents. */
  lemma AggregatedLists(meetingId: string, docs: seq<Document>, repr: PyValue -> string)
    requires docs != []
    requires Aggregated(meetingId, docs, repr).Some?
    ensures var r := Aggregated(meetingId, docs, repr).value;
            && Collected(docs, "keyPoints").Some? && Collected(docs, "decisions").Some?
            && Collected(docs, "tasks").Some?
            && r["keyPoints"] == PList(Unique(Collected(docs, "keyPoints").value, TextKey).value)
            && r["decisions"] == PList(Unique(Collected(docs, "decisions").value, TextKey).value)
            && r["tasks"] == PList(Unique(Collected(docs, "tasks").value, TaskKeyOf(repr)).value)
  {
    var kp := Collected(docs, "keyPoints");
    var ds := Collected(docs, "decisions");
    var ts := Collected(docs, "tasks");
    assert kp.Some? && ds.Some? && ts.Some?;
    var ukp := Unique(kp.value, TextKey);
    var uds := Unique(ds.value, TextKey);
    var uts := Unique(ts.value, TaskKeyOf(repr));
    assert ukp.Some? && uds.Some? && uts.Some?;
    var r := map["meeting_id" := PStr(meetingId), "keyPoints" := PList(ukp.value),
                 "decisions" := PList(uds.value), "tasks" := PList(uts.value),
                 "timestamp" := DictGet(docs[0], "timestamp", PStr(""))];
    assert Aggregated(meetingId, docs, repr) == Some(r);
    assert r["keyPoints"] == PList(ukp.value) && r["decisions"] == PList(uds.value) && r["tasks"] == PList(uts.value);
  }

  /** A document whose `extend` raises makes the whole result `{}`. */
  lemma ManualInsightsExtendRaises(meetingId: string, docs: seq<Document>, repr: PyValue -> string,
                                   k: nat, field: string)
    requires k < |docs| && field in {"keyPoints", "decisions", "tasks"}
    requires Contribution(docs[k], field).None?
    ensures ManualInsights(meetingId, Fetched(docs), repr) == PDict(map[])
  {
    CollectedFails(docs, field);
    assert Aggregated(meetingId, docs, repr).None?;
  }

  /** The documents' lists, aggregated in order by the `extend` loop. */
  method Aggregate(docs: seq<Document>) returns (kp: Option<seq<PyValue>>, ds: Option<seq<PyValue>>, ts: Option<seq<PyValue>>)
    ensures kp.Some? && ds.Some? && ts.Some? <==>
              Collected(docs, "keyPoints").Some? && Collected(docs, "decisions").Some? &&
              Collected(docs, "tasks").Some?
    ensures kp.Some? && ds.Some? && ts.Some? ==>
              kp == Collected(docs, "keyPoints") && ds == Collected(docs, "decisions") &&
              ts == Collected(docs, "tasks")
  {
    var keyPoints: seq<PyValue> := [];
    var decisions: seq<PyValue> := [];
    var tasks: seq<PyValue> := [];
    for i := 0 to |docs|
      invariant Collected(docs[..i], "keyPoints") == Some(keyPoints)
      invariant Collected(docs[..i], "decisions") == Some(decisions)
      invariant Collected(docs[..i], "tasks") == Some(tasks)
    {
      assert docs[..i + 1][..i] == docs[..i];
      var doc := docs[i];
      var more := Contribution(doc, "keyPoints");
      if more.None? {
        CollectedFails(docs, "keyPoints");
        return None, None, None;
      }
      keyPoints := keyPoints + more.value;
      more := Contribution(doc, "decisions");
      if more.None? {
        CollectedFails(docs, "decisions");
        return None, None, None;
      }
      decisions := decisions + more.value;
      more := Contribution(doc, "tasks");
      if more.None? {
        CollectedFails(docs, "tasks");
        return None, None, None;
      }
      tasks := tasks + more.value;
    }
    assert docs[..|docs|] == docs;
    kp, ds, ts := Some(keyPoints), Some(decisions), Some(tasks);
  }

  /** `get_manual_insights`: aggregation, then the three de-duplication
      loops; every exception yields `{}`. */
  method GetManualInsights(meetingId: string, found: Query<seq<Document>>, repr: PyValue -> string)
    returns (r: PyValue)
    ensures r == ManualInsights(meetingId, found, repr)
  {
    if found.QueryFailed? || found.result == [] {
      return PDict(map[]);
    }
    var docs := found.result;
    var timestamp := DictGet(docs[0], "timestamp", PStr(""));
    var kp, ds, ts := Aggregate(docs);
    if kp.None? || ds.None? || ts.None? {
      return PDict(map[]);
    }
    var ukp := UniqueBy(kp.value, TextKey);
    if ukp.None? {
      return PDict(map[]);
    }
    var uds := UniqueBy(ds.value, TextKey);
    if uds.None? {
      return PDict(map[]);
    }
    var uts := UniqueBy(ts.value, TaskKeyOf(repr));
    if uts.None? {
      return PDict(map[]);
    }
    r := PDict(map["meeting_id" := PStr(meetingId), "keyPoints" := PList(ukp.value),
                   "decisions" := PList(uds.value), "tasks" := PList(uts.value),
                   "timestamp" := timestamp]);
  }

  // ----- Meeting documents ----------------------------------------------------

  /** The frontend shape of a stored meeting, or None when a step raises:
      a missing `_id` (KeyError) or a non-datetime `created_at` or truthy
      `ended_at` (AttributeError on `isoformat`). */
  function Reshape(m: Document, repr: PyValue -> string): (r: Option<Document>)
    ensures r.Some? <==>
              && "_id" in m
              && ("created_at" in m ==> m["created_at"].PDateTime?)
              && ("ended_at" in m && Truthy(m["ended_at"]) ==> m["ended_at"].PDateTime?)
    ensures r.Some? ==>
              && "status" in r.value && r.value["status"] == PStr("completed")
              && "_id" in r.value && r.value["_id"] == PStr(PyStr(m["_id"], repr))
              && ("created_at" in m ==> ("start_time" in r.value &&
                    r.value["start_time"] == PStr(IsoFormat(m["created_at"]).value)))
              && ("ended_at" in m && Truthy(m["ended_at"]) ==> ("end_time" in r.value &&
                    r.value["end_time"] == PStr(IsoFormat(m["ended_at"]).value)))
              && r.value.Keys == m.Keys + {"status"} +
                   (if "created_at" in m then {"start_time"} else {}) +
                   (if "ended_at" in m && Truthy(m["ended_at"]) then {"end_time"} else {})
              && (forall k :: k in m && k !in {"_id", "status", "start_time", "end_time"} ==>
                    r.value[k] == m[k])
              && ("created_at" !in m && "start_time" in m ==> r.value["start_time"] == m["start_time"])
              && (!("ended_at" in m && Truthy(m["ended_at"])) && "end_time" in m ==>
                    r.value["end_time"] == m["end_time"])
  {
    if "_id" !in m then None
    else
      var m1 := m["_id" := PStr(PyStr(m["_id"], repr))];
      if "created_at" in m1 && IsoFormat(m1["created_at"]).None? then None
      else
        var m2 := if "created_at" in m1 then m1["start_time" := PStr(IsoFormat(m1["created_at"]).value)] else m1;
        if "ended_at" in m2 && Truthy(m2["ended_at"]) && IsoFormat(m2["ended_at"]).None? then None
        else
          var m3 := if "ended_at" in m2 && Truthy(m2["ended_at"])
                    then m2["end_time" := PStr(IsoFormat(m2["ended_at"]).value)] else m2;
          Some(m3["status" := PStr("completed")])
  }

  /** `get_all_meetings`: every document of the (already sorted) query is
      reshaped in place; an exception on any of them yields `[]`. */
  method GetAllMeetings(found: Query<seq<Document>>, repr: PyValue -> string) returns (meetings: seq<Document>)
    ensures found.QueryFailed? ==> meetings == []
    ensures found.Fetched? && (exists k :: 0 <= k < |found.result| && Reshape(found.result[k], repr).None?) ==>
              meetings == []
    ensures found.Fetched? && (forall k :: 0 <= k < |found.result| ==> Reshape(found.result[k], repr).Some?) ==>
              |meetings| == |found.result| &&
              forall k :: 0 <= k < |found.result| ==> meetings[k] == Reshape(found.result[k], repr).value
  {
    if found.QueryFailed? {
      return [];
    }
    meetings := found.result;
    for i := 0 to |meetings|
      invariant |meetings| == |found.result|
      invariant forall k :: 0 <= k < i ==> Reshape(found.result[k], repr).Some? &&
                                           meetings[k] == Reshape(found.result[k], repr).value
      invariant forall k :: i <= k < |meetings| ==> meetings[k] == found.result[k]
      invariant forall k :: 0 <= k < i ==> Reshape(found.result[k], repr).Some?
    {
      var shaped := Reshape(meetings[i], repr);
      if shaped.None? {
        return [];
      }
      meetings := meetings[i := shaped.value];
    }
  }

  /** The 24-hex-digit form `ObjectId(meeting_id)` accepts. */
  predicate IsObjectIdHex(s: string) {
    |s| == 24 && forall i :: 0 <= i < |s| ==> IsDigit(s[i]) || 'a' <= s[i] <= 'f' || 'A' <= s[i] <= 'F'
  }

  /** `get_meeting_by_id`: None for a malformed id, a failed query, a
      missing meeting or a reshaping that raises. An empty document is
      falsy and returned as it is. */
  function GetMeetingById(meetingId: string, found: Query<Option<Document>>, repr: PyValue -> string)
    : (r: Option<Document>)
    ensures !IsObjectIdHex(meetingId) || found.QueryFailed? || found == Fetched(None) ==> r.None?
    ensures IsObjectIdHex(meetingId) && found.Fetched? && found.result.Some? && found.result.value != map[] ==>
              r == Reshape(found.result.value, repr)
    ensures IsObjectIdHex(meetingId) && found == Fetched(Some(map[])) ==> r == Some(map[])
  {
    if !IsObjectIdHex(meetingId) then None
    else
      match found
      case QueryFailed => None
      case Fetched(None) => None
      case Fetched(Some(m)) => if m == map[] then Some(m) else Reshape(m, repr)
  }
}
