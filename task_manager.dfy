/** The task manager page: updating one task's status or priority by id,
    the badge colour classes and the badge labels. */
module TaskManager {
  import opened Wrappers
  import opened Text

  /** A task row; the deadline is a `Date`, kept as its millisecond time
      value. The `as` casts of the page do not check the value, so status
      and priority are any strings. */
  datatype Task = Task(id: string, text: string, assignee: string, deadline: int,
                       priority: string, status: string,
                       meetingId: Option<string>, meetingTitle: Option<string>)

  /** `handleStatusChange`: the tasks with id `taskId` get `newStatus`. */
  function StatusChange(tasks: seq<Task>, taskId: string, newStatus: string): (out: seq<Task>)
    ensures |out| == |tasks|
    ensures forall i :: 0 <= i < |out| ==> out[i].(status := tasks[i].status) == tasks[i]
    ensures forall i :: 0 <= i < |out| ==> out[i].status == if tasks[i].id == taskId then newStatus else tasks[i].status
  {
    seq(|tasks|, i requires 0 <= i < |tasks| =>
      if tasks[i].id == taskId then tasks[i].(status := newStatus) else tasks[i])
  }

  /** `handlePriorityChange`: the tasks with id `taskId` get `newPriority`. */
  function PriorityChange(tasks: seq<Task>, taskId: string, newPriority: string): (out: seq<Task>)
    ensures |out| == |tasks|
    ensures forall i :: 0 <= i < |out| ==> out[i].(priority := tasks[i].priority) == tasks[i]
    ensures forall i :: 0 <= i < |out| ==> out[i].priority == if tasks[i].id == taskId then newPriority else tasks[i].priority
  {
    seq(|tasks|, i requires 0 <= i < |tasks| =>
      if tasks[i].id == taskId then tasks[i].(priority := newPriority) else tasks[i])
  }

  /** An id that no task carries leaves the list as it was, and a second
      identical update changes nothing more. */
  lemma UpdatesWithoutMatch(tasks: seq<Task>, taskId: string, value: string)
    ensures (forall i :: 0 <= i < |tasks| ==> tasks[i].id != taskId) ==>
              StatusChange(tasks, taskId, value) == tasks && PriorityChange(tasks, taskId, value) == tasks
    ensures StatusChange(StatusChange(tasks, taskId, value), taskId, value) == StatusChange(tasks, taskId, value)
    ensures PriorityChange(PriorityChange(tasks, taskId, value), taskId, value) == PriorityChange(tasks, taskId, value)
  {
  }

  /** A status change and a priority change touch different fields, so
      their order does not matter. */
  lemma UpdatesCommute(tasks: seq<Task>, id1: string, status: string, id2: string, priority: string)
    ensures PriorityChange(StatusChange(tasks, id1, status), id2, priority)
            == StatusChange(PriorityChange(tasks, id2, priority), id1, status)
  {
  }

  const PriorityClasses: map<string, string> :=
    map["high" := "bg-red-100 text-red-800 hover:bg-red-200",
        "medium" := "bg-orange-100 text-orange-800 hover:bg-orange-200",
        "low" := "bg-blue-100 text-blue-800 hover:bg-blue-200"]

  const GrayClass := "bg-gray-100 text-gray-800 hover:bg-gray-200"

  /** `getPriorityColor`: one class per known priority, gray otherwise. */
  function PriorityColor(priority: string): (cls: string)
    ensures priority in PriorityClasses ==> cls == PriorityClasses[priority]
    ensures priority !in PriorityClasses ==> cls == GrayClass
    ensures cls == GrayClass <==> priority !in {"high", "medium", "low"}
  {
    if priority in PriorityClasses then PriorityClasses[priority] else GrayClass
  }

  /** `getStatusColor`: completed is green, in progress yellow, and pending
      shares the gray of unknown statuses. */
  function StatusColor(status: string): (cls: string)
    ensures status == "completed" ==> cls == "bg-green-100 text-green-800 hover:bg-green-200"
    ensures status == "in-progress" ==> cls == "bg-yellow-100 text-yellow-800 hover:bg-yellow-200"
    ensures cls == GrayClass <==> status != "completed" && status != "in-progress"
  {
    if status == "completed" then "bg-green-100 text-green-800 hover:bg-green-200"
    else if status == "in-progress" then "bg-yellow-100 text-yellow-800 hover:bg-yellow-200"
    else GrayClass
  }

  /** The three priorities show three different colours. */
  lemma PriorityColorsDistinct()
    ensures PriorityColor("high") != PriorityColor("medium")
    ensures PriorityColor("high") != PriorityColor("low")
    ensures PriorityColor("medium") != PriorityColor("low")
  {
  }

  /** `word.charAt(0).toUpperCase() + word.slice(1)`, also the priority
      badge's label. */
  function Capitalize(word: string): (r: string)
    ensures |r| == |word|
    ensures word != [] ==> r[0] == ToUpper(word[0]) && r[1..] == word[1..]
  {
    if word == [] then [] else [ToUpper(word[0])] + word[1..]
  }

  function CapitalizeAll(words: seq<string>): (r: seq<string>)
    ensures |r| == |words|
    ensures forall i :: 0 <= i < |r| ==> r[i] == Capitalize(words[i])
  {
    seq(|words|, i requires 0 <= i < |words| => Capitalize(words[i]))
  }

  /** The status badge's label: `status.split("-").map(Capitalize).join(" ")`. */
  function StatusLabel(status: string): string {
    Join(CapitalizeAll(Split(status, '-')), " ")
  }

  /** The label character by character: a dash becomes a space and the
      first letter of every dash-separated word is upper-cased. */
  function LabelChar(status: string, i: nat): char
    requires i < |status|
  {
    if status[i] == '-' then ' '
    else if i == 0 || status[i - 1] == '-' then ToUpper(status[i])
    else status[i]
  }

  lemma {:induction false} StatusLabelPointwise(status: string)
    ensures |StatusLabel(status)| == |status|
    ensures forall i :: 0 <= i < |status| ==> StatusLabel(status)[i] == LabelChar(status, i)
    decreases |status|
  {
    var k := FirstIndex(status, '-');
    if k == |status| {
      assert Split(status, '-') == [status];
      assert StatusLabel(status) == Capitalize(status);
    } else {
      var rest := status[k + 1..];
      LabelAtDash(status, k);
      StatusLabelPointwise(rest);
      LabelCharsShift(status, k);
    }
  }

  /** The label of a status whose first dash is at `k`. */
  lemma LabelAtDash(status: string, k: nat)
    requires k < |status| && k == FirstIndex(status, '-')
    ensures StatusLabel(status) == Capitalize(status[..k]) + " " + StatusLabel(status[k + 1..])
  {
    var parts := Split(status[k + 1..], '-');
    SplitAt(status, '-', k);
    CapitalizeAllCons(status[..k], parts);
    JoinCons(Capitalize(status[..k]), CapitalizeAll(parts), " ");
  }

  lemma CapitalizeAllCons(w: string, ws: seq<string>)
    ensures CapitalizeAll([w] + ws) == [Capitalize(w)] + CapitalizeAll(ws)
  {
    assert forall i :: 0 < i <= |ws| ==> ([w] + ws)[i] == ws[i - 1];
  }

  lemma JoinCons(w: string, ws: seq<string>, sep: string)
    requires ws != []
    ensures Join([w] + ws, sep) == w + sep + Join(ws, sep)
  {
    assert ([w] + ws)[1..] == ws;
  }

  lemma LabelCharsShift(status: string, k: nat)
    requires k < |status| && status[k] == '-'
    ensures forall i :: k < i < |status| ==> LabelChar(status, i) == LabelChar(status[k + 1..], i - k - 1)
  {
    var rest := status[k + 1..];
    forall i | k < i < |status|
      ensures LabelChar(status, i) == LabelChar(rest, i - k - 1)
    {
      assert status[i] == rest[i - k - 1];
      if i - k - 1 > 0 {
        assert status[i - 1] == rest[i - k - 2];
      }
    }
  }

  /** The label the page shows for the in-progress status. */
  lemma InProgressLabel(status: string)
    requires status == "in-progress"
    ensures StatusLabel(status) == "In Progress"
  {
    StatusLabelPointwise(status);
    var r := StatusLabel(status);
    assert r[0] == 'I' && r[2] == ' ' && r[3] == 'P';
    assert r == "In Progress";
  }
}
