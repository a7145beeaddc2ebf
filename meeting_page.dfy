/** The live meeting page's own state: the recording toggle, the two
    language selections and the action-item list with its "add task"
    button. Each handler is one atomic state update followed by a toast;
    `Date.now()` is a parameter. */
module MeetingPage {
  import opened Text

  /** An action item on the page; the deadline is kept as its millisecond
      time value. */
  datatype Task = Task(id: string, text: string, assignee: string, deadline: int)

  datatype Toast = Toast(title: string, description: string)

  const Day: int := 1000 * 60 * 60 * 24

  /** The sample tasks the page starts with. */
  function SampleTasks(now: int): seq<Task> {
    [Task("1", "Prepare offline mode technical specifications", "Mark Johnson", now + 2 * Day),
     Task("2", "Schedule user testing sessions for dark theme", "Sarah Williams", now + 5 * Day)]
  }

  /** Task ids are the positions counted from 1, as `handleAddTask`
      numbers them. */
  predicate NumberedIds(tasks: seq<Task>) {
    forall i :: 0 <= i < |tasks| ==> tasks[i].id == NatToString(i + 1)
  }

  /** Numbered ids are pairwise distinct. */
  lemma NumberedIdsDistinct(tasks: seq<Task>, i: nat, j: nat)
    requires NumberedIds(tasks)
    requires i < j < |tasks|
    ensures tasks[i].id != tasks[j].id
  {
    NatToStringInjective(i + 1, j + 1);
  }

  /** `lang.toUpperCase()`, ASCII letters only. */
  function UpperCase(s: string): (u: string)
    ensures |u| == |s|
    ensures forall i :: 0 <= i < |s| ==> u[i] == ToUpper(s[i])
  {
    seq(|s|, i requires 0 <= i < |s| => ToUpper(s[i]))
  }

  class Page {
    var isRecording: bool
    var sourceLanguage: string
    var targetLanguage: string
    var tasks: seq<Task>
    var toasts: seq<Toast>

    predicate Valid()
      reads this
    {
      NumberedIds(tasks)
    }

    constructor(now: int)
      ensures Valid()
      ensures isRecording && sourceLanguage == "en" && targetLanguage == "es"
      ensures tasks == SampleTasks(now) && toasts == []
    {
      isRecording := true;
      sourceLanguage := "en";
      targetLanguage := "es";
      tasks := SampleTasks(now);
      toasts := [];
    }

    /** `toggleRecording`: flips the flag; the toast reports the new state. */
    method ToggleRecording()
      modifies this
      ensures isRecording == !old(isRecording)
      ensures toasts == old(toasts) + [if old(isRecording)
                                       then Toast("Recording paused", "Transcription and translation paused.")
                                       else Toast("Recording resumed", "Now capturing and translating speech.")]
      ensures sourceLanguage == old(sourceLanguage) && targetLanguage == old(targetLanguage) && tasks == old(tasks)
    {
      var was := isRecording;
      isRecording := !isRecording;
      toasts := toasts + [if was then Toast("Recording paused", "Transcription and translation paused.")
                          else Toast("Recording resumed", "Now capturing and translating speech.")];
    }

    /** `handleAddTask`: appends one task numbered after the last, due in
      three days. */
    method AddTask(now: int)
      requires Valid()
      modifies this
      ensures Valid()
      ensures tasks == old(tasks) + [Task(NatToString(|old(tasks)| + 1), "New task - click to edit", "Unassigned", now + 3 * Day)]
      ensures toasts == old(toasts) + [Toast("Task added", "New task has been added to action items.")]
      ensures isRecording == old(isRecording)
      ensures sourceLanguage == old(sourceLanguage) && targetLanguage == old(targetLanguage)
    {
      var newTask := Task(NatToString(|tasks| + 1), "New task - click to edit", "Unassigned", now + 3 * Day);
      tasks := tasks + [newTask];
      toasts := toasts + [Toast("Task added", "New task has been added to action items.")];
    }

    /** `handleSourceLanguageChange`. */
    method ChangeSourceLanguage(lang: string)
      modifies this
      ensures sourceLanguage == lang
      ensures toasts == old(toasts) + [Toast("Source language changed", "Now transcribing in " + UpperCase(lang) + ".")]
      ensures targetLanguage == old(targetLanguage) && isRecording == old(isRecording) && tasks == old(tasks)
    {
      sourceLanguage := lang;
      toasts := toasts + [Toast("Source language changed", "Now transcribing in " + UpperCase(lang) + ".")];
    }

    /** `handleTargetLanguageChange`. */
    method ChangeTargetLanguage(lang: string)
      modifies this
      ensures targetLanguage == lang
      ensures toasts == old(toasts) + [Toast("Target language changed", "Now translating to " + UpperCase(lang) + ".")]
      ensures sourceLanguage == old(sourceLanguage) && isRecording == old(isRecording) && tasks == old(tasks)
    {
      targetLanguage := lang;
      toasts := toasts + [Toast("Target language changed", "Now translating to " + UpperCase(lang) + ".")];
    }
  }

  /** Toggling twice restores the recording flag and leaves the rest of the
      page as it was, apart from the two toasts. */
  method ToggleTwice(p: Page)
    modifies p
    ensures p.isRecording == old(p.isRecording)
    ensures p.tasks == old(p.tasks) && p.sourceLanguage == old(p.sourceLanguage) && p.targetLanguage == old(p.targetLanguage)
    ensures |p.toasts| == |old(p.toasts)| + 2
  {
    p.ToggleRecording();
    p.ToggleRecording();
  }
}
