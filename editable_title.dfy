/** The click-to-edit heading: a heading in display mode, an input in edit
    mode. The parent's `onTitleChange` callback is recorded as the list of
    titles it received; a re-render with a new `title` prop is the
    `Rerender` step. */
module EditableTitle {

  class Editor {
    var title: string
    var isEditing: bool
    var currentTitle: string
    var commits: seq<string>

    constructor(initial: string)
      ensures title == initial && !isEditing && currentTitle == initial && commits == []
    {
      title := initial;
      isEditing := false;
      currentTitle := initial;
      commits := [];
    }

    /** The text the heading displays. */
    function Displayed(): string
      reads this
    {
      currentTitle
    }

    /** The parent passes a new `title`; the displayed title, initialised
        only once, is kept. */
    method Rerender(newTitle: string)
      modifies this
      ensures title == newTitle
      ensures isEditing == old(isEditing) && currentTitle == old(currentTitle) && commits == old(commits)
    {
      title := newTitle;
    }

    /** A click on the heading, which exists only in display mode. */
    method Click()
      modifies this
      ensures isEditing
      ensures title == old(title) && currentTitle == old(currentTitle) && commits == old(commits)
    {
      isEditing := true;
    }

    /** Typing into the input, which exists only in edit mode. */
    method Type(value: string)
      modifies this
      ensures currentTitle == (if old(isEditing) then value else old(currentTitle))
      ensures isEditing == old(isEditing) && title == old(title) && commits == old(commits)
    {
      if isEditing {
        currentTitle := value;
      }
    }

    /** `handleKeyDown`: Enter commits the title as typed, untrimmed;
        Escape restores the prop title with no callback; other keys do
        nothing. */
    method KeyDown(key: string)
      modifies this
      ensures old(isEditing) && key == "Enter" ==>
                !isEditing && commits == old(commits) + [old(currentTitle)] && currentTitle == old(currentTitle)
      ensures old(isEditing) && key == "Escape" ==>
                !isEditing && commits == old(commits) && currentTitle == old(title)
      ensures !old(isEditing) || (key != "Enter" && key != "Escape") ==> unchanged(this)
      ensures title == old(title)
    {
      if isEditing {
        if key == "Enter" {
          isEditing := false;
          commits := commits + [currentTitle];
        } else if key == "Escape" {
          isEditing := false;
          currentTitle := title;
        }
      }
    }

    /** `handleBlur`: leaving the input commits like Enter. */
    method Blur()
      modifies this
      ensures old(isEditing) ==>
                !isEditing && commits == old(commits) + [old(currentTitle)] && currentTitle == old(currentTitle)
      ensures !old(isEditing) ==> unchanged(this)
      ensures title == old(title)
    {
      if isEditing {
        isEditing := false;
        commits := commits + [currentTitle];
      }
    }
  }
}
