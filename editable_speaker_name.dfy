/** The inline editor of a speaker's name: a display mode with a pen
    button and an edit mode with an input and a check button. The parent's
    `onNameChange` callback is recorded as the list of names it received;
    a re-render with a new `speakerName` prop is the `Rerender` step. */
module EditableSpeakerName {
  import opened JsValues

  /** No name handed to the parent is blank or has surrounding whitespace. */
  predicate AllTrimmed(names: seq<string>) {
    forall i :: 0 <= i < |names| ==> names[i] != "" && Trim(names[i]) == names[i]
  }

  lemma AllTrimmedSnoc(names: seq<string>, name: string)
    requires AllTrimmed(names) && name != "" && Trim(name) == name
    ensures AllTrimmed(names + [name])
  {
    assert forall i :: 0 <= i < |names| ==> (names + [name])[i] == names[i];
  }

  class Editor {
    var speakerName: string
    var isEditing: bool
    var editedName: string
    var calls: seq<string>

    predicate Valid()
      reads this
    {
      AllTrimmed(calls)
    }

    constructor(name: string)
      ensures Valid()
      ensures speakerName == name && !isEditing && editedName == name && calls == []
    {
      speakerName := name;
      isEditing := false;
      editedName := name;
      calls := [];
    }

    /** The parent passes a new `speakerName`; the draft, initialised only
        once, is kept. */
    method Rerender(name: string)
      modifies this
      ensures speakerName == name
      ensures isEditing == old(isEditing) && editedName == old(editedName) && calls == old(calls)
    {
      speakerName := name;
    }

    /** The pen button, shown only in display mode: enters editing and
        leaves the draft alone. */
    method EditClick()
      modifies this
      ensures isEditing
      ensures editedName == old(editedName) && speakerName == old(speakerName) && calls == old(calls)
    {
      isEditing := true;
    }

    /** Typing into the input, which exists only in edit mode. */
    method Type(value: string)
      modifies this
      ensures editedName == (if old(isEditing) then value else old(editedName))
      ensures isEditing == old(isEditing) && speakerName == old(speakerName) && calls == old(calls)
    {
      if isEditing {
        editedName := value;
      }
    }

    /** `handleSaveClick`: a draft that is not blank reaches the parent
        trimmed; a blank draft is reset to the current name. Either way
        editing ends. */
    method Save()
      requires Valid()
      modifies this
      ensures Valid()
      ensures !isEditing && speakerName == old(speakerName)
      ensures Trim(old(editedName)) != "" ==>
                calls == old(calls) + [Trim(old(editedName))] && editedName == old(editedName)
      ensures Trim(old(editedName)) == "" ==> calls == old(calls) && editedName == old(speakerName)
    {
      var trimmed := Trim(editedName);
      if trimmed != "" {
        TrimIdempotent(editedName);
        AllTrimmedSnoc(calls, trimmed);
        calls := calls + [trimmed];
      } else {
        editedName := speakerName;
      }
      isEditing := false;
    }

    /** The check button, shown only in edit mode. */
    method SaveClick()
      requires Valid()
      modifies this
      ensures Valid()
      ensures old(isEditing) ==> !isEditing && speakerName == old(speakerName)
      ensures old(isEditing) && Trim(old(editedName)) != "" ==>
                calls == old(calls) + [Trim(old(editedName))] && editedName == old(editedName)
      ensures old(isEditing) && Trim(old(editedName)) == "" ==>
                calls == old(calls) && editedName == old(speakerName)
      ensures !old(isEditing) ==> unchanged(this)
    {
      if isEditing {
        Save();
      }
    }

    /** `handleKeyDown` on the input: Enter saves, Escape drops the draft
        and leaves editing with no callback, other keys do nothing. */
    method KeyDown(key: string)
      requires Valid()
      modifies this
      ensures Valid()
      ensures old(isEditing) && key == "Enter" ==>
                && !isEditing && speakerName == old(speakerName)
                && (Trim(old(editedName)) != "" ==>
                      calls == old(calls) + [Trim(old(editedName))] && editedName == old(editedName))
                && (Trim(old(editedName)) == "" ==> calls == old(calls) && editedName == old(speakerName))
      ensures old(isEditing) && key == "Escape" ==>
                !isEditing && editedName == old(speakerName) && calls == old(calls) && speakerName == old(speakerName)
      ensures !old(isEditing) || (key != "Enter" && key != "Escape") ==> unchanged(this)
    {
      if isEditing {
        if key == "Enter" {
          Save();
        } else if key == "Escape" {
          editedName := speakerName;
          isEditing := false;
        }
      }
    }
  }
}
