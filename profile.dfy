/**
 * The user profile dialog: editing the display name with a save guard, and
 * deleting the account behind a typed confirmation phrase.
 */
module Profile {

  import opened Wrappers
  import opened Text

  /** The phrase to type before the account can be deleted. */
  const DeletePhrase: string := "Totus Tuus"

  /**
   * The request `handleSaveName` sends: the trimmed text, when that is not
   * blank and the untrimmed text differs from the current name; nothing
   * otherwise. A sent name is never blank and never has whitespace at either end.
   */
  function SaveNameRequest(newName: string, userName: string): (r: Option<string>)
    ensures r.Some? <==> !IsBlank(newName) && newName != userName
    ensures r.Some? ==> r.value == Trim(newName) && IsCleanName(r.value)
  {
    if !IsBlank(newName) && newName != userName then
      TrimIdempotent(newName);
      Some(Trim(newName))
    else None
  }

  /** A name as `handleSaveName` sends it: non-empty and equal to its own trim. */
  predicate IsCleanName(s: string) {
    s != [] && Trim(s) == s
  }

  /**
   * The guard compares the untrimmed text with the current name: a name
   * changed only by surrounding spaces is sent again, unchanged after trimming.
   */
  lemma SaveResendsNameWithSurroundingSpaces()
    ensures SaveNameRequest("Ana ", "Ana") == Some("Ana")
  {
    var padded, name := "Ana ", "Ana";
    assert !IsWhitespace(padded[0]) && IsWhitespace(padded[3]) && !IsWhitespace(name[2]);
    assert TrimStart(padded) == padded;
    assert padded[..3] == name;
    assert TrimEnd(name) == name;
    assert TrimEnd(padded) == name;
    assert Trim(padded) == name;
    assert padded != name;
  }

  /** A call the dialog makes to its parent. */
  datatype ProfileCall = OnUpdateName(name: string) | OnDeleteAccount | OnClose

  /** The dialog's state and the calls made so far. */
  class UserProfileModal {
    var userName: string
    var isEditing: bool
    var newName: string
    var showDeleteConfirm: bool
    var deleteConfirmation: string
    var calls: seq<ProfileCall>

    /** Every name sent to `onUpdateName` is trimmed and non-empty. */
    ghost predicate Valid()
      reads this
    {
      forall i :: 0 <= i < |calls| && calls[i].OnUpdateName? ==> IsCleanName(calls[i].name)
    }

    /** `useState(false)`, `useState(userName)`, `useState(false)`, `useState("")`. */
    constructor (userName: string)
      ensures Valid()
      ensures this.userName == userName && !isEditing && newName == userName
      ensures !showDeleteConfirm && deleteConfirmation == "" && calls == []
    {
      this.userName := userName;
      isEditing := false;
      newName := userName;
      showDeleteConfirm := false;
      deleteConfirmation := "";
      calls := [];
    }

    /**
     * The parent passes a new `userName` prop. `newName` was initialised
     * from the prop when the dialog mounted and is not updated with it.
     */
    method UserNamePropChanges(name: string)
      requires Valid()
      modifies this
      ensures Valid() && userName == name
      ensures isEditing == old(isEditing) && newName == old(newName) && showDeleteConfirm == old(showDeleteConfirm)
      ensures deleteConfirmation == old(deleteConfirmation) && calls == old(calls)
    {
      userName := name;
    }

    /** The edit icon: `setIsEditing(true)`. */
    method StartEditing()
      requires Valid()
      modifies this
      ensures userName == old(userName)
      ensures Valid() && isEditing
      ensures newName == old(newName) && showDeleteConfirm == old(showDeleteConfirm)
      ensures deleteConfirmation == old(deleteConfirmation) && calls == old(calls)
    {
      isEditing := true;
    }

    /** Typing in the name field: `setNewName(e.target.value)`. */
    method EditName(text: string)
      requires Valid()
      modifies this
      ensures userName == old(userName)
      ensures Valid() && newName == text
      ensures isEditing == old(isEditing) && showDeleteConfirm == old(showDeleteConfirm)
      ensures deleteConfirmation == old(deleteConfirmation) && calls == old(calls)
    {
      newName := text;
    }

    /**
     * `handleSaveName`: sends the trimmed name only when it is not blank and
     * the text differs from the current name, and leaves editing either way.
     */
    method HandleSaveName() returns (saved: bool)
      requires Valid()
      modifies this
      ensures userName == old(userName)
      ensures Valid() && !isEditing
      ensures saved <==> !IsBlank(newName) && newName != userName
      ensures calls == if saved then old(calls) + [OnUpdateName(Trim(newName))] else old(calls)
      ensures newName == old(newName) && showDeleteConfirm == old(showDeleteConfirm)
      ensures deleteConfirmation == old(deleteConfirmation)
    {
      var request := SaveNameRequest(newName, userName);
      saved := request.Some?;
      if saved {
        calls := calls + [OnUpdateName(request.value)];
      }
      isEditing := false;
    }

    /** The edit icon as evidently intended: enter editing with the current name in the field. */
    method StartEditingFromCurrentName()
      requires Valid()
      modifies this
      ensures Valid() && isEditing && newName == userName
      ensures userName == old(userName) && showDeleteConfirm == old(showDeleteConfirm)
      ensures deleteConfirmation == old(deleteConfirmation) && calls == old(calls)
    {
      isEditing := true;
      newName := userName;
    }

    /** "Cancelar" while editing: leave editing and put the current name back in the field. */
    method CancelEdit()
      requires Valid()
      modifies this
      ensures userName == old(userName)
      ensures Valid() && !isEditing && newName == userName
      ensures showDeleteConfirm == old(showDeleteConfirm)
      ensures deleteConfirmation == old(deleteConfirmation) && calls == old(calls)
    {
      isEditing := false;
      newName := userName;
    }

    /** "Eliminar mi cuenta": `setShowDeleteConfirm(true)`. */
    method OpenDeleteConfirm()
      requires Valid()
      modifies this
      ensures userName == old(userName)
      ensures Valid() && showDeleteConfirm
      ensures isEditing == old(isEditing) && newName == old(newName)
      ensures deleteConfirmation == old(deleteConfirmation) && calls == old(calls)
    {
      showDeleteConfirm := true;
    }

    /** Typing in the confirmation field: `setDeleteConfirmation(e.target.value)`. */
    method EditDeleteConfirmation(text: string)
      requires Valid()
      modifies this
      ensures userName == old(userName)
      ensures Valid() && deleteConfirmation == text
      ensures isEditing == old(isEditing) && newName == old(newName)
      ensures showDeleteConfirm == old(showDeleteConfirm) && calls == old(calls)
    {
      deleteConfirmation := text;
    }

    /** `handleDeleteAccount`: `onDeleteAccount()` only when the typed text is exactly the phrase. */
    method HandleDeleteAccount() returns (deleted: bool)
      requires Valid()
      modifies this
      ensures userName == old(userName)
      ensures Valid()
      ensures deleted <==> deleteConfirmation == DeletePhrase
      ensures calls == if deleted then old(calls) + [OnDeleteAccount] else old(calls)
      ensures isEditing == old(isEditing) && newName == old(newName)
      ensures showDeleteConfirm == old(showDeleteConfirm) && deleteConfirmation == old(deleteConfirmation)
    {
      deleted := deleteConfirmation == DeletePhrase;
      if deleted {
        calls := calls + [OnDeleteAccount];
      }
    }

    /** "Cancelar" under the confirmation: hide it and clear the typed text. */
    method CancelDelete()
      requires Valid()
      modifies this
      ensures userName == old(userName)
      ensures Valid() && !showDeleteConfirm && deleteConfirmation == ""
      ensures isEditing == old(isEditing) && newName == old(newName) && calls == old(calls)
    {
      showDeleteConfirm := false;
      deleteConfirmation := "";
    }

    /** The close icon: `onClose()`. */
    method PressClose()
      requires Valid()
      modifies this
      ensures userName == old(userName)
      ensures Valid()
      ensures calls == old(calls) + [OnClose]
      ensures isEditing == old(isEditing) && newName == old(newName)
      ensures showDeleteConfirm == old(showDeleteConfirm) && deleteConfirmation == old(deleteConfirmation)
    {
      calls := calls + [OnClose];
    }
  }

  /**
   * As written: the dialog mounts with one name, the prop later changes to
   * another, and pressing edit then save without typing sends the name from
   * mount as the new name.
   */
  method EditWithoutTypingSendsStaleName(mountName: string, currentName: string) returns (calls: seq<ProfileCall>)
    requires !IsBlank(mountName) && mountName != currentName
    ensures calls == [OnUpdateName(Trim(mountName))]
  {
    var m := new UserProfileModal(mountName);
    m.UserNamePropChanges(currentName);
    m.StartEditing();
    var saved := m.HandleSaveName();
    calls := m.calls;
  }

  /** The placeholder "Usuario" shown before the name arrives is sent as the new name. */
  method PlaceholderNameIsSaved() returns (calls: seq<ProfileCall>)
    ensures calls == [OnUpdateName("Usuario")]
  {
    var placeholder := "Usuario";
    assert !IsWhitespace(placeholder[0]) && !IsWhitespace(placeholder[6]);
    assert TrimStart(placeholder) == placeholder;
    assert TrimEnd(placeholder) == placeholder;
    assert Trim(placeholder) == placeholder;
    assert placeholder != "Ana";
    calls := EditWithoutTypingSendsStaleName(placeholder, "Ana");
  }

  /**
   * With editing started from the current name, saving without typing sends
   * nothing, whatever name the dialog mounted with.
   */
  method CorrectedEditWithoutTypingSendsNothing(mountName: string, currentName: string) returns (calls: seq<ProfileCall>)
    ensures calls == []
  {
    var m := new UserProfileModal(mountName);
    m.UserNamePropChanges(currentName);
    m.StartEditingFromCurrentName();
    var saved := m.HandleSaveName();
    calls := m.calls;
  }
}
