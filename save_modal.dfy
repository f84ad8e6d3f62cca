/** The dialog that names a playlist before it is saved (src/components/SavePlaylistModal.tsx).
    It keeps the typed name as state; its buttons report to the parent through the
    callbacks `onSave` and `onClose`, which here are returned as a list of `Callback`s. */
module SaveModal {
  import opened Strings

  /** A call the dialog makes to its parent. */
  datatype Callback = OnSave(name: string) | OnClose

  /** What the dialog renders: nothing, or the form with its input and save button. */
  datatype View = Hidden | Form(inputValue: string, saveDisabled: bool, saveLabel: string)

  /** `isSaving || !playlistName.trim()`: saving is offered only for a name that is not
      blank, and never while a save is in progress. */
  function SaveDisabled(isSaving: bool, playlistName: string): (disabled: bool)
    ensures disabled <==> isSaving || AllWhitespace(playlistName)
  {
    TrimEmptyIff(playlistName);
    isSaving || Trim(playlistName) == ""
  }

  /** `handleSave`: one `onSave` with the trimmed name when it is not blank, else nothing. */
  function HandleSave(playlistName: string): (calls: seq<Callback>)
    ensures calls == [] <==> AllWhitespace(playlistName)
    ensures calls != [] ==>
              calls == [OnSave(Trim(playlistName))]
              && Trim(playlistName) != ""
              && !IsWhitespace(Trim(playlistName)[0])
              && !IsWhitespace(Trim(playlistName)[|Trim(playlistName)| - 1])
  {
    TrimEmptyIff(playlistName);
    TrimEnds(playlistName);
    var name := Trim(playlistName);
    if name != "" then [OnSave(name)] else []
  }

  class SavePlaylistModal {
    var playlistName: string

    constructor ()
      ensures playlistName == ""
    {
      playlistName := "";
    }

    /** The input's `onChange`. */
    method OnChange(value: string)
      modifies this
      ensures playlistName == value
    {
      playlistName := value;
    }

    /** A click on the save button: a disabled button reports nothing. */
    method ClickSave(isSaving: bool) returns (calls: seq<Callback>)
      ensures calls == [] <==> isSaving || AllWhitespace(playlistName)
      ensures calls != [] ==> calls == [OnSave(Trim(playlistName))]
    {
      if SaveDisabled(isSaving, playlistName) {
        calls := [];
      } else {
        calls := HandleSave(playlistName);
      }
    }

    /** A click on Cancel: only `onClose`. */
    method ClickCancel() returns (calls: seq<Callback>)
      ensures calls == [OnClose]
    {
      calls := [OnClose];
    }

    /** Closed, the dialog renders nothing; open, it shows the typed name and a save
        button that is disabled by `SaveDisabled` and labelled by the saving state. */
    function Render(isOpen: bool, isSaving: bool): (v: View)
      reads this
      ensures v == Hidden <==> !isOpen
      ensures v.Form? ==> v.inputValue == playlistName
                          && (v.saveDisabled <==> isSaving || AllWhitespace(playlistName))
                          && v.saveLabel == (if isSaving then "Saving..." else "Save Playlist")
    {
      if !isOpen then Hidden
      else Form(playlistName, SaveDisabled(isSaving, playlistName), if isSaving then "Saving..." else "Save Playlist")
    }
  }
}
