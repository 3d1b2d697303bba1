/**
 * The rename editor of the chat tray (frontend/src/components/ChatTray.tsx):
 * which chat is being edited, the title being typed, and the rename request
 * that saving hands to `onRenameChat`.
 */
module ChatTray {
  import opened Wrappers
  import opened Js
  import ChatStore

  /** A call `onRenameChat(chatId, title)`. */
  datatype RenameRequest = RenameRequest(chatId: string, title: string)

  /** JavaScript truthiness of `editingChatId`: set and not the empty string. */
  predicate IsEditing(editingChatId: Option<string>) {
    editingChatId.Some? && editingChatId.value != ""
  }

  /** What saving asks of the store: a rename with the trimmed title, or nothing. */
  function SaveRequest(editingChatId: Option<string>, editTitle: string): (r: Option<RenameRequest>)
    ensures r.Some? <==> IsEditing(editingChatId) && !IsBlank(editTitle)
    ensures r.Some? ==> r.value.chatId == editingChatId.value && r.value.title == Trim(editTitle)
    ensures r.Some? ==> r.value.title != "" && IsTrimmed(r.value.title)
  {
    if IsEditing(editingChatId) && !IsBlank(editTitle) then Some(RenameRequest(editingChatId.value, Trim(editTitle)))
    else None
  }

  /** What a key press in the title box does. */
  datatype KeyAction = Save | Cancel | Ignore

  function KeyActionOf(key: string): (a: KeyAction)
    ensures a == Save <==> key == "Enter"
    ensures a == Cancel <==> key == "Escape"
  {
    if key == "Enter" then Save else if key == "Escape" then Cancel else Ignore
  }

  /** A saved title reaches the store as a non-blank, trimmed title of exactly that chat. */
  lemma SavedTitleIsClean(chats: seq<ChatStore.Chat>, editingChatId: Option<string>, editTitle: string)
    requires SaveRequest(editingChatId, editTitle).Some?
    ensures var req := SaveRequest(editingChatId, editTitle).value;
      var renamed := ChatStore.RenameChat(chats, req.chatId, req.title);
      forall i :: 0 <= i < |chats| && chats[i].id == editingChatId.value ==>
        renamed[i].title == Trim(editTitle) && renamed[i].title != "" && renamed[i].messages == chats[i].messages
  {
  }

  class EditState {
    var editingChatId: Option<string>
    var editTitle: string

    constructor ()
      ensures editingChatId == None && editTitle == ""
    {
      editingChatId := None;
      editTitle := "";
    }

    /** The pencil and bin controls are offered only while nothing is being edited. */
    function ControlsOffered(): (b: bool)
      reads this
      ensures b <==> !IsEditing(editingChatId)
    {
      !IsEditing(editingChatId)
    }

    /** The row of `chatId` shows the title box instead of the title. */
    function ShowsEditor(chatId: string): bool
      reads this
    {
      editingChatId == Some(chatId)
    }

    /** `handleStartEdit` */
    method StartEdit(chat: ChatStore.Chat)
      modifies this
      ensures editingChatId == Some(chat.id) && editTitle == chat.title
      ensures ShowsEditor(chat.id) && forall other :: ShowsEditor(other) ==> other == chat.id
    {
      editingChatId := Some(chat.id);
      editTitle := chat.title;
    }

    /** The title box's `onChange`. */
    method ChangeTitle(text: string)
      modifies this
      ensures editTitle == text && editingChatId == old(editingChatId)
    {
      editTitle := text;
    }

    /** `handleSaveEdit`: a rename only with an edit open and a non-blank title. */
    method SaveEdit() returns (rename: Option<RenameRequest>)
      modifies this
      ensures rename == SaveRequest(old(editingChatId), old(editTitle))
      ensures editingChatId == (if rename.Some? then None else old(editingChatId))
      ensures editTitle == old(editTitle)
      ensures rename.Some? ==> forall chatId :: !ShowsEditor(chatId)
    {
      if IsEditing(editingChatId) && !IsBlank(editTitle) {
        rename := Some(RenameRequest(editingChatId.value, Trim(editTitle)));
        editingChatId := None;
      } else {
        rename := None;
      }
    }

    /** `handleCancelEdit`: the edit is closed and never renames. */
    method CancelEdit()
      modifies this
      ensures editingChatId == None && editTitle == ""
      ensures forall chatId :: !ShowsEditor(chatId)
    {
      editingChatId := None;
      editTitle := "";
    }

    /** `handleKeyDown`: Enter saves, Escape cancels, any other key does nothing. */
    method KeyDown(key: string) returns (rename: Option<RenameRequest>)
      modifies this
      ensures key == "Enter" ==>
        && rename == SaveRequest(old(editingChatId), old(editTitle))
        && editingChatId == (if rename.Some? then None else old(editingChatId))
        && editTitle == old(editTitle)
      ensures key == "Escape" ==> rename == None && editingChatId == None && editTitle == ""
      ensures key != "Enter" && key != "Escape" ==>
        rename == None && editingChatId == old(editingChatId) && editTitle == old(editTitle)
    {
      match KeyActionOf(key)
      case Save => rename := SaveEdit();
      case Cancel =>
        CancelEdit();
        rename := None;
      case Ignore => rename := None;
    }
  }
}
