/**
 * The prototype's local-only paste slice: a list of notes kept in the
 * browser, with append, replace-by-first-index, splice-remove-first and
 * reset. Persisting to local storage and the toasts are left out; the
 * success/"not found" toast of an update is reported as a boolean.
 */
module LocalPasteSlice {
  import opened Wrappers
  import opened IdLists

  /** A note of the prototype: `_id`, title, content and its ISO creation stamp. */
  datatype Note = Note(id: string, title: string, content: string, createdAt: string)

  function NoteId(n: Note): string
  {
    n.id
  }

  class LocalPasteState {
    var pastes: seq<Note>

    /** `initialState`: the list stored in the browser, or empty when nothing is stored. */
    constructor (stored: Option<seq<Note>>)
      ensures pastes == stored.GetOr([])
    {
      pastes := stored.GetOr([]);
    }

    /** `addToPaste`: `push` at the end. */
    method AddToPaste(paste: Note)
      modifies this
      ensures pastes == old(pastes) + [paste]
    {
      pastes := pastes + [paste];
    }

    /**
     * `updateToPastes`: the note at the first index with the payload's `_id`
     * is replaced; `found` is false on the "Paste not found!" branch, which
     * leaves the list as it was.
     */
    method UpdateToPastes(paste: Note) returns (found: bool)
      modifies this
      ensures found <==> !NoneHasKey(old(pastes), NoteId, paste.id)
      ensures pastes == ReplaceFirst(old(pastes), NoteId, paste)
    {
      var index := FindIndex(pastes, NoteId, paste.id);
      found := index >= 0;
      if found {
        pastes := pastes[index := paste];
      }
    }

    /** `resetAllPaste`: the empty list. */
    method ResetAllPaste()
      modifies this
      ensures pastes == []
    {
      pastes := [];
    }

    /** `removeFromPaste`: `splice(index, 1)` at the first index with that `_id`, if any. */
    method RemoveFromPaste(pasteId: string)
      modifies this
      ensures pastes == RemoveFirst(old(pastes), NoteId, pasteId)
      ensures CountKey(old(pastes), NoteId, pasteId) > 0 ==>
        |pastes| == |old(pastes)| - 1 && CountKey(pastes, NoteId, pasteId) == CountKey(old(pastes), NoteId, pasteId) - 1
    {
      RemoveFirstSpec(pastes, NoteId, pasteId);
      var index := FindIndex(pastes, NoteId, pasteId);
      if index >= 0 {
        pastes := pastes[..index] + pastes[index + 1..];
      }
    }
  }
}
