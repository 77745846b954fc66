/**
 * The prototype's create/edit form: title and content, and the `pasteId`
 * search parameter that selects edit mode. Submitting builds a note
 * (keeping the edited id, or making one from the clock in base 36),
 * stamps it with the current time and dispatches add or update.
 */
module LocalHome {
  import opened Wrappers
  import opened IdLists
  import opened Base36
  import opened LocalPasteSlice

  /** The two actions a submit can dispatch. */
  datatype Action = AddToPaste(note: Note) | UpdateToPastes(note: Note)


  /** `pasteId || Date.now().toString(36)`: the edited id, or a fresh one made from the millisecond clock. */
  function NoteIdFor(pasteId: Option<string>, nowMs: nat): (id: string)
    ensures Truthy(pasteId) ==> id == pasteId.value
    ensures !Truthy(pasteId) ==> IsCanonical(id) && FromBase36(id) == nowMs
  {
    FromToBase36(nowMs);
    if Truthy(pasteId) then pasteId.value else ToBase36(nowMs)
  }

  /** The outcome of the edit prefill effect. */
  datatype PrefillOutcome = NotEditing | Filled | Crashed

  class LocalHomeState {
    var title: string
    var value: string
    var pasteId: Option<string>

    constructor (pasteId: Option<string>)
      ensures title == "" && value == "" && this.pasteId == pasteId
    {
      title := "";
      value := "";
      this.pasteId := pasteId;
    }

    /**
     * The edit prefill: the first stored note with `pasteId` fills the form.
     * When there is none the effect reads `title` of `undefined` and throws
     * before changing anything (`Crashed`).
     */
    method Prefill(allPastes: seq<Note>) returns (outcome: PrefillOutcome)
      modifies this`title, this`value
      ensures outcome == NotEditing <==> !Truthy(pasteId)
      ensures outcome == Crashed <==> Truthy(pasteId) && NoneHasKey(allPastes, NoteId, pasteId.value)
      ensures outcome == Filled ==>
        var n := allPastes[FindIndex(allPastes, NoteId, pasteId.value)];
        title == n.title && value == n.content
      ensures outcome != Filled ==> title == old(title) && value == old(value)
    {
      if !Truthy(pasteId) {
        return NotEditing;
      }
      var index := FindIndex(allPastes, NoteId, pasteId.value);
      if index < 0 {
        return Crashed;
      }
      var paste := allPastes[index];
      title := paste.title;
      value := paste.content;
      outcome := Filled;
    }

    /**
     * `createPaste`: no check on the fields; the note carries the edited id
     * or a clock-made one and the current ISO time (so an update overwrites
     * the original stamp); update in edit mode, add otherwise; the form is
     * cleared and leaves edit mode.
     */
    method CreatePaste(nowMs: nat, nowIso: string) returns (action: Action)
      modifies this
      ensures action.note == Note(NoteIdFor(old(pasteId), nowMs), old(title), old(value), nowIso)
      ensures action.UpdateToPastes? <==> Truthy(old(pasteId))
      ensures title == "" && value == "" && pasteId == None
    {
      var paste := Note(NoteIdFor(pasteId, nowMs), title, value, nowIso);
      if Truthy(pasteId) {
        action := UpdateToPastes(paste);
      } else {
        action := AddToPaste(paste);
      }
      title := "";
      value := "";
      pasteId := None;
    }
  }

  /** Dispatching a submit's action into the local slice. */
  method Dispatch(store: LocalPasteState, action: Action)
    modifies store
    ensures action.AddToPaste? ==> store.pastes == old(store.pastes) + [action.note]
    ensures action.UpdateToPastes? ==> store.pastes == ReplaceFirst(old(store.pastes), NoteId, action.note)
  {
    match action
    case AddToPaste(n) => store.AddToPaste(n);
    case UpdateToPastes(n) => var found := store.UpdateToPastes(n);
  }

  /** An edit of a stored note replaces it with the new fields and the new time stamp, and keeps the list's length. */
  method EditStoredNote(form: LocalHomeState, store: LocalPasteState, nowMs: nat, nowIso: string) returns (action: Action)
    requires Truthy(form.pasteId) && !NoneHasKey(store.pastes, NoteId, form.pasteId.value)
    modifies form, store
    ensures var i := FindIndex(old(store.pastes), NoteId, old(form.pasteId).value);
      && |store.pastes| == |old(store.pastes)|
      && store.pastes == old(store.pastes)[i := Note(old(form.pasteId).value, old(form.title), old(form.value), nowIso)]
  {
    action := form.CreatePaste(nowMs, nowIso);
    Dispatch(store, action);
  }
}
