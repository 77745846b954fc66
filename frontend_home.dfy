/**
 * The create/edit form of the client: title, content and visibility of
 * the paste being written, and the `pasteId` search parameter that
 * selects edit mode. Submitting trims the fields, rejects blank input,
 * sends a create or an update request and clears the form.
 */
module HomeForm {
  import opened Wrappers
  import opened EcmaTrim
  import opened IdLists
  import PasteSlice

  /** The request body `{ title, content, isPublic }`. */
  datatype PasteData = PasteData(title: string, content: string, isPublic: bool)

  /** What a submit dispatches. */
  datatype Request = NoRequest | CreateRequest(data: PasteData) | UpdateRequest(id: string, data: PasteData)


  /** The submit guard `title.trim() && value.trim()`. */
  predicate CanSubmit(title: string, value: string)
  {
    Trim(title) != "" && Trim(value) != ""
  }

  /** The guard fails exactly when one of the fields is blank. */
  lemma CanSubmitIffNotBlank(title: string, value: string)
    ensures CanSubmit(title, value) <==> !IsBlank(title) && !IsBlank(value)
  {
    TrimEmptyIffBlank(title);
    TrimEmptyIffBlank(value);
  }

  /** `pasteData`: the trimmed fields, which the guard has made non-empty, and the current visibility. */
  function MakePasteData(title: string, value: string, isPublic: bool): (d: PasteData)
    requires CanSubmit(title, value)
    ensures d.title != "" && d.content != "" && d.isPublic == isPublic
    ensures Trim(d.title) == d.title && Trim(d.content) == d.content
  {
    TrimIdempotent(title);
    TrimIdempotent(value);
    PasteData(Trim(title), Trim(value), isPublic)
  }

  /** The submit button's `disabled`: while saving, or when the submit guard would fail. */
  function SubmitDisabled(loading: bool, title: string, value: string): (r: bool)
    ensures r <==> loading || IsBlank(title) || IsBlank(value)
  {
    CanSubmitIffNotBlank(title, value);
    loading || !CanSubmit(title, value)
  }

  class HomeState {
    var title: string
    var value: string
    var isPublic: bool
    var pasteId: Option<string>

    /** An empty, private form; `pasteId` comes from the URL. */
    constructor (pasteId: Option<string>)
      ensures title == "" && value == "" && !isPublic && this.pasteId == pasteId
    {
      title := "";
      value := "";
      isPublic := false;
      this.pasteId := pasteId;
    }

    /**
     * The edit prefill (the effect on `pasteId` and `pastes`): signed-out
     * users are sent to the login page; in edit mode the first cached paste
     * with that id fills the form, and without one the form is left alone.
     */
    method Prefill(isAuthenticated: bool, pastes: seq<PasteSlice.Paste>) returns (redirectToLogin: bool)
      modifies this`title, this`value, this`isPublic
      ensures redirectToLogin <==> !isAuthenticated
      ensures pasteId == old(pasteId)
      ensures isAuthenticated && Truthy(pasteId) && !NoneHasKey(pastes, PasteSlice.IdOf, pasteId.value) ==>
        var p := pastes[FindIndex(pastes, PasteSlice.IdOf, pasteId.value)];
        title == p.title && value == p.content && isPublic == p.isPublic
      ensures !isAuthenticated || !Truthy(pasteId) || NoneHasKey(pastes, PasteSlice.IdOf, pasteId.value) ==>
        title == old(title) && value == old(value) && isPublic == old(isPublic)
    {
      if !isAuthenticated {
        return true;
      }
      redirectToLogin := false;
      if Truthy(pasteId) {
        var index := FindIndex(pastes, PasteSlice.IdOf, pasteId.value);
        if index >= 0 {
          var paste := pastes[index];
          title := paste.title;
          value := paste.content;
          isPublic := paste.isPublic;
        }
      }
    }

    /**
     * `handleCreatePaste`: blank input dispatches nothing and keeps the
     * form; otherwise update in edit mode, create otherwise, and the form
     * is cleared and leaves edit mode whatever the request's outcome.
     */
    method HandleCreatePaste() returns (request: Request)
      modifies this
      ensures !CanSubmit(old(title), old(value)) ==>
        request == NoRequest && title == old(title) && value == old(value)
        && isPublic == old(isPublic) && pasteId == old(pasteId)
      ensures CanSubmit(old(title), old(value)) ==>
        && request == (if Truthy(old(pasteId))
                       then UpdateRequest(old(pasteId).value, MakePasteData(old(title), old(value), old(isPublic)))
                       else CreateRequest(MakePasteData(old(title), old(value), old(isPublic))))
        && title == "" && value == "" && !isPublic && pasteId == None
    {
      if !CanSubmit(title, value) {
        return NoRequest;
      }
      var pasteData := MakePasteData(title, value, isPublic);
      if Truthy(pasteId) {
        request := UpdateRequest(pasteId.value, pasteData);
      } else {
        request := CreateRequest(pasteData);
      }
      title := "";
      value := "";
      isPublic := false;
      pasteId := None;
    }
  }
}
