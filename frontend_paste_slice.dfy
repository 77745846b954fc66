/**
 * The client's paste cache (the `paste` slice of the Redux store): the
 * caller's pastes as last received from the server, a loading flag and
 * the last error message. Each reducer case assigns fields of the state
 * in place; the async thunks that drive them are modelled by their
 * outcome, the server's answer being a parameter.
 */
module PasteSlice {
  import opened Wrappers
  import opened IdLists

  /** A paste as the server sends it: `_id`, owner id, fields and creation time. */
  datatype Paste = Paste(id: string, user: string, title: string, content: string, isPublic: bool, createdAt: string)

  function IdOf(p: Paste): string
  {
    p.id
  }

  /** What a thunk's request came back with: the payload, or the message `rejectWithValue` carries. */
  datatype Response<T> = Success(payload: T) | Failure(message: string)

  /** `state.pastes.unshift(payload)`: the payload in front, the old list shifted right in order. */
  function Prepend(s: seq<Paste>, p: Paste): (r: seq<Paste>)
    ensures |r| == |s| + 1 && r[0] == p
    ensures forall i :: 0 <= i < |s| ==> r[i + 1] == s[i]
  {
    [p] + s
  }

  /** The `updatePaste.fulfilled` patch: the first paste with the payload's `_id` becomes the payload, and nothing else changes. */
  function ReplaceById(s: seq<Paste>, p: Paste): (r: seq<Paste>)
    ensures |r| == |s|
    ensures NoneHasKey(s, IdOf, p.id) ==> r == s
    ensures forall j :: 0 <= j < |s| && s[j].id == p.id && NoneHasKey(s[..j], IdOf, p.id) ==> r == s[j := p]
  {
    ReplaceFirst(s, IdOf, p)
  }

  /** The `deletePaste.fulfilled` patch: every paste with that `_id` is dropped, the others keep their order. */
  function WithoutId(s: seq<Paste>, id: string): (r: seq<Paste>)
    ensures forall x :: x in r <==> x in s && x.id != id
    ensures NoneHasKey(r, IdOf, id)
    ensures |r| == |s| - CountKey(s, IdOf, id)
  {
    RemoveAllSpec(s, IdOf, id);
    RemoveAll(s, IdOf, id)
  }

  /** Deleting twice is deleting once. */
  lemma WithoutIdIdempotent(s: seq<Paste>, id: string)
    ensures WithoutId(WithoutId(s, id), id) == WithoutId(s, id)
    ensures Subsequence.IsSubsequence(WithoutId(s, id), s)
  {
    RemoveAllSpec(s, IdOf, id);
  }

  class PasteState {
    var pastes: seq<Paste>
    var loading: bool
    var error: Option<string>

    /** `initialState`. */
    predicate IsInitial()
      reads this
    {
      pastes == [] && !loading && error == None
    }

    constructor ()
      ensures IsInitial()
    {
      pastes := [];
      loading := false;
      error := None;
    }

    /** `clearError`: only the error is cleared. */
    method ClearError()
      modifies this`error
      ensures error == None
      ensures pastes == old(pastes) && loading == old(loading)
    {
      error := None;
    }

    /** `resetPastes`: back to the initial state. */
    method ResetPastes()
      modifies this
      ensures IsInitial()
    {
      pastes := [];
      loading := false;
      error := None;
    }

    /** The `pending` case shared by fetch, create, update and delete: loading, no error, list untouched. */
    method Pending()
      modifies this`loading, this`error
      ensures loading && error == None
      ensures pastes == old(pastes)
    {
      loading := true;
      error := None;
    }

    /** The `rejected` case shared by fetch, create, update and delete: not loading, error is the payload, list untouched. */
    method Rejected(message: string)
      modifies this`loading, this`error
      ensures !loading && error == Some(message)
      ensures pastes == old(pastes)
    {
      loading := false;
      error := Some(message);
    }

    /** `fetchPastes.fulfilled`: the list is replaced wholesale. */
    method FetchFulfilled(payload: seq<Paste>)
      modifies this`loading, this`pastes
      ensures !loading && pastes == payload
      ensures error == old(error)
    {
      loading := false;
      pastes := payload;
    }

    /** `createPaste.fulfilled`: the new paste goes in front. */
    method CreateFulfilled(payload: Paste)
      modifies this`loading, this`pastes
      ensures !loading && pastes == Prepend(old(pastes), payload)
      ensures error == old(error)
    {
      loading := false;
      pastes := [payload] + pastes;
    }

    /** `updatePaste.fulfilled`: `findIndex` by `_id`, then the element at that index is replaced when there is one. */
    method UpdateFulfilled(payload: Paste)
      modifies this`loading, this`pastes
      ensures !loading && pastes == ReplaceById(old(pastes), payload)
      ensures error == old(error)
    {
      loading := false;
      var index := FindIndex(pastes, IdOf, payload.id);
      if index != -1 {
        pastes := pastes[index := payload];
      }
    }

    /** `deletePaste.fulfilled`: the list is reassigned from a filter on `_id`. */
    method DeleteFulfilled(id: string)
      modifies this`loading, this`pastes
      ensures !loading && pastes == WithoutId(old(pastes), id)
      ensures error == old(error)
    {
      loading := false;
      pastes := WithoutId(pastes, id);
    }

    /** A whole `fetchPastes` run: pending, then fulfilled with the server's list or rejected with its message. */
    method FetchPastes(response: Response<seq<Paste>>)
      modifies this
      ensures !loading
      ensures response.Success? ==> pastes == response.payload && error == None
      ensures response.Failure? ==> pastes == old(pastes) && error == Some(response.message)
    {
      Pending();
      match response
      case Success(list) => FetchFulfilled(list);
      case Failure(message) => Rejected(message);
    }

    /** A whole `createPaste` run. */
    method CreatePaste(response: Response<Paste>)
      modifies this
      ensures !loading
      ensures response.Success? ==> pastes == Prepend(old(pastes), response.payload) && error == None
      ensures response.Failure? ==> pastes == old(pastes) && error == Some(response.message)
    {
      Pending();
      match response
      case Success(p) => CreateFulfilled(p);
      case Failure(message) => Rejected(message);
    }

    /** A whole `updatePaste` run. */
    method UpdatePaste(response: Response<Paste>)
      modifies this
      ensures !loading
      ensures response.Success? ==> pastes == ReplaceById(old(pastes), response.payload) && error == None
      ensures response.Failure? ==> pastes == old(pastes) && error == Some(response.message)
    {
      Pending();
      match response
      case Success(p) => UpdateFulfilled(p);
      case Failure(message) => Rejected(message);
    }

    /** A whole `deletePaste(id)` run: on success the fulfilled payload is the requested id itself. */
    method DeletePaste(id: string, response: Response<()>)
      modifies this
      ensures !loading
      ensures response.Success? ==> pastes == WithoutId(old(pastes), id) && error == None
      ensures response.Failure? ==> pastes == old(pastes) && error == Some(response.message)
    {
      Pending();
      match response
      case Success(_) => DeleteFulfilled(id);
      case Failure(message) => Rejected(message);
    }
  }
}
