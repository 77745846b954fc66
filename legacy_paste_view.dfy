/**
 * The prototype's list page: a case-insensitive title search over the
 * stored notes, and the delete button. `toLowerCase` is a parameter: any
 * total function on strings.
 */
module LocalPasteView {
  import opened Subsequence
  import IdLists
  import opened LocalPasteSlice

  /** `hay.includes(needle)`: `needle` occurs in `hay` at some position (the empty string occurs everywhere). */
  predicate Includes(hay: string, needle: string)
    ensures needle <= hay ==> Includes(hay, needle)
    ensures Includes(hay, needle) ==> |needle| <= |hay|
  {
    assert hay[0..] == hay;
    exists i :: 0 <= i <= |hay| && needle <= hay[i..]
  }

  /** The search predicate: `title.toLowerCase().includes(searchTerm.toLowerCase())`. */
  predicate Keep(lower: string -> string, searchTerm: string, n: Note)
    ensures lower(searchTerm) == "" ==> Keep(lower, searchTerm, n)
    ensures Keep(lower, searchTerm, n) ==> |lower(searchTerm)| <= |lower(n.title)|
  {
    Includes(lower(n.title), lower(searchTerm))
  }

  /** `filteredData`: the notes the search keeps, in their stored order. */
  function FilteredData(pastes: seq<Note>, searchTerm: string, lower: string -> string): (r: seq<Note>)
    ensures IsSubsequence(r, pastes)
    ensures forall n :: n in r <==> n in pastes && Keep(lower, searchTerm, n)
    ensures forall n :: multiset(r)[n] == if Keep(lower, searchTerm, n) then multiset(pastes)[n] else 0
    decreases |pastes|
  {
    if pastes == [] then []
    else
      var rest := FilteredData(pastes[1..], searchTerm, lower);
      assert pastes == [pastes[0]] + pastes[1..];
      if Keep(lower, searchTerm, pastes[0]) then
        ConsBoth(pastes[0], rest, pastes[1..]);
        [pastes[0]] + rest
      else
        ConsRight(pastes[0], rest, pastes[1..]);
        rest
  }

  /** An empty search (whose lower-case form is empty, as `"".toLowerCase()` is) keeps every note. */
  lemma {:induction false} EmptySearchKeepsAll(pastes: seq<Note>, lower: string -> string)
    requires lower("") == ""
    ensures FilteredData(pastes, "", lower) == pastes
    decreases |pastes|
  {
    if pastes != [] {
      assert "" <= lower(pastes[0].title)[0..];
      EmptySearchKeepsAll(pastes[1..], lower);
    }
  }

  /** `handleDelete(pasteId)`: dispatches `removeFromPaste(pasteId)`, which splices out the first stored note with that id. */
  method HandleDelete(store: LocalPasteState, pasteId: string)
    modifies store
    ensures store.pastes == IdLists.RemoveFirst(old(store.pastes), NoteId, pasteId)
    ensures IdLists.CountKey(old(store.pastes), NoteId, pasteId) > 0 ==>
      |store.pastes| == |old(store.pastes)| - 1
      && IdLists.CountKey(store.pastes, NoteId, pasteId) == IdLists.CountKey(old(store.pastes), NoteId, pasteId) - 1
  {
    store.RemoveFromPaste(pasteId);
  }

  /** The delete button of the i-th listed note passes that note's own id, so exactly one stored note with it goes. */
  method DeleteListed(store: LocalPasteState, searchTerm: string, lower: string -> string, i: nat)
    requires i < |FilteredData(store.pastes, searchTerm, lower)|
    modifies store
    ensures store.pastes == IdLists.RemoveFirst(old(store.pastes), NoteId, FilteredData(old(store.pastes), searchTerm, lower)[i].id)
    ensures |store.pastes| == |old(store.pastes)| - 1
    ensures var id := FilteredData(old(store.pastes), searchTerm, lower)[i].id;
      IdLists.CountKey(store.pastes, NoteId, id) == IdLists.CountKey(old(store.pastes), NoteId, id) - 1
  {
    var listed := FilteredData(store.pastes, searchTerm, lower);
    var n := listed[i];
    assert n in listed;
    var k :| 0 <= k < |store.pastes| && store.pastes[k] == n;
    IdLists.CountKeyZero(store.pastes, NoteId, n.id);
    HandleDelete(store, n.id);
  }
}
