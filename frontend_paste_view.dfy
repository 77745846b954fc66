/**
 * The client's "My Pastes" page: which of its four views it shows, the
 * content preview of each card, and the requests it dispatches.
 */
module PasteListView {
  import opened Wrappers
  import PasteSlice

  /** At most this many characters of content are shown on a card. */
  const PreviewLength: nat := 200

  /**
   * `content.length > 200 ? content.substring(0, 200) + "..." : content`:
   * never longer than 203 characters, and it begins with the first (up to)
   * 200 characters of the content.
   */
  function Preview(content: string): (r: string)
    ensures |r| <= PreviewLength + 3
    ensures var n := if |content| < PreviewLength then |content| else PreviewLength;
      |r| >= n && r[..n] == content[..n]
    ensures |content| <= PreviewLength ==> r == content
    ensures |content| > PreviewLength ==> r[PreviewLength..] == "..."
  {
    if |content| > PreviewLength then content[..PreviewLength] + "..." else content
  }

  /**
   * The preview is the content unchanged exactly when the content is short,
   * or when it is 203 characters that already end in "...": only then is a
   * cut invisible.
   */
  lemma PreviewUnchangedIff(content: string)
    ensures Preview(content) == content <==>
      |content| <= PreviewLength || (|content| == PreviewLength + 3 && content[PreviewLength..] == "...")
  {
    if |content| > PreviewLength && Preview(content) == content {
      assert |content| == PreviewLength + 3;
      assert content[PreviewLength..] == Preview(content)[PreviewLength..];
    }
    if |content| == PreviewLength + 3 && content[PreviewLength..] == "..." {
      assert content == content[..PreviewLength] + content[PreviewLength..];
    }
  }

  /** The four things the page can show. */
  datatype View = LoginPrompt | LoadingMessage | EmptyMessage | Cards(pastes: seq<PasteSlice.Paste>)

  /** The page's branches, in priority order: signed out, loading, no pastes, the list. */
  function SelectView(isAuthenticated: bool, loading: bool, pastes: seq<PasteSlice.Paste>): (v: View)
    ensures v == LoginPrompt <==> !isAuthenticated
    ensures v == LoadingMessage <==> isAuthenticated && loading
    ensures v == EmptyMessage <==> isAuthenticated && !loading && pastes == []
    ensures v.Cards? <==> isAuthenticated && !loading && pastes != []
    ensures v.Cards? ==> v.pastes == pastes
  {
    if !isAuthenticated then LoginPrompt
    else if loading then LoadingMessage
    else if |pastes| == 0 then EmptyMessage
    else Cards(pastes)
  }

  /** The requests the page dispatches. */
  datatype Command = FetchPastes | DeletePaste(id: string)

  /** The mount effect: the list is fetched only for a signed-in user. */
  function OnMount(isAuthenticated: bool): (r: Option<Command>)
    ensures r.Some? <==> isAuthenticated
    ensures r.Some? ==> r.value == FetchPastes
  {
    if isAuthenticated then Some(FetchPastes) else None
  }

  /** `handleDelete`: the paste's own id is deleted, and only after the user confirms. */
  function HandleDelete(id: string, confirmed: bool): (r: Option<Command>)
    ensures r.Some? <==> confirmed
    ensures r.Some? ==> r.value == DeletePaste(id)
  {
    if confirmed then Some(DeletePaste(id)) else None
  }
}
