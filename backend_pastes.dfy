/**
 * The paste routes of the REST backend: create, list own, get, update,
 * delete and list public, each run against a store of paste documents.
 * The collection is a map from id to document held by a `PasteStore`
 * object; its `nextId` counter is the source of fresh ids and its `clock`
 * field the server's clock. Every route sits behind the bearer-token guard,
 * so each handler receives the already authenticated caller's id.
 */
module PasteRoutes {
  import opened Wrappers

  type UserId = string
  type PasteId = nat
  type Time = nat

  /** A paste document: `user` is the owner's id, `createdAt` the creation time. */
  datatype Paste = Paste(title: string, content: string, owner: UserId, isPublic: bool, createdAt: Time)

  /** A document together with its id, as the routes return it. */
  datatype Entry = Entry(id: PasteId, paste: Paste)

  /** A body field the validators require. */
  datatype Field = Title | Content

  /** The handled failures: 400 with the failing fields, 404, and 401 for a caller without rights. */
  datatype Failure = ValidationError(missing: seq<Field>) | NotFound | Forbidden

  datatype Result<T> = Ok(value: T) | Err(failure: Failure)

  /** `{ count, pastes }` of the listing routes. */
  datatype Listing = Listing(count: nat, pastes: seq<Entry>)

  /** A public listing entry: the document with its owner resolved to a username (null when the user is gone). */
  datatype PublicEntry = PublicEntry(entry: Entry, author: Option<string>)

  datatype PublicListing = PublicListing(count: nat, pastes: seq<PublicEntry>)

  /** The cap of the public listing, `.limit(20)`. */
  const PublicLimit: nat := 20

  /** The owner test every route uses: `paste.user.toString() === req.user.id`. */
  predicate IsOwner(p: Paste, caller: UserId)
  {
    p.owner == caller
  }

  /** Read access: the owner always, anyone else only when the paste is public. */
  predicate CanRead(p: Paste, caller: UserId)
    ensures IsOwner(p, caller) ==> CanRead(p, caller)
    ensures !p.isPublic ==> (CanRead(p, caller) <==> IsOwner(p, caller))
  {
    IsOwner(p, caller) || p.isPublic
  }

  /** The `notEmpty()` validators on `title` and `content`, in declaration order. */
  function Missing(title: string, content: string): (r: seq<Field>)
    ensures r == [] <==> title != "" && content != ""
    ensures Title in r <==> title == ""
    ensures Content in r <==> content == ""
    ensures |r| <= 2 && (title == "" ==> r[0] == Title)
  {
    (if title == "" then [Title] else []) + (if content == "" then [Content] else [])
  }

  // ---------------------------------------------------------------------
  // The queries the routes send to the collection

  /** The two filters the listing routes use: `{ user: caller }` and `{ isPublic: true }`. */
  datatype Query = OwnedBy(user: UserId) | PublicOnly

  /** Every document a listing query returns is one its reader may open with `GET /:id`. */
  predicate Matches(q: Query, p: Paste)
    ensures Matches(q, p) && q.OwnedBy? ==> IsOwner(p, q.user) && CanRead(p, q.user)
    ensures Matches(q, p) && q.PublicOnly? ==> forall caller :: CanRead(p, caller)
  {
    match q
    case OwnedBy(u) => p.owner == u
    case PublicOnly => p.isPublic
  }

  /** No id occurs twice. */
  predicate DistinctIds(s: seq<Entry>)
  {
    forall i, j :: 0 <= i < j < |s| ==> s[i].id != s[j].id
  }

  /** `find(q)`: the matching documents among the ids below `n`, in id (insertion) order. */
  function Find(m: map<PasteId, Paste>, q: Query, n: nat): (r: seq<Entry>)
    ensures forall e :: e in r <==> e.id < n && e.id in m && m[e.id] == e.paste && Matches(q, e.paste)
    ensures forall i, j :: 0 <= i < j < |r| ==> r[i].id < r[j].id
    decreases n
  {
    if n == 0 then []
    else
      var before := Find(m, q, n - 1);
      var k := n - 1;
      if k in m && Matches(q, m[k]) then before + [Entry(k, m[k])] else before
  }

  /** Sorted by `createdAt`, newest first (`.sort({ createdAt: -1 })`). */
  predicate NewestFirst(s: seq<Entry>)
  {
    forall i, j :: 0 <= i < j < |s| ==> s[i].paste.createdAt >= s[j].paste.createdAt
  }

  /** Places `e` in front of the first entry that is not newer than it. */
  function Insert(e: Entry, s: seq<Entry>): (r: seq<Entry>)
    ensures multiset(r) == multiset(s) + multiset{e}
    ensures forall x :: x in r <==> x == e || x in s
    decreases |s|
  {
    if s == [] || s[0].paste.createdAt <= e.paste.createdAt then [e] + s
    else
      assert s == [s[0]] + s[1..];
      [s[0]] + Insert(e, s[1..])
  }

  /** Inserting into a newest-first sequence keeps it newest first. */
  lemma {:induction false} InsertSorted(e: Entry, s: seq<Entry>)
    requires NewestFirst(s)
    ensures NewestFirst(Insert(e, s))
    decreases |s|
  {
    if !(s == [] || s[0].paste.createdAt <= e.paste.createdAt) {
      var rest := Insert(e, s[1..]);
      InsertSorted(e, s[1..]);
      forall j | 0 <= j < |rest| ensures rest[j].paste.createdAt <= s[0].paste.createdAt {
        var x := rest[j];
        assert x in rest;
        if x != e {
          var k :| 0 <= k < |s| - 1 && s[1..][k] == x;
          assert s[k + 1] == x;
        }
      }
      assert Insert(e, s) == [s[0]] + rest;
    }
  }

  /** Inserting an entry whose id is new keeps ids distinct. */
  lemma {:induction false} InsertDistinct(e: Entry, s: seq<Entry>)
    requires DistinctIds(s)
    requires forall x :: x in s ==> x.id != e.id
    ensures DistinctIds(Insert(e, s))
    decreases |s|
  {
    if !(s == [] || s[0].paste.createdAt <= e.paste.createdAt) {
      var rest := Insert(e, s[1..]);
      InsertDistinct(e, s[1..]);
      var r := [s[0]] + rest;
      assert Insert(e, s) == r;
      forall i, j | 0 <= i < j < |r| ensures r[i].id != r[j].id {
        assert r[j] == rest[j - 1] && r[j] in rest;
        if i > 0 {
          assert r[i] == rest[i - 1];
        }
      }
    }
  }

  /** The documents of `s` sorted newest first. */
  function SortNewest(s: seq<Entry>): (r: seq<Entry>)
    ensures NewestFirst(r)
    ensures multiset(r) == multiset(s)
    ensures forall x :: x in r <==> x in s
    decreases |s|
  {
    if s == [] then []
    else
      assert s == [s[0]] + s[1..];
      InsertSorted(s[0], SortNewest(s[1..]));
      Insert(s[0], SortNewest(s[1..]))
  }

  /** Sorting keeps ids distinct. */
  lemma {:induction false} SortNewestDistinct(s: seq<Entry>)
    requires DistinctIds(s)
    ensures DistinctIds(SortNewest(s))
    decreases |s|
  {
    if s != [] {
      assert DistinctIds(s[1..]);
      SortNewestDistinct(s[1..]);
      InsertDistinct(s[0], SortNewest(s[1..]));
    }
  }

  /** The first `n` entries, `.limit(n)`. */
  function Limit(s: seq<Entry>, n: nat): (r: seq<Entry>)
    ensures |r| == if |s| < n then |s| else n
    ensures r == s[..|r|]
  {
    if |s| < n then s else s[..n]
  }

  /** `.populate("user", "username")`: the owner's username, if that user exists. */
  function Populate(e: Entry, usernames: map<UserId, string>): (r: PublicEntry)
    ensures r.entry == e
    ensures r.author.Some? <==> e.paste.owner in usernames
    ensures r.author.Some? ==> r.author.value == usernames[e.paste.owner]
  {
    PublicEntry(e, if e.paste.owner in usernames then Some(usernames[e.paste.owner]) else None)
  }

  function PopulateAll(s: seq<Entry>, usernames: map<UserId, string>): (r: seq<PublicEntry>)
    ensures |r| == |s|
    ensures forall i :: 0 <= i < |s| ==> r[i] == Populate(s[i], usernames)
    decreases |s|
  {
    if s == [] then [] else [Populate(s[0], usernames)] + PopulateAll(s[1..], usernames)
  }

  /** Cutting a newest-first sequence short only leaves out entries no newer than the last one kept. */
  lemma LimitKeepsNewest(s: seq<Entry>, n: nat)
    requires NewestFirst(s) && n > 0
    ensures forall e :: e in s && e !in Limit(s, n) ==>
      |Limit(s, n)| == n && e.paste.createdAt <= Limit(s, n)[n - 1].paste.createdAt
  {
    var top := Limit(s, n);
    forall e | e in s && e !in top ensures |top| == n && e.paste.createdAt <= top[n - 1].paste.createdAt {
      var k :| 0 <= k < |s| && s[k] == e;
      assert k >= |top|;
    }
  }

  /** The public feed: `find({ isPublic: true }).populate(...).sort({ createdAt: -1 }).limit(20)`. */
  function PublicFeed(m: map<PasteId, Paste>, n: nat, usernames: map<UserId, string>): (r: seq<PublicEntry>)
    ensures |r| <= PublicLimit
  {
    PopulateAll(Limit(SortNewest(Find(m, PublicOnly, n)), PublicLimit), usernames)
  }

  /** Every feed entry is a public document of the collection with its owner's name resolved. */
  lemma PublicFeedFromStore(m: map<PasteId, Paste>, n: nat, usernames: map<UserId, string>)
    ensures var r := PublicFeed(m, n, usernames);
      forall i :: 0 <= i < |r| ==>
        r[i].entry.paste.isPublic && r[i].entry.id in m && m[r[i].entry.id] == r[i].entry.paste && r[i] == Populate(r[i].entry, usernames)
  {
    var sorted := SortNewest(Find(m, PublicOnly, n));
    var top := Limit(sorted, PublicLimit);
    assert forall i :: 0 <= i < |top| ==> top[i] in sorted;
  }

  /** The feed is newest first and lists no document twice. */
  lemma PublicFeedOrdered(m: map<PasteId, Paste>, n: nat, usernames: map<UserId, string>)
    ensures var r := PublicFeed(m, n, usernames);
      forall i, j :: 0 <= i < j < |r| ==>
        r[i].entry.paste.createdAt >= r[j].entry.paste.createdAt && r[i].entry.id != r[j].entry.id
  {
    var found := Find(m, PublicOnly, n);
    SortNewestDistinct(found);
    var top := Limit(SortNewest(found), PublicLimit);
    var r := PublicFeed(m, n, usernames);
    assert forall i :: 0 <= i < |r| ==> r[i].entry == top[i];
  }

  /** A public document missing from the feed is no newer than its last entry, and the feed is then full. */
  lemma PublicFeedNewest(m: map<PasteId, Paste>, n: nat, usernames: map<UserId, string>)
    requires forall id :: id in m ==> id < n
    ensures var r := PublicFeed(m, n, usernames);
      forall id :: id in m && m[id].isPublic && (forall i :: 0 <= i < |r| ==> r[i].entry.id != id) ==>
        |r| == PublicLimit && m[id].createdAt <= r[PublicLimit - 1].entry.paste.createdAt
  {
    var sorted := SortNewest(Find(m, PublicOnly, n));
    var top := Limit(sorted, PublicLimit);
    LimitKeepsNewest(sorted, PublicLimit);
    var r := PublicFeed(m, n, usernames);
    assert forall i :: 0 <= i < |r| ==> r[i].entry == top[i];
    forall id | id in m && m[id].isPublic && (forall i :: 0 <= i < |r| ==> r[i].entry.id != id)
      ensures |r| == PublicLimit && m[id].createdAt <= r[PublicLimit - 1].entry.paste.createdAt
    {
      assert Entry(id, m[id]) in sorted;
      assert Entry(id, m[id]) !in top;
    }
  }

  // ---------------------------------------------------------------------
  // The collection and the route handlers

  class PasteStore {
    /** The collection: id to document. */
    var pastes: map<PasteId, Paste>
    /** The fresh-id source: every id handed out so far is below it. */
    var nextId: PasteId
    /** The server clock. */
    var clock: Time

    /**
     * Ids come from the counter, no document is stamped later than the
     * clock, and every stored title and content passed `notEmpty()`.
     */
    ghost predicate Valid()
      reads this
    {
      forall id :: id in pastes ==>
        id < nextId && pastes[id].createdAt <= clock && pastes[id].title != "" && pastes[id].content != ""
    }

    /** An empty collection. */
    constructor (start: Time)
      ensures Valid()
      ensures pastes == map[] && clock == start
    {
      pastes := map[];
      nextId := 0;
      clock := start;
    }

    /** Time passes; the clock never goes back. */
    method Advance(elapsed: nat)
      requires Valid()
      modifies this`clock
      ensures Valid()
      ensures clock == old(clock) + elapsed
    {
      clock := clock + elapsed;
    }

    /**
     * POST /: validate, then create a document owned by the caller,
     * stamped with the current time; `isPublic` defaults to false when the
     * body leaves it out.
     */
    method Create(caller: UserId, title: string, content: string, isPublic: Option<bool>) returns (r: Result<Entry>)
      requires Valid()
      modifies this`pastes, this`nextId
      ensures Valid()
      ensures Missing(title, content) != [] ==>
        r == Err(ValidationError(Missing(title, content))) && pastes == old(pastes) && nextId == old(nextId)
      ensures Missing(title, content) == [] ==>
        && old(nextId) !in old(pastes)
        && r == Ok(Entry(old(nextId), Paste(title, content, caller, isPublic.GetOr(false), clock)))
        && pastes == old(pastes)[old(nextId) := r.value.paste]
        && nextId > old(nextId)
    {
      var missing := Missing(title, content);
      if missing != [] {
        return Err(ValidationError(missing));
      }
      var id := nextId;
      var paste := Paste(title, content, caller, isPublic.GetOr(false), clock);
      pastes := pastes[id := paste];
      nextId := nextId + 1;
      r := Ok(Entry(id, paste));
    }

    /** GET /: the caller's documents, newest first, with their count. */
    method ListMine(caller: UserId) returns (r: Listing)
      requires Valid()
      ensures r.count == |r.pastes|
      ensures forall e :: e in r.pastes ==> e.paste.owner == caller && e.id in pastes && pastes[e.id] == e.paste
      ensures forall id :: id in pastes && pastes[id].owner == caller ==> Entry(id, pastes[id]) in r.pastes
      ensures NewestFirst(r.pastes) && DistinctIds(r.pastes)
    {
      var found := Find(pastes, OwnedBy(caller), nextId);
      var sorted := SortNewest(found);
      SortNewestDistinct(found);
      r := Listing(|sorted|, sorted);
    }

    /** GET /:id: 404 for an unknown id, 401 when the caller neither owns the paste nor is it public. */
    method Get(caller: UserId, id: PasteId) returns (r: Result<Entry>)
      requires Valid()
      ensures r == Err(NotFound) <==> id !in pastes
      ensures r == Err(Forbidden) <==> id in pastes && pastes[id].owner != caller && !pastes[id].isPublic
      ensures r.Ok? <==> id in pastes && CanRead(pastes[id], caller)
      ensures r.Ok? ==> r.value == Entry(id, pastes[id])
    {
      if id !in pastes {
        return Err(NotFound);
      }
      var paste := pastes[id];
      if !IsOwner(paste, caller) && !paste.isPublic {
        return Err(Forbidden);
      }
      r := Ok(Entry(id, paste));
    }

    /**
     * PUT /:id: validation first, then 404, then 401 for a non-owner; on
     * success title, content and visibility are replaced and nothing else.
     */
    method Update(caller: UserId, id: PasteId, title: string, content: string, isPublic: bool) returns (r: Result<Entry>)
      requires Valid()
      modifies this`pastes
      ensures Valid()
      ensures Missing(title, content) != [] ==> r == Err(ValidationError(Missing(title, content)))
      ensures Missing(title, content) == [] && id !in old(pastes) ==> r == Err(NotFound)
      ensures Missing(title, content) == [] && id in old(pastes) && !IsOwner(old(pastes)[id], caller) ==> r == Err(Forbidden)
      ensures r.Err? ==> pastes == old(pastes)
      ensures r.Ok? <==> Missing(title, content) == [] && id in old(pastes) && IsOwner(old(pastes)[id], caller)
      ensures r.Ok? ==>
        && r.value == Entry(id, old(pastes)[id].(title := title, content := content, isPublic := isPublic))
        && pastes == old(pastes)[id := r.value.paste]
    {
      var missing := Missing(title, content);
      if missing != [] {
        return Err(ValidationError(missing));
      }
      if id !in pastes {
        return Err(NotFound);
      }
      var paste := pastes[id];
      if !IsOwner(paste, caller) {
        return Err(Forbidden);
      }
      var updated := paste.(title := title, content := content, isPublic := isPublic);
      pastes := pastes[id := updated];
      r := Ok(Entry(id, updated));
    }

    /** DELETE /:id: 404 for an unknown id, 401 for a non-owner, otherwise the document is removed. */
    method Delete(caller: UserId, id: PasteId) returns (r: Result<()>)
      requires Valid()
      modifies this`pastes
      ensures Valid()
      ensures r == Err(NotFound) <==> id !in old(pastes)
      ensures r == Err(Forbidden) <==> id in old(pastes) && !IsOwner(old(pastes)[id], caller)
      ensures r.Ok? <==> id in old(pastes) && IsOwner(old(pastes)[id], caller)
      ensures r.Err? ==> pastes == old(pastes)
      ensures r.Ok? ==> pastes == old(pastes) - {id} && id !in pastes
    {
      if id !in pastes {
        return Err(NotFound);
      }
      if !IsOwner(pastes[id], caller) {
        return Err(Forbidden);
      }
      pastes := pastes - {id};
      r := Ok(());
    }

    /**
     * GET /public/all: at most 20 public documents, newest first, each with
     * its owner's username; no public document left out is newer than the
     * oldest one listed.
     */
    method ListPublic(usernames: map<UserId, string>) returns (r: PublicListing)
      requires Valid()
      ensures r.count == |r.pastes| <= PublicLimit
      ensures forall i :: 0 <= i < |r.pastes| ==>
        var e := r.pastes[i].entry;
        e.paste.isPublic && e.id in pastes && pastes[e.id] == e.paste && r.pastes[i] == Populate(e, usernames)
      ensures forall i, j :: 0 <= i < j < |r.pastes| ==>
        r.pastes[i].entry.paste.createdAt >= r.pastes[j].entry.paste.createdAt && r.pastes[i].entry.id != r.pastes[j].entry.id
      ensures forall id :: id in pastes && pastes[id].isPublic && (forall i :: 0 <= i < |r.pastes| ==> r.pastes[i].entry.id != id) ==>
        |r.pastes| == PublicLimit && pastes[id].createdAt <= r.pastes[PublicLimit - 1].entry.paste.createdAt
    {
      var listed := PublicFeed(pastes, nextId, usernames);
      PublicFeedFromStore(pastes, nextId, usernames);
      PublicFeedOrdered(pastes, nextId, usernames);
      PublicFeedNewest(pastes, nextId, usernames);
      r := PublicListing(|listed|, listed);
    }
  }

  // ---------------------------------------------------------------------
  // Route sequences, as a client sees them

  /** A created paste is read back by its owner exactly as stored, private unless the body said otherwise. */
  method CreateThenGet(store: PasteStore, caller: UserId, title: string, content: string, isPublic: Option<bool>)
    returns (created: Result<Entry>, got: Result<Entry>)
    requires store.Valid()
    modifies store`pastes, store`nextId
    ensures store.Valid()
    ensures title != "" && content != "" ==> created.Ok? && got == created
    ensures created.Ok? ==>
      && got.Ok? && got.value.paste.title == title && got.value.paste.content == content
      && got.value.paste.owner == caller && got.value.paste.isPublic == isPublic.GetOr(false)
  {
    created := store.Create(caller, title, content, isPublic);
    if created.Ok? {
      got := store.Get(caller, created.value.id);
    } else {
      got := created;
    }
  }

  /** After a successful delete, nobody can read the paste any more. */
  method DeleteThenGet(store: PasteStore, caller: UserId, id: PasteId, reader: UserId)
    returns (deleted: Result<()>, got: Result<Entry>)
    requires store.Valid()
    modifies store`pastes
    ensures store.Valid()
    ensures deleted.Ok? ==> got == Err(NotFound)
  {
    deleted := store.Delete(caller, id);
    got := store.Get(reader, id);
  }

  /** A private paste is hidden from another user until its owner makes it public. */
  method ShareScenario() returns (before: Result<Entry>, after: Result<Entry>)
    ensures before == Err(Forbidden)
    ensures after.Ok? && after.value.paste.title == "Hello" && after.value.paste.content == "World"
    ensures after.value.paste.isPublic && after.value.paste.owner == "alice"
    ensures after.value.paste.createdAt == 0
  {
    var store := new PasteStore(0);
    var created := store.Create("alice", "Hello", "World", None);
    var id := created.value.id;
    before := store.Get("bob", id);
    store.Advance(5);
    var shared := store.Update("alice", id, "Hello", "World", true);
    after := store.Get("bob", id);
  }
}
