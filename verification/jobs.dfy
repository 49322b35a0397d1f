/**
 * The thumbnail records and the store that holds them: creation with
 * `isGenerating` set, the one terminal update after generation, and the
 * owner-scoped lookup, delete and listing routes.
 */
module Jobs {
  import opened Wrappers
  import opened Requests

  /** A thumbnail record. `imageUrl` is absent until a terminal update writes it. */
  datatype Thumbnail = Thumbnail(
    id: nat,
    userId: string,
    title: string,
    style: string,
    userPrompt: Option<string>,
    promptUsed: Option<string>,
    aspectRatio: Option<string>,
    colorScheme: Option<string>,
    textOverlay: Option<bool>,
    imageUrl: Option<string>,
    isGenerating: bool,
    createdAt: nat)

  /** The collection, in insertion order. */
  type Store = seq<Thumbnail>

  ghost predicate UniqueIds(store: Store)
  {
    forall i, j :: 0 <= i < j < |store| ==> store[i].id != store[j].id
  }

  predicate HasId(store: Store, id: nat)
  {
    exists i :: 0 <= i < |store| && store[i].id == id
  }

  /** The position of the first record matching `id` (and `owner`, when given), or `|store|`. */
  function FirstMatch(store: Store, id: nat, owner: Option<string>): (i: nat)
    ensures i <= |store|
    ensures i < |store| ==> store[i].id == id && (owner.Some? ==> store[i].userId == owner.value)
    ensures forall j :: 0 <= j < i ==> !(store[j].id == id && (owner.Some? ==> store[j].userId == owner.value))
    decreases |store|
  {
    if |store| == 0 then 0
    else if store[0].id == id && (owner.Some? ==> store[0].userId == owner.value) then 0
    else 1 + FirstMatch(store[1..], id, owner)
  }

  /** `Thumbnail.findOne({ _id: id, userId })`. */
  function FindOwned(store: Store, id: nat, owner: string): (r: Option<Thumbnail>)
    ensures r.Some? <==> exists i :: 0 <= i < |store| && store[i].id == id && store[i].userId == owner
    ensures r.Some? ==> r.value in store && r.value.id == id && r.value.userId == owner
  {
    var i := FirstMatch(store, id, Some(owner));
    if i < |store| then Some(store[i]) else None
  }

  /** The record `Thumbnail.create` writes for a request that passed validation. */
  function NewRecord(id: nat, owner: string, req: Request, now: nat): (t: Thumbnail)
    requires Valid(req)
    ensures t.isGenerating && t.imageUrl.None?
    ensures t.promptUsed == req.userPrompt && t.userPrompt == req.userPrompt
    ensures t.id == id && t.userId == owner && t.title == req.title.value && t.style == req.style.value
  {
    Thumbnail(id, owner, req.title.value, req.style.value, req.userPrompt, req.userPrompt,
              req.aspectRatio, req.colorScheme, req.textOverlay, None, true, now)
  }

  /** Saving a record appends it; the database picks an id no record has. */
  function Save(store: Store, t: Thumbnail): (r: Store)
    requires !HasId(store, t.id)
    ensures |r| == |store| + 1 && r[..|store|] == store
    ensures FindOwned(r, t.id, t.userId) == Some(t)
    ensures UniqueIds(store) ==> UniqueIds(r)
  {
    var r := store + [t];
    assert FirstMatch(r, t.id, Some(t.userId)) == |store| by {
      assert forall j :: 0 <= j < |store| ==> r[j] == store[j] && store[j].id != t.id;
      assert r[|store|] == t;
    }
    r
  }

  /** `Thumbnail.create` for a request that passed validation. */
  function Create(store: Store, id: nat, owner: string, req: Request, now: nat): (r: Store)
    requires Valid(req) && !HasId(store, id)
    ensures |r| == |store| + 1 && r[..|store|] == store
    ensures FindOwned(r, id, owner) == Some(NewRecord(id, owner, req, now))
    ensures UniqueIds(store) ==> UniqueIds(r)
  {
    Save(store, NewRecord(id, owner, req, now))
  }

  /** The one update that ends a generation. */
  datatype Terminal =
    | Succeeded(url: string, prompt: Option<string>)  // prompt: the text written to `prompt_used`, if the handler writes it
    | Failed(clearImage: bool)                        // clearImage: the handler writes `image_url = ''`

  /** A record after its terminal update. */
  function Apply(t: Thumbnail, outcome: Terminal): (r: Thumbnail)
    ensures !r.isGenerating
    ensures outcome.Succeeded? ==> r.imageUrl == Some(outcome.url)
    ensures outcome.Succeeded? ==> r.promptUsed == (if outcome.prompt.Some? then outcome.prompt else t.promptUsed)
    ensures outcome.Failed? ==> r.promptUsed == t.promptUsed
    ensures outcome.Failed? ==> r.imageUrl == (if outcome.clearImage then Some("") else t.imageUrl)
    ensures r.(imageUrl := t.imageUrl, promptUsed := t.promptUsed, isGenerating := t.isGenerating) == t
  {
    match outcome
    case Succeeded(url, prompt) =>
      t.(imageUrl := Some(url), promptUsed := if prompt.Some? then prompt else t.promptUsed, isGenerating := false)
    case Failed(clear) =>
      t.(imageUrl := if clear then Some("") else t.imageUrl, isGenerating := false)
  }

  /** `thumbnail.save()` after the terminal update: only the record with that id changes. */
  function Finish(store: Store, id: nat, outcome: Terminal): (r: Store)
    ensures |r| == |store|
    ensures forall i :: 0 <= i < |r| ==> r[i].id == store[i].id && r[i].userId == store[i].userId
    ensures forall i :: 0 <= i < |r| && store[i].id != id ==> r[i] == store[i]
    ensures forall i :: 0 <= i < |r| && store[i].id == id ==> !r[i].isGenerating
  {
    seq(|store|, i requires 0 <= i < |store| => if store[i].id == id then Apply(store[i], outcome) else store[i])
  }

  /**
   * A record's life: created generating, then one terminal update. The owner
   * finds exactly the created record with that update applied, and every
   * other record is as it was.
   */
  lemma Lifecycle(store: Store, id: nat, owner: string, req: Request, now: nat, outcome: Terminal)
    requires Valid(req) && !HasId(store, id)
    ensures FindOwned(Finish(Create(store, id, owner, req, now), id, outcome), id, owner)
              == Some(Apply(NewRecord(id, owner, req, now), outcome))
    ensures Finish(Create(store, id, owner, req, now), id, outcome)[..|store|] == store
  {
    var c := Create(store, id, owner, req, now);
    var f := Finish(c, id, outcome);
    assert forall j :: 0 <= j < |store| ==> c[j] == store[j] && store[j].id != id;
    assert FirstMatch(f, id, Some(owner)) == |store| by {
      assert forall j :: 0 <= j < |store| ==> f[j].id == store[j].id;
      assert c[|store|] == NewRecord(id, owner, req, now);
    }
    assert f[..|store|] == store;
  }

  /** The store without the record at position `i`. */
  function RemoveAt(store: Store, i: nat): (r: Store)
    requires i < |store|
    ensures |r| == |store| - 1
    ensures forall j :: 0 <= j < i ==> r[j] == store[j]
    ensures forall j :: i <= j < |r| ==> r[j] == store[j + 1]
  {
    store[..i] + store[i + 1..]
  }

  /** `Thumbnail.findOneAndDelete({ _id: id, userId })`: the store after, and whether a record matched. */
  function DeleteOwned(store: Store, id: nat, owner: string): (r: (Store, bool))
    ensures r.1 <==> FindOwned(store, id, owner).Some?
    ensures !r.1 ==> r.0 == store
    ensures r.1 ==> |r.0| == |store| - 1
    ensures forall t :: t in r.0 ==> t in store
  {
    var i := FirstMatch(store, id, Some(owner));
    if i < |store| then (RemoveAt(store, i), true) else (store, false)
  }

  /**
   * The owner-scoped routes behave like a map keyed by (id, owner): after a
   * delete the pair is gone, and every other pair finds what it found before.
   */
  lemma DeleteOwnedLikeMap(store: Store, id: nat, owner: string, otherId: nat, otherOwner: string)
    requires UniqueIds(store)
    ensures UniqueIds(DeleteOwned(store, id, owner).0)
    ensures FindOwned(DeleteOwned(store, id, owner).0, id, owner).None?
    ensures (otherId, otherOwner) != (id, owner) ==>
              FindOwned(DeleteOwned(store, id, owner).0, otherId, otherOwner) == FindOwned(store, otherId, otherOwner)
  {
    var i := FirstMatch(store, id, Some(owner));
    if i < |store| {
      RemoveAtUnique(store, i);
      if (otherId, otherOwner) != (id, owner) {
        RemoveAtKeepsOthers(store, i, otherId, otherOwner);
      }
    }
  }

  /** Removing a record from a store with unique ids keeps them unique and leaves no record with its id. */
  lemma RemoveAtUnique(store: Store, i: nat)
    requires UniqueIds(store) && i < |store|
    ensures UniqueIds(RemoveAt(store, i))
    ensures forall j :: 0 <= j < |RemoveAt(store, i)| ==> RemoveAt(store, i)[j].id != store[i].id
  {
    var r := RemoveAt(store, i);
    forall j | 0 <= j < |r| ensures r[j] == store[if j < i then j else j + 1] {
    }
  }

  /** Removing a record that does not match a pair leaves that pair's lookup as it was. */
  lemma RemoveAtKeepsOthers(store: Store, i: nat, otherId: nat, otherOwner: string)
    requires i < |store| && !(store[i].id == otherId && store[i].userId == otherOwner)
    ensures FindOwned(RemoveAt(store, i), otherId, otherOwner) == FindOwned(store, otherId, otherOwner)
  {
    var r := RemoveAt(store, i);
    var k := FirstMatch(store, otherId, Some(otherOwner));
    if k < |store| {
      var m := if k < i then k else k - 1;
      assert r[m] == store[k];
      assert FirstMatch(r, otherId, Some(otherOwner)) == m by {
        forall j | 0 <= j < m ensures !(r[j].id == otherId && r[j].userId == otherOwner) {
          if j < i { assert r[j] == store[j]; } else { assert r[j] == store[j + 1]; }
        }
      }
    } else {
      assert FindOwned(r, otherId, otherOwner).None? by {
        forall j | 0 <= j < |r| ensures !(r[j].id == otherId && r[j].userId == otherOwner) {
          if j < i { assert r[j] == store[j]; } else { assert r[j] == store[j + 1]; }
        }
      }
    }
  }

  const NotFound: string := "Thumbnail not found"
  const Deleted: string := "Thumbnail deleted successfully"

  /** The route's answer: a status and its message. */
  datatype Reply = Reply(status: nat, message: string)

  /** `DELETE /api/thumbnail/delete/:id` of the development server: 404 when the owner has no such record. */
  function DeleteRoute(store: Store, id: nat, session: Option<string>): (r: (Store, Reply))
    ensures r.1.status == 200 <==> FindOwned(store, id, SessionUser(session)).Some?
    ensures r.1 == (if r.1.status == 200 then Reply(200, Deleted) else Reply(404, NotFound))
    ensures r.0 == DeleteOwned(store, id, SessionUser(session)).0
  {
    var (after, found) := DeleteOwned(store, id, SessionUser(session));
    (after, if found then Reply(200, Deleted) else Reply(404, NotFound))
  }

  /** `GET /api/user/thumbnail/:id`: the owner's record, or 404. */
  function PollRoute(store: Store, id: nat, session: Option<string>): (r: Result<Thumbnail>)
    ensures r.Ok? <==> exists i :: 0 <= i < |store| && store[i].id == id && store[i].userId == SessionUser(session)
    ensures r.Ok? ==> r.value in store && r.value.id == id && r.value.userId == SessionUser(session)
    ensures r.Err? ==> r.error == NotFound
  {
    match FindOwned(store, id, SessionUser(session))
    case Some(t) => Ok(t)
    case None => Err(NotFound)
  }

  /**
   * `Thumbnail.findByIdAndDelete({ _id: id, userId })` in the controller, as
   * written: the call takes an id, and the `userId` inside the object passed
   * as one is not a filter, so the first record with that id goes whoever
   * owns it. The reply is the same success message either way.
   */
  function DeleteThumbnailAsWritten(store: Store, id: nat, owner: string): (r: (Store, Reply))
    ensures r.1 == Reply(200, Deleted)
    ensures FirstMatch(store, id, None) < |store| ==> r.0 == RemoveAt(store, FirstMatch(store, id, None))
    ensures FirstMatch(store, id, None) == |store| ==> r.0 == store
  {
    var i := FirstMatch(store, id, None);
    (if i < |store| then RemoveAt(store, i) else store, Reply(200, Deleted))
  }

  /** A record owned by one user and a delete request from another remove the record. */
  lemma DeleteAsWrittenIgnoresOwner()
    ensures var t := Thumbnail(1, "owner-a", "t", "Minimalist", None, None, None, None, None, None, false, 0);
            DeleteThumbnailAsWritten([t], 1, "owner-b").0 == []
            && DeleteThumbnail([t], 1, "owner-b").0 == [t]
  {
    var t := Thumbnail(1, "owner-a", "t", "Minimalist", None, None, None, None, None, None, false, 0);
    assert FirstMatch([t], 1, None) == 0;
    assert [t][1..] == [];
    assert !("owner-a" == "owner-b") by { assert "owner-a"[6] != "owner-b"[6]; }
    assert FirstMatch([t], 1, Some("owner-b")) == 1 by {
      assert FirstMatch([t][1..], 1, Some("owner-b")) == 0;
    }
  }

  /** The controller's delete scoped to its owner, replying as the controller does. */
  function DeleteThumbnail(store: Store, id: nat, owner: string): (r: (Store, Reply))
    ensures r.1 == Reply(200, Deleted)
    ensures forall t :: t in store && t.userId != owner ==> t in r.0
    ensures forall t :: t in r.0 ==> t in store
    ensures r.0 == DeleteOwned(store, id, owner).0
  {
    var i := FirstMatch(store, id, Some(owner));
    if i < |store| then
      var r := RemoveAt(store, i);
      assert forall t :: t in store && t.userId != owner ==> t in r by {
        forall t | t in store && t.userId != owner ensures t in r {
          var k :| 0 <= k < |store| && store[k] == t;
          assert k != i;
          if k < i { assert r[k] == t; } else { assert r[k - 1] == t; }
        }
      }
      (r, Reply(200, Deleted))
    else (store, Reply(200, Deleted))
  }

  /** `Thumbnail.find({ userId })`: the owner's records, in store order. */
  function OwnedBy(store: Store, owner: string): (r: Store)
    ensures forall t :: t in r <==> t in store && t.userId == owner
    ensures |r| <= |store|
  {
    if |store| == 0 then []
    else (if store[0].userId == owner then [store[0]] else []) + OwnedBy(store[1..], owner)
  }

  /** Newest first: `createdAt` never increases along the sequence. */
  ghost predicate NewestFirst(s: Store)
  {
    forall i, j :: 0 <= i < j < |s| ==> s[i].createdAt >= s[j].createdAt
  }

  /** Places `t` into a newest-first sequence. */
  function Insert(t: Thumbnail, s: Store): (r: Store)
    requires NewestFirst(s)
    ensures NewestFirst(r)
    ensures multiset(r) == multiset(s) + multiset{t}
    decreases |s|
  {
    if |s| == 0 || t.createdAt >= s[0].createdAt then
      PrependNewest(t, s);
      [t] + s
    else
      var rest := Insert(t, s[1..]);
      assert s == [s[0]] + s[1..];
      NoNewerThanHead(s, t, rest);
      PrependNewest(s[0], rest);
      [s[0]] + rest
  }

  /** A record no older than every record of a newest-first sequence can go in front. */
  lemma PrependNewest(x: Thumbnail, s: Store)
    requires NewestFirst(s)
    requires forall u :: u in s ==> u.createdAt <= x.createdAt
    ensures NewestFirst([x] + s)
  {
    var r := [x] + s;
    forall i, j | 0 <= i < j < |r| ensures r[i].createdAt >= r[j].createdAt {
      assert r[j] == s[j - 1];
      if i > 0 { assert r[i] == s[i - 1]; }
    }
  }

  /** The tail of a newest-first sequence, plus an older record, holds nothing newer than the head. */
  lemma NoNewerThanHead(s: Store, t: Thumbnail, rest: Store)
    requires NewestFirst(s) && |s| > 0 && t.createdAt < s[0].createdAt
    requires multiset(rest) == multiset(s[1..]) + multiset{t}
    ensures forall u :: u in rest ==> u.createdAt <= s[0].createdAt
  {
    forall u | u in rest ensures u.createdAt <= s[0].createdAt {
      assert u in multiset(rest);
      if u != t {
        assert u in multiset(s[1..]);
        var k :| 0 <= k < |s[1..]| && s[1..][k] == u;
        assert s[k + 1] == u;
      }
    }
  }

  /** `.sort({ createdAt: -1 })`. */
  function SortNewestFirst(s: Store): (r: Store)
    ensures NewestFirst(r)
    ensures multiset(r) == multiset(s)
    decreases |s|
  {
    if |s| == 0 then []
    else
      assert s == [s[0]] + s[1..];
      Insert(s[0], SortNewestFirst(s[1..]))
  }

  /**
   * `GET /api/thumbnail/my-generations`: exactly the session user's records,
   * each once, newest first.
   */
  function ListRoute(store: Store, session: Option<string>): (r: Store)
    ensures NewestFirst(r)
    ensures multiset(r) == multiset(OwnedBy(store, SessionUser(session)))
    ensures forall t :: t in r <==> t in store && t.userId == SessionUser(session)
  {
    var r := SortNewestFirst(OwnedBy(store, SessionUser(session)));
    assert forall t :: t in r <==> t in multiset(r);
    r
  }

}
