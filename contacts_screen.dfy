/** The Contacts screen: loading the saved profiles, removing one from
    SavedContacts, its search, and the swipe that triggers removal. */
module ContactsScreen {
  import opened Wrappers
  import opened Text
  import opened Seqs
  import opened Documents
  import opened Store
  import opened UserProfiles
  import opened DiscoveryScreen

  /** The `mapNotNull` over the looked-up documents: every one except the
      current user's, decoded in result order. */
  function Hydrate(docs: seq<QueryDoc>, currentUserId: string): (r: seq<UserProfile>)
    ensures |r| <= |docs|
    ensures forall p :: p in r ==> p.userId != currentUserId
  {
    if docs == [] then []
    else
      var d := docs[0];
      (if d.id != currentUserId then [Decode(d.data, d.id)] else []) + Hydrate(docs[1..], currentUserId)
  }

  /** A looked-up id is shown exactly when it is not the current user's. */
  lemma {:induction false} HydrateIds(docs: seq<QueryDoc>, currentUserId: string, id: string)
    ensures id in ProfileIds(Hydrate(docs, currentUserId)) <==> id in DocIds(docs) && id != currentUserId
  {
    if docs != [] {
      HydrateIds(docs[1..], currentUserId, id);
      var d := docs[0];
      var head := if d.id != currentUserId then [Decode(d.data, d.id)] else [];
      assert ProfileIds(head + Hydrate(docs[1..], currentUserId)) == ProfileIds(head) + ProfileIds(Hydrate(docs[1..], currentUserId));
      assert DocIds(docs) == [d.id] + DocIds(docs[1..]);
    }
  }

  /** `whereIn(documentId(), saved)`: the query returns, once each, exactly
      the stored documents whose id is one of the saved strings. */
  ghost predicate IsLookupResult(store: Store, saved: seq<Value>, docs: seq<QueryDoc>)
  {
    && (forall i, j :: 0 <= i < j < |docs| ==> docs[i].id != docs[j].id)
    && (forall i :: 0 <= i < |docs| ==>
          Str(docs[i].id) in saved && docs[i].id in store && store[docs[i].id] == docs[i].data)
    && (forall id :: id in store && Str(id) in saved ==> id in DocIds(docs))
  }

  /** The contacts list holds only saved ids that resolve to a document, never the user's own. */
  lemma HydratedAreResolvable(store: Store, saved: seq<Value>, docs: seq<QueryDoc>, currentUserId: string, id: string)
    requires IsLookupResult(store, saved, docs)
    requires id in ProfileIds(Hydrate(docs, currentUserId))
    ensures Str(id) in saved && id in store && id != currentUserId
  {
    HydrateIds(docs, currentUserId, id);
    var i :| 0 <= i < |docs| && DocIds(docs)[i] == id;
  }

  /** Every saved id that resolves, other than the user's own, is listed. */
  lemma HydrateComplete(store: Store, saved: seq<Value>, docs: seq<QueryDoc>, currentUserId: string, id: string)
    requires IsLookupResult(store, saved, docs)
    requires id in store && Str(id) in saved && id != currentUserId
    ensures id in ProfileIds(Hydrate(docs, currentUserId))
  {
    HydrateIds(docs, currentUserId, id);
  }

  /** With one resolvable and one dangling saved id, every looked-up document is the resolvable one. */
  lemma LookupIdIsResolvable(store: Store, a: string, b: string, docs: seq<QueryDoc>, i: int)
    requires b !in store && IsLookupResult(store, [Str(a), Str(b)], docs)
    requires 0 <= i < |docs|
    ensures docs[i].id == a
  {
    assert Str(docs[i].id) in [Str(a), Str(b)] && docs[i].id in store;
  }

  /** One saved id that resolves and one that dangles give exactly one contact. */
  lemma DanglingIdDropped(store: Store, a: string, b: string, docs: seq<QueryDoc>, currentUserId: string)
    requires a in store && b !in store && a != currentUserId
    requires IsLookupResult(store, [Str(a), Str(b)], docs)
    ensures |Hydrate(docs, currentUserId)| == 1
    ensures Hydrate(docs, currentUserId)[0].userId == a
  {
    assert Str(a) in [Str(a), Str(b)];
    assert a in DocIds(docs);
    LookupIdIsResolvable(store, a, b, docs, 0);
    if |docs| >= 2 {
      LookupIdIsResolvable(store, a, b, docs, 1);
    }
    assert |docs| == 1;
    assert docs[1..] == [];
    assert Hydrate(docs, currentUserId) == [Decode(docs[0].data, a)];
  }

  // ---- Search ----------------------------------------------------------------

  /** The Contacts search: the query occurs, ignoring case, in the name,
      organization or career only. */
  predicate MatchesContactsSearch(p: UserProfile, query: string)
  {
    || ContainsIgnoreCase(p.fullName, query)
    || ContainsIgnoreCase(p.organization, query)
    || ContainsIgnoreCase(p.career, query)
  }

  function ContactsMatcher(query: string): UserProfile -> bool
  {
    p => MatchesContactsSearch(p, query)
  }

  function SearchContacts(ps: seq<UserProfile>, query: string): (r: seq<UserProfile>)
    ensures forall p :: p in r <==> p in ps && MatchesContactsSearch(p, query)
  {
    var r := Filter(ps, ContactsMatcher(query));
    forall p ensures p in r <==> p in ps && MatchesContactsSearch(p, query) {
      FilterMembership(ps, ContactsMatcher(query), p);
    }
    r
  }

  /** The Contacts search keeps the list order. */
  lemma SearchContactsSubsequence(ps: seq<UserProfile>, query: string)
    ensures Subsequence(SearchContacts(ps, query), ps)
  {
    FilterSubsequence(ps, ContactsMatcher(query));
  }

  /** Whatever the Contacts search finds, the Discovery search finds too. */
  lemma ContactsSearchNarrower(p: UserProfile, query: string)
    ensures MatchesContactsSearch(p, query) ==> MatchesDiscoverySearch(p, query)
  {
  }

  /** A city is searchable on Discovery but not on Contacts. */
  lemma CityOnlyFoundByDiscovery()
    ensures var p := DefaultProfile.(city := "Paris");
      MatchesDiscoverySearch(p, "par") && !MatchesContactsSearch(p, "par")
  {
    var p := DefaultProfile.(city := "Paris");
    assert Lower("par") == "par";
    assert Lower("Paris") == "paris";
    assert "par" <= "paris";
    assert Lower("") == "";
    assert !IsInfix("par", "");
  }

  // ---- Swipe -----------------------------------------------------------------

  datatype SwipeValue = StartToEnd | EndToStart | Settled

  /** `confirmValueChange`: a swipe in either direction removes the contact,
      and is accepted; settling back is not. */
  function ConfirmSwipe(v: SwipeValue): (remove: bool)
    ensures remove <==> v == StartToEnd || v == EndToStart
  {
    v == EndToStart || v == StartToEnd
  }

  // ---- Removal ---------------------------------------------------------------

  /** The write `removeContact` issues once the user's document was read:
      SavedContacts with every occurrence of the id dropped. */
  function RemoveWrite(store: Store, uid: string, contactId: string, writeOk: bool): (r: WriteResult)
    ensures r.ok <==> writeOk && uid in store
    ensures !r.ok ==> r.store == store
  {
    Update(store, uid, SavedContactsKey, Lst(RemoveAll(SavedContactsIn(store, uid), Str(contactId))), writeOk)
  }

  /** After a successful removal the id is gone, the rest keeps its order,
      and no other document or field changes. */
  lemma RemoveWriteEffect(store: Store, uid: string, contactId: string)
    requires RemoveWrite(store, uid, contactId, true).ok
    ensures var after := RemoveWrite(store, uid, contactId, true).store;
      && SavedContactsIn(after, uid) == RemoveAll(SavedContactsIn(store, uid), Str(contactId))
      && Str(contactId) !in SavedContactsIn(after, uid)
      && Subsequence(SavedContactsIn(after, uid), SavedContactsIn(store, uid))
      && after.Keys == store.Keys
      && (forall other :: other in store && other != uid ==> after[other] == store[other])
      && (forall k :: k in store[uid] && k != SavedContactsKey ==> k in after[uid] && after[uid][k] == store[uid][k])
  {
    RemoveAllSubsequence(SavedContactsIn(store, uid), Str(contactId));
  }

  /** Removing twice leaves the store as removing once. */
  lemma RemoveWriteIdempotent(store: Store, uid: string, contactId: string)
    requires RemoveWrite(store, uid, contactId, true).ok
    ensures var once := RemoveWrite(store, uid, contactId, true).store;
      RemoveWrite(once, uid, contactId, true).store == once
  {
    var l := RemoveAll(SavedContactsIn(store, uid), Str(contactId));
    var once := RemoveWrite(store, uid, contactId, true).store;
    assert SavedContactsIn(once, uid) == l;
    RemoveAllIdempotent(SavedContactsIn(store, uid), Str(contactId));
    assert once[uid][SavedContactsKey := Lst(l)] == once[uid];
  }

  /** Saving an id that was not saved and then removing it gives the original list back. */
  lemma SaveThenRemoveRestores(store: Store, uid: string, contactId: string)
    requires uid in store && Str(contactId) !in SavedContactsIn(store, uid)
    ensures var saved := UpdateUnion(store, uid, SavedContactsKey, Str(contactId), true).store;
      SavedContactsIn(RemoveWrite(saved, uid, contactId, true).store, uid) == SavedContactsIn(store, uid)
  {
    var xs := SavedContactsIn(store, uid);
    var saved := UpdateUnion(store, uid, SavedContactsKey, Str(contactId), true).store;
    assert SavedContactsIn(saved, uid) == ArrayUnion(xs, Str(contactId));
    UnionThenRemove(xs, Str(contactId));
  }

  // ---- Screen state ----------------------------------------------------------

  /** The screen's `contacts`, `isLoading` and `selectedProfile`. */
  class ContactsState {
    var contacts: seq<UserProfile>
    var isLoading: bool
    var selected: Option<UserProfile>

    /** The screen opens empty and loading, with no profile open. */
    constructor ()
      ensures contacts == [] && isLoading && selected.None?
    {
      contacts := [];
      isLoading := true;
      selected := None;
    }

    /** The load effect: read SavedContacts; an empty list shows no contacts
        and issues no lookup; otherwise the `whereIn` lookup (its result
        `docs`, its success `queryOk`) is hydrated. Without a signed-in user
        nothing happens. */
    method Load(currentUser: Option<string>, store: Store, readOk: bool, queryOk: bool, docs: seq<QueryDoc>)
      returns (lookupIssued: bool)
      modifies this
      ensures selected == old(selected)
      ensures currentUser.None? ==> !lookupIssued && contacts == old(contacts) && isLoading == old(isLoading)
      ensures currentUser.Some? ==> !isLoading
      ensures currentUser.Some? ==> var saved := SavedContactsIn(store, currentUser.value);
        && (lookupIssued <==> readOk && saved != [])
        && (readOk && saved == [] ==> contacts == [])
        && (lookupIssued && queryOk ==> contacts == Hydrate(docs, currentUser.value))
        && (!readOk || (lookupIssued && !queryOk) ==> contacts == old(contacts))
    {
      lookupIssued := false;
      if currentUser.None? {
        return;
      }
      var uid := currentUser.value;
      var snapshot := Read(store, uid, readOk);
      if snapshot.ReadFailed? {
        isLoading := false;
        return;
      }
      var saved := SavedContactsOf(snapshot.data);
      if saved == [] {
        contacts := [];
        isLoading := false;
        return;
      }
      lookupIssued := true;
      if queryOk {
        contacts := Hydrate(docs, uid);
      }
      isLoading := false;
    }

    /** The list the screen draws for the search text: nothing while loading. */
    function Listed(query: string): (r: seq<UserProfile>)
      reads this
      ensures isLoading ==> r == []
      ensures !isLoading ==> forall p :: p in r <==> p in contacts && MatchesContactsSearch(p, query)
    {
      if isLoading then [] else SearchContacts(contacts, query)
    }

    /** `removeContact`: read the list, drop the id, write it back; a
        successful write drops that user's profiles from the screen. A failed
        read does nothing at all; without a signed-in user nothing happens. */
    method RemoveContact(currentUser: Option<string>, contactId: string, store: Store, readOk: bool, writeOk: bool)
      returns (store': Store)
      modifies this
      ensures isLoading == old(isLoading) && selected == old(selected)
      ensures currentUser.None? || !readOk ==> store' == store && contacts == old(contacts)
      ensures currentUser.Some? && readOk ==>
        var w := RemoveWrite(store, currentUser.value, contactId, writeOk);
        store' == w.store && contacts == (if w.ok then WithoutUser(old(contacts), contactId) else old(contacts))
    {
      store' := store;
      if currentUser.None? {
        return;
      }
      var uid := currentUser.value;
      var snapshot := Read(store, uid, readOk);
      if snapshot.ReadFailed? {
        return;
      }
      var current := SavedContactsOf(snapshot.data);
      var updated := RemoveAll(current, Str(contactId));
      var w := Update(store, uid, SavedContactsKey, Lst(updated), writeOk);
      store' := w.store;
      if w.ok {
        contacts := WithoutUser(contacts, contactId);
      }
    }

    /** A swipe on a contact's row: a swipe either way removes it and is
        accepted; settling changes nothing. */
    method OnSwipe(v: SwipeValue, currentUser: Option<string>, contact: UserProfile, store: Store,
                   readOk: bool, writeOk: bool) returns (accepted: bool, store': Store)
      modifies this
      ensures accepted == ConfirmSwipe(v)
      ensures !accepted ==> store' == store && contacts == old(contacts)
      ensures isLoading == old(isLoading) && selected == old(selected)
      ensures accepted && currentUser.Some? && readOk ==>
        var w := RemoveWrite(store, currentUser.value, contact.userId, writeOk);
        store' == w.store && contacts == (if w.ok then WithoutUser(old(contacts), contact.userId) else old(contacts))
    {
      accepted := ConfirmSwipe(v);
      store' := store;
      if accepted {
        store' := RemoveContact(currentUser, contact.userId, store, readOk, writeOk);
      }
    }

    /** Tapping a row, or its eye button, opens the card. */
    method Select(p: UserProfile)
      modifies this
      ensures selected == Some(p) && contacts == old(contacts) && isLoading == old(isLoading)
    {
      selected := Some(p);
    }

    method CloseDetail()
      modifies this
      ensures selected.None? && contacts == old(contacts) && isLoading == old(isLoading)
    {
      selected := None;
    }
  }
}
