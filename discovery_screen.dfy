/** The Discovery screen: the public directory, its search, saving a
    profile into SavedContacts, and the list item's lines. */
module DiscoveryScreen {
  import opened Wrappers
  import opened Text
  import opened Seqs
  import opened Documents
  import opened Store
  import opened UserProfiles
  import opened MyCardScreen

  /** The `mapNotNull` over the public profiles: every document except the
      current user's and those already in SavedContacts, decoded in query order. */
  function Directory(docs: seq<QueryDoc>, currentUserId: string, saved: seq<Value>): (r: seq<UserProfile>)
    ensures |r| <= |docs|
    ensures forall p :: p in r ==> p.userId != currentUserId && Str(p.userId) !in saved
  {
    if docs == [] then []
    else
      var d := docs[0];
      (if d.id != currentUserId && Str(d.id) !in saved then [Decode(d.data, d.id)] else [])
        + Directory(docs[1..], currentUserId, saved)
  }

  /** The ids listed for a non-empty query result: the first document's id
      when it is kept, then the ids listed for the rest. */
  lemma DirectoryIdsCons(docs: seq<QueryDoc>, currentUserId: string, saved: seq<Value>)
    requires docs != []
    ensures ProfileIds(Directory(docs, currentUserId, saved)) ==
      (if docs[0].id != currentUserId && Str(docs[0].id) !in saved then [docs[0].id] else [])
        + ProfileIds(Directory(docs[1..], currentUserId, saved))
  {
    var d := docs[0];
    var head := if d.id != currentUserId && Str(d.id) !in saved then [Decode(d.data, d.id)] else [];
    var tail := Directory(docs[1..], currentUserId, saved);
    assert ProfileIds(head + tail) == ProfileIds(head) + ProfileIds(tail);
  }

  /** A query document's id is listed exactly when it is neither the current user nor saved. */
  lemma {:induction false} DirectoryIds(docs: seq<QueryDoc>, currentUserId: string, saved: seq<Value>, id: string)
    ensures id in ProfileIds(Directory(docs, currentUserId, saved)) <==>
      id in DocIds(docs) && id != currentUserId && Str(id) !in saved
  {
    if docs != [] {
      DirectoryIds(docs[1..], currentUserId, saved, id);
      DirectoryIdsCons(docs, currentUserId, saved);
      assert DocIds(docs) == [docs[0].id] + DocIds(docs[1..]);
    }
  }

  /** Each listed profile is the decoding of the query document it came from. */
  lemma {:induction false} DirectoryDecodes(docs: seq<QueryDoc>, currentUserId: string, saved: seq<Value>, p: UserProfile)
    requires p in Directory(docs, currentUserId, saved)
    ensures exists i :: 0 <= i < |docs| && docs[i].id == p.userId && p == Decode(docs[i].data, docs[i].id)
  {
    var d := docs[0];
    if d.id != currentUserId && Str(d.id) !in saved && p == Decode(d.data, d.id) {
    } else {
      DirectoryDecodes(docs[1..], currentUserId, saved, p);
      var i :| 0 <= i < |docs| - 1 && docs[1..][i].id == p.userId && p == Decode(docs[1..][i].data, docs[1..][i].id);
      assert docs[i + 1] == docs[1..][i];
    }
  }

  /** The listed ids keep the order of the query result. */
  lemma {:induction false} DirectorySubsequence(docs: seq<QueryDoc>, currentUserId: string, saved: seq<Value>)
    ensures Subsequence(ProfileIds(Directory(docs, currentUserId, saved)), DocIds(docs))
  {
    if docs != [] {
      DirectorySubsequence(docs[1..], currentUserId, saved);
      DirectoryIdsCons(docs, currentUserId, saved);
      var d := docs[0];
      var r := ProfileIds(Directory(docs, currentUserId, saved));
      var rest := ProfileIds(Directory(docs[1..], currentUserId, saved));
      var ids := DocIds(docs);
      assert ids[0] == d.id && ids[1..] == DocIds(docs[1..]);
      if d.id != currentUserId && Str(d.id) !in saved {
        assert r[0] == ids[0] && r[1..] == rest;
      } else {
        assert r == rest;
        SubsequenceDropHead(r, ids);
      }
    }
  }

  /** `whereEqualTo("visibility", "Public")`: the query returns exactly the
      stored documents whose visibility field is the string "Public". */
  ghost predicate IsPublicQuery(store: Store, docs: seq<QueryDoc>)
  {
    && (forall i :: 0 <= i < |docs| ==>
          docs[i].id in store && store[docs[i].id] == docs[i].data
          && "visibility" in docs[i].data && docs[i].data["visibility"] == Str(PublicVisibility))
    && (forall id :: id in store && "visibility" in store[id] && store[id]["visibility"] == Str(PublicVisibility) ==>
          id in DocIds(docs))
  }

  /** Only Public profiles enter the directory. */
  lemma DirectoryOnlyPublic(store: Store, docs: seq<QueryDoc>, currentUserId: string, saved: seq<Value>, p: UserProfile)
    requires IsPublicQuery(store, docs)
    requires p in Directory(docs, currentUserId, saved)
    ensures p.visibility == Some(PublicVisibility)
    ensures p.userId in store && p == Decode(store[p.userId], p.userId)
  {
    DirectoryDecodes(docs, currentUserId, saved, p);
    var i :| 0 <= i < |docs| && docs[i].id == p.userId && p == Decode(docs[i].data, docs[i].id);
    VisibilityDecoding(docs[i].data, docs[i].id);
  }

  /** Every Public profile other than the user's own and the saved ones is listed. */
  lemma DirectoryComplete(store: Store, docs: seq<QueryDoc>, currentUserId: string, saved: seq<Value>, id: string)
    requires IsPublicQuery(store, docs)
    requires id in store && "visibility" in store[id] && store[id]["visibility"] == Str(PublicVisibility)
    requires id != currentUserId && Str(id) !in saved
    ensures id in ProfileIds(Directory(docs, currentUserId, saved))
  {
    DirectoryIds(docs, currentUserId, saved, id);
  }

  // ---- Search ----------------------------------------------------------------

  /** The Discovery search: the query occurs, ignoring case, in the name,
      organization, career, city or country. */
  predicate MatchesDiscoverySearch(p: UserProfile, query: string)
  {
    || ContainsIgnoreCase(p.fullName, query)
    || ContainsIgnoreCase(p.organization, query)
    || ContainsIgnoreCase(p.career, query)
    || ContainsIgnoreCase(p.city, query)
    || ContainsIgnoreCase(p.country, query)
  }

  function DiscoveryMatcher(query: string): UserProfile -> bool
  {
    p => MatchesDiscoverySearch(p, query)
  }

  /** The profiles the search keeps, in list order. */
  function SearchDiscovery(ps: seq<UserProfile>, query: string): (r: seq<UserProfile>)
    ensures forall p :: p in r <==> p in ps && MatchesDiscoverySearch(p, query)
  {
    var r := Filter(ps, DiscoveryMatcher(query));
    forall p ensures p in r <==> p in ps && MatchesDiscoverySearch(p, query) {
      FilterMembership(ps, DiscoveryMatcher(query), p);
    }
    r
  }

  /** The search keeps the list order. */
  lemma SearchDiscoverySubsequence(ps: seq<UserProfile>, query: string)
    ensures Subsequence(SearchDiscovery(ps, query), ps)
  {
    FilterSubsequence(ps, DiscoveryMatcher(query));
  }

  /** An empty search field shows every profile. */
  lemma EmptyDiscoverySearchKeepsAll(ps: seq<UserProfile>)
    ensures SearchDiscovery(ps, "") == ps
  {
    forall p | p in ps ensures DiscoveryMatcher("")(p) {
      EmptyQueryContained(p.fullName);
    }
    FilterKeepsAll(ps, DiscoveryMatcher(""));
  }

  // ---- Saving ----------------------------------------------------------------

  /** A successful save leaves the saved id out of any later directory. */
  lemma SavedIdLeavesDirectory(store: Store, uid: string, target: string, docs: seq<QueryDoc>)
    requires UpdateUnion(store, uid, SavedContactsKey, Str(target), true).ok
    ensures var after := UpdateUnion(store, uid, SavedContactsKey, Str(target), true).store;
      target !in ProfileIds(Directory(docs, uid, SavedContactsIn(after, uid)))
  {
    UpdateUnionSaves(store, uid, Str(target), true);
    var after := UpdateUnion(store, uid, SavedContactsKey, Str(target), true).store;
    DirectoryIds(docs, uid, SavedContactsIn(after, uid), target);
  }

  // ---- List item -------------------------------------------------------------

  /** The item's location as written: `listOfNotNull(city, country)` keeps
      both (neither is null), so the separator is always there. */
  function ItemLocationAsWritten(p: UserProfile): (line: string)
    ensures line == p.city + ", " + p.country
  {
    Join([p.city, p.country], ", ")
  }

  /** As written, a profile with no city and no country still shows the line ", ". */
  lemma ItemLocationAsWrittenShowsSeparator()
    ensures var p := DefaultProfile;
      ItemLocationAsWritten(p) == ", " && !IsBlank(ItemLocationAsWritten(p))
  {
    assert ItemLocationAsWritten(DefaultProfile) == ", ";
    assert !IsWhitespace(", "[0]);
  }

  /** The item's location as intended: the card's join of the non-blank parts. */
  function ItemLocation(p: UserProfile): (line: string)
    ensures IsBlank(line) <==> IsBlank(p.city) && IsBlank(p.country)
    ensures !IsBlank(p.city) && IsBlank(p.country) ==> line == p.city
    ensures IsBlank(p.city) && !IsBlank(p.country) ==> line == p.country
    ensures !IsBlank(p.city) && !IsBlank(p.country) ==> line == ItemLocationAsWritten(p)
  {
    LocationLine(p.city, p.country)
  }

  /** The `isNullOrBlank()` guard of the list item: the text drawn, if any. */
  function NotBlankText(text: string): (drawn: Option<string>)
    ensures drawn.Some? <==> !IsBlank(text)
    ensures drawn.Some? ==> drawn.value == text
  {
    if IsBlank(text) then None else Some(text)
  }

  /** A list item: the photo, the name, and the career, organization and
      location lines (None: not drawn). */
  datatype ListItem = ListItem(photo: Option<string>, name: string, career: Option<string>,
                               organization: Option<string>, location: Option<string>)

  /** The item as written: the photo under the card's rule, career and
      organization only when non-blank, and the `listOfNotNull` location,
      which is never blank and so always drawn. */
  function ListItemAsWritten(p: UserProfile): (item: ListItem)
    ensures item.photo == CardHeaderOf(p).photo && item.name == p.fullName
    ensures item.career.Some? <==> !IsBlank(p.career)
    ensures item.career.Some? ==> item.career.value == p.career
    ensures item.organization.Some? <==> !IsBlank(p.organization)
    ensures item.organization.Some? ==> item.organization.value == p.organization
    ensures item.location == Some(p.city + ", " + p.country)
  {
    var location := ItemLocationAsWritten(p);
    assert location[|p.city|] == ',';
    ListItem(CardHeaderOf(p).photo, p.fullName, NotBlankText(p.career), NotBlankText(p.organization),
             NotBlankText(location))
  }

  /** The item as intended: the location line of the card, drawn exactly
      when city or country is non-blank. */
  function DiscoveryListItem(p: UserProfile): (item: ListItem)
    ensures item.location.Some? <==> !IsBlank(p.city) || !IsBlank(p.country)
    ensures item.location.Some? ==> item.location.value == LocationLine(p.city, p.country)
    ensures item == ListItemAsWritten(p).(location := item.location)
  {
    ListItemAsWritten(p).(location := NotBlankText(ItemLocation(p)))
  }

  /** With both parts non-blank, the item as written and the intended one agree. */
  lemma ListItemsAgreeWithBothParts(p: UserProfile)
    requires !IsBlank(p.city) && !IsBlank(p.country)
    ensures DiscoveryListItem(p) == ListItemAsWritten(p)
  {
  }

  /** A career of spaces is drawn on the card (`isNullOrEmpty`) but not in the
      list (`isNullOrBlank`). */
  lemma BlankCareerOnlyOnCard(p: UserProfile)
    requires p.career != "" && IsBlank(p.career)
    ensures CardHeaderOf(p).career == Some(p.career)
    ensures DiscoveryListItem(p).career.None?
  {
  }

  // ---- Screen state ----------------------------------------------------------

  /** The screen's `profiles`, `isLoading` and `selectedProfile`. */
  class DiscoveryState {
    var profiles: seq<UserProfile>
    var isLoading: bool
    var selected: Option<UserProfile>

    /** The screen opens empty and loading, with no profile open. */
    constructor ()
      ensures profiles == [] && isLoading && selected.None?
    {
      profiles := [];
      isLoading := true;
      selected := None;
    }

    /** The load effect: the user's document is read for SavedContacts, then
        the public query runs. Without a signed-in user nothing happens (the
        spinner stays); any failure ends loading and keeps the list. */
    method Load(currentUser: Option<string>, store: Store, readOk: bool, queryOk: bool, docs: seq<QueryDoc>)
      modifies this
      ensures selected == old(selected)
      ensures currentUser.None? ==> profiles == old(profiles) && isLoading == old(isLoading)
      ensures currentUser.Some? ==> !isLoading
      ensures currentUser.Some? && readOk && queryOk ==>
        profiles == Directory(docs, currentUser.value, SavedContactsIn(store, currentUser.value))
      ensures !(currentUser.Some? && readOk && queryOk) ==> profiles == old(profiles)
    {
      if currentUser.None? {
        return;
      }
      var uid := currentUser.value;
      var snapshot := Read(store, uid, readOk);
      if snapshot.ReadFailed? {
        isLoading := false;
        return;
      }
      var saved := SavedContactsOf(snapshot.data);
      if queryOk {
        profiles := Directory(docs, uid, saved);
      }
      isLoading := false;
    }

    /** The list the screen draws for the search text: nothing while loading. */
    function Listed(query: string): (r: seq<UserProfile>)
      reads this
      ensures isLoading ==> r == []
      ensures !isLoading ==> forall p :: p in r <==> p in profiles && MatchesDiscoverySearch(p, query)
    {
      if isLoading then [] else SearchDiscovery(profiles, query)
    }

    /** The item's save button: union-add the profile's id; on success drop
        that user's profiles from the list, on failure keep it. Without a
        signed-in user nothing happens. */
    method SaveContact(currentUser: Option<string>, profile: UserProfile, store: Store, writeOk: bool)
      returns (store': Store)
      modifies this
      ensures isLoading == old(isLoading) && selected == old(selected)
      ensures currentUser.None? ==> store' == store && profiles == old(profiles)
      ensures currentUser.Some? ==>
        var w := UpdateUnion(store, currentUser.value, SavedContactsKey, Str(profile.userId), writeOk);
        store' == w.store && profiles == (if w.ok then WithoutUser(old(profiles), profile.userId) else old(profiles))
    {
      store' := store;
      if currentUser.Some? {
        var w := UpdateUnion(store, currentUser.value, SavedContactsKey, Str(profile.userId), writeOk);
        store' := w.store;
        if w.ok {
          profiles := WithoutUser(profiles, profile.userId);
        }
      }
    }

    /** Tapping an item opens its card. */
    method Select(p: UserProfile)
      modifies this
      ensures selected == Some(p) && profiles == old(profiles) && isLoading == old(isLoading)
    {
      selected := Some(p);
    }

    /** The close button dismisses the card. */
    method CloseDetail()
      modifies this
      ensures selected.None? && profiles == old(profiles) && isLoading == old(isLoading)
    {
      selected := None;
    }
  }
}
