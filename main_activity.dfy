/** The deep-link resolver of the main activity, the start-destination
    override it drives, and the bottom-bar tab selection. */
module MainActivity {
  import opened Wrappers
  import opened Seqs
  import opened Documents
  import opened Store
  import opened Uris
  import opened MyCardScreen

  /** How a deep link ends: ignored without a callback, refused for want of a
      signed-in user, already saved, saved, or failed (read or write). */
  datatype DeepLinkOutcome = Ignored | NoAuth | AlreadySaved | Saved | Failed

  /** A store access issued by the resolver, in order. */
  datatype StoreOp = ReadDoc(id: string) | UnionWrite(id: string, target: string)

  datatype DeepLinkResult = DeepLinkResult(outcome: DeepLinkOutcome, store: Store, ops: seq<StoreOp>)

  /** The value handed to `onContactSaved`, or None when it is never called. */
  function Callback(o: DeepLinkOutcome): (r: Option<bool>)
    ensures r.None? <==> o == Ignored
    ensures r == Some(true) <==> o == AlreadySaved || o == Saved
    ensures r == Some(false) <==> o == NoAuth || o == Failed
  {
    match o
    case Ignored => None
    case NoAuth => Some(false)
    case AlreadySaved => Some(true)
    case Saved => Some(true)
    case Failed => Some(false)
  }

  predicate IsProfileLink(u: Uri)
  {
    u.scheme == Some("network") && u.host == Some("profile")
  }

  /** The user id a link designates: present only for a "network://profile"
      link that has a last path segment. */
  function LinkTarget(data: Option<string>): (t: Option<string>)
    ensures t.Some? ==> data.Some? && IsProfileLink(Parse(data.value)) && LastPathSegment(Parse(data.value)) == t
    ensures data.Some? && IsProfileLink(Parse(data.value)) && LastPathSegment(Parse(data.value)).Some? ==> t.Some?
  {
    if data.None? then None
    else
      var u := Parse(data.value);
      if IsProfileLink(u) then LastPathSegment(u) else None
  }

  /** `handleDeepLink`: the intent data, the signed-in user, the store and
      whether the read and the write succeed are its inputs. */
  function HandleDeepLink(data: Option<string>, currentUser: Option<string>, store: Store,
                          readOk: bool, writeOk: bool): (r: DeepLinkResult)
    ensures r.store != store ==> r.outcome == Saved
    ensures r.outcome == Ignored || r.outcome == NoAuth ==> r.ops == []
    ensures r.outcome == Ignored <==> LinkTarget(data).None?
  {
    match LinkTarget(data)
    case None => DeepLinkResult(Ignored, store, [])
    case Some(target) =>
      match currentUser
      case None => DeepLinkResult(NoAuth, store, [])
      case Some(uid) =>
        match Read(store, uid, readOk)
        case ReadFailed => DeepLinkResult(Failed, store, [ReadDoc(uid)])
        case Snapshot(doc) =>
          if Str(target) in SavedContactsOf(doc) then
            DeepLinkResult(AlreadySaved, store, [ReadDoc(uid)])
          else
            var w := UpdateUnion(store, uid, SavedContactsKey, Str(target), writeOk);
            DeepLinkResult(if w.ok then Saved else Failed, w.store, [ReadDoc(uid), UnionWrite(uid, target)])
  }

  /** No data, a link that is not "network://profile", or no last segment:
      no store access, no write, no callback. */
  lemma DeepLinkIgnored(data: Option<string>, currentUser: Option<string>, store: Store, readOk: bool, writeOk: bool)
    requires data.None? || !IsProfileLink(Parse(data.value)) || LastPathSegment(Parse(data.value)).None?
    ensures var r := HandleDeepLink(data, currentUser, store, readOk, writeOk);
      r.outcome == Ignored && r.ops == [] && r.store == store && Callback(r.outcome).None?
  {
  }

  /** With no signed-in user the callback gets false and the store is not touched. */
  lemma DeepLinkWithoutUser(data: Option<string>, store: Store, readOk: bool, writeOk: bool)
    requires LinkTarget(data).Some?
    ensures var r := HandleDeepLink(data, None, store, readOk, writeOk);
      r.outcome == NoAuth && r.ops == [] && r.store == store && Callback(r.outcome) == Some(false)
  {
  }

  /** A failed read of the user's document reports false and writes nothing. */
  lemma DeepLinkReadFailure(data: Option<string>, uid: string, store: Store, writeOk: bool)
    requires LinkTarget(data).Some?
    ensures var r := HandleDeepLink(data, Some(uid), store, false, writeOk);
      r.outcome == Failed && r.ops == [ReadDoc(uid)] && r.store == store && Callback(r.outcome) == Some(false)
  {
  }

  /** A target already in SavedContacts reports true and nothing is written. */
  lemma DeepLinkAlreadySaved(data: Option<string>, uid: string, store: Store, writeOk: bool)
    requires LinkTarget(data).Some? && Str(LinkTarget(data).value) in SavedContactsIn(store, uid)
    ensures var r := HandleDeepLink(data, Some(uid), store, true, writeOk);
      r.outcome == AlreadySaved && r.ops == [ReadDoc(uid)] && r.store == store && Callback(r.outcome) == Some(true)
  {
  }

  /** Otherwise the target is union-added: the callback reports whether the
      write went through, and after a successful one the target is saved. */
  lemma DeepLinkUnionAdds(data: Option<string>, uid: string, store: Store, writeOk: bool)
    requires LinkTarget(data).Some? && Str(LinkTarget(data).value) !in SavedContactsIn(store, uid)
    ensures var target := LinkTarget(data).value;
      var r := HandleDeepLink(data, Some(uid), store, true, writeOk);
      && r.ops == [ReadDoc(uid), UnionWrite(uid, target)]
      && r.store == UpdateUnion(store, uid, SavedContactsKey, Str(target), writeOk).store
      && (r.outcome == Saved <==> writeOk && uid in store)
      && (r.outcome != Saved ==> r.outcome == Failed && r.store == store)
      && Callback(r.outcome) == Some(writeOk && uid in store)
      && (r.outcome == Saved ==> Str(target) in SavedContactsIn(r.store, uid))
  {
    UpdateUnionSaves(store, uid, Str(LinkTarget(data).value), writeOk);
  }

  /** The characters that would end the segment or the path inside a link,
      and '%', which `getLastPathSegment` would percent-decode. */
  const LinkStops: set<char> := {'/', '?', '#', '%'}

  /** An id that survives the trip through a share link: on such an id
      percent-decoding changes nothing, so the undecoded segment the model
      reads is also the one Android returns. */
  predicate LinkSafe(id: string)
  {
    id != [] && forall i :: 0 <= i < |id| ==> id[i] !in LinkStops
  }

  /** A link to the user's own id is not rejected: it is saved like any other. */
  lemma DeepLinkOwnIdSaved(uid: string, store: Store)
    requires LinkSafe(uid)
    requires uid in store && Str(uid) !in SavedContactsIn(store, uid)
    ensures var r := HandleDeepLink(Some(ShareLink(uid)), Some(uid), store, true, true);
      r.outcome == Saved && Str(uid) in SavedContactsIn(r.store, uid)
  {
    ShareLinkResolves(uid);
    DeepLinkUnionAdds(Some(ShareLink(uid)), uid, store, true);
  }

  /** The authority and path of "//profile/" + id. */
  lemma ProfileAuthority(id: string)
    requires LinkSafe(id)
    ensures HostOf("//profile/" + id) == Some("profile")
    ensures PathOf("//profile/" + id, true) == Some("/" + id)
  {
    var rest := "//profile/" + id;
    var auth := rest[2..];
    assert auth == "profile" + ("/" + id);
    IndexOfAnyAt("profile", "/" + id, {'/', '?', '#'});
    var tail := auth[7..];
    assert tail == "/" + id;
    assert forall i :: 0 <= i < |tail| ==> tail[i] !in {'?', '#'} by {
      forall i | 0 <= i < |tail| ensures tail[i] !in {'?', '#'} {
        if i > 0 { assert tail[i] == id[i - 1]; }
      }
    }
    assert tail == tail + [];
    IndexOfAnyAt(tail, [], {'?', '#'});
  }

  /** The scheme of a share link ends at its first ':'. */
  lemma ShareLinkScheme(id: string)
    ensures var s := ShareLink(id);
      IndexOfAny(s, {':'}) == 7 && s[..7] == "network" && s[8..] == "//profile/" + id
  {
    var s := ShareLink(id);
    assert s == "network" + ("://profile/" + id);
    IndexOfAnyAt("network", "://profile/" + id, {':'});
  }

  /** Round trip: the link MyCard shares for a link-safe id parses as a
      profile link whose last segment is that id. */
  lemma ShareLinkParses(id: string)
    requires LinkSafe(id)
    ensures var u := Parse(ShareLink(id));
      u.scheme == Some("network") && u.host == Some("profile") && LastPathSegment(u) == Some(id)
  {
    ShareLinkScheme(id);
    ProfileAuthority(id);
    assert '/' !in id by {
      forall i | 0 <= i < |id| ensures id[i] != '/' { assert id[i] !in LinkStops; }
    }
    assert "" + "/" + id == "/" + id;
    LastSegmentAfterSlash("", id);
  }

  /** The shared link designates exactly the id it was made from. */
  lemma ShareLinkResolves(id: string)
    requires LinkSafe(id)
    ensures LinkTarget(Some(ShareLink(id))) == Some(id)
  {
    ShareLinkParses(id);
  }

  // ---- Start destination -----------------------------------------------------

  const MyCardRoute := "myCard"
  const DiscoveryRoute := "discovery"
  const ContactsRoute := "contacts"
  const SettingsRoute := "settings"

  /** The routes of the bottom bar, in the order the items are drawn. */
  const NavRoutes: seq<string> := [MyCardRoute, DiscoveryRoute, ContactsRoute, SettingsRoute]

  /** The activity's `navigateToContactsState`. */
  class MainActivityState {
    var navigateToContacts: bool

    /** The state is created false. */
    constructor ()
      ensures !navigateToContacts
    {
      navigateToContacts := false;
    }

    /** The callback passed to `handleDeepLink`: only a true outcome sets the flag, nothing clears it. */
    method OnContactSaved(contactAdded: bool)
      modifies this
      ensures navigateToContacts == (old(navigateToContacts) || contactAdded)
    {
      if contactAdded {
        navigateToContacts := true;
      }
    }

    /** One deep link handled, and its callback (if any) applied. */
    method ReceiveDeepLink(data: Option<string>, currentUser: Option<string>, store: Store,
                           readOk: bool, writeOk: bool) returns (store': Store)
      modifies this
      ensures store' == HandleDeepLink(data, currentUser, store, readOk, writeOk).store
      ensures navigateToContacts ==
        (old(navigateToContacts) || Callback(HandleDeepLink(data, currentUser, store, readOk, writeOk).outcome) == Some(true))
    {
      var r := HandleDeepLink(data, currentUser, store, readOk, writeOk);
      store' := r.store;
      match Callback(r.outcome)
      case None =>
      case Some(added) => OnContactSaved(added);
    }

    /** The override handed to the bottom-bar screen. */
    function StartDestinationOverride(): (o: Option<string>)
      reads this
      ensures o.Some? <==> navigateToContacts
      ensures o.Some? ==> o.value == ContactsRoute
    {
      if navigateToContacts then Some(ContactsRoute) else None
    }

    /** The navigation host's start destination: Contacts once a deep link
        reported true, MyCard otherwise. */
    function StartRoute(): (route: string)
      reads this
      ensures navigateToContacts ==> route == ContactsRoute
      ensures !navigateToContacts ==> route == MyCardRoute
    {
      StartDestination(StartDestinationOverride())
    }
  }

  /** `startDestinationOverride ?: MyCard.route`. */
  function StartDestination(override: Option<string>): (route: string)
    ensures override.Some? ==> route == override.value
    ensures override.None? ==> route == MyCardRoute
  {
    override.GetOr(MyCardRoute)
  }

  // ---- Tab selection ---------------------------------------------------------

  function RouteIs(current: Option<string>): string -> bool
  {
    route => current == Some(route)
  }

  /** `indexOfFirst { it.route == currentRoute }.takeIf { it >= 0 } ?: 0`. */
  function SelectedTab(current: Option<string>): (i: nat)
    ensures i < |NavRoutes|
    ensures current.Some? && current.value in NavRoutes ==>
      NavRoutes[i] == current.value && forall j :: 0 <= j < i ==> NavRoutes[j] != current.value
    ensures (current.None? || current.value !in NavRoutes) ==> i == 0
  {
    var k := IndexOfFirst(NavRoutes, RouteIs(current));
    if k >= 0 then k else 0
  }
}
