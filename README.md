# Network contact cards, modelled in Dafny

The app is an Android contact-card directory. Users keep one profile document in the Firestore collection
"UserProfiles", share it as a `network://profile/<id>` link and QR code, browse the Public profiles on a
Discovery screen, and keep the profiles they saved on a Contacts screen. The document's `SavedContacts`
array holds the saved ids. This project models the rules buried in the screens' callbacks:

- decoding a profile document (`UserProfile.fromMap`);
- the saved-contacts set operations (`arrayUnion`, `filterNot`) and the local lists that mirror them;
- the Discovery directory filter and the Contacts hydration filter, with their two different search filters;
- the deep-link resolver and the share link it round-trips with;
- the QR bitmap fill loop;
- the document the profile form builds, with the S3 image key and URL;
- the password, sign-up and login checks and the routing after sign-in;
- the start-destination override and the bottom-bar tab index.

The remote store is a value `map<string, Doc>` from user id to document. A document's values are
`Str | Obj | Lst | Other`, so Kotlin's `as? String` becomes "only `Str` yields a string". Whether a
read, query, write, upload or sign-in succeeds is an input. So are the documents a query returns;
ghost predicates (`IsPublicQuery`, `IsLookupResult`) tie them to the store. Screen state that the
Kotlin code reassigns in callbacks (`profiles`, `contacts`, `isLoading`, `selectedProfile`, the
settings fields, `navigateToContactsState`, the setup activity's carried-over fields) lives in classes
whose methods update it. The QR fill writes a fresh `array2<int>`.

Modules, one per Kotlin file of the core, plus helpers:

- `Wrappers`: Option.
- `Text`: Kotlin `isWhitespace`, `trim`, `isBlank`, `joinToString`, and `contains(ignoreCase = true)`.
- `Seqs`: order-preserving filter, subsequence, `indexOfFirst`.
- `Documents`: loosely typed document values.
- `Store`: Firestore reads and writes.
- `Uris`: the part of `android.net.Uri` the resolver reads.
- `UserProfiles`, `DiscoveryScreen`, `ContactsScreen`, `MainActivity`, `MyCardScreen`, `ProfileSetupActivity`,
  `SettingsScreen`, `SignUpActivity`, `AuthenticationActivity`.

Firestore semantics assumed:

- `update` of a missing document fails; a failed write changes nothing.
- `arrayUnion` appends only an absent element; on a field that is not an array it sets `[x]`.
- `set` replaces the whole document.
- a successful `get` of a missing document gives a null snapshot.

Where the model departs from the code:

- `ProfileSetupActivity.ProfileSetup.SaveUserProfile` writes through the corrected
  `SaveToFirestore` (see Findings). The code as written is modelled by `SetAsWritten`.
- Discovery and saved-contact items show the corrected `ItemLocation` (`DiscoveryListItem`). The code as written is modelled by `ItemLocationAsWritten` and `ListItemAsWritten`.

## Model

| member | source | states |
|---|---|---|
| UserProfiles.FromMap | app/src/main/java/org/classapp/network/UserProfile.kt:26-53 | null data gives null and only null data does; otherwise the record carries exactly the supplied id and a non-null visibility |
| UserProfiles.Decode | app/src/main/java/org/classapp/network/UserProfile.kt:30-52 | the decoded record of a present document carries exactly the supplied id |
| UserProfiles.DecodeKeepsId | app/src/main/java/org/classapp/network/UserProfile.kt:31-32 | for every non-null document `fromMap` is non-null, and its userId is the supplied one whatever the data holds |
| UserProfiles.AbsentTopLevelStringsAreEmpty | app/src/main/java/org/classapp/network/UserProfile.kt:33-35 | fullName, career and organization that are absent or not strings decode to "" |
| UserProfiles.PresentTopLevelStrings | app/src/main/java/org/classapp/network/UserProfile.kt:33-35 | a top-level field holding a string decodes to exactly that string |
| UserProfiles.MissingNestedMapsGiveEmptyFields | app/src/main/java/org/classapp/network/UserProfile.kt:28-49 | with no "contact" map all twelve channels are "", with no "location" map city and country are "" |
| UserProfiles.ChannelFromContactMap | app/src/main/java/org/classapp/network/UserProfile.kt:28-47 | each channel is read from the nested "contact" map under its own key, never from the top level |
| UserProfiles.ContactChannelDecoding | app/src/main/java/org/classapp/network/UserProfile.kt:28-47 | a channel is the nested string when there is one and "" otherwise |
| UserProfiles.DecodeReadsOnlyItsKeys | app/src/main/java/org/classapp/network/UserProfile.kt:26-53 | documents agreeing on the seven keys the decoder names decode alike; other fields (SavedContacts) are ignored |
| UserProfiles.ProfileImageDecoding | app/src/main/java/org/classapp/network/UserProfile.kt:50 | profileImage is non-null exactly when a string is stored, and is then that string; it never defaults to "" |
| UserProfiles.VisibilityDecoding | app/src/main/java/org/classapp/network/UserProfile.kt:51 | visibility is the stored string, or "Public" when missing or not a string, although the constructor default is "" |
| UserProfiles.ProfileIds | app/src/main/java/org/classapp/network/DiscoveryScreen.kt:132 | the ids of a profile list, index by index |
| UserProfiles.WithoutUser | app/src/main/java/org/classapp/network/DiscoveryScreen.kt:132 | a profile is kept exactly when it was listed and its userId differs from the removed id |
| UserProfiles.WithoutUserSubsequence | app/src/main/java/org/classapp/network/DiscoveryScreen.kt:132 | the profiles left keep their order |
| UserProfiles.WithoutAbsentUser | app/src/main/java/org/classapp/network/ContactsScreen.kt:62 | removing an id not in the list leaves the list unchanged |
| Documents.StringField | app/src/main/java/org/classapp/network/UserProfile.kt:33 | `as? String` yields a value exactly when the stored value is a string |
| Documents.MapField | app/src/main/java/org/classapp/network/UserProfile.kt:28-29 | `as? Map` yields a value exactly when the stored value is a map |
| Documents.ListField | app/src/main/java/org/classapp/network/DiscoveryScreen.kt:55 | `as? List` yields a value exactly when the stored value is a list |
| Documents.NestedString | app/src/main/java/org/classapp/network/UserProfile.kt:36-49 | a string read through a map that may be missing: the string, or "" for a missing map, key or non-string |
| Store.Read | app/src/main/java/org/classapp/network/ContactsScreen.kt:73-75 | a failed read is reported as such; a snapshot holds the document exactly when it exists |
| Store.SavedContactsOf | app/src/main/java/org/classapp/network/ContactsScreen.kt:75 | a null snapshot, a missing field or a non-list field give the empty list; a list is taken as stored |
| Store.ArrayUnion | app/src/main/java/org/classapp/network/DiscoveryScreen.kt:245 | the result holds exactly the old elements and the new one, extends the old list, and equals it when the element was already present |
| Store.ArrayUnionIdempotent | app/src/main/java/org/classapp/network/DiscoveryScreen.kt:245 | adding the same id twice is adding it once |
| Store.ArrayUnionKeepsDistinct | app/src/main/java/org/classapp/network/DiscoveryScreen.kt:245 | a list without duplicates stays without duplicates |
| Store.RemoveAll | app/src/main/java/org/classapp/network/ContactsScreen.kt:58 | the id is absent afterwards and every other element's membership is unchanged |
| Store.RemoveAllSubsequence | app/src/main/java/org/classapp/network/ContactsScreen.kt:58 | the remaining elements keep their order |
| Store.RemoveAllIdempotent | app/src/main/java/org/classapp/network/ContactsScreen.kt:58 | removing twice equals removing once |
| Store.RemoveAllAbsent | app/src/main/java/org/classapp/network/ContactsScreen.kt:58 | removing an absent id changes nothing |
| Store.UnionThenRemove | app/src/main/java/org/classapp/network/ContactsScreen.kt:58 | saving an unsaved id and then removing it gives the original list |
| Store.Update | app/src/main/java/org/classapp/network/ContactsScreen.kt:60 | the write succeeds exactly when allowed and the document exists; it sets one field and nothing else, and a failure changes nothing |
| Store.UpdateUnion | app/src/main/java/org/classapp/network/DiscoveryScreen.kt:245 | the union write succeeds exactly when allowed and the document exists; a failure changes nothing |
| Store.UpdateUnionSaves | app/src/main/java/org/classapp/network/DiscoveryScreen.kt:245 | after a successful union the id is in SavedContacts, nothing else is touched, and the list is the union |
| Store.UpdateUnionIdempotent | app/src/main/java/org/classapp/network/DiscoveryScreen.kt:245 | saving an id already saved writes back the same store |
| Store.Set | app/src/main/java/org/classapp/network/ProfileSetupActivity.kt:346 | a successful set replaces the whole document; a failure changes nothing |
| Store.DocIds | app/src/main/java/org/classapp/network/ContactsScreen.kt:88 | the ids of a query's documents, index by index |
| DiscoveryScreen.Directory | app/src/main/java/org/classapp/network/DiscoveryScreen.kt:61-69 | no listed profile is the current user's or a saved one, and the list is no longer than the query result |
| DiscoveryScreen.DirectoryIdsCons | app/src/main/java/org/classapp/network/DiscoveryScreen.kt:61-69 | the ids listed for a query result are the first document's id when it is neither the user's nor saved, then the ids listed for the rest |
| DiscoveryScreen.DirectoryIds | app/src/main/java/org/classapp/network/DiscoveryScreen.kt:62-65 | a queried id is listed exactly when it is neither the current user's nor in SavedContacts |
| DiscoveryScreen.DirectoryDecodes | app/src/main/java/org/classapp/network/DiscoveryScreen.kt:66 | each listed profile is `fromMap` of the query document it came from |
| DiscoveryScreen.DirectorySubsequence | app/src/main/java/org/classapp/network/DiscoveryScreen.kt:61-69 | the listed ids are an order-preserving subsequence of the query result |
| DiscoveryScreen.DirectoryOnlyPublic | app/src/main/java/org/classapp/network/DiscoveryScreen.kt:58-59 | with the Public query, every listed profile decodes with visibility "Public" from the stored document |
| DiscoveryScreen.DirectoryComplete | app/src/main/java/org/classapp/network/DiscoveryScreen.kt:58-69 | with the Public query, every Public profile other than the user's own and the saved ones is listed |
| DiscoveryScreen.SearchDiscovery | app/src/main/java/org/classapp/network/DiscoveryScreen.kt:118-124 | a profile is kept exactly when the query occurs, ignoring case, in its name, organization, career, city or country |
| DiscoveryScreen.SearchDiscoverySubsequence | app/src/main/java/org/classapp/network/DiscoveryScreen.kt:118-124 | the search keeps list order |
| DiscoveryScreen.EmptyDiscoverySearchKeepsAll | app/src/main/java/org/classapp/network/DiscoveryScreen.kt:118-124 | an empty query keeps every profile |
| DiscoveryScreen.SavedIdLeavesDirectory | app/src/main/java/org/classapp/network/DiscoveryScreen.kt:55-65 | after a successful save the saved id is not in any later directory |
| DiscoveryScreen.ItemLocationAsWritten | app/src/main/java/org/classapp/network/DiscoveryScreen.kt:235-238 | the item's location as written always joins city and country with ", " |
| DiscoveryScreen.ItemLocationAsWrittenShowsSeparator | app/src/main/java/org/classapp/network/DiscoveryScreen.kt:235-238 | as written, a profile with no city and no country shows ", " |
| DiscoveryScreen.ItemLocation | app/src/main/java/org/classapp/network/DiscoveryScreen.kt:235-238 | corrected: blank exactly when both parts are blank; the non-blank parts only, joined by ", " when both are present |
| DiscoveryScreen.NotBlankText | app/src/main/java/org/classapp/network/DiscoveryScreen.kt:227-233 | the `isNullOrBlank` guard: a line is drawn exactly for non-blank text, and shows that text |
| DiscoveryScreen.ListItemAsWritten | app/src/main/java/org/classapp/network/DiscoveryScreen.kt:202-238 | as written: the photo under the card's rule, the name, career and organization only when non-blank, and the location line city + ", " + country always drawn |
| DiscoveryScreen.DiscoveryListItem | app/src/main/java/org/classapp/network/DiscoveryScreen.kt:202-238 | corrected: the same item except the location line, drawn exactly when city or country is non-blank and then the card's location line |
| DiscoveryScreen.ListItemsAgreeWithBothParts | app/src/main/java/org/classapp/network/DiscoveryScreen.kt:235-238 | with both city and country non-blank the item as written and the corrected one are equal |
| DiscoveryScreen.BlankCareerOnlyOnCard | app/src/main/java/org/classapp/network/DiscoveryScreen.kt:227-229 | a career of only spaces is drawn on the card (`isNullOrEmpty`) but not on the list item (`isNullOrBlank`) |
| DiscoveryScreen.DiscoveryState.constructor | app/src/main/java/org/classapp/network/DiscoveryScreen.kt:41-44 | the screen opens with no profiles, loading, and no card open |
| DiscoveryScreen.DiscoveryState.Load | app/src/main/java/org/classapp/network/DiscoveryScreen.kt:48-82 | no user: nothing changes; otherwise loading ends, and the list becomes the directory only when read and query both succeed |
| DiscoveryScreen.DiscoveryState.Listed | app/src/main/java/org/classapp/network/DiscoveryScreen.kt:113-127 | while loading nothing is listed; then exactly the profiles that match the search |
| DiscoveryScreen.DiscoveryState.SaveContact | app/src/main/java/org/classapp/network/DiscoveryScreen.kt:241-254 | no user: nothing happens; otherwise the union write is issued, and only on success are exactly that id's profiles dropped, the rest keeping order |
| DiscoveryScreen.DiscoveryState.Select | app/src/main/java/org/classapp/network/DiscoveryScreen.kt:130 | tapping an item opens its card and changes nothing else |
| DiscoveryScreen.DiscoveryState.CloseDetail | app/src/main/java/org/classapp/network/DiscoveryScreen.kt:165 | closing the card changes nothing else |
| ContactsScreen.Hydrate | app/src/main/java/org/classapp/network/ContactsScreen.kt:87-92 | no hydrated profile is the current user's, and the list is no longer than the lookup result |
| ContactsScreen.HydrateIds | app/src/main/java/org/classapp/network/ContactsScreen.kt:87-92 | a looked-up id is listed exactly when it is not the current user's |
| ContactsScreen.HydratedAreResolvable | app/src/main/java/org/classapp/network/ContactsScreen.kt:83-92 | every hydrated contact is a saved id that resolves to a document and is not the user's own |
| ContactsScreen.HydrateComplete | app/src/main/java/org/classapp/network/ContactsScreen.kt:83-92 | every saved id that resolves, other than the user's own, is listed |
| ContactsScreen.LookupIdIsResolvable | app/src/main/java/org/classapp/network/ContactsScreen.kt:83-86 | when one saved id resolves and the other dangles, every looked-up document is the resolvable one |
| ContactsScreen.DanglingIdDropped | app/src/main/java/org/classapp/network/ContactsScreen.kt:83-92 | a saved id without a document is silently dropped: one resolvable and one dangling id give one contact |
| ContactsScreen.SearchContacts | app/src/main/java/org/classapp/network/ContactsScreen.kt:142-146 | a profile is kept exactly when the query occurs, ignoring case, in its name, organization or career |
| ContactsScreen.SearchContactsSubsequence | app/src/main/java/org/classapp/network/ContactsScreen.kt:142-146 | the search keeps list order |
| ContactsScreen.ContactsSearchNarrower | app/src/main/java/org/classapp/network/ContactsScreen.kt:142-146 | whatever the Contacts search finds, the Discovery search finds too |
| ContactsScreen.CityOnlyFoundByDiscovery | app/src/main/java/org/classapp/network/ContactsScreen.kt:142-146 | a profile matched only by its city is found on Discovery and not on Contacts |
| ContactsScreen.ConfirmSwipe | app/src/main/java/org/classapp/network/ContactsScreen.kt:151-156 | a swipe in either direction removes the contact; the settled state does not |
| ContactsScreen.RemoveWrite | app/src/main/java/org/classapp/network/ContactsScreen.kt:57-60 | the removal write succeeds exactly when allowed and the document exists; a failure changes nothing |
| ContactsScreen.RemoveWriteEffect | app/src/main/java/org/classapp/network/ContactsScreen.kt:57-60 | after a successful removal the id is gone, the rest keep their order, and other documents are untouched |
| ContactsScreen.RemoveWriteIdempotent | app/src/main/java/org/classapp/network/ContactsScreen.kt:58 | removing twice leaves the store as removing once |
| ContactsScreen.SaveThenRemoveRestores | app/src/main/java/org/classapp/network/ContactsScreen.kt:58 | saving an unsaved id and removing it restores the saved list |
| ContactsScreen.ContactsState.constructor | app/src/main/java/org/classapp/network/ContactsScreen.kt:45-47 | the screen opens with no contacts, loading, and no card open |
| ContactsScreen.ContactsState.Load | app/src/main/java/org/classapp/network/ContactsScreen.kt:70-105 | no user: nothing; an empty or missing SavedContacts gives no contacts and no lookup; otherwise the list is the hydration of the lookup when it succeeds |
| ContactsScreen.ContactsState.Listed | app/src/main/java/org/classapp/network/ContactsScreen.kt:137-146 | while loading nothing is listed; then exactly the contacts that match the search |
| ContactsScreen.ContactsState.RemoveContact | app/src/main/java/org/classapp/network/ContactsScreen.kt:50-68 | no user or a failed read: nothing; otherwise the filtered list is written back, and only on success are exactly that id's profiles dropped |
| ContactsScreen.ContactsState.OnSwipe | app/src/main/java/org/classapp/network/ContactsScreen.kt:151-156 | a swipe is accepted exactly when it goes either way, and then runs the removal; the settled state changes nothing |
| ContactsScreen.ContactsState.Select | app/src/main/java/org/classapp/network/ContactsScreen.kt:187 | tapping a row opens its card and changes nothing else |
| ContactsScreen.ContactsState.CloseDetail | app/src/main/java/org/classapp/network/ContactsScreen.kt:220 | closing the card changes nothing else |
| MainActivity.Callback | app/src/main/java/org/classapp/network/MainActivity.kt:63-112 | the callback is skipped exactly for an ignored link, gets true for already saved or saved, false for no user or a failure |
| MainActivity.LinkTarget | app/src/main/java/org/classapp/network/MainActivity.kt:64-66 | a target exists exactly for data whose scheme is "network", host is "profile" and last path segment exists, and is that segment |
| MainActivity.HandleDeepLink | app/src/main/java/org/classapp/network/MainActivity.kt:63-112 | the store changes only on Saved; an ignored link or a missing user issues no store access; a link is ignored exactly when it has no target |
| MainActivity.DeepLinkIgnored | app/src/main/java/org/classapp/network/MainActivity.kt:64-66 | no data, a non-profile link or no last segment: no read, no write, no callback |
| MainActivity.DeepLinkWithoutUser | app/src/main/java/org/classapp/network/MainActivity.kt:68-73 | no signed-in user: false, and no store access |
| MainActivity.DeepLinkReadFailure | app/src/main/java/org/classapp/network/MainActivity.kt:103-110 | a failed read: false, one read and no write |
| MainActivity.DeepLinkAlreadySaved | app/src/main/java/org/classapp/network/MainActivity.kt:78-84 | a target already saved: true, and nothing written |
| MainActivity.DeepLinkUnionAdds | app/src/main/java/org/classapp/network/MainActivity.kt:86-100 | otherwise the target is union-added; the callback reports whether the write went through, and after success the target is saved |
| MainActivity.DeepLinkOwnIdSaved | app/src/main/java/org/classapp/network/MainActivity.kt:68-92 | a link to the user's own id is saved like any other id |
| MainActivity.ProfileAuthority | app/src/main/java/org/classapp/network/MainActivity.kt:65 | the text after "network:" of a share link has host "profile" and path "/" + id |
| MainActivity.ShareLinkScheme | app/src/main/java/org/classapp/network/MyCardScreen.kt:272 | a share link's scheme ends at its first ':' and is "network", followed by "//profile/" and the id |
| MainActivity.ShareLinkParses | app/src/main/java/org/classapp/network/MyCardScreen.kt:272 | round trip: a share link for a non-empty id without '/', '?', '#' or '%' parses with scheme "network", host "profile" and last segment the id |
| MainActivity.ShareLinkResolves | app/src/main/java/org/classapp/network/MainActivity.kt:64-66 | the resolver's target for a share link is exactly the id it was made from |
| MainActivity.MainActivityState.constructor | app/src/main/java/org/classapp/network/MainActivity.kt:32 | the override flag starts false |
| MainActivity.MainActivityState.OnContactSaved | app/src/main/java/org/classapp/network/MainActivity.kt:44-47 | only a true outcome sets the flag, and nothing clears it |
| MainActivity.MainActivityState.ReceiveDeepLink | app/src/main/java/org/classapp/network/MainActivity.kt:44-47 | the store becomes the resolver's; the flag is set exactly when the callback got true |
| MainActivity.MainActivityState.StartDestinationOverride | app/src/main/java/org/classapp/network/MainActivity.kt:38-39 | the override is the Contacts route exactly when the flag is set |
| MainActivity.MainActivityState.StartRoute | app/src/main/java/org/classapp/network/MainActivity.kt:198 | the start destination is Contacts after a true outcome and MyCard otherwise |
| MainActivity.StartDestination | app/src/main/java/org/classapp/network/MainActivity.kt:198 | a given override wins; otherwise MyCard |
| MainActivity.SelectedTab | app/src/main/java/org/classapp/network/MainActivity.kt:125-126 | the index of the first nav route equal to the current route, or 0 when none matches or there is no route |
| MyCardScreen.ShareLink | app/src/main/java/org/classapp/network/MyCardScreen.kt:272 | the link is "network://profile/" followed by exactly the user id |
| MyCardScreen.ShareLinkInjective | app/src/main/java/org/classapp/network/MyCardScreen.kt:272 | different users get different links |
| MyCardScreen.PixelFor | app/src/main/java/org/classapp/network/MyCardScreen.kt:407-408 | BLACK exactly for a set bit, WHITE exactly for a clear one |
| MyCardScreen.GenerateQrCode | app/src/main/java/org/classapp/network/MyCardScreen.kt:401-412 | a fresh size×size bitmap in which every pixel is BLACK iff its matrix bit is set, WHITE otherwise |
| MyCardScreen.ShareDialogQr | app/src/main/java/org/classapp/network/MyCardScreen.kt:324 | the QR content and the copied link are the same share link, and the bitmap is 512×512 |
| MyCardScreen.LocationLine | app/src/main/java/org/classapp/network/MyCardScreen.kt:174-179 | the non-blank parts of city and country joined by ", "; "" exactly when both are blank |
| MyCardScreen.NotBlankPrefix | app/src/main/java/org/classapp/network/MyCardScreen.kt:174-179 | a text starting with a non-blank part is non-blank |
| MyCardScreen.IfBlankEmpty | app/src/main/java/org/classapp/network/MyCardScreen.kt:179 | `ifBlank { "" }`: "" for blank text, the text otherwise |
| MyCardScreen.ShownRows | app/src/main/java/org/classapp/network/MyCardScreen.kt:170-188 | every drawn row is one of the card's channels, with non-empty text |
| MyCardScreen.ShownRowsIff | app/src/main/java/org/classapp/network/MyCardScreen.kt:216-220 | a channel's row is drawn exactly when its text is non-empty |
| MyCardScreen.LocationRowShownIff | app/src/main/java/org/classapp/network/MyCardScreen.kt:174-179 | the location row is drawn exactly when city or country is non-blank |
| MyCardScreen.ShownRowsSubsequence | app/src/main/java/org/classapp/network/MyCardScreen.kt:170-188 | the drawn rows keep the card's order |
| MyCardScreen.NonEmpty | app/src/main/java/org/classapp/network/MyCardScreen.kt:220 | the `isNullOrEmpty` guard: text is drawn exactly when non-null and non-empty, and unchanged |
| MyCardScreen.StoredKey | app/src/main/java/org/classapp/network/MyCardScreen.kt:170-187 | each channel row other than the location reads one of the twelve stored contact keys |
| MyCardScreen.CardShowsEveryStoredChannel | app/src/main/java/org/classapp/network/MyCardScreen.kt:170-187 | every stored contact key has its own row on the card |
| MyCardScreen.RowText | app/src/main/java/org/classapp/network/MyCardScreen.kt:170-187 | a channel row shows the profile's value for its stored key; the location row's text is empty exactly when city and country are blank |
| MyCardScreen.ChannelRowShownIff | app/src/main/java/org/classapp/network/MyCardScreen.kt:170-187 | the row of a stored channel is drawn exactly when the profile's value for its key is non-empty |
| MyCardScreen.CardHeaderOf | app/src/main/java/org/classapp/network/MyCardScreen.kt:141-166 | photo and spacer exactly for a non-empty image URL, the name always, career and organization exactly when non-empty, each with its text |
| MyCardScreen.StoredCardHeader | app/src/main/java/org/classapp/network/MyCardScreen.kt:141-166 | for a stored document, the photo, career and organization lines are drawn exactly when their field holds a non-empty string |
| ProfileSetupActivity.AddIfNotEmpty | app/src/main/java/org/classapp/network/ProfileSetupActivity.kt:248-253 | the key is set to the trimmed text when that is non-empty; otherwise the map is unchanged |
| ProfileSetupActivity.ContactDetailsOverHolds | app/src/main/java/org/classapp/network/ProfileSetupActivity.kt:250-266 | for distinct keys, the map built key by key holds only those keys, holds a key exactly when its value is non-empty, and maps it to that value |
| ProfileSetupActivity.ContactDetails | app/src/main/java/org/classapp/network/ProfileSetupActivity.kt:250-266 | the contact map's keys are among the twelve channels; a key is present iff its trimmed field is non-empty, and its value is the trimmed text |
| ProfileSetupActivity.ContactDetailsStep | app/src/main/java/org/classapp/network/ProfileSetupActivity.kt:255-266 | one more call, for the next key in form order with its own field, is one more step of the key-by-key map over the trimmed fields |
| ProfileSetupActivity.ContactDetailsAfterOver | app/src/main/java/org/classapp/network/ProfileSetupActivity.kt:255-266 | the first n calls give the key-by-key map of the first n keys and trimmed fields |
| ProfileSetupActivity.ContactDetailsAfterAll | app/src/main/java/org/classapp/network/ProfileSetupActivity.kt:255-266 | the twelve calls written out in source order, each with its own key and field, give exactly the contact map |
| ProfileSetupActivity.BuildContactDetails | app/src/main/java/org/classapp/network/ProfileSetupActivity.kt:246-266 | the twelve in-place `addIfNotEmpty` calls build exactly the contact map |
| ProfileSetupActivity.StrMap | app/src/main/java/org/classapp/network/ProfileSetupActivity.kt:272 | a string map as a stored map with the same keys and string values |
| ProfileSetupActivity.ProfileDocument | app/src/main/java/org/classapp/network/ProfileSetupActivity.kt:268-291 | name, career and organization untrimmed; the contact map; a location map with exactly city and country; the visibility; profileImage iff an image URL is chosen; never SavedContacts |
| ProfileSetupActivity.SavedChannelReadsBack | app/src/main/java/org/classapp/network/ProfileSetupActivity.kt:250-272 | each of the twelve channels of the saved document decodes as the trimmed text of its own field |
| ProfileSetupActivity.SavedDocumentReadsBack | app/src/main/java/org/classapp/network/ProfileSetupActivity.kt:268-291 | round trip: the saved document decodes to the form, with trimmed channels, the visibility and the chosen image |
| ProfileSetupActivity.S3Key | app/src/main/java/org/classapp/network/ProfileSetupActivity.kt:304 | the key is "profile_images/" + uid + ".jpg" |
| ProfileSetupActivity.S3Url | app/src/main/java/org/classapp/network/ProfileSetupActivity.kt:311-312 | the URL is "https://" + bucket + ".s3.amazonaws.com/" + the key |
| ProfileSetupActivity.S3UrlInjective | app/src/main/java/org/classapp/network/ProfileSetupActivity.kt:304-312 | different users of one bucket get different image URLs |
| ProfileSetupActivity.ChosenImage | app/src/main/java/org/classapp/network/ProfileSetupActivity.kt:282-291 | a picked image gives the S3 URL; otherwise the loaded URL, or none |
| ProfileSetupActivity.SetAsWritten | app/src/main/java/org/classapp/network/ProfileSetupActivity.kt:344-355 | as written: a successful set leaves exactly the new document |
| ProfileSetupActivity.SetAsWrittenDropsSavedContacts | app/src/main/java/org/classapp/network/ProfileSetupActivity.kt:344-355 | as written, saving the profile empties a non-empty SavedContacts |
| ProfileSetupActivity.SaveToFirestore | app/src/main/java/org/classapp/network/ProfileSetupActivity.kt:344-355 | corrected: the document's fields replace the profile's, SavedContacts and other users' documents are kept; a failure changes nothing |
| ProfileSetupActivity.SaveToFirestoreDecodes | app/src/main/java/org/classapp/network/ProfileSetupActivity.kt:344-355 | after a successful corrected write of a document without SavedContacts, the stored profile decodes exactly as that document |
| ProfileSetupActivity.ProfileSetup.constructor | app/src/main/java/org/classapp/network/ProfileSetupActivity.kt:54-62 | before any fetch: visibility "Public", no loaded image URL, no picked image |
| ProfileSetupActivity.ProfileSetup.FetchUserProfile | app/src/main/java/org/classapp/network/ProfileSetupActivity.kt:125-177 | no user, a failed read or a missing document change nothing; otherwise the stored image URL and visibility (or "Public") are carried over |
| ProfileSetupActivity.ProfileSetup.OnActivityResult | app/src/main/java/org/classapp/network/ProfileSetupActivity.kt:237-243 | only request 100 with RESULT_OK stores the picked image; anything else leaves it |
| ProfileSetupActivity.ProfileSetup.SaveUserProfile | app/src/main/java/org/classapp/network/ProfileSetupActivity.kt:245-332 | no user: nothing; with a picked image nothing is written unless the upload completes; otherwise the built document is written and success opens the main screen |
| ProfileSetupActivity.SavedVisibilityCarriesOver | app/src/main/java/org/classapp/network/ProfileSetupActivity.kt:170 | the visibility saved after a fetch is the one the decoder reads from the stored document |
| SettingsScreen.InitialVisibility | app/src/main/java/org/classapp/network/SettingsScreen.kt:37 | the initial selection is the profile's visibility, or "Private" when it is null |
| SettingsScreen.DecodedVisibilityNeverFallsBack | app/src/main/java/org/classapp/network/SettingsScreen.kt:37 | for a decoded profile the "Private" fallback never applies: a document without a visibility starts on "Public" |
| SettingsScreen.IconFor | app/src/main/java/org/classapp/network/SettingsScreen.kt:86-90 | the eye icon exactly for "Public" |
| SettingsScreen.IsGoogleSignIn | app/src/main/java/org/classapp/network/MainActivity.kt:192-194 | Google sign-in exactly when there is a user and one of its provider ids is "google.com" |
| SettingsScreen.ChangePasswordOffered | app/src/main/java/org/classapp/network/SettingsScreen.kt:147-148 | Change Password is listed exactly when no provider id is "google.com", including when there is no user |
| SettingsScreen.CheckPasswords | app/src/main/java/org/classapp/network/SettingsScreen.kt:184-210 | ordered, first match wins: either field blank; new password shorter than 6; mismatch; otherwise update |
| SettingsScreen.UpdateRequestedIff | app/src/main/java/org/classapp/network/SettingsScreen.kt:209-210 | an update is requested exactly for a non-blank new password of length at least 6 equal to its confirmation |
| SettingsScreen.BlankReportedFirst | app/src/main/java/org/classapp/network/SettingsScreen.kt:184-193 | a blank field is reported even when the other one is too short |
| SettingsScreen.VisibilityWriteReadsBack | app/src/main/java/org/classapp/network/SettingsScreen.kt:112-114 | after a successful visibility write the profile decodes with that visibility |
| SettingsScreen.SettingsState.constructor | app/src/main/java/org/classapp/network/SettingsScreen.kt:37-41 | the screen opens on the initial visibility, with menu and dialog closed and empty fields |
| SettingsScreen.SettingsState.Icon | app/src/main/java/org/classapp/network/SettingsScreen.kt:86-90 | the icon is the eye exactly when "Public" is selected |
| SettingsScreen.SettingsState.OpenMenu | app/src/main/java/org/classapp/network/SettingsScreen.kt:82 | tapping the row opens the menu and changes nothing else |
| SettingsScreen.SettingsState.DismissMenu | app/src/main/java/org/classapp/network/SettingsScreen.kt:104 | dismissing closes the menu and changes nothing else |
| SettingsScreen.SettingsState.PickVisibility | app/src/main/java/org/classapp/network/SettingsScreen.kt:105-128 | picking one of "Public" and "Private" selects it and closes the menu at once, whatever the write does; the store gets the update |
| SettingsScreen.SettingsState.OpenPasswordDialog | app/src/main/java/org/classapp/network/SettingsScreen.kt:147-153 | the Change Password item, offered only when no provider id is Google's, opens the dialog |
| SettingsScreen.SettingsState.EditFields | app/src/main/java/org/classapp/network/SettingsScreen.kt:172 | typing sets the two fields and nothing else |
| SettingsScreen.SettingsState.ClosePasswordDialog | app/src/main/java/org/classapp/network/SettingsScreen.kt:175-179 | dismiss and Cancel both close the dialog and clear both fields |
| SettingsScreen.SettingsState.ConfirmPasswordChange | app/src/main/java/org/classapp/network/SettingsScreen.kt:184-229 | the ordered check decides; only an update with a signed-in user is requested; its success clears the fields and closes the dialog, anything else leaves them |
| SignUpActivity.CheckSignUp | app/src/main/java/org/classapp/network/SignUpActivity.kt:48-62 | on the trimmed inputs: any empty gives "fill in all fields"; all non-empty but different passwords give "do not match"; otherwise register with the trimmed email and password |
| SignUpActivity.RegisterIff | app/src/main/java/org/classapp/network/SignUpActivity.kt:53-55 | registration is attempted exactly when no input is blank and the trimmed passwords agree |
| SignUpActivity.FillAllFieldsIffBlank | app/src/main/java/org/classapp/network/SignUpActivity.kt:53-61 | "fill in all fields" exactly when some input is blank, whether or not the passwords match |
| SignUpActivity.CheckSeesTrimmedInputs | app/src/main/java/org/classapp/network/SignUpActivity.kt:49-51 | the inputs are trimmed before any check: pre-trimming them changes no outcome |
| SignUpActivity.AfterRegistration | app/src/main/java/org/classapp/network/SignUpActivity.kt:71-92 | a successful registration opens profile setup; a failure stays |
| AuthenticationActivity.CheckLogin | app/src/main/java/org/classapp/network/AuthenticationActivity.kt:51-59 | login is attempted with the trimmed inputs exactly when neither is empty after trimming |
| AuthenticationActivity.LoginIffNotBlank | app/src/main/java/org/classapp/network/AuthenticationActivity.kt:52-58 | a field holding only whitespace counts as empty |
| AuthenticationActivity.NavigateToHome | app/src/main/java/org/classapp/network/AuthenticationActivity.kt:141-161 | no user or a failed read: no navigation; otherwise main screen exactly when the profile document exists, setup when not |
| AuthenticationActivity.OnGoogleResult | app/src/main/java/org/classapp/network/AuthenticationActivity.kt:110-126 | only RESULT_OK is handled; the credential sign-in happens exactly for a present token, with that token; a null token reports failure |
| AuthenticationActivity.GoogleSignIn | app/src/main/java/org/classapp/network/AuthenticationActivity.kt:110-139 | a present token with a successful credential sign-in continues exactly as `navigateToHome`; without both nothing is opened |
| AuthenticationActivity.NullTokenGoesNowhere | app/src/main/java/org/classapp/network/AuthenticationActivity.kt:115-120 | a null ID token never leads anywhere |
| AuthenticationActivity.EmailSignIn | app/src/main/java/org/classapp/network/AuthenticationActivity.kt:51-81 | a passing check with a successful sign-in continues exactly as `navigateToHome`; without both nothing is opened |

The helper modules `Wrappers`, `Text`, `Seqs` and `Uris` model Kotlin and Android library behaviour, not the app.
They carry contracts of their own (for example `Text.TrimEmptyIffBlank`, `Seqs.FilterSubsequence`,
`Uris.LastSegmentAfterSlash`) and need no row here.

## Left out

- Firestore, S3 `TransferUtility`, Firebase Auth and Google One Tap: their results are inputs (succeeded or not, document or absent), not the SDKs.
- Compose layout, theming, icons, Toasts and Glide: only the show and hide conditions are modelled.
- `QRCodeWriter.encode` (ZXing): the bit matrix is an input to the fill loop.
- Clipboard, MediaStore gallery save, `FileProvider` cache file and `convertUriToFile`: file and OS I/O.
- The timestamped QR file name: it depends on the wall clock.
- The `Localisation` country and city lists and the executor/handler threading: a foreign library and thread hand-off.
- The form prefill in `fetchUserProfile` (ProfileSetupActivity.kt:133-157): UI text fields only. The carried-over image URL and visibility are modelled.
- AWSConfig.kt: credential and region wiring only. NetWorkNavItemInfo.kt and DestinationScreens.kt are inlined as `MainActivity.NavRoutes`.
- Races between concurrent saves and removes, last-write-wins, and the `whereIn` batch-size ceiling: external store semantics.
- Transfer states other than COMPLETED, FAILED and an error: the listener ignores them.
- Text.ContainsIgnoreCase: folds ASCII letters only, not full Unicode `ignoreCase`.
- SettingsScreen.CheckPasswords: lengths count Unicode scalar values, not UTF-16 code units as Kotlin's `length` does.
- Uris.Parse: no percent-decoding, no userinfo or port stripping, and no '\' handling; only scheme, host and path are modelled.
- MainActivity.ShareLinkParses: the round trip is proved for ids without '/', '?', '#' and '%' (`LinkSafe`). The first three would end the segment or the path inside the link. Android percent-decodes a segment, so an id with '%' (such as "a%41", read back as "aA") can come back changed. `ShareLinkResolves` and `DeepLinkOwnIdSaved` have the same restriction.
- MainActivity.LinkTarget: the target is the undecoded last segment. Android's `getLastPathSegment` percent-decodes it, so the two agree only on segments without '%'.
- SavedContactItem (ContactsScreen.kt:241-288): it draws the same lines as the discovery item, with the same location defect, so it is modelled by `DiscoveryScreen.ListItemAsWritten` and corrected by `DiscoveryScreen.DiscoveryListItem` rather than by a member of its own.
- ProfileSetupActivity.ProfileSetup.SaveUserProfile: writes through the corrected `SaveToFirestore`, not the code's `set` without merge (see Findings).

## Findings

| source | as written | input that shows it | evidently intended | confidence | as-written member | corrected member |
|---|---|---|---|---|---|---|
| app/src/main/java/org/classapp/network/ProfileSetupActivity.kt:344-355 | `saveToFirestore` writes the built document with `set` and no merge option, so the whole stored document is replaced; the built document never has `SavedContacts` | a user with `SavedContacts = ["b"]` edits and saves the profile: afterwards `SavedContacts` is missing and decodes as empty | editing the profile keeps the saved contacts (`set(..., SetOptions.merge())` or `update`) | not executed | ProfileSetupActivity.SetAsWritten, ProfileSetupActivity.SetAsWrittenDropsSavedContacts | ProfileSetupActivity.SaveToFirestore |
| app/src/main/java/org/classapp/network/DiscoveryScreen.kt:235-238 | `listOfNotNull(city, country).joinToString(", ")` drops only nulls, but the decoder never yields null (missing values are ""), so both parts are always joined; `SavedContactItem` repeats it at ContactsScreen.kt:284-285 | a profile with no city and no country: the item shows the line ", " | the card's rule (MyCardScreen.kt:174-179): join only the non-blank parts, and show nothing when both are blank | not executed | DiscoveryScreen.ItemLocationAsWritten, DiscoveryScreen.ItemLocationAsWrittenShowsSeparator, DiscoveryScreen.ListItemAsWritten | DiscoveryScreen.ItemLocation, DiscoveryScreen.DiscoveryListItem |
