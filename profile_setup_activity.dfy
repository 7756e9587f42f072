/** The profile form: the document `saveUserProfile` builds from it, the S3
    image key and URL, the carry-over of visibility and image from the
    loaded profile, and the write that stores the document. */
module ProfileSetupActivity {
  import opened Wrappers
  import opened Text
  import opened Documents
  import opened Store
  import opened UserProfiles

  /** The text of the form's seventeen fields, as typed. */
  datatype Form = Form(
    fullName: string,
    career: string,
    organization: string,
    email: string,
    phone: string,
    website: string,
    facebook: string,
    linkedin: string,
    twitter: string,
    instagram: string,
    whatsapp: string,
    telegram: string,
    skype: string,
    weChat: string,
    line: string,
    city: string,
    country: string)

  /** The texts of the twelve contact fields, in the order of `ContactKeys`. */
  function FormFields(f: Form): (texts: seq<string>)
    ensures |texts| == |ContactKeys|
  {
    [f.email, f.phone, f.website, f.facebook, f.linkedin, f.twitter,
     f.instagram, f.whatsapp, f.telegram, f.skype, f.weChat, f.line]
  }

  /** No contact key is listed twice. */
  lemma ContactKeysDistinct()
    ensures forall i, j :: 0 <= i < j < |ContactKeys| ==> ContactKeys[i] != ContactKeys[j]
  {
  }

  /** The map with `key` set to `value` when that is non-empty. */
  function PutIfNotEmpty(m: map<string, string>, key: string, value: string): (r: map<string, string>)
  {
    if value != "" then m[key := value] else m
  }

  /** `addIfNotEmpty` as a value: the map with `key` set to the trimmed text when that is non-empty. */
  function AddIfNotEmpty(m: map<string, string>, key: string, text: string): (r: map<string, string>)
    ensures Trim(text) == "" ==> r == m
    ensures Trim(text) != "" ==> r == m[key := Trim(text)]
  {
    PutIfNotEmpty(m, key, Trim(text))
  }

  /** Every text trimmed, in order. */
  function TrimAll(texts: seq<string>): (values: seq<string>)
    ensures |values| == |texts|
  {
    if texts == [] then [] else [Trim(texts[0])] + TrimAll(texts[1..])
  }

  /** The value at each position is the trimmed text at that position. */
  lemma {:induction false} TrimAllAt(texts: seq<string>, i: int)
    requires 0 <= i < |texts|
    ensures TrimAll(texts)[i] == Trim(texts[i])
  {
    if i > 0 {
      TrimAllAt(texts[1..], i - 1);
    }
  }

  /** The contact map after the calls for each key in turn, with the
      (trimmed) value at the same position. */
  function ContactDetailsOver(keys: seq<string>, values: seq<string>): map<string, string>
    requires |keys| == |values|
  {
    if keys == [] then map[]
    else
      var n := |keys| - 1;
      PutIfNotEmpty(ContactDetailsOver(keys[..n], values[..n]), keys[n], values[n])
  }

  /** For distinct keys, the map holds exactly the keys whose value is
      non-empty, each with its value. */
  lemma {:induction false} ContactDetailsOverHolds(keys: seq<string>, values: seq<string>)
    requires |keys| == |values|
    requires forall i, j :: 0 <= i < j < |keys| ==> keys[i] != keys[j]
    ensures var m := ContactDetailsOver(keys, values);
      && (forall k :: k in m ==> k in keys)
      && (forall i :: 0 <= i < |keys| ==> (keys[i] in m <==> values[i] != ""))
      && (forall i :: 0 <= i < |keys| && keys[i] in m ==> m[keys[i]] == values[i])
  {
    if keys != [] {
      var n := |keys| - 1;
      var ks, vs := keys[..n], values[..n];
      ContactDetailsOverHolds(ks, vs);
      var m0 := ContactDetailsOver(ks, vs);
      var m := ContactDetailsOver(keys, values);
      assert m == PutIfNotEmpty(m0, keys[n], values[n]);
      forall k | k in m ensures k in keys {
        if k != keys[n] { assert k in m0; }
      }
      forall i | 0 <= i < n
        ensures (keys[i] in m <==> values[i] != "") && (keys[i] in m ==> m[keys[i]] == values[i])
      {
        assert ks[i] == keys[i] && vs[i] == values[i];
        assert keys[i] != keys[n];
      }
    }
  }

  /** The contact map of the saved document: the key of each contact field
      whose trimmed text is non-empty, mapped to that trimmed text. */
  function ContactDetails(f: Form): (m: map<string, string>)
    ensures forall k :: k in m ==> k in ContactKeys
    ensures forall i :: 0 <= i < |ContactKeys| ==> (ContactKeys[i] in m <==> Trim(FormFields(f)[i]) != "")
    ensures forall i :: 0 <= i < |ContactKeys| && ContactKeys[i] in m ==> m[ContactKeys[i]] == Trim(FormFields(f)[i])
  {
    var values := TrimAll(FormFields(f));
    ContactKeysDistinct();
    ContactDetailsOverHolds(ContactKeys, values);
    forall i | 0 <= i < |ContactKeys| ensures values[i] == Trim(FormFields(f)[i]) {
      TrimAllAt(FormFields(f), i);
    }
    ContactDetailsOver(ContactKeys, values)
  }

  /** One more `addIfNotEmpty`, for the next key in form order, extends the map. */
  lemma ContactDetailsStep(f: Form, i: int, before: map<string, string>, key: string, text: string)
    requires 0 < i <= |ContactKeys|
    requires before == ContactDetailsOver(ContactKeys[..i - 1], TrimAll(FormFields(f))[..i - 1])
    requires key == ContactKeys[i - 1] && text == FormFields(f)[i - 1]
    ensures AddIfNotEmpty(before, key, text) == ContactDetailsOver(ContactKeys[..i], TrimAll(FormFields(f))[..i])
  {
    TrimAllAt(FormFields(f), i - 1);
    PrefixStep(ContactKeys, TrimAll(FormFields(f)), i);
  }

  /** The map for a longer prefix is one more call on the map for the shorter one. */
  lemma PrefixStep(keys: seq<string>, values: seq<string>, i: int)
    requires |keys| == |values| && 0 < i <= |keys|
    ensures ContactDetailsOver(keys[..i], values[..i]) ==
      PutIfNotEmpty(ContactDetailsOver(keys[..i - 1], values[..i - 1]), keys[i - 1], values[i - 1])
  {
    assert keys[..i][..i - 1] == keys[..i - 1];
    assert values[..i][..i - 1] == values[..i - 1];
  }

  /** The map after the first `n` of the twelve `addIfNotEmpty` calls. */
  ghost function ContactDetailsAfter(f: Form, n: nat): map<string, string>
    requires n <= |ContactKeys|
  {
    if n == 0 then map[]
    else AddIfNotEmpty(ContactDetailsAfter(f, n - 1), ContactKeys[n - 1], FormFields(f)[n - 1])
  }

  /** The calls made so far give the contact map of the keys so far. */
  lemma {:induction false} ContactDetailsAfterOver(f: Form, n: nat)
    requires n <= |ContactKeys|
    ensures ContactDetailsAfter(f, n) == ContactDetailsOver(ContactKeys[..n], TrimAll(FormFields(f))[..n])
  {
    if n == 0 {
      assert ContactKeys[..0] == [] && TrimAll(FormFields(f))[..0] == [];
    } else {
      ContactDetailsAfterOver(f, n - 1);
      ContactDetailsStep(f, n, ContactDetailsAfter(f, n - 1), ContactKeys[n - 1], FormFields(f)[n - 1]);
    }
  }

  /** All twelve calls, written out in the form's order, give the contact map. */
  lemma ContactDetailsAfterAll(f: Form)
    ensures var m0 := map[];
      var m1 := AddIfNotEmpty(m0, "email", f.email);
      var m2 := AddIfNotEmpty(m1, "phone", f.phone);
      var m3 := AddIfNotEmpty(m2, "website", f.website);
      var m4 := AddIfNotEmpty(m3, "facebook", f.facebook);
      var m5 := AddIfNotEmpty(m4, "linkedin", f.linkedin);
      var m6 := AddIfNotEmpty(m5, "twitter", f.twitter);
      var m7 := AddIfNotEmpty(m6, "instagram", f.instagram);
      var m8 := AddIfNotEmpty(m7, "whatsapp", f.whatsapp);
      var m9 := AddIfNotEmpty(m8, "telegram", f.telegram);
      var m10 := AddIfNotEmpty(m9, "skype", f.skype);
      var m11 := AddIfNotEmpty(m10, "weChat", f.weChat);
      var m12 := AddIfNotEmpty(m11, "line", f.line);
      ContactDetails(f) == m12
  {
    assert ContactDetailsAfter(f, 1) == AddIfNotEmpty(ContactDetailsAfter(f, 0), ContactKeys[0], FormFields(f)[0]);
    assert ContactDetailsAfter(f, 2) == AddIfNotEmpty(ContactDetailsAfter(f, 1), ContactKeys[1], FormFields(f)[1]);
    assert ContactDetailsAfter(f, 3) == AddIfNotEmpty(ContactDetailsAfter(f, 2), ContactKeys[2], FormFields(f)[2]);
    assert ContactDetailsAfter(f, 4) == AddIfNotEmpty(ContactDetailsAfter(f, 3), ContactKeys[3], FormFields(f)[3]);
    assert ContactDetailsAfter(f, 5) == AddIfNotEmpty(ContactDetailsAfter(f, 4), ContactKeys[4], FormFields(f)[4]);
    assert ContactDetailsAfter(f, 6) == AddIfNotEmpty(ContactDetailsAfter(f, 5), ContactKeys[5], FormFields(f)[5]);
    assert ContactDetailsAfter(f, 7) == AddIfNotEmpty(ContactDetailsAfter(f, 6), ContactKeys[6], FormFields(f)[6]);
    assert ContactDetailsAfter(f, 8) == AddIfNotEmpty(ContactDetailsAfter(f, 7), ContactKeys[7], FormFields(f)[7]);
    assert ContactDetailsAfter(f, 9) == AddIfNotEmpty(ContactDetailsAfter(f, 8), ContactKeys[8], FormFields(f)[8]);
    assert ContactDetailsAfter(f, 10) == AddIfNotEmpty(ContactDetailsAfter(f, 9), ContactKeys[9], FormFields(f)[9]);
    assert ContactDetailsAfter(f, 11) == AddIfNotEmpty(ContactDetailsAfter(f, 10), ContactKeys[10], FormFields(f)[10]);
    assert ContactDetailsAfter(f, 12) == AddIfNotEmpty(ContactDetailsAfter(f, 11), ContactKeys[11], FormFields(f)[11]);
    ContactDetailsAfterOver(f, 12);
    assert ContactKeys[..12] == ContactKeys && TrimAll(FormFields(f))[..12] == TrimAll(FormFields(f));
  }

  /** The twelve `addIfNotEmpty` calls on the mutable map, in the form's order. */
  method BuildContactDetails(f: Form) returns (contactDetails: map<string, string>)
    ensures contactDetails == ContactDetails(f)
  {
    contactDetails := map[];
    contactDetails := AddIfNotEmpty(contactDetails, "email", f.email);
    contactDetails := AddIfNotEmpty(contactDetails, "phone", f.phone);
    contactDetails := AddIfNotEmpty(contactDetails, "website", f.website);
    contactDetails := AddIfNotEmpty(contactDetails, "facebook", f.facebook);
    contactDetails := AddIfNotEmpty(contactDetails, "linkedin", f.linkedin);
    contactDetails := AddIfNotEmpty(contactDetails, "twitter", f.twitter);
    contactDetails := AddIfNotEmpty(contactDetails, "instagram", f.instagram);
    contactDetails := AddIfNotEmpty(contactDetails, "whatsapp", f.whatsapp);
    contactDetails := AddIfNotEmpty(contactDetails, "telegram", f.telegram);
    contactDetails := AddIfNotEmpty(contactDetails, "skype", f.skype);
    contactDetails := AddIfNotEmpty(contactDetails, "weChat", f.weChat);
    contactDetails := AddIfNotEmpty(contactDetails, "line", f.line);
    ContactDetailsAfterAll(f);
  }

  /** A map of strings as a stored value. */
  function StrMap(m: map<string, string>): (v: Value)
    ensures v.Obj? && v.fields.Keys == m.Keys
    ensures forall k :: k in m ==> v.fields[k] == Str(m[k])
  {
    Obj(map k | k in m :: Str(m[k]))
  }

  /** The document `saveUserProfile` writes: name, career and organization as
      typed, the contact map, a location map that always has both keys, the
      visibility, and a "profileImage" key only when there is an image. */
  function ProfileDocument(f: Form, contact: map<string, string>, visibility: string, image: Option<string>): (d: Doc)
    ensures "fullName" in d && "career" in d && "organization" in d && "contact" in d && "location" in d && "visibility" in d
    ensures d["fullName"] == Str(f.fullName) && d["career"] == Str(f.career) && d["organization"] == Str(f.organization)
    ensures d["contact"] == StrMap(contact)
    ensures d["location"].Obj? && d["location"].fields.Keys == {"city", "country"}
    ensures d["location"].fields["city"] == Str(f.city) && d["location"].fields["country"] == Str(f.country)
    ensures d["visibility"] == Str(visibility)
    ensures "profileImage" in d <==> image.Some?
    ensures image.Some? ==> d["profileImage"] == Str(image.value)
    ensures SavedContactsKey !in d
  {
    var base := map[
      "fullName" := Str(f.fullName),
      "career" := Str(f.career),
      "organization" := Str(f.organization),
      "contact" := StrMap(contact),
      "location" := StrMap(map["city" := f.city, "country" := f.country]),
      "visibility" := Str(visibility)];
    match image
    case None => base
    case Some(url) => base["profileImage" := Str(url)]
  }

  /** Each channel of the saved document reads back as the trimmed text of its field. */
  lemma SavedChannelReadsBack(f: Form, visibility: string, image: Option<string>, uid: string, i: int)
    requires 0 <= i < |ContactKeys|
    ensures ContactOf(Decode(ProfileDocument(f, ContactDetails(f), visibility, image), uid), ContactKeys[i]) == Trim(FormFields(f)[i])
  {
    ContactChannelDecoding(ProfileDocument(f, ContactDetails(f), visibility, image), uid, ContactKeys[i]);
  }

  /** Round trip: the decoder gives back the form with every contact field
      trimmed, the other texts as typed, the visibility and the image. */
  lemma SavedDocumentReadsBack(f: Form, visibility: string, image: Option<string>, uid: string)
    ensures var p := Decode(ProfileDocument(f, ContactDetails(f), visibility, image), uid);
      && p.userId == uid
      && p.fullName == f.fullName && p.career == f.career && p.organization == f.organization
      && p.city == f.city && p.country == f.country
      && (forall i :: 0 <= i < |ContactKeys| ==> ContactOf(p, ContactKeys[i]) == Trim(FormFields(f)[i]))
      && p.profileImage == image
      && p.visibility == Some(visibility)
  {
    var d := ProfileDocument(f, ContactDetails(f), visibility, image);
    PresentTopLevelStrings(d, uid, f.fullName);
    PresentTopLevelStrings(d, uid, f.career);
    PresentTopLevelStrings(d, uid, f.organization);
    ProfileImageDecoding(d, uid);
    VisibilityDecoding(d, uid);
    forall i | 0 <= i < |ContactKeys| ensures ContactOf(Decode(d, uid), ContactKeys[i]) == Trim(FormFields(f)[i]) {
      SavedChannelReadsBack(f, visibility, image, uid, i);
    }
  }

  // ---- S3 image --------------------------------------------------------------

  /** The object key of a user's profile image. */
  function S3Key(uid: string): (key: string)
    ensures "profile_images/" <= key
    ensures key[|"profile_images/"|..] == uid + ".jpg"
  {
    "profile_images/" + uid + ".jpg"
  }

  /** The public URL of a user's profile image in `bucket`. */
  function S3Url(bucket: string, uid: string): (url: string)
    ensures url == "https://" + bucket + ".s3.amazonaws.com/" + S3Key(uid)
  {
    "https://" + bucket + ".s3.amazonaws.com/profile_images/" + uid + ".jpg"
  }

  /** Different users of one bucket get different image URLs. */
  lemma S3UrlInjective(bucket: string, a: string, b: string)
    requires S3Url(bucket, a) == S3Url(bucket, b)
    ensures a == b
  {
    var n := |"https://" + bucket + ".s3.amazonaws.com/profile_images/"|;
    var ua := S3Url(bucket, a);
    assert ua[n..] == a + ".jpg";
    assert a == (a + ".jpg")[..|a|];
    assert b == (b + ".jpg")[..|b|];
  }

  /** How the transfer of a picked image ends, as the listener sees it. */
  datatype UploadOutcome = Completed | TransferFailed | TransferError

  /** The image URL the document carries: the S3 URL when an image was
      picked, else the URL loaded with the profile, if any. */
  function ChosenImage(imageUri: Option<string>, existing: Option<string>, bucket: string, uid: string): (image: Option<string>)
    ensures imageUri.Some? ==> image == Some(S3Url(bucket, uid))
    ensures imageUri.None? ==> image == existing
  {
    if imageUri.Some? then Some(S3Url(bucket, uid)) else existing
  }

  // ---- The write ---------------------------------------------------------------

  /** `saveToFirestore` as written: `set` without merge replaces the whole document. */
  function SetAsWritten(store: Store, uid: string, doc: Doc, writeOk: bool): (r: WriteResult)
    ensures r.ok ==> uid in r.store && r.store[uid] == doc
  {
    Set(store, uid, doc, writeOk)
  }

  /** As written, editing the profile empties SavedContacts: the built
      document never holds that field. */
  lemma SetAsWrittenDropsSavedContacts(f: Form, visibility: string, image: Option<string>, uid: string, store: Store)
    requires SavedContactsIn(store, uid) != []
    ensures var after := SetAsWritten(store, uid, ProfileDocument(f, ContactDetails(f), visibility, image), true).store;
      SavedContactsIn(after, uid) == []
  {
  }

  /** `saveToFirestore` as intended: the document replaces the profile but
      the user's SavedContacts field, when there is one, is kept. */
  function SaveToFirestore(store: Store, uid: string, doc: Doc, writeOk: bool): (r: WriteResult)
    requires SavedContactsKey !in doc
    ensures r.ok == writeOk
    ensures !r.ok ==> r.store == store
    ensures r.ok ==> r.store.Keys == store.Keys + {uid}
    ensures r.ok ==> forall other :: other in store && other != uid ==> r.store[other] == store[other]
    ensures r.ok ==> SavedContactsIn(r.store, uid) == SavedContactsIn(store, uid)
    ensures r.ok ==> forall k :: k != SavedContactsKey ==> (k in r.store[uid] <==> k in doc)
    ensures r.ok ==> forall k :: k in doc ==> r.store[uid][k] == doc[k]
  {
    var kept := if uid in store && SavedContactsKey in store[uid] then doc[SavedContactsKey := store[uid][SavedContactsKey]] else doc;
    Set(store, uid, kept, writeOk)
  }

  /** After the intended write, the profile reads back exactly as the document says. */
  lemma SaveToFirestoreDecodes(store: Store, uid: string, doc: Doc)
    requires SavedContactsKey !in doc
    ensures var r := SaveToFirestore(store, uid, doc, true);
      Decode(r.store[uid], uid) == Decode(doc, uid)
  {
    var r := SaveToFirestore(store, uid, doc, true);
    DecodeReadsOnlyItsKeys(r.store[uid], doc, uid);
  }

  /** Putting an image URL into the document without one gives the document with that image. */
  lemma WithImage(f: Form, contact: map<string, string>, visibility: string, url: string)
    ensures ProfileDocument(f, contact, visibility, None)["profileImage" := Str(url)] == ProfileDocument(f, contact, visibility, Some(url))
  {
  }

  /** How `saveUserProfile` ends. */
  datatype SaveOutcome = NotSignedIn | UploadNotCompleted | WriteFailed | SavedAndOpenedMain

  /** The activity's fields that the save reads. */
  class ProfileSetup {
    var existingVisibility: string
    var existingProfileImageUrl: Option<string>
    var imageUri: Option<string>

    /** Before any fetch: visibility "Public", no loaded image, no picked image. */
    constructor ()
      ensures existingVisibility == PublicVisibility && existingProfileImageUrl.None? && imageUri.None?
    {
      existingVisibility := PublicVisibility;
      existingProfileImageUrl := None;
      imageUri := None;
    }

    /** `fetchUserProfile`'s carry-over: a loaded document sets the image URL
        when it has a string there (and otherwise keeps the old one) and sets
        visibility to its string or "Public". No user, a failed read or a
        missing document change nothing. */
    method FetchUserProfile(currentUser: Option<string>, store: Store, readOk: bool)
      modifies this
      ensures imageUri == old(imageUri)
      ensures currentUser.None? || !readOk || currentUser.value !in store ==>
        existingVisibility == old(existingVisibility) && existingProfileImageUrl == old(existingProfileImageUrl)
      ensures currentUser.Some? && readOk && currentUser.value in store ==>
        var d := store[currentUser.value];
        && existingVisibility == StringField(d, "visibility").GetOr(PublicVisibility)
        && existingProfileImageUrl == (if StringField(d, "profileImage").Some? then StringField(d, "profileImage") else old(existingProfileImageUrl))
    {
      if currentUser.None? {
        return;
      }
      var snapshot := Read(store, currentUser.value, readOk);
      if snapshot.ReadFailed? || snapshot.data.None? {
        return;
      }
      var userProfile := snapshot.data.value;
      var profileImageUrl := StringField(userProfile, "profileImage");
      if profileImageUrl.Some? {
        existingProfileImageUrl := profileImageUrl;
      }
      existingVisibility := StringField(userProfile, "visibility").GetOr(PublicVisibility);
    }

    /** The gallery result: only request 100 with RESULT_OK (-1) takes the
        intent's data, which may be null. */
    method OnActivityResult(requestCode: int, resultCode: int, data: Option<string>)
      modifies this
      ensures existingVisibility == old(existingVisibility) && existingProfileImageUrl == old(existingProfileImageUrl)
      ensures requestCode == 100 && resultCode == -1 ==> imageUri == data
      ensures !(requestCode == 100 && resultCode == -1) ==> imageUri == old(imageUri)
    {
      if requestCode == 100 && resultCode == -1 {
        imageUri := data;
      }
    }

    /** `saveUserProfile`: with a picked image the document is written only
        once the upload completes, carrying the S3 URL; without one it carries
        the loaded URL, if any. The visibility is the loaded one. The write
        keeps SavedContacts. */
    method SaveUserProfile(currentUser: Option<string>, form: Form, bucket: string, upload: UploadOutcome,
                           store: Store, writeOk: bool) returns (outcome: SaveOutcome, store': Store)
      ensures currentUser.None? ==> outcome == NotSignedIn && store' == store
      ensures currentUser.Some? && imageUri.Some? && upload != Completed ==> outcome == UploadNotCompleted && store' == store
      ensures currentUser.Some? && (imageUri.None? || upload == Completed) ==>
        var uid := currentUser.value;
        var doc := ProfileDocument(form, ContactDetails(form), existingVisibility, ChosenImage(imageUri, existingProfileImageUrl, bucket, uid));
        && store' == SaveToFirestore(store, uid, doc, writeOk).store
        && (outcome == SavedAndOpenedMain <==> writeOk)
        && (outcome != SavedAndOpenedMain ==> outcome == WriteFailed)
    {
      if currentUser.None? {
        return NotSignedIn, store;
      }
      var uid := currentUser.value;
      var contactDetails := BuildContactDetails(form);
      var updatedUserProfile := ProfileDocument(form, contactDetails, existingVisibility, None);
      if imageUri.Some? {
        if upload != Completed {
          return UploadNotCompleted, store;
        }
        updatedUserProfile := updatedUserProfile["profileImage" := Str(S3Url(bucket, uid))];
        WithImage(form, contactDetails, existingVisibility, S3Url(bucket, uid));
      } else if existingProfileImageUrl.Some? {
        updatedUserProfile := updatedUserProfile["profileImage" := Str(existingProfileImageUrl.value)];
        WithImage(form, contactDetails, existingVisibility, existingProfileImageUrl.value);
      }
      var w := SaveToFirestore(store, uid, updatedUserProfile, writeOk);
      store' := w.store;
      outcome := if w.ok then SavedAndOpenedMain else WriteFailed;
    }
  }

  /** A profile saved right after a fetch keeps the stored visibility, or
      "Public" when the document had none. */
  lemma SavedVisibilityCarriesOver(store: Store, uid: string)
    requires uid in store
    ensures StringField(store[uid], "visibility").GetOr(PublicVisibility) == Decode(store[uid], uid).visibility.value
  {
    VisibilityDecoding(store[uid], uid);
  }
}
