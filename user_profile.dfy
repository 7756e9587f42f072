/** The profile record and its decoder `UserProfile.fromMap`. */
module UserProfiles {
  import opened Wrappers
  import opened Seqs
  import opened Documents

  /** A user's profile. `profileImage` and `visibility` are nullable in the
      record; every other field is a plain string. */
  datatype UserProfile = UserProfile(
    userId: string,
    fullName: string,
    career: string,
    organization: string,
    email: string,
    phone: string,
    website: string,
    city: string,
    country: string,
    facebook: string,
    linkedin: string,
    twitter: string,
    instagram: string,
    whatsapp: string,
    telegram: string,
    skype: string,
    weChat: string,
    line: string,
    profileImage: Option<string>,
    visibility: Option<string>)

  /** The twelve contact channels, in the order the profile form lists them. */
  const ContactKeys: seq<string> :=
    ["email", "phone", "website", "facebook", "linkedin", "twitter",
     "instagram", "whatsapp", "telegram", "skype", "weChat", "line"]

  const PublicVisibility := "Public"
  const PrivateVisibility := "Private"

  /** The record built by the no-argument constructor: every string empty,
      no image, and visibility "" (not "Public"). */
  const DefaultProfile := UserProfile("", "", "", "", "", "", "", "", "", "", "", "", "", "", "", "", "", "", None, Some(""))

  /** The contact channel of `p` named by one of the twelve keys. */
  function ContactOf(p: UserProfile, key: string): string
    requires key in ContactKeys
  {
    match key
    case "email" => p.email
    case "phone" => p.phone
    case "website" => p.website
    case "facebook" => p.facebook
    case "linkedin" => p.linkedin
    case "twitter" => p.twitter
    case "instagram" => p.instagram
    case "whatsapp" => p.whatsapp
    case "telegram" => p.telegram
    case "skype" => p.skype
    case "weChat" => p.weChat
    case "line" => p.line
  }

  /** `UserProfile.fromMap(data, userId)`: null data gives null; otherwise a
      record whose strings default to "", whose contact and location fields
      are read only from the nested "contact" and "location" maps, and whose
      visibility defaults to "Public". */
  function FromMap(data: Option<Doc>, userId: string): (r: Option<UserProfile>)
    ensures r.None? <==> data.None?
    ensures r.Some? ==> r.value.userId == userId && r.value.visibility.Some?
  {
    match data
    case None => None
    case Some(d) =>
      var contact := MapField(d, "contact");
      var location := MapField(d, "location");
      Some(UserProfile(
        userId := userId,
        fullName := StringField(d, "fullName").GetOr(""),
        career := StringField(d, "career").GetOr(""),
        organization := StringField(d, "organization").GetOr(""),
        email := NestedString(contact, "email"),
        phone := NestedString(contact, "phone"),
        website := NestedString(contact, "website"),
        facebook := NestedString(contact, "facebook"),
        linkedin := NestedString(contact, "linkedin"),
        twitter := NestedString(contact, "twitter"),
        instagram := NestedString(contact, "instagram"),
        whatsapp := NestedString(contact, "whatsapp"),
        telegram := NestedString(contact, "telegram"),
        skype := NestedString(contact, "skype"),
        weChat := NestedString(contact, "weChat"),
        line := NestedString(contact, "line"),
        city := NestedString(location, "city"),
        country := NestedString(location, "country"),
        profileImage := StringField(d, "profileImage"),
        visibility := Some(StringField(d, "visibility").GetOr(PublicVisibility))))
  }

  /** The decoded record of a present document. */
  function Decode(d: Doc, userId: string): (p: UserProfile)
    ensures p.userId == userId
  {
    FromMap(Some(d), userId).value
  }

  /** Whatever the data holds, a present document decodes to a record carrying exactly the supplied id. */
  lemma DecodeKeepsId(d: Doc, userId: string)
    ensures FromMap(Some(d), userId) == Some(Decode(d, userId))
    ensures Decode(d, userId).userId == userId
  {
  }

  /** A top-level string field that is absent or not a string decodes to "". */
  lemma {:induction false} AbsentTopLevelStringsAreEmpty(d: Doc, userId: string)
    ensures ("fullName" !in d || !d["fullName"].Str?) ==> Decode(d, userId).fullName == ""
    ensures ("career" !in d || !d["career"].Str?) ==> Decode(d, userId).career == ""
    ensures ("organization" !in d || !d["organization"].Str?) ==> Decode(d, userId).organization == ""
  {
  }

  /** A top-level string field that holds a string decodes to exactly that string. */
  lemma PresentTopLevelStrings(d: Doc, userId: string, s: string)
    ensures "fullName" in d && d["fullName"] == Str(s) ==> Decode(d, userId).fullName == s
    ensures "career" in d && d["career"] == Str(s) ==> Decode(d, userId).career == s
    ensures "organization" in d && d["organization"] == Str(s) ==> Decode(d, userId).organization == s
  {
  }

  /** Without a "contact" map every channel is "", without a "location" map city and country are "". */
  lemma MissingNestedMapsGiveEmptyFields(d: Doc, userId: string)
    ensures ("contact" !in d || !d["contact"].Obj?) ==>
      forall k :: k in ContactKeys ==> ContactOf(Decode(d, userId), k) == ""
    ensures ("location" !in d || !d["location"].Obj?) ==>
      Decode(d, userId).city == "" && Decode(d, userId).country == ""
  {
  }

  /** Every channel of the record is read from the nested "contact" map under its own key. */
  lemma ChannelFromContactMap(d: Doc, userId: string, k: string)
    requires k in ContactKeys
    ensures ContactOf(Decode(d, userId), k) == NestedString(MapField(d, "contact"), k)
  {
    var p := Decode(d, userId);
    var c := MapField(d, "contact");
    match k
    case "email" => assert p.email == NestedString(c, "email");
    case "phone" => assert p.phone == NestedString(c, "phone");
    case "website" => assert p.website == NestedString(c, "website");
    case "facebook" => assert p.facebook == NestedString(c, "facebook");
    case "linkedin" => assert p.linkedin == NestedString(c, "linkedin");
    case "twitter" => assert p.twitter == NestedString(c, "twitter");
    case "instagram" => assert p.instagram == NestedString(c, "instagram");
    case "whatsapp" => assert p.whatsapp == NestedString(c, "whatsapp");
    case "telegram" => assert p.telegram == NestedString(c, "telegram");
    case "skype" => assert p.skype == NestedString(c, "skype");
    case "weChat" => assert p.weChat == NestedString(c, "weChat");
    case "line" => assert p.line == NestedString(c, "line");
  }

  /** A channel holds the nested map's string when there is one, and "" otherwise. */
  lemma ContactChannelDecoding(d: Doc, userId: string, k: string)
    requires k in ContactKeys
    ensures "contact" in d && d["contact"].Obj? && k in d["contact"].fields && d["contact"].fields[k].Str? ==>
      ContactOf(Decode(d, userId), k) == d["contact"].fields[k].s
    ensures ("contact" !in d || !d["contact"].Obj? || k !in d["contact"].fields || !d["contact"].fields[k].Str?) ==>
      ContactOf(Decode(d, userId), k) == ""
  {
    ChannelFromContactMap(d, userId, k);
  }

  /** The decoder reads only the keys it names: two documents that agree on
      them decode alike, so a top-level "email" key, say, never reaches the
      record's email. */
  lemma DecodeReadsOnlyItsKeys(d1: Doc, d2: Doc, userId: string)
    requires forall k :: k in ["fullName", "career", "organization", "contact", "location", "profileImage", "visibility"] ==>
      (k in d1 <==> k in d2) && (k in d1 ==> d1[k] == d2[k])
    ensures Decode(d1, userId) == Decode(d2, userId)
  {
    var keys := ["fullName", "career", "organization", "contact", "location", "profileImage", "visibility"];
    assert keys[0] == "fullName" && keys[1] == "career" && keys[2] == "organization" && keys[3] == "contact";
    assert keys[4] == "location" && keys[5] == "profileImage" && keys[6] == "visibility";
    assert StringField(d1, "fullName") == StringField(d2, "fullName");
    assert StringField(d1, "career") == StringField(d2, "career");
    assert StringField(d1, "organization") == StringField(d2, "organization");
    assert StringField(d1, "profileImage") == StringField(d2, "profileImage");
    assert StringField(d1, "visibility") == StringField(d2, "visibility");
    assert MapField(d1, "contact") == MapField(d2, "contact");
    assert MapField(d1, "location") == MapField(d2, "location");
  }

  /** The image is the stored string when there is one and null otherwise; it never defaults to "". */
  lemma ProfileImageDecoding(d: Doc, userId: string)
    ensures Decode(d, userId).profileImage.Some? <==> "profileImage" in d && d["profileImage"].Str?
    ensures Decode(d, userId).profileImage.Some? ==> d["profileImage"] == Str(Decode(d, userId).profileImage.value)
  {
  }

  /** Visibility is the stored string, or "Public" when it is missing or not a
      string, although the no-argument record carries "". */
  lemma VisibilityDecoding(d: Doc, userId: string)
    ensures ("visibility" !in d || !d["visibility"].Str?) ==> Decode(d, userId).visibility == Some(PublicVisibility)
    ensures "visibility" in d && d["visibility"].Str? ==> Decode(d, userId).visibility == Some(d["visibility"].s)
    ensures DefaultProfile.visibility != Some(PublicVisibility)
  {
  }

  /** The user ids of a list of profiles, in order. */
  function ProfileIds(ps: seq<UserProfile>): (r: seq<string>)
    ensures |r| == |ps|
    ensures forall i :: 0 <= i < |ps| ==> r[i] == ps[i].userId
  {
    if ps == [] then [] else [ps[0].userId] + ProfileIds(ps[1..])
  }

  function NotUser(id: string): UserProfile -> bool
  {
    (p: UserProfile) => p.userId != id
  }

  /** `filter { it.userId != id }` on a displayed list: the profiles of that
      user dropped, every other profile kept. */
  function WithoutUser(ps: seq<UserProfile>, id: string): (r: seq<UserProfile>)
    ensures forall p :: p in r <==> p in ps && p.userId != id
  {
    var r := Filter(ps, NotUser(id));
    forall p ensures p in r <==> p in ps && p.userId != id {
      FilterMembership(ps, NotUser(id), p);
    }
    r
  }

  /** Dropping a user keeps the order of the profiles left. */
  lemma WithoutUserSubsequence(ps: seq<UserProfile>, id: string)
    ensures Subsequence(WithoutUser(ps, id), ps)
  {
    FilterSubsequence(ps, NotUser(id));
  }

  /** Dropping a user absent from the list changes nothing. */
  lemma WithoutAbsentUser(ps: seq<UserProfile>, id: string)
    requires forall i :: 0 <= i < |ps| ==> ps[i].userId != id
    ensures WithoutUser(ps, id) == ps
  {
    FilterKeepsAll(ps, NotUser(id));
  }
}
