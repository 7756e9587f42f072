/** The logic of the "My Card" screen: the share link, the QR bitmap fill,
    and which lines of a profile card are shown. */
module MyCardScreen {
  import opened Wrappers
  import opened Text
  import opened Seqs
  import opened Documents
  import opened UserProfiles

  const ShareLinkPrefix := "network://profile/"

  /** The link shared for a profile: it is both the QR code's content and
      the text copied by "Copy Profile Link". */
  function ShareLink(userId: string): (link: string)
    ensures ShareLinkPrefix <= link && link[|ShareLinkPrefix|..] == userId
  {
    ShareLinkPrefix + userId
  }

  /** Different users get different links. */
  lemma ShareLinkInjective(a: string, b: string)
    requires ShareLink(a) == ShareLink(b)
    ensures a == b
  {
    assert a == ShareLink(a)[|ShareLinkPrefix|..];
  }

  // ---- QR bitmap -------------------------------------------------------------

  /** `android.graphics.Color.BLACK` (ARGB 0xFF000000) as a signed 32-bit Int. */
  const Black: int := -16777216
  /** `android.graphics.Color.WHITE` (ARGB 0xFFFFFFFF) as a signed 32-bit Int. */
  const White: int := -1
  /** The default side of the QR bitmap, in pixels. */
  const DefaultQrSize: int := 512

  function PixelFor(bit: bool): (color: int)
    ensures color == Black <==> bit
    ensures color == White <==> !bit
  {
    if bit then Black else White
  }

  /** The fill loop of `generateQrCode`: a fresh `size`×`size` bitmap whose
      pixel (x, y) is black exactly where the encoder's bit matrix is set.
      The encoder itself (`QRCodeWriter.encode`) is the input `bits`, which
      is at least as large as requested. */
  method GenerateQrCode(bits: array2<bool>, size: int) returns (bitmap: array2<int>)
    requires 0 < size <= bits.Length0 && size <= bits.Length1
    ensures fresh(bitmap)
    ensures bitmap.Length0 == size && bitmap.Length1 == size
    ensures forall x, y :: 0 <= x < size && 0 <= y < size ==> bitmap[x, y] == PixelFor(bits[x, y])
  {
    bitmap := new int[size, size];
    for x := 0 to size
      invariant forall i, j :: 0 <= i < x && 0 <= j < size ==> bitmap[i, j] == PixelFor(bits[i, j])
    {
      for y := 0 to size
        invariant forall i, j :: 0 <= i < x && 0 <= j < size ==> bitmap[i, j] == PixelFor(bits[i, j])
        invariant forall j :: 0 <= j < y ==> bitmap[x, j] == PixelFor(bits[x, j])
      {
        bitmap[x, y] := if bits[x, y] then Black else White;
      }
    }
  }

  /** The share dialog's QR code: the link of the profile, encoded at the default size. */
  method ShareDialogQr(profile: UserProfile, encode: array2<bool>) returns (content: string, clip: string, bitmap: array2<int>)
    requires DefaultQrSize <= encode.Length0 && DefaultQrSize <= encode.Length1
    ensures content == clip == ShareLink(profile.userId)
    ensures fresh(bitmap) && bitmap.Length0 == DefaultQrSize && bitmap.Length1 == DefaultQrSize
  {
    content := "network://profile/" + profile.userId;
    clip := "network://profile/" + profile.userId;
    bitmap := GenerateQrCode(encode, DefaultQrSize);
  }

  // ---- Profile card ----------------------------------------------------------

  function NotBlank(s: string): bool { !IsBlank(s) }

  /** The location line: the non-blank values of city and country joined by ", ". */
  function LocationLine(city: string, country: string): (line: string)
    ensures line == "" <==> IsBlank(city) && IsBlank(country)
    ensures IsBlank(line) <==> IsBlank(city) && IsBlank(country)
    ensures !IsBlank(city) && !IsBlank(country) ==> line == city + ", " + country
    ensures !IsBlank(city) && IsBlank(country) ==> line == city
    ensures IsBlank(city) && !IsBlank(country) ==> line == country
  {
    var parts := (if NotBlank(city) then [city] else []) + (if NotBlank(country) then [country] else []);
    assert IsBlank("");
    if NotBlank(city) && NotBlank(country) then
      assert parts == [city, country] && parts[1..] == [country];
      NotBlankPrefix(city, ", " + country);
      assert city + ", " + country == city + (", " + country);
      Join(parts, ", ")
    else
      Join(parts, ", ")
  }

  lemma NotBlankPrefix(a: string, b: string)
    requires !IsBlank(a)
    ensures !IsBlank(a + b)
  {
    var i :| 0 <= i < |a| && !IsWhitespace(a[i]);
    assert (a + b)[i] == a[i];
  }

  /** Kotlin's `ifBlank { "" }`. */
  function IfBlankEmpty(s: string): (r: string)
    ensures IsBlank(s) ==> r == ""
    ensures !IsBlank(s) ==> r == s
  {
    if IsBlank(s) then "" else s
  }

  /** The `isNullOrEmpty()` guard of the card: the text drawn, if any. */
  function NonEmpty(text: Option<string>): (drawn: Option<string>)
    ensures drawn.Some? <==> text.Some? && text.value != ""
    ensures drawn.Some? ==> drawn == text
  {
    if text.Some? && text.value != "" then text else None
  }

  /** The rows of the profile card's contact column, in the order drawn. */
  datatype Channel = Phone | Email | Website | Location | LinkedIn | Instagram | Facebook
                   | Twitter | WhatsApp | Telegram | Skype | WeChat | Line

  const CardChannels: seq<Channel> :=
    [Phone, Email, Website, Location, LinkedIn, Instagram, Facebook, Twitter, WhatsApp, Telegram, Skype, WeChat, Line]

  /** The key of the stored "contact" map that a channel other than Location shows. */
  function StoredKey(c: Channel): (key: string)
    requires c != Location
    ensures key in ContactKeys
  {
    match c
    case Phone => "phone"
    case Email => "email"
    case Website => "website"
    case LinkedIn => "linkedin"
    case Instagram => "instagram"
    case Facebook => "facebook"
    case Twitter => "twitter"
    case WhatsApp => "whatsapp"
    case Telegram => "telegram"
    case Skype => "skype"
    case WeChat => "weChat"
    case Line => "line"
  }

  /** Every stored contact channel has its own row on the card. */
  lemma CardShowsEveryStoredChannel(key: string)
    requires key in ContactKeys
    ensures exists c :: c in CardChannels && c != Location && StoredKey(c) == key
  {
    var c :=
      if key == "phone" then Phone else if key == "email" then Email else if key == "website" then Website
      else if key == "linkedin" then LinkedIn else if key == "instagram" then Instagram
      else if key == "facebook" then Facebook else if key == "twitter" then Twitter
      else if key == "whatsapp" then WhatsApp else if key == "telegram" then Telegram
      else if key == "skype" then Skype else if key == "weChat" then WeChat else Line;
    assert c in CardChannels && StoredKey(c) == key;
  }

  /** The text handed to the `ContactRow` of a channel: the profile's value
      for the channel's stored key, or the location line for Location. */
  function RowText(p: UserProfile, c: Channel): (text: string)
    ensures c != Location ==> text == ContactOf(p, StoredKey(c))
    ensures c == Location ==> (text == "" <==> IsBlank(p.city) && IsBlank(p.country))
  {
    match c
    case Phone => p.phone
    case Email => p.email
    case Website => p.website
    case Location => IfBlankEmpty(LocationLine(p.city, p.country))
    case LinkedIn => p.linkedin
    case Instagram => p.instagram
    case Facebook => p.facebook
    case Twitter => p.twitter
    case WhatsApp => p.whatsapp
    case Telegram => p.telegram
    case Skype => p.skype
    case WeChat => p.weChat
    case Line => p.line
  }

  /** The channels whose row is drawn, in card order: `ContactRow` draws
      only non-null, non-empty text. */
  function ShownRows(p: UserProfile, channels: seq<Channel>): (r: seq<Channel>)
    ensures forall c :: c in r ==> c in channels && NonEmpty(Some(RowText(p, c))).Some?
  {
    if channels == [] then []
    else (if NonEmpty(Some(RowText(p, channels[0]))).Some? then [channels[0]] else []) + ShownRows(p, channels[1..])
  }

  /** A channel's row is drawn exactly when its text is non-empty; the
      location row exactly when city or country is non-blank. */
  lemma {:induction false} ShownRowsIff(p: UserProfile, channels: seq<Channel>, c: Channel)
    ensures c in ShownRows(p, channels) <==> c in channels && RowText(p, c) != ""
  {
    if channels != [] {
      ShownRowsIff(p, channels[1..], c);
      assert channels == [channels[0]] + channels[1..];
    }
  }

  lemma LocationRowShownIff(p: UserProfile)
    ensures Location in ShownRows(p, CardChannels) <==> !IsBlank(p.city) || !IsBlank(p.country)
  {
    ShownRowsIff(p, CardChannels, Location);
    assert Location in CardChannels;
  }

  /** The row of a stored channel is drawn exactly when the profile's value for its key is non-empty. */
  lemma ChannelRowShownIff(p: UserProfile, c: Channel)
    requires c != Location
    ensures c in ShownRows(p, CardChannels) <==> ContactOf(p, StoredKey(c)) != ""
  {
    ShownRowsIff(p, CardChannels, c);
    assert c in CardChannels;
  }

  /** The drawn rows keep the card order. */
  lemma {:induction false} ShownRowsSubsequence(p: UserProfile, channels: seq<Channel>)
    ensures Subsequence(ShownRows(p, channels), channels)
  {
    if channels != [] {
      ShownRowsSubsequence(p, channels[1..]);
      var r := ShownRows(p, channels);
      if NonEmpty(Some(RowText(p, channels[0]))).Some? {
        assert r[0] == channels[0] && r[1..] == ShownRows(p, channels[1..]);
      } else {
        assert r == ShownRows(p, channels[1..]);
        SubsequenceDropHead(r, channels);
      }
    }
  }

  /** The top of the card: the photo with the 48dp spacer below it, the
      name, and the career and organization lines (None: not drawn). */
  datatype CardHeader = CardHeader(photo: Option<string>, spacer: bool, name: string,
                                   career: Option<string>, organization: Option<string>)

  /** Photo and spacer need a non-null, non-empty URL; career and
      organization need non-empty text; the name is always drawn. */
  function CardHeaderOf(p: UserProfile): (h: CardHeader)
    ensures h.photo.Some? <==> p.profileImage.Some? && p.profileImage.value != ""
    ensures h.photo.Some? ==> h.photo == p.profileImage
    ensures h.spacer <==> h.photo.Some?
    ensures h.name == p.fullName
    ensures h.career.Some? <==> p.career != ""
    ensures h.career.Some? ==> h.career.value == p.career
    ensures h.organization.Some? <==> p.organization != ""
    ensures h.organization.Some? ==> h.organization.value == p.organization
  {
    var photo := NonEmpty(p.profileImage);
    CardHeader(photo, photo.Some?, p.fullName, NonEmpty(Some(p.career)), NonEmpty(Some(p.organization)))
  }

  /** For a stored document: the photo is drawn exactly when "profileImage"
      holds a non-empty string, and the career line exactly when "career" does. */
  lemma StoredCardHeader(d: Doc, uid: string)
    ensures var h := CardHeaderOf(Decode(d, uid));
      && (h.photo.Some? <==> "profileImage" in d && d["profileImage"].Str? && d["profileImage"].s != "")
      && (h.career.Some? <==> "career" in d && d["career"].Str? && d["career"].s != "")
      && (h.organization.Some? <==> "organization" in d && d["organization"].Str? && d["organization"].s != "")
  {
    ProfileImageDecoding(d, uid);
    AbsentTopLevelStringsAreEmpty(d, uid);
    if "career" in d && d["career"].Str? {
      PresentTopLevelStrings(d, uid, d["career"].s);
    }
    if "organization" in d && d["organization"].Str? {
      PresentTopLevelStrings(d, uid, d["organization"].s);
    }
  }
}
