/**
 * The pure computations of the web server's routes (webserver.cpp): the hand-built
 * JSON listings of tabs, of a tab's sounds and of the favourites, the volume slider of
 * the volume route, and the slider position the sound details route reports.
 *
 * The library lookups (`getTabs`, `getTab`, `getSound`, `getFavorites`) and the calls
 * into the desktop interface are parameters: their results are given, and the route is
 * what it computes from them. Route ids are the numbers the `\d+` path segment spells.
 */
module WebServer {
  import opened Wrappers
  import opened Ints
  import opened Json
  import JsonText
  import B = Bindings

  /** `std::stoul` throws `out_of_range` beyond the 64-bit unsigned long. */
  const ULONG_MAX: int := TWO_64 - 1

  // ---------------------------------------------------------------------------------
  // Listings
  // ---------------------------------------------------------------------------------

  /** The object the tabs listing writes for one tab. */
  function TabObject(t: B.Tab): JsonText.Object {
    [JsonText.Field("id", JsonText.Num(t.id)), JsonText.Field("name", JsonText.Str(t.name)),
     JsonText.Field("path", JsonText.Str(t.path)), JsonText.Field("sortMode", JsonText.Num(t.sortMode))]
  }

  /** The object a sound listing writes for one sound, with the favourite flag it reports. */
  function SoundObject(s: B.Sound, isFavorite: bool): JsonText.Object {
    [JsonText.Field("id", JsonText.Num(s.id)), JsonText.Field("name", JsonText.Str(s.name)),
     JsonText.Field("path", JsonText.Str(s.path)), JsonText.Field("isFavorite", JsonText.Bool(isFavorite))]
  }

  function TabObjects(tabs: seq<B.Tab>): (os: seq<JsonText.Object>)
    ensures |os| == |tabs| && forall i :: 0 <= i < |tabs| ==> os[i] == TabObject(tabs[i])
  {
    seq(|tabs|, i requires 0 <= i < |tabs| => TabObject(tabs[i]))
  }

  /** The sounds of a tab listing reports each sound's own flag; the favourites listing says true. */
  function SoundObjects(sounds: seq<B.Sound>, favorites: bool): (os: seq<JsonText.Object>)
    ensures |os| == |sounds|
    ensures forall i :: 0 <= i < |sounds| ==> os[i] == SoundObject(sounds[i], favorites || sounds[i].isFavorite)
  {
    seq(|sounds|, i requires 0 <= i < |sounds| => SoundObject(sounds[i], favorites || sounds[i].isFavorite))
  }

  /** GET /api/tabs as written: names and paths go between quotes as they are. */
  function TabsListingAsWritten(tabs: seq<B.Tab>): string {
    JsonText.Encode(TabObjects(tabs), false)
  }

  /** GET /api/tabs with names and paths escaped: the text reads back as one object per
      tab, in library order, with the tab's id, name, path and sort mode. */
  function TabsListing(tabs: seq<B.Tab>): (text: string)
    ensures JsonText.Decode(text) == Some(TabObjects(tabs))
  {
    JsonText.DecodeEncode(TabObjects(tabs));
    JsonText.Encode(TabObjects(tabs), true)
  }

  /** GET /api/favorites with names and paths escaped: every sound reads back marked as a favourite. */
  function FavoritesListing(favorites: seq<B.Sound>): (text: string)
    ensures JsonText.Decode(text) == Some(SoundObjects(favorites, true))
    ensures forall i :: 0 <= i < |favorites| ==>
              SoundObjects(favorites, true)[i][3] == JsonText.Field("isFavorite", JsonText.Bool(true))
  {
    JsonText.DecodeEncode(SoundObjects(favorites, true));
    JsonText.Encode(SoundObjects(favorites, true), true)
  }

  /** GET /api/favorites as written: names and paths go between quotes as they are. The text
      is a JSON array exactly when the plain listing's is (FavoritesListingPlain), and a name
      holding a quote breaks it (QuoteInSoundNameBreaksListings). */
  function FavoritesListingAsWritten(favorites: seq<B.Sound>): (text: string)
    ensures |text| >= 2 && text[0] == '[' && text[|text| - 1] == ']'
  {
    JsonText.Encode(SoundObjects(favorites, true), false)
  }

  /** The names and paths of the sounds need no escaping. */
  predicate PlainSounds(sounds: seq<B.Sound>) {
    forall i :: 0 <= i < |sounds| ==> JsonText.Plain(sounds[i].name) && JsonText.Plain(sounds[i].path)
  }

  /** A sound listing as written is the escaped one whenever no name or path needs escaping. */
  lemma SoundObjectsPlain(sounds: seq<B.Sound>, favorites: bool)
    requires PlainSounds(sounds)
    ensures JsonText.Encode(SoundObjects(sounds, favorites), false) == JsonText.Encode(SoundObjects(sounds, favorites), true)
  {
    var os := SoundObjects(sounds, favorites);
    assert JsonText.AllPlain(os) by {
      forall i, j | 0 <= i < |os| && 0 <= j < |os[i]|
        ensures JsonText.Plain(os[i][j].key) && (os[i][j].value.Str? ==> JsonText.Plain(os[i][j].value.s))
      {
        assert os[i] == SoundObject(sounds[i], favorites || sounds[i].isFavorite);
      }
    }
    JsonText.PlainNeedsNoEscaping(os);
  }

  /** The favourites listing as written is right whenever no name or path needs escaping. */
  lemma FavoritesListingPlain(favorites: seq<B.Sound>)
    requires PlainSounds(favorites)
    ensures FavoritesListingAsWritten(favorites) == FavoritesListing(favorites)
    ensures JsonText.Decode(FavoritesListingAsWritten(favorites)) == Some(SoundObjects(favorites, true))
  {
    SoundObjectsPlain(favorites, true);
  }

  /** The names and paths of the tabs need no escaping. */
  predicate PlainTabs(tabs: seq<B.Tab>) {
    forall i :: 0 <= i < |tabs| ==> JsonText.Plain(tabs[i].name) && JsonText.Plain(tabs[i].path)
  }

  /** The listing as written is right whenever no name or path needs escaping. */
  lemma TabsListingPlain(tabs: seq<B.Tab>)
    requires PlainTabs(tabs)
    ensures TabsListingAsWritten(tabs) == TabsListing(tabs)
    ensures JsonText.Decode(TabsListingAsWritten(tabs)) == Some(TabObjects(tabs))
  {
    var os := TabObjects(tabs);
    assert JsonText.AllPlain(os) by {
      forall i, j | 0 <= i < |os| && 0 <= j < |os[i]|
        ensures JsonText.Plain(os[i][j].key) && (os[i][j].value.Str? ==> JsonText.Plain(os[i][j].value.s))
      {
        assert os[i] == TabObject(tabs[i]);
      }
    }
    JsonText.PlainNeedsNoEscaping(os);
  }

  /** A tab named by a single quote character: the listing as written is not JSON, while
      the escaped listing reads back. */
  lemma QuoteInNameBreaksListing()
    ensures var tabs := [B.Tab(1, "\"", "", [], 0)];
            && JsonText.Decode(TabsListingAsWritten(tabs)) == None
            && JsonText.Decode(TabsListing(tabs)) == Some(TabObjects(tabs))
  {
    var tabs := [B.Tab(1, "\"", "", [], 0)];
    assert TabObjects(tabs) == [TabObject(tabs[0])];
    QuoteBreaksListing(TabObjects(tabs));
  }

  /** A listing whose first object starts with a numeric id and a name that is a single
      quote character is not JSON when written without escaping. */
  lemma QuoteBreaksListing(os: seq<JsonText.Object>)
    requires |os| >= 1 && |os[0]| >= 3 && os[0][0].key == "id" && os[0][0].value.Num?
    requires os[0][1] == JsonText.Field("name", JsonText.Str("\""))
    ensures JsonText.Decode(JsonText.Encode(os, false)) == None
  {
    var idField := os[0][0];
    var text := JsonText.Encode(os, false);
    var tail := QuoteListingShape(os);
    // the id field reads back as written
    assert JsonText.EncodeField(idField, false) == JsonText.EncodeField(idField, true) by {
      JsonText.EscapePlain("id");
    }
    JsonText.ReadEncodedField(idField, "," + tail);
    // the name field's value ends at the second of its three quotes
    ReadBrokenName(tail);
    FieldListStops(tail, JsonText.Field("name", JsonText.Str("")), tail[9..]);
    FieldListFails(text[2..], idField, tail);
    ListingFails(text);
  }

  /** The unescaped listing of objects whose first one starts with an id and a name that is
      a single quote: `[{`, the id field, a comma, and a tail that starts with the name field. */
  lemma QuoteListingShape(os: seq<JsonText.Object>) returns (tail: string)
    requires |os| >= 1 && |os[0]| >= 3 && os[0][0].key == "id" && os[0][0].value.Num?
    requires os[0][1] == JsonText.Field("name", JsonText.Str("\""))
    ensures var text := JsonText.Encode(os, false);
            && |text| >= 3 && text[0] == '[' && text[1] == '{' && text[2] == '"'
            && text[2..] == JsonText.EncodeField(os[0][0], false) + ("," + tail)
            && |tail| >= 10 && tail[..10] == "\"name\":\"\"\""
  {
    var a := JsonText.EncodeField(os[0][0], false);
    var g := QuoteFieldsShape(os[0]);
    var fields := JsonText.EncodeFields(os[0], false);
    var after := ObjectsShape(os);
    var text := JsonText.Encode(os, false);
    assert a[0] == '"';
    tail := g + ("}" + after);
    Unwrap(text, fields, after);
    Regroup3(a, g, "}" + after);
    assert tail[..10] == g[..10];
  }

  /** The fields of an object whose second field is a name that is a single quote: the
      first field, a comma, and the name field. */
  lemma QuoteFieldsShape(o: JsonText.Object) returns (g: string)
    requires |o| >= 3 && o[1] == JsonText.Field("name", JsonText.Str("\""))
    ensures JsonText.EncodeFields(o, false) == JsonText.EncodeField(o[0], false) + "," + g
    ensures |g| >= 10 && g[..10] == "\"name\":\"\"\""
  {
    var nameText := JsonText.EncodeField(o[1], false);
    assert nameText == "\"name\":\"\"\"";
    assert o[1..][0] == o[1] && o[1..][1..] == o[2..];
    g := nameText + "," + JsonText.EncodeFields(o[2..], false);
    assert JsonText.EncodeFields(o[1..], false) == g;
    assert g[..10] == nameText;
  }

  /** The unescaped listing: `[`, the first object, and what follows it. */
  lemma ObjectsShape(os: seq<JsonText.Object>) returns (after: string)
    requires |os| >= 1
    ensures JsonText.Encode(os, false) == "[" + ("{" + JsonText.EncodeFields(os[0], false) + "}") + after
  {
    var first := JsonText.EncodeObject(os[0], false);
    if |os| == 1 {
      assert JsonText.EncodeObjects(os, false) == first;
      after := "]";
    } else {
      var more := "," + JsonText.EncodeObjects(os[1..], false);
      assert JsonText.EncodeObjects(os, false) == first + more;
      after := more + "]";
      assert "[" + (first + more) + "]" == "[" + first + after;
    }
  }

  /** A name field whose value is a bare quote ends after an empty string, at that quote. */
  lemma ReadBrokenName(tail: string)
    requires |tail| >= 10 && tail[..10] == "\"name\":\"\"\""
    ensures JsonText.ReadField(tail) == Some((JsonText.Field("name", JsonText.Str("")), tail[9..]))
    ensures tail[9..] != [] && tail[9..][0] == '"'
  {
    var head := tail[..10];
    assert forall i :: 0 <= i < 10 ==> tail[i] == head[i];
    assert tail[0] == '"' && tail[6] == ':' && tail[7] == '"' && tail[8] == '"' && tail[9] == '"';
    JsonText.EscapePlain("name");
    assert tail[1..] == JsonText.Escape("name") + "\"" + tail[6..] by {
      assert tail[1..] == tail[1..6] + tail[6..];
      assert tail[1..6] == "name" + "\"";
    }
    JsonText.ReadEscapedString("name", tail[6..]);
    assert JsonText.ReadStringBody(tail[8..]) == Some(([], tail[9..]));
    assert JsonText.ReadValue(tail[7..]) == Some((JsonText.Str(""), tail[9..]));
    assert tail[6..][1..] == tail[7..];
    assert JsonText.ReadStringBody(tail[1..]) == Some(("name", tail[6..]));
    assert tail[0] == '"';
  }

  /** A field followed by neither a comma nor a closing brace makes no field list. */
  lemma FieldListStops(s: string, f: JsonText.Field, t: string)
    requires JsonText.ReadField(s) == Some((f, t)) && t != [] && t[0] != ',' && t[0] != '}'
    ensures JsonText.ReadFieldList(s) == None
  {
  }

  /** A field followed by a comma and then by no field list makes no field list. */
  lemma FieldListFails(s: string, f: JsonText.Field, t: string)
    requires JsonText.ReadField(s) == Some((f, "," + t)) && JsonText.ReadFieldList(t) == None
    ensures JsonText.ReadFieldList(s) == None
  {
    assert ("," + t)[0] == ',' && ("," + t)[1..] == t;
  }

  /** A listing whose first object's fields do not read is not read. */
  lemma ListingFails(text: string)
    requires |text| >= 3 && text[0] == '[' && text[1] == '{' && text[2] == '"'
    requires JsonText.ReadFieldList(text[2..]) == None
    ensures JsonText.Decode(text) == None
  {
    assert text[1..][0] == '{' && text[1..][1] == '"' && text[1..][1..] == text[2..];
    assert JsonText.ReadObject(text[1..]) == None;
  }

  lemma Unwrap(text: string, fields: string, after: string)
    requires text == "[" + ("{" + fields + "}") + after && fields != [] && fields[0] == '"'
    ensures text[0] == '[' && text[1] == '{' && text[2..] == fields + ("}" + after)
    ensures text[1..][0] == '{' && text[1..][1] == '"' && text[1..][1..] == text[2..]
  {
  }

  lemma Regroup3(a: string, g: string, c: string)
    ensures (a + "," + g) + c == a + ("," + (g + c))
  {
  }

  /** GET /api/tabs/<id>/sounds. */
  datatype SoundsReply = InvalidTabId | TabNotFound | SoundList(text: string)

  function TabSounds(id: nat, getTab: nat -> Option<B.Tab>): (r: SoundsReply)
    ensures id > ULONG_MAX <==> r == InvalidTabId
    ensures id <= ULONG_MAX && getTab(id).None? <==> r == TabNotFound
    ensures r.SoundList? ==> JsonText.Decode(r.text) == Some(SoundObjects(getTab(id).value.sounds, false))
  {
    if id > ULONG_MAX then InvalidTabId
    else match getTab(id)
      case None => TabNotFound
      case Some(tab) =>
        JsonText.DecodeEncode(SoundObjects(tab.sounds, false));
        SoundList(JsonText.Encode(SoundObjects(tab.sounds, false), true))
  }

  /** GET /api/tabs/<id>/sounds as written: names and paths go between quotes as they are.
      It fails on the same ids as the escaped route. */
  function TabSoundsAsWritten(id: nat, getTab: nat -> Option<B.Tab>): (r: SoundsReply)
    ensures id > ULONG_MAX <==> r == InvalidTabId
    ensures id <= ULONG_MAX && getTab(id).None? <==> r == TabNotFound
    ensures r.SoundList? <==> TabSounds(id, getTab).SoundList?
  {
    if id > ULONG_MAX then InvalidTabId
    else match getTab(id)
      case None => TabNotFound
      case Some(tab) => SoundList(JsonText.Encode(SoundObjects(tab.sounds, false), false))
  }

  /** The sound listing as written is right whenever no name or path of the tab's sounds
      needs escaping. */
  lemma TabSoundsPlain(id: nat, getTab: nat -> Option<B.Tab>)
    requires id <= ULONG_MAX && getTab(id).Some? && PlainSounds(getTab(id).value.sounds)
    ensures TabSoundsAsWritten(id, getTab) == TabSounds(id, getTab)
    ensures JsonText.Decode(TabSoundsAsWritten(id, getTab).text) == Some(SoundObjects(getTab(id).value.sounds, false))
  {
    SoundObjectsPlain(getTab(id).value.sounds, false);
  }

  /** A sound named by a single quote character: the tab's sound listing and the favourites
      listing as written are not JSON, while the escaped listings read back. */
  lemma QuoteInSoundNameBreaksListings()
    ensures var sounds := [B.Sound(1, "\"", "", true, [], 0, None, None)];
            var getTab := (n: nat) => Some(B.Tab(1, "tab", "", sounds, 0));
            && JsonText.Decode(TabSoundsAsWritten(1, getTab).text) == None
            && JsonText.Decode(TabSounds(1, getTab).text) == Some(SoundObjects(sounds, false))
            && JsonText.Decode(FavoritesListingAsWritten(sounds)) == None
            && JsonText.Decode(FavoritesListing(sounds)) == Some(SoundObjects(sounds, true))
  {
    var sounds := [B.Sound(1, "\"", "", true, [], 0, None, None)];
    QuoteBreaksListing(SoundObjects(sounds, false));
    QuoteBreaksListing(SoundObjects(sounds, true));
  }

  /** HTTP status of a sounds reply. */
  function SoundsStatus(r: SoundsReply): (status: int)
    ensures status == 200 <==> r.SoundList?
    ensures status == 400 <==> r == InvalidTabId
    ensures status == 404 <==> r == TabNotFound
  {
    match r
    case InvalidTabId => 400
    case TabNotFound => 404
    case SoundList(_) => 200
  }

  // ---------------------------------------------------------------------------------
  // Conversions between float and int
  // ---------------------------------------------------------------------------------

  /** Truncation toward zero. */
  function Trunc(x: real): (n: int)
    ensures x >= 0.0 ==> n as real <= x < n as real + 1.0
    ensures x < 0.0 ==> n as real - 1.0 < x <= n as real
  {
    if x >= 0.0 then x.Floor else -((-x).Floor)
  }

  /** `static_cast<int>` on x86-64 of a value already truncated: itself when it fits, and
      the "integer indefinite" value INT_MIN otherwise (the C++ standard leaves that case undefined). */
  function Narrow(t: int): (n: i32)
    ensures I32_MIN <= t <= I32_MAX ==> n == t
    ensures !(I32_MIN <= t <= I32_MAX) ==> n == I32_MIN
  {
    if I32_MIN <= t <= I32_MAX then t else I32_MIN
  }

  /** `static_cast<int>` of a float on x86-64. */
  function CastToI32(x: real): i32 {
    Narrow(Trunc(x))
  }

  /** A single-precision value: finite, infinite or not a number. */
  datatype Float = Finite(x: real) | Infinite(positive: bool) | NaN

  /** `static_cast<float>(a) / static_cast<float>(b)`, division by zero giving an infinity or NaN. */
  function Ratio(a: int, b: int): (r: Float)
    ensures b != 0 ==> r == Finite(a as real / b as real)
    ensures b == 0 ==> (a > 0 ==> r == Infinite(true)) && (a < 0 ==> r == Infinite(false)) && (a == 0 ==> r == NaN)
  {
    if b != 0 then Finite(a as real / b as real)
    else if a > 0 then Infinite(true)
    else if a < 0 then Infinite(false)
    else NaN
  }

  // ---------------------------------------------------------------------------------
  // Sound details: the slider position
  // ---------------------------------------------------------------------------------

  /** The slider position as written: `(ratio - 1) * 50` converted to int, then capped at
      50 above 1 and at -50 below 1; a ratio of exactly 1 or NaN is the centre. */
  function SliderAsWritten(ratio: Float): (p: i32)
    ensures ratio == NaN || ratio == Finite(1.0) ==> p == 0
    ensures p == I32_MIN <==> Overflows(ratio)
    ensures p != I32_MIN ==> -50 <= p <= 50
  {
    match ratio
    case NaN => 0
    // the conversion of an infinity gives INT_MIN, which the cap at 50 lets through and
    // the floor at -50 replaces
    case Infinite(positive) => if positive then I32_MIN else -50
    case Finite(x) =>
      if x > 1.0 then (var c := CastToI32((x - 1.0) * 50.0); if c < 50 then c else 50)
      else if x < 1.0 then (var c := CastToI32((x - 1.0) * 50.0); if c > -50 then c else -50)
      else 0
  }

  /** The slider position capped before the conversion: always on the slider. */
  function Slider(ratio: Float): (p: int)
    ensures -50 <= p <= 50
    ensures ratio.Infinite? ==> p == (if ratio.positive then 50 else -50)
    ensures ratio == NaN || ratio == Finite(1.0) ==> p == 0
    ensures ratio.Finite? && ratio.x > 1.0 ==> p >= 0
    ensures ratio.Finite? && ratio.x < 1.0 ==> p <= 0
  {
    match ratio
    case NaN => 0
    case Infinite(positive) => if positive then 50 else -50
    case Finite(x) =>
      if x > 1.0 then (var t := Trunc((x - 1.0) * 50.0); if t < 50 then t else 50)
      else if x < 1.0 then (var t := Trunc((x - 1.0) * 50.0); if t > -50 then t else -50)
      else 0
  }

  /** A ratio whose position the conversion cannot hold: infinite, or more than 2^31 above the centre. */
  predicate Overflows(ratio: Float) {
    (ratio.Infinite? && ratio.positive) || (ratio.Finite? && (ratio.x - 1.0) * 50.0 >= I32_MAX as real + 1.0)
  }

  /** The two agree on every ratio whose position fits an int. */
  lemma SliderAgrees(ratio: Float)
    requires !Overflows(ratio)
    ensures SliderAsWritten(ratio) == Slider(ratio)
  {
    if ratio.Finite? && ratio.x < 1.0 {
      var y := (ratio.x - 1.0) * 50.0;
      if y <= I32_MIN as real - 1.0 {
        assert Trunc(y) <= -50;
      }
    }
  }

  /** With the default local volume at 0 and a custom local volume of 1, the ratio is
      infinite and the position as written is INT_MIN, off the slider. */
  lemma ZeroDefaultVolumeOffSlider()
    ensures SliderAsWritten(Ratio(1, 0)) == I32_MIN
    ensures Slider(Ratio(1, 0)) == 50
  {
  }

  /** The first non-empty name of a tab holding the sound, or "" (the search stops at a
      non-empty name only). */
  function TabName(tabs: seq<B.Tab>, soundId: int): (name: string)
    ensures name != "" ==> exists i :: 0 <= i < |tabs| && tabs[i].name == name && HasSound(tabs[i], soundId)
    ensures (forall i :: 0 <= i < |tabs| ==> !HasSound(tabs[i], soundId) || tabs[i].name == "") ==> name == ""
    ensures forall i ::
              (0 <= i < |tabs| && HasSound(tabs[i], soundId) && tabs[i].name != ""
               && (forall j :: 0 <= j < i ==> !HasSound(tabs[j], soundId) || tabs[j].name == ""))
              ==> name == tabs[i].name
  {
    if tabs == [] then ""
    else if HasSound(tabs[0], soundId) && tabs[0].name != "" then tabs[0].name
    else
      var rest := TabName(tabs[1..], soundId);
      assert forall i :: 1 <= i < |tabs| ==> tabs[i] == tabs[1..][i - 1];
      rest
  }

  predicate HasSound(t: B.Tab, soundId: int) {
    exists j :: 0 <= j < |t.sounds| && t.sounds[j].id == soundId
  }

  /** What GET /api/sounds/<id> reports about a sound. */
  datatype Details = Details(
    id: nat, name: string, path: string, isFavorite: bool, tabName: string,
    defaultLocalVolume: i32, defaultRemoteVolume: i32, hasCustomVolume: bool,
    localVolume: i32, remoteVolume: i32, sliderPosition: int)

  /** The details of a found sound, with the slider position capped before the conversion:
      the effective volumes are the custom ones where set and the defaults otherwise, and
      the slider is centred without a custom volume and on the slider always. */
  function SoundDetails(s: B.Sound, tabs: seq<B.Tab>, defaultLocal: i32, defaultRemote: i32): (d: Details)
    ensures d.id == s.id && d.name == s.name && d.path == s.path && d.isFavorite == s.isFavorite
    ensures d.hasCustomVolume <==> s.localVolume.Some? || s.remoteVolume.Some?
    ensures d.localVolume == (if s.localVolume.Some? then s.localVolume.value else defaultLocal)
    ensures d.remoteVolume == (if s.remoteVolume.Some? then s.remoteVolume.value else defaultRemote)
    ensures !d.hasCustomVolume ==> d.sliderPosition == 0
    ensures -50 <= d.sliderPosition <= 50
    ensures d.hasCustomVolume && defaultLocal > 0 ==>
              (d.localVolume > defaultLocal ==> d.sliderPosition >= 0) && (d.localVolume < defaultLocal ==> d.sliderPosition <= 0)
  {
    var hasCustom := s.localVolume.Some? || s.remoteVolume.Some?;
    var local := s.localVolume.GetOr(defaultLocal);
    var remote := s.remoteVolume.GetOr(defaultRemote);
    var slider := if hasCustom then Slider(Ratio(local, defaultLocal)) else 0;
    RatioAboveOne(local, defaultLocal);
    Details(s.id, s.name, s.path, s.isFavorite, TabName(tabs, s.id), defaultLocal, defaultRemote,
            hasCustom, local, remote, slider)
  }

  /** A volume above a positive default has a ratio above 1, one below it a ratio below 1. */
  lemma RatioAboveOne(volume: int, defaultVolume: int)
    ensures defaultVolume > 0 && volume > defaultVolume ==> Ratio(volume, defaultVolume).x > 1.0
    ensures defaultVolume > 0 && volume < defaultVolume ==> Ratio(volume, defaultVolume).x < 1.0
  {
    if defaultVolume > 0 {
      var q := volume as real / defaultVolume as real;
      assert q * defaultVolume as real == volume as real;
      if volume > defaultVolume && q <= 1.0 {
        assert q * defaultVolume as real <= defaultVolume as real;
      }
      if volume < defaultVolume && q >= 1.0 {
        assert q * defaultVolume as real >= defaultVolume as real;
      }
    }
  }

  /** The slider position as written, from the same inputs. */
  function SliderPositionAsWritten(s: B.Sound, defaultLocal: i32): (p: i32)
    ensures s.localVolume.None? && s.remoteVolume.None? ==> p == 0
    ensures p == I32_MIN <==>
              (s.localVolume.Some? || s.remoteVolume.Some?) && Overflows(Ratio(s.localVolume.GetOr(defaultLocal), defaultLocal))
    ensures p != I32_MIN ==> p == SoundDetails(s, [], defaultLocal, 0).sliderPosition
  {
    if s.localVolume.Some? || s.remoteVolume.Some? then SliderAsWritten(Ratio(s.localVolume.GetOr(defaultLocal), defaultLocal))
    else 0
  }

  /** A sound with a custom local volume of 1 while the default is 0 is reported at INT_MIN as written. */
  lemma DetailsOffSlider()
    ensures var s := B.Sound(7, "a", "a.mp3", false, [], 0, Some(1), None);
            && SliderPositionAsWritten(s, 0) == I32_MIN
            && SoundDetails(s, [], 0, 100).sliderPosition == 50
  {
    ZeroDefaultVolumeOffSlider();
  }

  datatype DetailsReply = InvalidSoundId | SoundNotFound | Found(details: Details)

  /** GET /api/sounds/<id>. */
  function GetSound(id: nat, getSound: nat -> Option<B.Sound>, tabs: seq<B.Tab>, defaultLocal: i32, defaultRemote: i32)
    : (r: DetailsReply)
    ensures id > ULONG_MAX <==> r == InvalidSoundId
    ensures id <= ULONG_MAX && getSound(id).None? <==> r == SoundNotFound
    ensures r.Found? ==> r.details.id == getSound(id).value.id && -50 <= r.details.sliderPosition <= 50
  {
    if id > ULONG_MAX then InvalidSoundId
    else match getSound(id)
      case None => SoundNotFound
      case Some(s) => Found(SoundDetails(s, tabs, defaultLocal, defaultRemote))
  }

  // ---------------------------------------------------------------------------------
  // The volume route
  // ---------------------------------------------------------------------------------

  /** The requested position limited to the slider. */
  function ClampSlider(p: int): (r: int)
    ensures -50 <= r <= 50
    ensures -50 <= p <= 50 ==> r == p
    ensures p < -50 ==> r == -50
    ensures p > 50 ==> r == 50
  {
    if p < -50 then -50 else if p > 50 then 50 else p
  }

  /** Integer division truncating toward zero, as C++ `/` does. */
  function TruncDiv(a: int, b: int): (q: int)
    requires b > 0
    ensures a >= 0 ==> q == a / b
    ensures a < 0 ==> q == -((-a) / b)
  {
    if a >= 0 then a / b else -((-a) / b)
  }

  /** A default volume scaled by the factor of slider position p, converted to int and kept
      at 1 or more. Both branches of the route compute the factor (50 + p) / 50 (on the
      right written 1 + p / 50), so the scaled value truncated toward zero is
      `default * (50 + p) / 50` in C++ integer division. */
  function Scaled(defaultVolume: i32, p: int): (v: i32)
    requires -50 <= p <= 50
    ensures v >= 1
  {
    var c := Narrow(TruncDiv(defaultVolume * (50 + p), 50));
    if c > 1 then c else 1
  }

  /** Moving the slider right never lowers a volume that fits twice over, and never more
      than doubles it; moving it left never raises a volume. */
  lemma ScaledDirection(defaultVolume: i32, p: int)
    requires -50 <= p <= 50
    ensures p > 0 && 1 <= defaultVolume && 2 * defaultVolume <= I32_MAX ==>
              defaultVolume <= Scaled(defaultVolume, p) <= 2 * defaultVolume
    ensures p < 0 && defaultVolume >= 1 ==> Scaled(defaultVolume, p) <= defaultVolume
  {
    if p > 0 && 1 <= defaultVolume && 2 * defaultVolume <= I32_MAX {
      ScaleUp(defaultVolume, p);
    }
    if p < 0 && defaultVolume >= 1 {
      ScaleDown(defaultVolume, p);
    }
  }

  lemma ScaleUp(d: int, p: int)
    requires 1 <= d && 0 < p <= 50
    ensures d <= d * (50 + p) / 50 <= 2 * d
  {
    MulMono(d, p, 50);
    assert d * (50 + p) == 50 * d + d * p;
  }

  lemma ScaleDown(d: int, p: int)
    requires 1 <= d && -50 <= p < 0
    ensures 0 <= d * (50 + p) / 50 < d
  {
    MulMono(d, 0, 50 + p);
    MulMono(d, 50 + p, 49);
    assert d * 49 < d * 50;
  }

  lemma MulMono(a: int, b: int, c: int)
    requires a >= 0 && b <= c
    ensures a * b <= a * c
  {
    assert a * c - a * b == a * (c - b);
  }

  /** The details route reads back the position the volume route set, whenever the default
      volume is a multiple of 50 (the defaults are 50 and 100) and the position is not the
      far left, where the volume is held at 1. */
  lemma SetThenGet(defaultVolume: i32, p: int)
    requires 1 <= defaultVolume && defaultVolume % 50 == 0 && 2 * defaultVolume <= I32_MAX
    requires -50 < p <= 50
    ensures Slider(Ratio(Scaled(defaultVolume, p), defaultVolume)) == p
    ensures SliderAsWritten(Ratio(Scaled(defaultVolume, p), defaultVolume)) == p
  {
    var k := defaultVolume / 50;
    ScaledMultiple(defaultVolume, p);
    RatioOfMultiple(k, p);
    SliderAt(p);
  }

  lemma ScaledMultiple(defaultVolume: i32, p: int)
    requires 1 <= defaultVolume && defaultVolume % 50 == 0 && 2 * defaultVolume <= I32_MAX
    requires -50 < p <= 50
    ensures defaultVolume == 50 * (defaultVolume / 50)
    ensures Scaled(defaultVolume, p) == (defaultVolume / 50) * (50 + p)
  {
    var k := defaultVolume / 50;
    var v := k * (50 + p);
    assert defaultVolume * (50 + p) == 50 * v;
    assert 1 <= v <= 100 * k by {
      assert k * (50 + p) <= k * 100;
    }
  }

  lemma RatioOfMultiple(k: int, p: int)
    requires k >= 1
    ensures (k * (50 + p)) as real / (50 * k) as real == (50 + p) as real / 50.0
  {
    var a, b := (50 + p) as real, k as real;
    assert (k * (50 + p)) as real == b * a;
    assert (50 * k) as real == 50.0 * b;
    assert (b * a) / (50.0 * b) == a / 50.0;
  }

  lemma SliderAt(p: int)
    requires -50 < p <= 50
    ensures Slider(Finite((50 + p) as real / 50.0)) == p
    ensures SliderAsWritten(Finite((50 + p) as real / 50.0)) == p
  {
    var x := (50 + p) as real / 50.0;
    assert (x - 1.0) * 50.0 == p as real;
  }

  /** The outcome of POST /api/sounds/<id>/volume. */
  datatype VolumeReply =
    | BadRequest
    | NotFound
    | NoInterface
    | Failed
    | Reset(defaultLocal: i32, defaultRemote: i32)
    | Custom(sliderPosition: int, localVolume: i32, remoteVolume: i32, defaultLocal: i32, defaultRemote: i32)

  /** What the route asks of the interface: the sound's new custom volumes (None resets one). */
  datatype Request = Request(localVolume: Option<i32>, remoteVolume: Option<i32>)

  datatype VolumeOutcome = VolumeOutcome(reply: VolumeReply, request: Option<Request>)

  /** `json["sliderPosition"].get<int>()` on a parsed body: a null body becomes an object
      without the key; a missing key reads as null; null and non-objects throw. */
  function SliderField(body: Json): (r: Option<i32>)
    ensures body.JObj? && "sliderPosition" in body.fields ==> r == B.AsI32(body.fields["sliderPosition"])
    ensures !(body.JObj? && "sliderPosition" in body.fields) ==> r.None?
  {
    if body.JObj? && "sliderPosition" in body.fields then B.AsI32(body.fields["sliderPosition"]) else None
  }

  /** POST /api/sounds/<id>/volume. `body` is the parsed request body (None when it is not
      JSON), `hasInterface` whether the desktop interface is there, `localOk` and `remoteOk`
      what the interface answers to the two volume calls. */
  function SetVolume(id: nat, soundExists: nat -> bool, body: Option<Json>, defaultLocal: i32, defaultRemote: i32,
                     hasInterface: bool, localOk: bool, remoteOk: bool): (o: VolumeOutcome)
    ensures id > ULONG_MAX ==> o.reply == BadRequest && o.request.None?
    ensures id <= ULONG_MAX && !soundExists(id) ==> o.reply == NotFound && o.request.None?
    ensures id <= ULONG_MAX && soundExists(id) && (body.None? || SliderField(body.value).None?) ==>
              o == VolumeOutcome(BadRequest, None)
    ensures o.request.Some? ==> id <= ULONG_MAX && soundExists(id) && hasInterface
    ensures o.reply.Reset? ==> o.request == Some(Request(None, None))
    ensures o.reply.Custom? ==>
              && -50 <= o.reply.sliderPosition <= 50 && o.reply.sliderPosition != 0
              && o.reply.localVolume >= 1 && o.reply.remoteVolume >= 1
              && o.request == Some(Request(Some(o.reply.localVolume), Some(o.reply.remoteVolume)))
    ensures o.request.Some? && localOk && remoteOk ==> o.reply.Reset? || o.reply.Custom?
    ensures o.request.Some? && !(localOk && remoteOk) ==> o.reply == Failed
  {
    if id > ULONG_MAX || !soundExists(id) then
      VolumeOutcome(if id > ULONG_MAX then BadRequest else NotFound, None)
    else if body.None? || SliderField(body.value).None? then VolumeOutcome(BadRequest, None)
    else
      var p := ClampSlider(SliderField(body.value).value);
      if !hasInterface then VolumeOutcome(NoInterface, None)
      else if p == 0 then
        VolumeOutcome(if localOk && remoteOk then Reset(defaultLocal, defaultRemote) else Failed, Some(Request(None, None)))
      else
        var local := Scaled(defaultLocal, p);
        var remote := Scaled(defaultRemote, p);
        VolumeOutcome(if localOk && remoteOk then Custom(p, local, remote, defaultLocal, defaultRemote) else Failed,
                      Some(Request(Some(local), Some(remote))))
  }

  /** The position the route applies is the requested one limited to the slider; the
      centre resets both volumes, any other position sets both. */
  lemma SetVolumeFollowsSlider(id: nat, soundExists: nat -> bool, body: Json, defaultLocal: i32, defaultRemote: i32)
    requires id <= ULONG_MAX && soundExists(id) && SliderField(body).Some?
    ensures var o := SetVolume(id, soundExists, Some(body), defaultLocal, defaultRemote, true, true, true);
            var p := ClampSlider(SliderField(body).value);
            && (p == 0 <==> o.reply == Reset(defaultLocal, defaultRemote))
            && (p != 0 ==> o.reply.Custom? && o.reply.sliderPosition == p
                           && o.reply.localVolume == Scaled(defaultLocal, p)
                           && o.reply.remoteVolume == Scaled(defaultRemote, p))
  {
  }

  /** An unknown sound is reported before the body is looked at. */
  lemma UnknownSoundIgnoresBody(id: nat, soundExists: nat -> bool, b1: Option<Json>, b2: Option<Json>,
                                defaultLocal: i32, defaultRemote: i32, hasInterface: bool, localOk: bool, remoteOk: bool)
    requires id <= ULONG_MAX && !soundExists(id)
    ensures SetVolume(id, soundExists, b1, defaultLocal, defaultRemote, hasInterface, localOk, remoteOk)
         == SetVolume(id, soundExists, b2, defaultLocal, defaultRemote, hasInterface, localOk, remoteOk)
  {
  }

  /** HTTP status of a volume reply. */
  function VolumeStatus(r: VolumeReply): (status: int)
    ensures status == 200 <==> r.Reset? || r.Custom?
  {
    match r
    case BadRequest => 400
    case NotFound => 404
    case NoInterface => 500
    case Failed => 500
    case Reset(_, _) => 200
    case Custom(_, _, _, _, _) => 200
  }
}
