/**
 * The JSON bindings of the configuration objects (nlohmann `adl_serializer`
 * specialisations): `ToJson` builds the object the config file holds, `FromJson`
 * reads it back INTO an existing value, as `get_to` does, so that what a read does not
 * touch keeps the prior value.
 *
 * nlohmann's conversions, as far as the bindings use them: an arithmetic member accepts
 * any JSON number or a boolean (0/1) and is narrowed by a C++ cast; an enumeration is
 * read as its underlying 8-bit code from a JSON number only (a boolean throws); a `bool`
 * accepts only a JSON boolean; a `std::string` only a JSON string; a `std::vector` only an
 * array whose every element converts, built aside and assigned at the end, so a failed
 * conversion leaves it as it was. Any other value throws.
 */
module Bindings {
  import opened Wrappers
  import opened Ints
  import opened Json
  import S = Settings

  // ---------------------------------------------------------------------------------
  // Element conversions
  // ---------------------------------------------------------------------------------

  /** The value an arithmetic `get<T>()` starts from: a number, or a boolean as 0/1. */
  function Arithmetic(v: Json): (r: Option<int>)
    ensures r.Some? <==> v.JNum? || v.JBool?
    ensures v.JNum? ==> r == Some(v.n)
    ensures v.JBool? ==> r == Some(if v.b then 1 else 0)
  {
    match v
    case JNum(n) => Some(n)
    case JBool(b) => Some(if b then 1 else 0)
    case _ => None
  }

  function AsI32(v: Json): (r: Option<i32>)
    ensures r.Some? <==> v.JNum? || v.JBool?
    ensures v.JNum? && I32_MIN <= v.n <= I32_MAX ==> r == Some(v.n)
  {
    var a := Arithmetic(v);
    if a.Some? then Some(ToI32(a.value)) else None
  }

  /** An enumeration's code: nlohmann's default enum conversion reads the underlying type
      from a JSON number only, and a boolean throws. */
  function AsEnumCode(v: Json): (r: Option<u8>)
    ensures r.Some? <==> v.JNum?
    ensures v.JNum? && 0 <= v.n < TWO_8 ==> r == Some(v.n)
  {
    if v.JNum? then Some(ToU8(v.n)) else None
  }

  function AsU32(v: Json): (r: Option<u32>)
    ensures r.Some? <==> v.JNum? || v.JBool?
    ensures v.JNum? && 0 <= v.n < TWO_32 ==> r == Some(v.n)
  {
    var a := Arithmetic(v);
    if a.Some? then Some(ToU32(a.value)) else None
  }

  function AsU64(v: Json): (r: Option<u64>)
    ensures r.Some? <==> v.JNum? || v.JBool?
    ensures v.JNum? && 0 <= v.n < TWO_64 ==> r == Some(v.n)
  {
    var a := Arithmetic(v);
    if a.Some? then Some(ToU64(a.value)) else None
  }

  function AsBool(v: Json): (r: Option<bool>)
    ensures r.Some? <==> v.JBool?
    ensures v.JBool? ==> r == Some(v.b)
  {
    if v.JBool? then Some(v.b) else None
  }

  function AsString(v: Json): (r: Option<string>)
    ensures r.Some? <==> v.JStr?
    ensures v.JStr? ==> r == Some(v.s)
  {
    if v.JStr? then Some(v.s) else None
  }

  /** `get<std::vector<int>>()`: an array all of whose elements convert. */
  function AsI32s(v: Json): (r: Option<seq<i32>>)
    ensures r.Some? <==> v.JArr? && forall i :: 0 <= i < |v.items| ==> AsI32(v.items[i]).Some?
    ensures r.Some? ==> |r.value| == |v.items| && forall i :: 0 <= i < |r.value| ==> AsI32(v.items[i]) == Some(r.value[i])
  {
    if v.JArr? && forall i :: 0 <= i < |v.items| ==> AsI32(v.items[i]).Some? then
      Some(seq(|v.items|, i requires 0 <= i < |v.items| && AsI32(v.items[i]).Some? => AsI32(v.items[i]).value))
    else
      None
  }

  /** `get<std::vector<std::string>>()`: an array of strings. */
  function AsStrings(v: Json): (r: Option<seq<string>>)
    ensures r.Some? <==> v.JArr? && forall i :: 0 <= i < |v.items| ==> v.items[i].JStr?
    ensures r.Some? ==> |r.value| == |v.items| && forall i :: 0 <= i < |r.value| ==> v.items[i] == JStr(r.value[i])
  {
    if v.JArr? && forall i :: 0 <= i < |v.items| ==> v.items[i].JStr? then
      Some(seq(|v.items|, i requires 0 <= i < |v.items| && v.items[i].JStr? => v.items[i].s))
    else
      None
  }

  function I32sToJson(xs: seq<i32>): (v: Json)
    ensures v.JArr? && |v.items| == |xs|
    ensures forall i :: 0 <= i < |xs| ==> v.items[i] == JNum(xs[i])
  {
    JArr(seq(|xs|, i requires 0 <= i < |xs| => JNum(xs[i])))
  }

  function StringsToJson(xs: seq<string>): (v: Json)
    ensures v.JArr? && |v.items| == |xs|
    ensures forall i :: 0 <= i < |xs| ==> v.items[i] == JStr(xs[i])
  {
    JArr(seq(|xs|, i requires 0 <= i < |xs| => JStr(xs[i])))
  }

  lemma I32sRoundTrip(xs: seq<i32>)
    ensures AsI32s(I32sToJson(xs)) == Some(xs)
  {
    var v := I32sToJson(xs);
    assert forall i :: 0 <= i < |xs| ==> AsI32(v.items[i]) == Some(xs[i]);
    assert AsI32s(v).value == xs;
  }

  lemma StringsRoundTrip(xs: seq<string>)
    ensures AsStrings(StringsToJson(xs)) == Some(xs)
  {
    var v := StringsToJson(xs);
    assert AsStrings(v).value == xs;
  }

  // ---------------------------------------------------------------------------------
  // Settings: tolerant, field-by-field reading
  // ---------------------------------------------------------------------------------

  /** get_to_safe for every member type but `std::vector<std::string>`: an absent key, or
      a value (null included) that does not convert, leaves the member as it was. */
  function GetSafe<T>(j: Json, key: string, convert: Json -> Option<T>, prior: T): (r: T)
    ensures Prop(j, key).None? ==> r == prior
    ensures Prop(j, key).Some? && convert(Prop(j, key).value).Some? ==> r == convert(Prop(j, key).value).value
    ensures Prop(j, key).Some? && convert(Prop(j, key).value).None? ==> r == prior
  {
    match Prop(j, key)
    case None => prior
    case Some(v) => convert(v).GetOr(prior)
  }

  /** get_to_safe for a `std::vector<std::string>` member: an absent key leaves it as it
      was, and null, a non-array or an array with a non-string element clears it. */
  function GetStringsSafe(j: Json, key: string, prior: seq<string>): (r: seq<string>)
    ensures Prop(j, key).None? ==> r == prior
    ensures Prop(j, key).Some? && AsStrings(Prop(j, key).value).Some? ==> r == AsStrings(Prop(j, key).value).value
    ensures Prop(j, key).Some? && AsStrings(Prop(j, key).value).None? ==> r == []
  {
    match Prop(j, key)
    case None => prior
    case Some(v) => AsStrings(v).GetOr([])
  }

  function SettingsToJson(s: S.Settings): Json {
    JObj(map[
      "theme" := JNum(s.theme),
      "outputs" := StringsToJson(s.outputs),
      "viewMode" := JNum(s.viewMode),
      "stopHotkey" := I32sToJson(s.stopHotkey),
      "syncVolumes" := JBool(s.syncVolumes),
      "selectedTab" := JNum(s.selectedTab),
      "localVolume" := JNum(s.localVolume),
      "remoteVolume" := JNum(s.remoteVolume),
      "audioBackend" := JNum(s.audioBackend),
      "deleteToTrash" := JBool(s.deleteToTrash),
      "pushToTalkKeys" := I32sToJson(s.pushToTalkKeys),
      "tabHotkeysOnly" := JBool(s.tabHotkeysOnly),
      "minimizeToTray" := JBool(s.minimizeToTray),
      "allowOverlapping" := JBool(s.allowOverlapping),
      "muteDuringPlayback" := JBool(s.muteDuringPlayback),
      "useAsDefaultDevice" := JBool(s.useAsDefaultDevice),
      "allowMultipleOutputs" := JBool(s.allowMultipleOutputs),
      "enableWebServer" := JBool(s.enableWebServer),
      "webServerHost" := JStr(s.webServerHost),
      "webServerPort" := JNum(s.webServerPort),
      "webServerRoot" := JStr(s.webServerRoot),
      "remotePin" := JStr(s.remotePin),
      "requirePin" := JBool(s.requirePin),
      "authorizedTokens" := StringsToJson(s.authorizedTokens)
    ])
  }

  /** Settings from_json into `prior`; it never throws. */
  function SettingsFromJson(j: Json, prior: S.Settings): (s: S.Settings)
    ensures !j.JObj? ==> s == prior
    // the enumerations change only for a JSON number; a boolean or anything else keeps the prior code
    ensures s.audioBackend == (if Prop(j, "audioBackend").Some? && Prop(j, "audioBackend").value.JNum?
                               then ToU8(Prop(j, "audioBackend").value.n) else prior.audioBackend)
    ensures s.viewMode == (if Prop(j, "viewMode").Some? && Prop(j, "viewMode").value.JNum?
                           then ToU8(Prop(j, "viewMode").value.n) else prior.viewMode)
    ensures s.theme == (if Prop(j, "theme").Some? && Prop(j, "theme").value.JNum?
                        then ToU8(Prop(j, "theme").value.n) else prior.theme)
    // every other member is read on its own and tolerantly, through get_to_safe
    ensures s.pushToTalkKeys == GetSafe(j, "pushToTalkKeys", AsI32s, prior.pushToTalkKeys)
    ensures s.stopHotkey == GetSafe(j, "stopHotkey", AsI32s, prior.stopHotkey)
    ensures s.outputs == GetStringsSafe(j, "outputs", prior.outputs)
    ensures s.selectedTab == GetSafe(j, "selectedTab", AsU32, prior.selectedTab)
    ensures s.remoteVolume == GetSafe(j, "remoteVolume", AsI32, prior.remoteVolume)
    ensures s.localVolume == GetSafe(j, "localVolume", AsI32, prior.localVolume)
    ensures s.syncVolumes == GetSafe(j, "syncVolumes", AsBool, prior.syncVolumes)
    ensures s.allowMultipleOutputs == GetSafe(j, "allowMultipleOutputs", AsBool, prior.allowMultipleOutputs)
    ensures s.useAsDefaultDevice == GetSafe(j, "useAsDefaultDevice", AsBool, prior.useAsDefaultDevice)
    ensures s.muteDuringPlayback == GetSafe(j, "muteDuringPlayback", AsBool, prior.muteDuringPlayback)
    ensures s.allowOverlapping == GetSafe(j, "allowOverlapping", AsBool, prior.allowOverlapping)
    ensures s.minimizeToTray == GetSafe(j, "minimizeToTray", AsBool, prior.minimizeToTray)
    ensures s.tabHotkeysOnly == GetSafe(j, "tabHotkeysOnly", AsBool, prior.tabHotkeysOnly)
    ensures s.deleteToTrash == GetSafe(j, "deleteToTrash", AsBool, prior.deleteToTrash)
    ensures s.enableWebServer == GetSafe(j, "enableWebServer", AsBool, prior.enableWebServer)
    ensures s.webServerHost == GetSafe(j, "webServerHost", AsString, prior.webServerHost)
    ensures s.webServerPort == GetSafe(j, "webServerPort", AsI32, prior.webServerPort)
    ensures s.webServerRoot == GetSafe(j, "webServerRoot", AsString, prior.webServerRoot)
    ensures s.remotePin == GetSafe(j, "remotePin", AsString, prior.remotePin)
    ensures s.requirePin == GetSafe(j, "requirePin", AsBool, prior.requirePin)
    ensures s.authorizedTokens == GetStringsSafe(j, "authorizedTokens", prior.authorizedTokens)
  {
    S.Settings(
      audioBackend := GetSafe(j, "audioBackend", AsEnumCode, prior.audioBackend),
      viewMode := GetSafe(j, "viewMode", AsEnumCode, prior.viewMode),
      theme := GetSafe(j, "theme", AsEnumCode, prior.theme),
      pushToTalkKeys := GetSafe(j, "pushToTalkKeys", AsI32s, prior.pushToTalkKeys),
      stopHotkey := GetSafe(j, "stopHotkey", AsI32s, prior.stopHotkey),
      outputs := GetStringsSafe(j, "outputs", prior.outputs),
      selectedTab := GetSafe(j, "selectedTab", AsU32, prior.selectedTab),
      remoteVolume := GetSafe(j, "remoteVolume", AsI32, prior.remoteVolume),
      localVolume := GetSafe(j, "localVolume", AsI32, prior.localVolume),
      syncVolumes := GetSafe(j, "syncVolumes", AsBool, prior.syncVolumes),
      allowMultipleOutputs := GetSafe(j, "allowMultipleOutputs", AsBool, prior.allowMultipleOutputs),
      useAsDefaultDevice := GetSafe(j, "useAsDefaultDevice", AsBool, prior.useAsDefaultDevice),
      muteDuringPlayback := GetSafe(j, "muteDuringPlayback", AsBool, prior.muteDuringPlayback),
      allowOverlapping := GetSafe(j, "allowOverlapping", AsBool, prior.allowOverlapping),
      minimizeToTray := GetSafe(j, "minimizeToTray", AsBool, prior.minimizeToTray),
      tabHotkeysOnly := GetSafe(j, "tabHotkeysOnly", AsBool, prior.tabHotkeysOnly),
      deleteToTrash := GetSafe(j, "deleteToTrash", AsBool, prior.deleteToTrash),
      enableWebServer := GetSafe(j, "enableWebServer", AsBool, prior.enableWebServer),
      webServerHost := GetSafe(j, "webServerHost", AsString, prior.webServerHost),
      webServerPort := GetSafe(j, "webServerPort", AsI32, prior.webServerPort),
      webServerRoot := GetSafe(j, "webServerRoot", AsString, prior.webServerRoot),
      remotePin := GetSafe(j, "remotePin", AsString, prior.remotePin),
      requirePin := GetSafe(j, "requirePin", AsBool, prior.requirePin),
      authorizedTokens := GetStringsSafe(j, "authorizedTokens", prior.authorizedTokens)
    )
  }

  /** An enumeration given as a boolean is not converted: the settings keep the prior theme,
      and a tab with a boolean sort mode is not read at all. */
  lemma EnumRejectsBoolean(prior: S.Settings, tabPrior: Tab)
    ensures SettingsFromJson(JObj(map["theme" := JBool(true)]), prior).theme == prior.theme
    ensures TabFromJson(JObj(map["id" := JNum(1), "name" := JStr("t"), "path" := JStr(""), "sounds" := JArr([]),
                                 "sortMode" := JBool(true)]), tabPrior).Failure?
  {
  }

  /** The members to_json writes, two keys at a time. */
  lemma SettingsLookups0(s: S.Settings)
    ensures Prop(SettingsToJson(s), "audioBackend") == Some(JNum(s.audioBackend))
    ensures Prop(SettingsToJson(s), "viewMode") == Some(JNum(s.viewMode))
  {
  }

  lemma SettingsLookups1(s: S.Settings)
    ensures Prop(SettingsToJson(s), "theme") == Some(JNum(s.theme))
    ensures Prop(SettingsToJson(s), "pushToTalkKeys") == Some(I32sToJson(s.pushToTalkKeys))
  {
  }

  lemma SettingsLookups2(s: S.Settings)
    ensures Prop(SettingsToJson(s), "stopHotkey") == Some(I32sToJson(s.stopHotkey))
    ensures Prop(SettingsToJson(s), "outputs") == Some(StringsToJson(s.outputs))
  {
  }

  lemma SettingsLookups3(s: S.Settings)
    ensures Prop(SettingsToJson(s), "selectedTab") == Some(JNum(s.selectedTab))
    ensures Prop(SettingsToJson(s), "remoteVolume") == Some(JNum(s.remoteVolume))
  {
  }

  lemma SettingsLookups4(s: S.Settings)
    ensures Prop(SettingsToJson(s), "localVolume") == Some(JNum(s.localVolume))
    ensures Prop(SettingsToJson(s), "syncVolumes") == Some(JBool(s.syncVolumes))
  {
  }

  lemma SettingsLookups5(s: S.Settings)
    ensures Prop(SettingsToJson(s), "allowMultipleOutputs") == Some(JBool(s.allowMultipleOutputs))
    ensures Prop(SettingsToJson(s), "useAsDefaultDevice") == Some(JBool(s.useAsDefaultDevice))
  {
  }

  lemma SettingsLookups6(s: S.Settings)
    ensures Prop(SettingsToJson(s), "muteDuringPlayback") == Some(JBool(s.muteDuringPlayback))
    ensures Prop(SettingsToJson(s), "allowOverlapping") == Some(JBool(s.allowOverlapping))
  {
  }

  lemma SettingsLookups7(s: S.Settings)
    ensures Prop(SettingsToJson(s), "minimizeToTray") == Some(JBool(s.minimizeToTray))
    ensures Prop(SettingsToJson(s), "tabHotkeysOnly") == Some(JBool(s.tabHotkeysOnly))
  {
  }

  lemma SettingsLookups8(s: S.Settings)
    ensures Prop(SettingsToJson(s), "deleteToTrash") == Some(JBool(s.deleteToTrash))
    ensures Prop(SettingsToJson(s), "enableWebServer") == Some(JBool(s.enableWebServer))
  {
  }

  lemma SettingsLookups9(s: S.Settings)
    ensures Prop(SettingsToJson(s), "webServerHost") == Some(JStr(s.webServerHost))
    ensures Prop(SettingsToJson(s), "webServerPort") == Some(JNum(s.webServerPort))
  {
  }

  lemma SettingsLookups10(s: S.Settings)
    ensures Prop(SettingsToJson(s), "webServerRoot") == Some(JStr(s.webServerRoot))
    ensures Prop(SettingsToJson(s), "remotePin") == Some(JStr(s.remotePin))
  {
  }

  lemma SettingsLookups11(s: S.Settings)
    ensures Prop(SettingsToJson(s), "requirePin") == Some(JBool(s.requirePin))
    ensures Prop(SettingsToJson(s), "authorizedTokens") == Some(StringsToJson(s.authorizedTokens))
  {
  }

  /** Any object carrying, under every key, the value to_json writes for `s` reads back as `s`. */
  lemma ReadsBack(j: Json, s: S.Settings, prior: S.Settings)
    requires Prop(j, "audioBackend") == Some(JNum(s.audioBackend))
    requires Prop(j, "viewMode") == Some(JNum(s.viewMode))
    requires Prop(j, "theme") == Some(JNum(s.theme))
    requires Prop(j, "pushToTalkKeys") == Some(I32sToJson(s.pushToTalkKeys))
    requires Prop(j, "stopHotkey") == Some(I32sToJson(s.stopHotkey))
    requires Prop(j, "outputs") == Some(StringsToJson(s.outputs))
    requires Prop(j, "selectedTab") == Some(JNum(s.selectedTab))
    requires Prop(j, "remoteVolume") == Some(JNum(s.remoteVolume))
    requires Prop(j, "localVolume") == Some(JNum(s.localVolume))
    requires Prop(j, "syncVolumes") == Some(JBool(s.syncVolumes))
    requires Prop(j, "allowMultipleOutputs") == Some(JBool(s.allowMultipleOutputs))
    requires Prop(j, "useAsDefaultDevice") == Some(JBool(s.useAsDefaultDevice))
    requires Prop(j, "muteDuringPlayback") == Some(JBool(s.muteDuringPlayback))
    requires Prop(j, "allowOverlapping") == Some(JBool(s.allowOverlapping))
    requires Prop(j, "minimizeToTray") == Some(JBool(s.minimizeToTray))
    requires Prop(j, "tabHotkeysOnly") == Some(JBool(s.tabHotkeysOnly))
    requires Prop(j, "deleteToTrash") == Some(JBool(s.deleteToTrash))
    requires Prop(j, "enableWebServer") == Some(JBool(s.enableWebServer))
    requires Prop(j, "webServerHost") == Some(JStr(s.webServerHost))
    requires Prop(j, "webServerPort") == Some(JNum(s.webServerPort))
    requires Prop(j, "webServerRoot") == Some(JStr(s.webServerRoot))
    requires Prop(j, "remotePin") == Some(JStr(s.remotePin))
    requires Prop(j, "requirePin") == Some(JBool(s.requirePin))
    requires Prop(j, "authorizedTokens") == Some(StringsToJson(s.authorizedTokens))
    ensures SettingsFromJson(j, prior) == s
  {
    I32sRoundTrip(s.pushToTalkKeys);
    I32sRoundTrip(s.stopHotkey);
    StringsRoundTrip(s.outputs);
    StringsRoundTrip(s.authorizedTokens);
  }

  /** Reading back what to_json wrote restores every member, whatever the prior value. */
  lemma SettingsRoundTrip(s: S.Settings, prior: S.Settings)
    ensures SettingsFromJson(SettingsToJson(s), prior) == s
  {
    SettingsLookups0(s);
    SettingsLookups1(s);
    SettingsLookups2(s);
    SettingsLookups3(s);
    SettingsLookups4(s);
    SettingsLookups5(s);
    SettingsLookups6(s);
    SettingsLookups7(s);
    SettingsLookups8(s);
    SettingsLookups9(s);
    SettingsLookups10(s);
    SettingsLookups11(s);
    ReadsBack(SettingsToJson(s), s, prior);
  }

  /** An empty object, or no object at all, leaves every member as it was: a fresh
      Settings read from it keeps all its defaults. */
  lemma MissingKeysKeepPrior(prior: S.Settings)
    ensures SettingsFromJson(JObj(map[]), prior) == prior
    ensures SettingsFromJson(JObj(map[]), S.Defaults()) == S.Defaults()
  {
  }

  // ---------------------------------------------------------------------------------
  // Strict objects: a missing key or a value of the wrong type throws
  // ---------------------------------------------------------------------------------

  /** What nlohmann throws: `at()` on a non-object, `at()` of a missing key, or a value of
      the wrong type. */
  datatype JsonError = NotObject | MissingKey(key: string) | TypeError(key: string)

  /** `j.at(key)`. */
  function At(j: Json, key: string): (r: Result<Json, JsonError>)
    ensures r.Success? <==> j.JObj? && key in j.fields
    ensures r.Success? ==> r.value == j.fields[key]
    ensures !j.JObj? ==> r == Failure(NotObject)
    ensures j.JObj? && key !in j.fields ==> r == Failure(MissingKey(key))
  {
    if !j.JObj? then Failure(NotObject)
    else if key !in j.fields then Failure(MissingKey(key))
    else Success(j.fields[key])
  }

  /** `j.at(key).get_to(member)`. */
  function Field<T>(j: Json, key: string, convert: Json -> Option<T>): (r: Result<T, JsonError>)
    ensures r.Success? <==> j.JObj? && key in j.fields && convert(j.fields[key]).Some?
    ensures r.Success? ==> r.value == convert(j.fields[key]).value
  {
    var v :- At(j, key);
    match convert(v)
    case Some(x) => Success(x)
    case None => Failure(TypeError(key))
  }

  datatype AudioDevice = AudioDevice(name: string, isDefault: bool)

  function AudioDeviceToJson(d: AudioDevice): Json {
    JObj(map["name" := JStr(d.name), "isDefault" := JBool(d.isDefault)])
  }

  function AudioDeviceFromJson(j: Json): (r: Result<AudioDevice, JsonError>)
    ensures r.Success? <==> j.JObj? && "name" in j.fields && j.fields["name"].JStr?
                            && "isDefault" in j.fields && j.fields["isDefault"].JBool?
  {
    var name :- Field(j, "name", AsString);
    var isDefault :- Field(j, "isDefault", AsBool);
    Success(AudioDevice(name, isDefault))
  }

  lemma AudioDeviceRoundTrip(d: AudioDevice)
    ensures AudioDeviceFromJson(AudioDeviceToJson(d)) == Success(d)
  {
  }

  datatype VersionStatus = VersionStatus(current: string, latest: string, outdated: bool)

  function VersionStatusToJson(v: VersionStatus): Json {
    JObj(map["current" := JStr(v.current), "latest" := JStr(v.latest), "outdated" := JBool(v.outdated)])
  }

  function VersionStatusFromJson(j: Json): (r: Result<VersionStatus, JsonError>)
    ensures r.Success? <==> j.JObj? && "latest" in j.fields && j.fields["latest"].JStr?
                            && "current" in j.fields && j.fields["current"].JStr?
                            && "outdated" in j.fields && j.fields["outdated"].JBool?
  {
    var latest :- Field(j, "latest", AsString);
    var current :- Field(j, "current", AsString);
    var outdated :- Field(j, "outdated", AsBool);
    Success(VersionStatus(current, latest, outdated))
  }

  lemma VersionStatusRoundTrip(v: VersionStatus)
    ensures VersionStatusFromJson(VersionStatusToJson(v)) == Success(v)
  {
  }

  /** A sound of the library. The member types are those of the Sound record, which is
      not part of this model: a 32-bit id, a 64-bit modification date, optional volumes. */
  datatype Sound = Sound(
    id: u32,
    name: string,
    path: string,
    isFavorite: bool,
    hotkeys: seq<i32>,
    modifiedDate: u64,
    localVolume: Option<i32>,
    remoteVolume: Option<i32>)

  /** A default-constructed Sound, as `get<Sound>()` starts from. */
  function FreshSound(): Sound {
    Sound(0, "", "", false, [], 0, None, None)
  }

  /** An optional volume as written: the integer, or null. */
  function VolumeToJson(v: Option<i32>): (r: Json)
    ensures v.None? <==> r == JNull
    ensures v.Some? ==> r == JNum(v.value)
  {
    if v.Some? then JNum(v.value) else JNull
  }

  /** Sound to_json. `keySequence` is the hotkey manager's rendering of the hotkeys. */
  function SoundToJson(s: Sound, keySequence: seq<i32> -> string): Json {
    JObj(map[
      "name" := JStr(s.name),
      "hotkeys" := I32sToJson(s.hotkeys),
      "hotkeySequence" := JStr(keySequence(s.hotkeys)),
      "id" := JNum(s.id),
      "path" := JStr(s.path),
      "isFavorite" := JBool(s.isFavorite),
      "modifiedDate" := JNum(s.modifiedDate),
      "localVolume" := VolumeToJson(s.localVolume),
      "remoteVolume" := VolumeToJson(s.remoteVolume)
    ])
  }

  /** An optional volume as read: only a number replaces the prior value. */
  function ReadVolume(j: Json, key: string, prior: Option<i32>): (r: Option<i32>)
    ensures Prop(j, key).Some? && Prop(j, key).value.JNum? ==> r == Some(ToI32(Prop(j, key).value.n))
    ensures !(Prop(j, key).Some? && Prop(j, key).value.JNum?) ==> r == prior
  {
    match Prop(j, key)
    case Some(JNum(n)) => Some(ToI32(n))
    case _ => prior
  }

  /** The shape a Sound object must have for from_json not to throw. */
  predicate IsSoundObject(j: Json) {
    && j.JObj?
    && "name" in j.fields && j.fields["name"].JStr?
    && "hotkeys" in j.fields && AsI32s(j.fields["hotkeys"]).Some?
    && "id" in j.fields && (j.fields["id"].JNum? || j.fields["id"].JBool?)
    && "path" in j.fields && j.fields["path"].JStr?
    && "modifiedDate" in j.fields && (j.fields["modifiedDate"].JNum? || j.fields["modifiedDate"].JBool?)
    && ("isFavorite" in j.fields ==> j.fields["isFavorite"].JBool?)
  }

  /** Sound from_json into `prior`: name, hotkeys, id, path and modifiedDate are required,
      isFavorite is optional, and a volume changes only when its value is a number. */
  function SoundFromJson(j: Json, prior: Sound): (r: Result<Sound, JsonError>)
    ensures r.Success? <==> IsSoundObject(j)
    ensures r.Success? ==>
      && r.value.name == j.fields["name"].s
      && r.value.path == j.fields["path"].s
      && r.value.isFavorite == (if "isFavorite" in j.fields then j.fields["isFavorite"].b else prior.isFavorite)
      && r.value.hotkeys == AsI32s(j.fields["hotkeys"]).value
      && r.value.id == AsU32(j.fields["id"]).value
      && r.value.modifiedDate == AsU64(j.fields["modifiedDate"]).value
      && (j.fields["modifiedDate"].JNum? && 0 <= j.fields["modifiedDate"].n < TWO_64 ==>
            r.value.modifiedDate == j.fields["modifiedDate"].n)
      && (j.fields["id"].JNum? && 0 <= j.fields["id"].n < TWO_32 ==> r.value.id == j.fields["id"].n)
      && ("localVolume" in j.fields && j.fields["localVolume"].JNum? ==>
            r.value.localVolume == Some(ToI32(j.fields["localVolume"].n)))
      && ("remoteVolume" in j.fields && j.fields["remoteVolume"].JNum? ==>
            r.value.remoteVolume == Some(ToI32(j.fields["remoteVolume"].n)))
      && (("localVolume" !in j.fields || !j.fields["localVolume"].JNum?) ==> r.value.localVolume == prior.localVolume)
      && (("remoteVolume" !in j.fields || !j.fields["remoteVolume"].JNum?) ==> r.value.remoteVolume == prior.remoteVolume)
  {
    var name :- Field(j, "name", AsString);
    var hotkeys :- Field(j, "hotkeys", AsI32s);
    var id :- Field(j, "id", AsU32);
    var path :- Field(j, "path", AsString);
    var modifiedDate :- Field(j, "modifiedDate", AsU64);
    var isFavorite :- if "isFavorite" in j.fields then Field(j, "isFavorite", AsBool) else Success(prior.isFavorite);
    Success(Sound(id, name, path, isFavorite, hotkeys, modifiedDate,
                  ReadVolume(j, "localVolume", prior.localVolume),
                  ReadVolume(j, "remoteVolume", prior.remoteVolume)))
  }

  /** The members Sound to_json writes. */
  lemma SoundLookups(s: Sound, keySequence: seq<i32> -> string)
    ensures var j := SoundToJson(s, keySequence);
            && j.fields["name"] == JStr(s.name)
            && j.fields["hotkeys"] == I32sToJson(s.hotkeys)
            && j.fields["id"] == JNum(s.id)
            && j.fields["path"] == JStr(s.path)
            && j.fields["isFavorite"] == JBool(s.isFavorite)
            && j.fields["modifiedDate"] == JNum(s.modifiedDate)
            && j.fields["localVolume"] == VolumeToJson(s.localVolume)
            && j.fields["remoteVolume"] == VolumeToJson(s.remoteVolume)
  {
  }

  /** Reading a written Sound back restores it, except that an absent volume (written as
      null) leaves the prior volume in place. */
  lemma SoundRoundTrip(s: Sound, keySequence: seq<i32> -> string, prior: Sound)
    ensures SoundFromJson(SoundToJson(s, keySequence), prior)
         == Success(s.(localVolume := if s.localVolume.Some? then s.localVolume else prior.localVolume,
                       remoteVolume := if s.remoteVolume.Some? then s.remoteVolume else prior.remoteVolume))
  {
    SoundLookups(s, keySequence);
    I32sRoundTrip(s.hotkeys);
  }

  /** Into a default-constructed Sound, the round trip is exact: both optional volumes survive. */
  lemma SoundRoundTripFresh(s: Sound, keySequence: seq<i32> -> string)
    ensures SoundFromJson(SoundToJson(s, keySequence), FreshSound()) == Success(s)
  {
    SoundRoundTrip(s, keySequence, FreshSound());
  }

  function SoundsToJson(sounds: seq<Sound>, keySequence: seq<i32> -> string): (v: Json)
    ensures v.JArr? && |v.items| == |sounds|
    ensures forall i :: 0 <= i < |sounds| ==> v.items[i] == SoundToJson(sounds[i], keySequence)
  {
    JArr(seq(|sounds|, i requires 0 <= i < |sounds| => SoundToJson(sounds[i], keySequence)))
  }

  /** `get<std::vector<Sound>>()`: every element read into a fresh Sound; one failure fails all. */
  function SoundsFromJson(items: seq<Json>): (r: Result<seq<Sound>, JsonError>)
    ensures r.Success? <==> forall i :: 0 <= i < |items| ==> SoundFromJson(items[i], FreshSound()).Success?
    ensures r.Success? ==> |r.value| == |items|
    ensures r.Success? ==> forall i :: 0 <= i < |items| ==> SoundFromJson(items[i], FreshSound()) == Success(r.value[i])
    decreases |items|
  {
    if items == [] then Success([])
    else
      var first :- SoundFromJson(items[0], FreshSound());
      var rest :- SoundsFromJson(items[1..]);
      assert forall i :: 1 <= i < |items| ==> items[i] == items[1..][i - 1];
      Success([first] + rest)
  }

  lemma {:induction false} SoundsRoundTrip(sounds: seq<Sound>, keySequence: seq<i32> -> string)
    ensures SoundsFromJson(SoundsToJson(sounds, keySequence).items) == Success(sounds)
    decreases |sounds|
  {
    if sounds != [] {
      var items := SoundsToJson(sounds, keySequence).items;
      assert SoundFromJson(items[0], FreshSound()) == Success(sounds[0]) by {
        SoundsHead(sounds, keySequence);
      }
      assert SoundsFromJson(items[1..]) == Success(sounds[1..]) by {
        SoundsRoundTrip(sounds[1..], keySequence);
        SoundsToJsonTail(sounds, keySequence);
      }
      SoundsStep(items, sounds[0], sounds[1..]);
      assert [sounds[0]] + sounds[1..] == sounds;
    }
  }

  lemma SoundsHead(sounds: seq<Sound>, keySequence: seq<i32> -> string)
    requires sounds != []
    ensures SoundFromJson(SoundsToJson(sounds, keySequence).items[0], FreshSound()) == Success(sounds[0])
  {
    SoundRoundTripFresh(sounds[0], keySequence);
  }

  lemma SoundsToJsonTail(sounds: seq<Sound>, keySequence: seq<i32> -> string)
    requires sounds != []
    ensures SoundsToJson(sounds[1..], keySequence).items == SoundsToJson(sounds, keySequence).items[1..]
  {
  }

  lemma SoundsStep(items: seq<Json>, first: Sound, rest: seq<Sound>)
    requires items != [] && SoundFromJson(items[0], FreshSound()) == Success(first)
    requires SoundsFromJson(items[1..]) == Success(rest)
    ensures SoundsFromJson(items) == Success([first] + rest)
  {
  }

  /** A tab. `sortMode` is the 8-bit code of the sort-mode enumeration. */
  datatype Tab = Tab(id: u32, name: string, path: string, sounds: seq<Sound>, sortMode: u8)

  /** A default-constructed Tab: sorted by modification date, newest first (code 1). */
  function FreshTab(): Tab {
    Tab(0, "", "", [], 1)
  }

  function TabToJson(t: Tab, keySequence: seq<i32> -> string): Json {
    JObj(map[
      "id" := JNum(t.id),
      "name" := JStr(t.name),
      "path" := JStr(t.path),
      "sounds" := SoundsToJson(t.sounds, keySequence),
      "sortMode" := JNum(t.sortMode)
    ])
  }

  /** The shape a Tab object must have for from_json not to throw. */
  predicate IsTabObject(j: Json) {
    && j.JObj?
    && "id" in j.fields && AsU32(j.fields["id"]).Some?
    && "name" in j.fields && j.fields["name"].JStr?
    && "path" in j.fields && j.fields["path"].JStr?
    && "sounds" in j.fields && j.fields["sounds"].JArr? && SoundsFromJson(j.fields["sounds"].items).Success?
    && ("sortMode" in j.fields ==> j.fields["sortMode"].JNum?)
  }

  /** Tab from_json into `prior`: id, name, path and sounds are required, sortMode optional. */
  function TabFromJson(j: Json, prior: Tab): (r: Result<Tab, JsonError>)
    ensures r.Success? <==> IsTabObject(j)
    ensures r.Success? ==>
      && r.value.id == AsU32(j.fields["id"]).value
      && r.value.name == j.fields["name"].s
      && r.value.path == j.fields["path"].s
      && r.value.sounds == SoundsFromJson(j.fields["sounds"].items).value
    ensures r.Success? && "sortMode" in j.fields ==> AsEnumCode(j.fields["sortMode"]) == Some(r.value.sortMode)
    ensures r.Success? && "sortMode" !in j.fields ==> r.value.sortMode == prior.sortMode
  {
    var id :- Field(j, "id", AsU32);
    var name :- Field(j, "name", AsString);
    var path :- Field(j, "path", AsString);
    var soundsJson :- At(j, "sounds");
    var sounds :- if soundsJson.JArr? then SoundsFromJson(soundsJson.items) else Failure(TypeError("sounds"));
    var sortMode :- if "sortMode" in j.fields then Field(j, "sortMode", AsEnumCode) else Success(prior.sortMode);
    Success(Tab(id, name, path, sounds, sortMode))
  }

  lemma TabRoundTrip(t: Tab, keySequence: seq<i32> -> string, prior: Tab)
    ensures TabFromJson(TabToJson(t, keySequence), prior) == Success(t)
  {
    SoundsRoundTrip(t.sounds, keySequence);
  }

  function TabsToJson(tabs: seq<Tab>, keySequence: seq<i32> -> string): (v: Json)
    ensures v.JArr? && |v.items| == |tabs|
    ensures forall i :: 0 <= i < |tabs| ==> v.items[i] == TabToJson(tabs[i], keySequence)
  {
    JArr(seq(|tabs|, i requires 0 <= i < |tabs| => TabToJson(tabs[i], keySequence)))
  }

  /** `get<std::vector<Tab>>()`: every element read into a fresh Tab; one failure fails all. */
  function TabsFromJson(items: seq<Json>): (r: Result<seq<Tab>, JsonError>)
    ensures r.Success? <==> forall i :: 0 <= i < |items| ==> TabFromJson(items[i], FreshTab()).Success?
    ensures r.Success? ==> |r.value| == |items|
    ensures r.Success? ==> forall i :: 0 <= i < |items| ==> TabFromJson(items[i], FreshTab()) == Success(r.value[i])
    decreases |items|
  {
    if items == [] then Success([])
    else
      var first :- TabFromJson(items[0], FreshTab());
      var rest :- TabsFromJson(items[1..]);
      assert forall i :: 1 <= i < |items| ==> items[i] == items[1..][i - 1];
      Success([first] + rest)
  }

  lemma {:induction false} TabsRoundTrip(tabs: seq<Tab>, keySequence: seq<i32> -> string)
    ensures TabsFromJson(TabsToJson(tabs, keySequence).items) == Success(tabs)
    decreases |tabs|
  {
    if tabs != [] {
      var items := TabsToJson(tabs, keySequence).items;
      assert TabFromJson(items[0], FreshTab()) == Success(tabs[0]) by {
        TabsHead(tabs, keySequence);
      }
      assert TabsFromJson(items[1..]) == Success(tabs[1..]) by {
        TabsRoundTrip(tabs[1..], keySequence);
        TabsToJsonTail(tabs, keySequence);
      }
      TabsStep(items, tabs[0], tabs[1..]);
      assert [tabs[0]] + tabs[1..] == tabs;
    }
  }

  lemma TabsHead(tabs: seq<Tab>, keySequence: seq<i32> -> string)
    requires tabs != []
    ensures TabFromJson(TabsToJson(tabs, keySequence).items[0], FreshTab()) == Success(tabs[0])
  {
    TabRoundTrip(tabs[0], keySequence, FreshTab());
  }

  lemma TabsToJsonTail(tabs: seq<Tab>, keySequence: seq<i32> -> string)
    requires tabs != []
    ensures TabsToJson(tabs[1..], keySequence).items == TabsToJson(tabs, keySequence).items[1..]
  {
  }

  lemma TabsStep(items: seq<Json>, first: Tab, rest: seq<Tab>)
    requires items != [] && TabFromJson(items[0], FreshTab()) == Success(first)
    requires TabsFromJson(items[1..]) == Success(rest)
    ensures TabsFromJson(items) == Success([first] + rest)
  {
  }

  /** The persisted library: window size, the id counter and the tabs. */
  datatype Data = Data(width: i32, height: i32, soundIdCounter: u32, tabs: seq<Tab>)

  function DataToJson(d: Data, keySequence: seq<i32> -> string): Json {
    JObj(map[
      "height" := JNum(d.height),
      "width" := JNum(d.width),
      "tabs" := TabsToJson(d.tabs, keySequence),
      "soundIdCounter" := JNum(d.soundIdCounter)
    ])
  }

  /** The shape a Data object must have for from_json not to throw. */
  predicate IsDataObject(j: Json) {
    && j.JObj?
    && "soundIdCounter" in j.fields && AsU32(j.fields["soundIdCounter"]).Some?
    && "height" in j.fields && AsI32(j.fields["height"]).Some?
    && "width" in j.fields && AsI32(j.fields["width"]).Some?
    && "tabs" in j.fields && j.fields["tabs"].JArr? && TabsFromJson(j.fields["tabs"].items).Success?
  }

  /** Data from_json: all four members are required. */
  function DataFromJson(j: Json): (r: Result<Data, JsonError>)
    ensures r.Success? <==> IsDataObject(j)
    ensures r.Success? ==>
      && r.value.soundIdCounter == AsU32(j.fields["soundIdCounter"]).value
      && r.value.height == AsI32(j.fields["height"]).value
      && r.value.width == AsI32(j.fields["width"]).value
      && r.value.tabs == TabsFromJson(j.fields["tabs"].items).value
  {
    var soundIdCounter :- Field(j, "soundIdCounter", AsU32);
    var height :- Field(j, "height", AsI32);
    var width :- Field(j, "width", AsI32);
    var tabsJson :- At(j, "tabs");
    var tabs :- if tabsJson.JArr? then TabsFromJson(tabsJson.items) else Failure(TypeError("tabs"));
    Success(Data(width, height, soundIdCounter, tabs))
  }

  lemma DataRoundTrip(d: Data, keySequence: seq<i32> -> string)
    ensures DataFromJson(DataToJson(d, keySequence)) == Success(d)
  {
    TabsRoundTrip(d.tabs, keySequence);
  }

  datatype Config = Config(data: Data, settings: S.Settings)

  function ConfigToJson(c: Config, keySequence: seq<i32> -> string): Json {
    JObj(map["data" := DataToJson(c.data, keySequence), "settings" := SettingsToJson(c.settings)])
  }

  /** Config from_json into `prior`: "data" must read strictly; "settings" must be present
      and is then read tolerantly into the prior settings. */
  function ConfigFromJson(j: Json, prior: Config): (r: Result<Config, JsonError>)
    ensures r.Success? <==> j.JObj? && "data" in j.fields && DataFromJson(j.fields["data"]).Success? && "settings" in j.fields
    ensures r.Success? ==> r.value.data == DataFromJson(j.fields["data"]).value
    ensures r.Success? ==> r.value.settings == SettingsFromJson(j.fields["settings"], prior.settings)
    ensures j.JObj? && "settings" in j.fields && !j.fields["settings"].JObj? && r.Success? ==> r.value.settings == prior.settings
  {
    var dataJson :- At(j, "data");
    var data :- DataFromJson(dataJson);
    var settingsJson :- At(j, "settings");
    Success(Config(data, SettingsFromJson(settingsJson, prior.settings)))
  }

  lemma ConfigRoundTrip(c: Config, keySequence: seq<i32> -> string, prior: Config)
    ensures ConfigFromJson(ConfigToJson(c, keySequence), prior) == Success(c)
  {
    var d, s := DataToJson(c.data, keySequence), SettingsToJson(c.settings);
    DataRoundTrip(c.data, keySequence);
    SettingsRoundTrip(c.settings, prior.settings);
    ConfigFromParts(d, s, prior);
  }

  /** Reading a config object made of a data part and a settings part. */
  lemma ConfigFromParts(d: Json, s: Json, prior: Config)
    requires DataFromJson(d).Success?
    ensures ConfigFromJson(JObj(map["data" := d, "settings" := s]), prior)
         == Success(Config(DataFromJson(d).value, SettingsFromJson(s, prior.settings)))
  {
    var j := JObj(map["data" := d, "settings" := s]);
    assert At(j, "data") == Success(d);
    assert At(j, "settings") == Success(s);
  }
}
