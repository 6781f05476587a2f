/**
 * The remote client's settings store: one JSON object kept in memory (`state.settings`)
 * and mirrored in the browser's local storage, with per-sound settings, per-tab layout
 * modes and per-(tab, layout) sound orders in nested objects.
 *
 * Storage is a plain value: `stored` is the parsed content of the storage entry, and an
 * absent or unparsable entry is `None`. Property access on a value that is not an object
 * finds nothing (the Json module's `Prop`). Where a write meets a value that is not an
 * object on its path (only a hand-edited or imported file can put one there), the
 * browser either throws or drops the write silently; the model leaves the store as it was.
 */
module Persistence {
  import opened Wrappers
  import opened Json

  type Fields = map<string, Json>

  const CURRENT_VERSION: int := 2
  const VERSION: string := "version"
  const SOUND_SETTINGS: string := "soundSettings"
  const TAB_LAYOUTS: string := "tabLayouts"
  const LAYOUT_ORDERS: string := "layoutOrders"
  const LAST_TAB_ID: string := "lastTabId"
  const AUTO_FULLSCREEN: string := "autoFullscreenEnabled"
  const FAVORITES: string := "favorites"
  const DEFAULT_LAYOUT: string := "grid-3"

  const EMPTY: Json := JObj(map[])

  /** The in-memory settings (None until loaded) and the storage entry. */
  datatype Store = Store(settings: Option<Fields>, stored: Option<Json>)

  /** What a settings object must hold for the rest of the client to use it. */
  predicate Normalised(f: Fields) {
    && VERSION in f && f[VERSION] == JNum(CURRENT_VERSION)
    && SOUND_SETTINGS in f && Truthy(f[SOUND_SETTINGS])
    && TAB_LAYOUTS in f && Truthy(f[TAB_LAYOUTS])
    && LAYOUT_ORDERS in f && Truthy(f[LAYOUT_ORDERS])
    && LAST_TAB_ID in f && Truthy(f[LAST_TAB_ID])
    && AUTO_FULLSCREEN in f
  }

  /** getDefaultSettings. */
  function Defaults(): (d: Fields)
    ensures Normalised(d)
    ensures d[SOUND_SETTINGS] == EMPTY && d[TAB_LAYOUTS] == EMPTY && d[LAYOUT_ORDERS] == EMPTY
    ensures d[LAST_TAB_ID] == JStr(FAVORITES) && d[AUTO_FULLSCREEN] == JBool(true)
    ensures |d| == 6
  {
    map[VERSION := JNum(CURRENT_VERSION), SOUND_SETTINGS := EMPTY, TAB_LAYOUTS := EMPTY,
        LAYOUT_ORDERS := EMPTY, LAST_TAB_ID := JStr(FAVORITES), AUTO_FULLSCREEN := JBool(true)]
  }

  /** The `x = x || default` fills of the three maps and the last tab, shared by load and import. */
  function WithDefaultMaps(f: Fields): (r: Fields)
    ensures r.Keys == f.Keys + {SOUND_SETTINGS, TAB_LAYOUTS, LAYOUT_ORDERS, LAST_TAB_ID}
    ensures forall k :: k in f && k != SOUND_SETTINGS && k != TAB_LAYOUTS && k != LAYOUT_ORDERS && k != LAST_TAB_ID
              ==> r[k] == f[k]
    ensures Truthy(r[SOUND_SETTINGS]) && Truthy(r[TAB_LAYOUTS]) && Truthy(r[LAYOUT_ORDERS]) && Truthy(r[LAST_TAB_ID])
    ensures SOUND_SETTINGS in f && Truthy(f[SOUND_SETTINGS]) ==> r[SOUND_SETTINGS] == f[SOUND_SETTINGS]
    ensures TAB_LAYOUTS in f && Truthy(f[TAB_LAYOUTS]) ==> r[TAB_LAYOUTS] == f[TAB_LAYOUTS]
    ensures LAYOUT_ORDERS in f && Truthy(f[LAYOUT_ORDERS]) ==> r[LAYOUT_ORDERS] == f[LAYOUT_ORDERS]
    ensures LAST_TAB_ID in f && Truthy(f[LAST_TAB_ID]) ==> r[LAST_TAB_ID] == f[LAST_TAB_ID]
    ensures !(SOUND_SETTINGS in f && Truthy(f[SOUND_SETTINGS])) ==> r[SOUND_SETTINGS] == EMPTY
    ensures !(TAB_LAYOUTS in f && Truthy(f[TAB_LAYOUTS])) ==> r[TAB_LAYOUTS] == EMPTY
    ensures !(LAYOUT_ORDERS in f && Truthy(f[LAYOUT_ORDERS])) ==> r[LAYOUT_ORDERS] == EMPTY
    ensures !(LAST_TAB_ID in f && Truthy(f[LAST_TAB_ID])) ==> r[LAST_TAB_ID] == JStr(FAVORITES)
  {
    var o := JObj(f);
    f[SOUND_SETTINGS := OrElse(Prop(o, SOUND_SETTINGS), EMPTY)]
     [TAB_LAYOUTS := OrElse(Prop(o, TAB_LAYOUTS), EMPTY)]
     [LAYOUT_ORDERS := OrElse(Prop(o, LAYOUT_ORDERS), EMPTY)]
     [LAST_TAB_ID := OrElse(Prop(o, LAST_TAB_ID), JStr(FAVORITES))]
  }

  /** An `undefined` autoFullscreenEnabled becomes true; any present value, null or false included, stays. */
  function WithAutoFullscreen(f: Fields): (r: Fields)
    ensures AUTO_FULLSCREEN in r && r.Keys == f.Keys + {AUTO_FULLSCREEN}
    ensures forall k :: k in f ==> r[k] == f[k]
    ensures AUTO_FULLSCREEN !in f ==> r[AUTO_FULLSCREEN] == JBool(true)
  {
    if AUTO_FULLSCREEN in f then f else f[AUTO_FULLSCREEN := JBool(true)]
  }

  /** The value under `key` when it is truthy, else `fallback`. */
  function TruthyOr(f: Fields, key: string, fallback: Json): Json {
    if key in f && Truthy(f[key]) then f[key] else fallback
  }

  /** `r` is the settings object `f` with its gaps filled and version 2: every key of `f`
      other than the filled ones is kept, a truthy map or last tab is kept and a falsy or
      missing one becomes `{}` or "favorites", and a missing autoFullscreenEnabled becomes true. */
  predicate FilledFrom(r: Fields, f: Fields) {
    && r.Keys == f.Keys + Defaults().Keys
    && (forall k ::
          (k in f && k != VERSION && k != SOUND_SETTINGS && k != TAB_LAYOUTS && k != LAYOUT_ORDERS && k != LAST_TAB_ID)
          ==> k in r && r[k] == f[k])
    && r[VERSION] == JNum(CURRENT_VERSION)
    && r[SOUND_SETTINGS] == TruthyOr(f, SOUND_SETTINGS, EMPTY)
    && r[TAB_LAYOUTS] == TruthyOr(f, TAB_LAYOUTS, EMPTY)
    && r[LAYOUT_ORDERS] == TruthyOr(f, LAYOUT_ORDERS, EMPTY)
    && r[LAST_TAB_ID] == TruthyOr(f, LAST_TAB_ID, JStr(FAVORITES))
    && r[AUTO_FULLSCREEN] == (if AUTO_FULLSCREEN in f then f[AUTO_FULLSCREEN] else JBool(true))
  }

  /** The stored value loadSettings accepts: an object whose version is exactly 2. */
  predicate IsCurrent(stored: Option<Json>) {
    stored.Some? && stored.value.JObj? && Prop(stored.value, VERSION) == Some(JNum(CURRENT_VERSION))
  }

  /** loadSettings: a current stored object with its gaps filled, else the defaults. */
  function Load(stored: Option<Json>): (r: Fields)
    ensures Normalised(r)
    ensures !IsCurrent(stored) ==> r == Defaults()
    ensures IsCurrent(stored) ==> r.Keys == stored.value.fields.Keys + Defaults().Keys
    ensures IsCurrent(stored) ==> forall k :: (k in stored.value.fields && k != SOUND_SETTINGS && k != TAB_LAYOUTS
              && k != LAYOUT_ORDERS && k != LAST_TAB_ID) ==> r[k] == stored.value.fields[k]
    ensures IsCurrent(stored) ==> FilledFrom(r, stored.value.fields)
  {
    if IsCurrent(stored) then WithAutoFullscreen(WithDefaultMaps(stored.value.fields)) else Defaults()
  }

  /** Loading what loading produced changes nothing: a normalised object passes untouched. */
  lemma LoadKeepsNormalised(f: Fields)
    requires Normalised(f)
    ensures Load(Some(JObj(f))) == f
  {
    var r := Load(Some(JObj(f)));
    assert r.Keys == f.Keys;
  }

  lemma LoadIdempotent(stored: Option<Json>)
    ensures Load(Some(JObj(Load(stored)))) == Load(stored)
  {
    LoadKeepsNormalised(Load(stored));
  }

  /** saveSettings: an object gets its version stamped to 2 (in memory too) and is stored;
      an array is stored as it is; anything else is refused. */
  datatype Saved = Saved(value: Json, stored: Option<Json>)

  function Save(x: Json, stored: Option<Json>): (r: Saved)
    ensures !(x.JObj? || x.JArr?) ==> r == Saved(x, stored)
    ensures x.JArr? ==> r == Saved(x, Some(x))
    ensures x.JObj? ==> r.value.JObj? && r.stored == Some(r.value)
    ensures x.JObj? ==> r.value.fields == x.fields[VERSION := JNum(CURRENT_VERSION)]
  {
    match x
    case JObj(f) =>
      var v := JObj(f[VERSION := JNum(CURRENT_VERSION)]);
      Saved(v, Some(v))
    case JArr(_) => Saved(x, Some(x))
    case _ => Saved(x, stored)
  }

  /** What is saved is what the next load reads: saving a normalised object and loading it back gives it unchanged. */
  lemma SaveThenLoad(f: Fields, stored: Option<Json>)
    requires Normalised(f)
    ensures Load(Save(JObj(f), stored).stored) == f
  {
    assert f[VERSION := JNum(CURRENT_VERSION)] == f;
    LoadKeepsNormalised(f);
  }

  /** The state after a setter saved `f`. */
  function Persist(f: Fields): (st: Store)
    ensures st.settings.Some? && st.stored == Some(JObj(st.settings.value))
    ensures st.settings.value == f[VERSION := JNum(CURRENT_VERSION)]
  {
    var s := Save(JObj(f), None);
    Store(Some(s.value.fields), s.stored)
  }

  // ---------------------------------------------------------------------------------
  // Getters
  // ---------------------------------------------------------------------------------

  /** `state.settings?.<key> || {}`. */
  function Section(settings: Option<Fields>, key: string): (r: Json)
    ensures Truthy(r)
  {
    OrElse(if settings.Some? then Prop(JObj(settings.value), key) else None, EMPTY)
  }

  /** The entry stored under `outer` and then `inner`, when both levels are there. */
  function Entry(settings: Option<Fields>, outer: string, inner: string): Option<Json> {
    if settings.Some? && outer in settings.value && settings.value[outer].JObj? && inner in settings.value[outer].fields
    then Some(settings.value[outer].fields[inner])
    else None
  }

  /** getSoundSettings: the sound's settings object, or an empty one. */
  function GetSoundSettings(settings: Option<Fields>, path: string): (r: Json)
    ensures Truthy(r)
    ensures var e := Entry(settings, SOUND_SETTINGS, path);
            && (e.Some? && Truthy(e.value) ==> r == e.value)
            && (!(e.Some? && Truthy(e.value)) ==> r == EMPTY)
  {
    OrElse(Prop(Section(settings, SOUND_SETTINGS), path), EMPTY)
  }

  /** getCurrentLayoutMode: the tab's stored mode, or 'grid-3' when none is stored or it is falsy. */
  function GetCurrentLayoutMode(settings: Option<Fields>, tabId: string): (r: Json)
    ensures Truthy(r)
    ensures var e := Entry(settings, TAB_LAYOUTS, tabId);
            var mode := if e.Some? then Prop(e.value, "currentLayoutMode") else None;
            && (mode.Some? && Truthy(mode.value) ==> r == mode.value)
            && (!(mode.Some? && Truthy(mode.value)) ==> r == JStr(DEFAULT_LAYOUT))
  {
    var entry := Prop(Section(settings, TAB_LAYOUTS), tabId);
    var mode := if entry.Some? then Prop(entry.value, "currentLayoutMode") else None;
    OrElse(mode, JStr(DEFAULT_LAYOUT))
  }

  /** The key of a layout order: `${tabId}-${layoutMode}`. */
  function OrderKey(tabId: string, layoutMode: string): (k: string)
    ensures |k| == |tabId| + 1 + |layoutMode| && k[|tabId|] == '-'
  {
    tabId + "-" + layoutMode
  }

  /** getLayoutOrder: the stored order, or null. */
  function GetLayoutOrder(settings: Option<Fields>, tabId: string, layoutMode: string): (r: Json)
    ensures r == JNull || Truthy(r)
    ensures var e := Entry(settings, LAYOUT_ORDERS, OrderKey(tabId, layoutMode));
            && (e.Some? && Truthy(e.value) ==> r == e.value)
            && (!(e.Some? && Truthy(e.value)) ==> r == JNull)
  {
    OrElse(Prop(Section(settings, LAYOUT_ORDERS), OrderKey(tabId, layoutMode)), JNull)
  }

  // ---------------------------------------------------------------------------------
  // Setters
  // ---------------------------------------------------------------------------------

  /** The object ensurePath leaves under `key`: a new empty one for an absent or null
      entry, the entry itself when it is an object, and None for any other value. */
  function Slot(f: Fields, key: string): (r: Option<Fields>)
    ensures (key !in f || f[key] == JNull) ==> r == Some(map[])
    ensures key in f && f[key].JObj? ==> r == Some(f[key].fields)
    ensures key in f && f[key] != JNull && !f[key].JObj? ==> r.None?
  {
    if key !in f || f[key] == JNull then Some(map[])
    else if f[key].JObj? then Some(f[key].fields)
    else None
  }

  /** ensurePath(settings, [outer, inner]) reaches an object: the settings are loaded and
      neither step meets a value other than an object, null or nothing. */
  predicate Writable(settings: Option<Fields>, outer: string, inner: string) {
    settings.Some? && Slot(settings.value, outer).Some? && Slot(Slot(settings.value, outer).value, inner).Some?
  }

  /** The write `state.settings[outer][inner][key] = value` after ensurePath(outer, inner), then a save. */
  function SetNested(st: Store, outer: string, inner: string, key: string, value: Json): (r: Store)
    ensures !Writable(st.settings, outer, inner) ==> r == st
    ensures Writable(st.settings, outer, inner) ==> r.settings.Some? && r.stored == Some(JObj(r.settings.value))
  {
    if !Writable(st.settings, outer, inner) then st
    else
      var f := st.settings.value;
      var section := Slot(f, outer).value;
      var entry := Slot(section, inner).value;
      Persist(f[outer := JObj(section[inner := JObj(entry[key := value])])])
  }

  /** The sound entries are reachable for writing. */
  predicate SoundWritable(st: Store, path: string) {
    Writable(st.settings, SOUND_SETTINGS, path)
  }

  /** setSoundSetting: the one key of the one sound is written. */
  function SetSoundSetting(st: Store, path: string, key: string, value: Json): (r: Store)
    ensures !SoundWritable(st, path) ==> r == st
    ensures SoundWritable(st, path) ==> r.settings.Some? && r.stored == Some(JObj(r.settings.value))
    ensures SoundWritable(st, path) ==> SoundWritable(r, path)
    ensures SoundWritable(st, path) ==> Prop(GetSoundSettings(r.settings, path), key) == Some(value)
  {
    SetNested(st, SOUND_SETTINGS, path, key, value)
  }

  /** Every other sound, every other key of that sound and every other part of the settings keep their value. */
  lemma SetSoundSettingKeepsOthers(st: Store, path: string, key: string, value: Json)
    ensures var r := SetSoundSetting(st, path, key, value);
            && (forall k :: k != key ==>
                  Prop(GetSoundSettings(r.settings, path), k) == Prop(GetSoundSettings(st.settings, path), k))
            && (forall p :: p != path ==> GetSoundSettings(r.settings, p) == GetSoundSettings(st.settings, p))
            && (forall k :: k != SOUND_SETTINGS && k != VERSION && st.settings.Some? && r.settings.Some?
                  ==> Prop(JObj(r.settings.value), k) == Prop(JObj(st.settings.value), k))
  {
  }

  /** The number of keys `Object.keys` reports for a value. */
  function KeyCount(v: Json): (n: nat)
    ensures v.JObj? ==> n == |v.fields|
    ensures v.JNull? || v.JBool? || v.JNum? ==> n == 0
  {
    match v
    case JObj(m) => |m|
    case JStr(s) => |s|
    case JArr(items) => |items|
    case _ => 0
  }

  /** `delete v[key]`: only an object loses the key. */
  function Without(v: Json, key: string): (r: Json)
    ensures v.JObj? ==> r == JObj(v.fields - {key})
    ensures !v.JObj? ==> r == v
  {
    if v.JObj? then JObj(v.fields - {key}) else v
  }

  /** The guard of removeSoundSetting: the settings are loaded and the sound has a truthy entry. */
  predicate HasSoundEntry(st: Store, path: string) {
    && st.settings.Some?
    && Prop(JObj(st.settings.value), SOUND_SETTINGS).Some?
    && Prop(JObj(st.settings.value), SOUND_SETTINGS).value.JObj?
    && Prop(Prop(JObj(st.settings.value), SOUND_SETTINGS).value, path).Some?
    && Truthy(Prop(Prop(JObj(st.settings.value), SOUND_SETTINGS).value, path).value)
  }

  /** removeSoundSetting: nothing happens unless the sound has a truthy settings entry;
      then the key goes, and the entry goes too once it is empty. */
  function RemoveSoundSetting(st: Store, path: string, key: string): (r: Store)
    ensures !HasSoundEntry(st, path) ==> r == st
    ensures HasSoundEntry(st, path) ==> r.settings.Some? && r.stored == Some(JObj(r.settings.value))
    ensures Prop(GetSoundSettings(r.settings, path), key).None?
  {
    if !HasSoundEntry(st, path) then st
    else
      var f := st.settings.value;
      var entries := f[SOUND_SETTINGS].fields;
      var left := Without(entries[path], key);
      var entries' := if KeyCount(left) == 0 then entries - {path} else entries[path := left];
      Persist(f[SOUND_SETTINGS := JObj(entries')])
  }

  /** Every other key of that sound, every other sound and every other part of the settings keep their value. */
  lemma RemoveSoundSettingKeepsOthers(st: Store, path: string, key: string)
    ensures var r := RemoveSoundSetting(st, path, key);
            && (forall k :: k != key ==>
                  Prop(GetSoundSettings(r.settings, path), k) == Prop(GetSoundSettings(st.settings, path), k))
            && (forall p :: p != path ==> GetSoundSettings(r.settings, p) == GetSoundSettings(st.settings, p))
            && (forall k :: k != SOUND_SETTINGS && k != VERSION && st.settings.Some? && r.settings.Some?
                  ==> Prop(JObj(r.settings.value), k) == Prop(JObj(st.settings.value), k))
  {
  }

  /** An entry left without keys is deleted, and a writable entry stays writable. */
  lemma RemoveSoundSettingCleansUp(st: Store, path: string, key: string)
    requires HasSoundEntry(st, path) && st.settings.value[SOUND_SETTINGS].fields[path].JObj?
    ensures var r := RemoveSoundSetting(st, path, key);
            var entry := st.settings.value[SOUND_SETTINGS].fields[path].fields;
            && r.settings.Some? && r.settings.value[SOUND_SETTINGS].JObj?
            && (path in r.settings.value[SOUND_SETTINGS].fields <==> entry.Keys - {key} != {})
            && SoundWritable(r, path)
  {
    var entry := st.settings.value[SOUND_SETTINGS].fields[path].fields;
    assert |entry - {key}| == 0 <==> entry.Keys - {key} == {};
  }

  /** setSoundColor: the colour 'default' removes the stored colour. */
  function SetSoundColor(st: Store, path: string, color: Json): (r: Store)
    ensures color == JStr("default") ==> Prop(GetSoundSettings(r.settings, path), "color").None?
    ensures color != JStr("default") && SoundWritable(st, path) ==>
              Prop(GetSoundSettings(r.settings, path), "color") == Some(color)
  {
    if color == JStr("default") then RemoveSoundSetting(st, path, "color")
    else SetSoundSetting(st, path, "color", color)
  }

  /** setSoundEmoji: a falsy emoji removes the stored one. */
  function SetSoundEmoji(st: Store, path: string, emoji: Json): (r: Store)
    ensures !Truthy(emoji) ==> Prop(GetSoundSettings(r.settings, path), "emoji").None?
    ensures Truthy(emoji) && SoundWritable(st, path) ==> Prop(GetSoundSettings(r.settings, path), "emoji") == Some(emoji)
  {
    if Truthy(emoji) then SetSoundSetting(st, path, "emoji", emoji)
    else RemoveSoundSetting(st, path, "emoji")
  }

  /** setSoundFavorite: what is stored is always a boolean, the truthiness of the argument. */
  function SetSoundFavorite(st: Store, path: string, isFavorite: Json): (r: Store)
    ensures SoundWritable(st, path) ==>
              Prop(GetSoundSettings(r.settings, path), "favorite") == Some(JBool(Truthy(isFavorite)))
  {
    SetSoundSetting(st, path, "favorite", JBool(Truthy(isFavorite)))
  }

  const HAS_CUSTOM_VOLUME: string := "hasCustomVolume"
  const LOCAL_VOLUME: string := "localVolume"
  const REMOTE_VOLUME: string := "remoteVolume"

  /** `v !== null ? set(key, v) : remove(key)`, the step setSoundCustomVolume takes per volume. */
  function SetOrRemove(st: Store, path: string, key: string, v: Json): (r: Store)
    ensures v != JNull && SoundWritable(st, path) ==> Prop(GetSoundSettings(r.settings, path), key) == Some(v)
    ensures v == JNull ==> Prop(GetSoundSettings(r.settings, path), key).None?
  {
    if v != JNull then SetSoundSetting(st, path, key, v) else RemoveSoundSetting(st, path, key)
  }

  /** setSoundCustomVolume: with a truthy flag the flag is set and each volume is stored
      or, when null, removed; otherwise all three keys are removed. An omitted volume is null. */
  function SetSoundCustomVolume(st: Store, path: string, hasCustom: Json, localVol: Json, remoteVol: Json): (r: Store)
    ensures !Truthy(hasCustom) ==>
              var e := GetSoundSettings(r.settings, path);
              Prop(e, HAS_CUSTOM_VOLUME).None? && Prop(e, LOCAL_VOLUME).None? && Prop(e, REMOTE_VOLUME).None?
  {
    if Truthy(hasCustom) then
      var s1 := SetSoundSetting(st, path, HAS_CUSTOM_VOLUME, JBool(true));
      var s2 := SetOrRemove(s1, path, LOCAL_VOLUME, localVol);
      SetOrRemove(s2, path, REMOTE_VOLUME, remoteVol)
    else
      var s1 := RemoveSoundSetting(st, path, HAS_CUSTOM_VOLUME);
      var s2 := RemoveSoundSetting(s1, path, LOCAL_VOLUME);
      RemoveSoundSetting(s2, path, REMOTE_VOLUME)
  }

  /** SetOrRemove keeps the other keys of the sound and keeps it writable. */
  lemma SetOrRemoveKeeps(st: Store, path: string, key: string, v: Json)
    requires SoundWritable(st, path)
    ensures var r := SetOrRemove(st, path, key, v);
            && SoundWritable(r, path)
            && forall k :: k != key ==>
                 Prop(GetSoundSettings(r.settings, path), k) == Prop(GetSoundSettings(st.settings, path), k)
  {
    if v != JNull {
      SetSoundSettingKeepsOthers(st, path, key, v);
    } else {
      RemoveSoundSettingKeepsOthers(st, path, key);
      if HasSoundEntry(st, path) {
        RemoveSoundSettingCleansUp(st, path, key);
      }
    }
  }

  /** With a truthy flag and a writable sound entry, the sound ends up flagged and holding
      exactly the non-null volumes. */
  lemma CustomVolumeStored(st: Store, path: string, localVol: Json, remoteVol: Json)
    requires SoundWritable(st, path)
    ensures var e := GetSoundSettings(SetSoundCustomVolume(st, path, JBool(true), localVol, remoteVol).settings, path);
            && Prop(e, HAS_CUSTOM_VOLUME) == Some(JBool(true))
            && (localVol != JNull ==> Prop(e, LOCAL_VOLUME) == Some(localVol))
            && (localVol == JNull ==> Prop(e, LOCAL_VOLUME).None?)
            && (remoteVol != JNull ==> Prop(e, REMOTE_VOLUME) == Some(remoteVol))
            && (remoteVol == JNull ==> Prop(e, REMOTE_VOLUME).None?)
  {
    var s1 := SetSoundSetting(st, path, HAS_CUSTOM_VOLUME, JBool(true));
    var s2 := SetOrRemove(s1, path, LOCAL_VOLUME, localVol);
    SetOrRemoveKeeps(s1, path, LOCAL_VOLUME, localVol);
    SetOrRemoveKeeps(s2, path, REMOTE_VOLUME, remoteVol);
  }

  /** setCurrentLayoutMode: the tab's mode is written. */
  function SetCurrentLayoutMode(st: Store, tabId: string, layoutMode: Json): (r: Store)
    ensures !Writable(st.settings, TAB_LAYOUTS, tabId) ==> r == st
    ensures Writable(st.settings, TAB_LAYOUTS, tabId) ==> r.settings.Some? && r.stored == Some(JObj(r.settings.value))
    ensures Writable(st.settings, TAB_LAYOUTS, tabId) ==> Writable(r.settings, TAB_LAYOUTS, tabId)
    ensures Writable(st.settings, TAB_LAYOUTS, tabId) && Truthy(layoutMode) ==>
              GetCurrentLayoutMode(r.settings, tabId) == layoutMode
  {
    SetNested(st, TAB_LAYOUTS, tabId, "currentLayoutMode", layoutMode)
  }

  /** The other tabs keep their layout mode. */
  lemma SetCurrentLayoutModeKeepsOthers(st: Store, tabId: string, layoutMode: Json)
    ensures forall t :: t != tabId ==>
              GetCurrentLayoutMode(SetCurrentLayoutMode(st, tabId, layoutMode).settings, t)
              == GetCurrentLayoutMode(st.settings, t)
  {
  }

  /** setLayoutOrder: only an array is stored, under the tab-and-layout key. */
  function SetLayoutOrder(st: Store, tabId: string, layoutMode: string, order: Json): (r: Store)
    ensures st.settings.None? || !order.JArr? ==> r == st
    ensures r != st ==> r.settings.Some? && r.stored == Some(JObj(r.settings.value))
    ensures st.settings.Some? && order.JArr? && Slot(st.settings.value, LAYOUT_ORDERS).Some? ==>
              GetLayoutOrder(r.settings, tabId, layoutMode) == order
  {
    if st.settings.None? || !order.JArr? then st
    else
      var f := st.settings.value;
      match Slot(f, LAYOUT_ORDERS)
      case None => st
      case Some(orders) => Persist(f[LAYOUT_ORDERS := JObj(orders[OrderKey(tabId, layoutMode) := order])])
  }

  /** clearLayoutOrder: a stored (truthy) order is deleted and the settings saved; otherwise nothing happens. */
  function ClearLayoutOrder(st: Store, tabId: string, layoutMode: string): (r: Store)
    ensures GetLayoutOrder(r.settings, tabId, layoutMode) == JNull
    ensures GetLayoutOrder(st.settings, tabId, layoutMode) == JNull ==> r == st
  {
    var key := OrderKey(tabId, layoutMode);
    if st.settings.None? then st
    else
      var f := st.settings.value;
      var orders := Prop(JObj(f), LAYOUT_ORDERS);
      if orders.None? || !Truthy(orders.value) || !orders.value.JObj? then st
      else
        var entry := Prop(orders.value, key);
        if entry.None? || !Truthy(entry.value) then st
        else Persist(f[LAYOUT_ORDERS := JObj(orders.value.fields - {key})])
  }

  /** Setting or clearing one order leaves the order under every other key as it was. */
  lemma LayoutOrderKeepsOthers(st: Store, tabId: string, layoutMode: string, order: Json)
    ensures forall t, m :: OrderKey(t, m) != OrderKey(tabId, layoutMode) ==>
              && GetLayoutOrder(SetLayoutOrder(st, tabId, layoutMode, order).settings, t, m) == GetLayoutOrder(st.settings, t, m)
              && GetLayoutOrder(ClearLayoutOrder(st, tabId, layoutMode).settings, t, m) == GetLayoutOrder(st.settings, t, m)
  {
  }
  // ---------------------------------------------------------------------------------
  // Export, import and reset
  // ---------------------------------------------------------------------------------

  /** exportSettings: a shallow copy of the settings (an empty one before loading) with version 2. */
  function Export(settings: Option<Fields>): (r: Json)
    ensures r.JObj? && VERSION in r.fields && r.fields[VERSION] == JNum(CURRENT_VERSION)
    ensures settings.Some? ==> r.fields.Keys == settings.value.Keys + {VERSION}
  {
    JObj((if settings.Some? then settings.value else map[])[VERSION := JNum(CURRENT_VERSION)])
  }

  /** The selected file: its MIME type and its parsed content, None when it cannot be read or parsed. */
  datatype ImportFile = ImportFile(mimeType: string, content: Option<Json>)

  datatype ImportError = NoFile | NotJsonType | Unreadable | NotAnObject | TooNew(version: int)

  const JSON_MIME: string := "application/json"

  /** The version handling after the content is known to be acceptable: a numeric version
      above 2 is refused, one below 2 has its gaps filled, anything else passes; then the
      version is stamped to 2. */
  function Migrate(f: Fields): (r: Result<Fields, ImportError>)
    ensures r.Failure? <==> VERSION in f && f[VERSION].JNum? && f[VERSION].n > CURRENT_VERSION
    ensures r.Success? ==> VERSION in r.value && r.value[VERSION] == JNum(CURRENT_VERSION)
    ensures r.Success? && VERSION in f && f[VERSION].JNum? && f[VERSION].n < CURRENT_VERSION ==> Normalised(r.value)
    ensures VERSION in f && f[VERSION].JNum? && f[VERSION].n < CURRENT_VERSION ==> r.Success? && FilledFrom(r.value, f)
    ensures r.Success? && !(VERSION in f && f[VERSION].JNum? && f[VERSION].n < CURRENT_VERSION) ==>
              r.value == f[VERSION := JNum(CURRENT_VERSION)]
  {
    var version := Prop(JObj(f), VERSION);
    if version.Some? && version.value.JNum? && version.value.n > CURRENT_VERSION then
      Failure(TooNew(version.value.n))
    else
      var migrated := if version.Some? && version.value.JNum? && version.value.n < CURRENT_VERSION
                      then WithDefaultMaps(WithAutoFullscreen(f)) else f;
      Success(migrated[VERSION := JNum(CURRENT_VERSION)])
  }

  /** importSettings as written: `typeof x !== 'object'` lets a JSON array through. */
  function ImportAsWritten(file: Option<ImportFile>): (r: Result<Json, ImportError>)
    ensures file.None? ==> r == Failure(NoFile)
    ensures r.Success? ==> file.Some? && file.value.mimeType == JSON_MIME && file.value.content.Some?
  {
    if file.None? then Failure(NoFile)
    else if file.value.mimeType != JSON_MIME then Failure(NotJsonType)
    else if file.value.content.None? then Failure(Unreadable)
    else
      match file.value.content.value
      case JObj(f) =>
        var m :- Migrate(f);
        Success(JObj(m))
      case JArr(items) => Success(JArr(items))
      case _ => Failure(NotAnObject)
  }

  /** An imported `[]` passes the object check and replaces the settings. */
  lemma ImportAcceptsArray()
    ensures ImportAsWritten(Some(ImportFile(JSON_MIME, Some(JArr([]))))) == Success(JArr([]))
  {
  }

  /** importSettings with its object check as intended: only a JSON object is imported. */
  function Import(file: Option<ImportFile>): (r: Result<Fields, ImportError>)
    ensures file.None? ==> r == Failure(NoFile)
    ensures r.Success? <==> file.Some? && file.value.mimeType == JSON_MIME && file.value.content.Some?
                            && file.value.content.value.JObj? && Migrate(file.value.content.value.fields).Success?
    ensures r.Success? ==> r.value == Migrate(file.value.content.value.fields).value
    ensures r.Success? ==> VERSION in r.value && r.value[VERSION] == JNum(CURRENT_VERSION)
  {
    if file.None? then Failure(NoFile)
    else if file.value.mimeType != JSON_MIME then Failure(NotJsonType)
    else if file.value.content.None? then Failure(Unreadable)
    else if !file.value.content.value.JObj? then Failure(NotAnObject)
    else Migrate(file.value.content.value.fields)
  }

  /** The corrected import agrees with the written one on every object. */
  lemma ImportAgreesOnObjects(file: Option<ImportFile>)
    requires file.Some? && file.value.content.Some? && !file.value.content.value.JArr?
    ensures ImportAsWritten(file).Success? <==> Import(file).Success?
    ensures Import(file).Success? ==> ImportAsWritten(file).value == JObj(Import(file).value)
  {
  }

  /** A successful import is saved and becomes the in-memory settings; a failed one changes nothing. */
  function ImportInto(st: Store, file: Option<ImportFile>): (r: Store)
    ensures Import(file).Failure? ==> r == st
    ensures Import(file).Success? ==> r.settings == Some(Import(file).value) && r.stored == Some(JObj(Import(file).value))
  {
    match Import(file)
    case Success(f) =>
      var s := Save(JObj(f), st.stored);
      assert f[VERSION := JNum(CURRENT_VERSION)] == f;
      Store(Some(f), s.stored)
    case Failure(_) => st
  }

  /** Importing an exported file restores the settings that were exported. */
  lemma ImportOfExport(settings: Fields)
    requires VERSION in settings && settings[VERSION] == JNum(CURRENT_VERSION)
    ensures Import(Some(ImportFile(JSON_MIME, Some(Export(Some(settings)))))) == Success(settings)
  {
    assert settings[VERSION := JNum(CURRENT_VERSION)] == settings;
  }

  /** resetAllSettings: the storage entry is removed and the defaults are in memory. */
  function Reset(st: Store): (r: Store)
    ensures r.stored.None? && r.settings == Some(Defaults())
    ensures Load(r.stored) == r.settings.value
  {
    Store(Some(Defaults()), None)
  }
}
