/**
 * The application's persisted settings record and its default values.
 *
 * The enumerations (audio backend, view mode, theme) are declared in a header that is
 * not part of this model; they are kept as their 8-bit underlying codes, with the codes
 * of the declaration order `None, PulseAudio, PipeWire` / `List, Grid, EmulatedLaunchpad`
 * / `System, Dark, Light`.
 */
module Settings {
  import opened Ints

  const BACKEND_PULSE_AUDIO: u8 := 1
  const VIEW_MODE_LIST: u8 := 0
  const THEME_SYSTEM: u8 := 0

  datatype Settings = Settings(
    audioBackend: u8,
    viewMode: u8,
    theme: u8,
    pushToTalkKeys: seq<i32>,
    stopHotkey: seq<i32>,
    outputs: seq<string>,
    selectedTab: u32,
    remoteVolume: i32,
    localVolume: i32,
    syncVolumes: bool,
    allowMultipleOutputs: bool,
    useAsDefaultDevice: bool,
    muteDuringPlayback: bool,
    allowOverlapping: bool,
    minimizeToTray: bool,
    tabHotkeysOnly: bool,
    deleteToTrash: bool,
    enableWebServer: bool,
    webServerHost: string,
    webServerPort: i32,
    webServerRoot: string,
    remotePin: string,
    requirePin: bool,
    authorizedTokens: seq<string>
  )

  /** The behaviour switches the settings dialog offers, in declaration order. */
  function BehaviourFlags(s: Settings): seq<bool> {
    [s.syncVolumes, s.allowMultipleOutputs, s.useAsDefaultDevice, s.muteDuringPlayback,
     s.allowOverlapping, s.minimizeToTray, s.tabHotkeysOnly, s.deleteToTrash]
  }

  /** A default-constructed Settings: the member initialisers of the struct. */
  function Defaults(): (s: Settings)
    ensures s.audioBackend == BACKEND_PULSE_AUDIO && s.viewMode == VIEW_MODE_LIST && s.theme == THEME_SYSTEM
    ensures s.selectedTab == 0
    ensures s.pushToTalkKeys == [] && s.stopHotkey == [] && s.outputs == []
    ensures s.remoteVolume == 100 && s.localVolume == 50 && !s.syncVolumes
    ensures forall i :: 0 <= i < |BehaviourFlags(s)| ==> (BehaviourFlags(s)[i] <==> i == 4 || i == 7)
    ensures s.enableWebServer && s.webServerHost == "0.0.0.0" && s.webServerPort == 8080 && s.webServerRoot == ""
    ensures s.requirePin && s.remotePin == "" && s.authorizedTokens == []
  {
    Settings(
      audioBackend := BACKEND_PULSE_AUDIO,
      viewMode := VIEW_MODE_LIST,
      theme := THEME_SYSTEM,
      pushToTalkKeys := [],
      stopHotkey := [],
      outputs := [],
      selectedTab := 0,
      remoteVolume := 100,
      localVolume := 50,
      syncVolumes := false,
      allowMultipleOutputs := false,
      useAsDefaultDevice := false,
      muteDuringPlayback := false,
      allowOverlapping := true,
      minimizeToTray := false,
      tabHotkeysOnly := false,
      deleteToTrash := true,
      enableWebServer := true,
      webServerHost := "0.0.0.0",
      webServerPort := 8080,
      webServerRoot := "",
      remotePin := "",
      requirePin := true,
      authorizedTokens := []
    )
  }
}
