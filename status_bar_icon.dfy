/**
 * The catalog of logical status-bar icons and the two translations between a
 * per-icon visibility map and the raw tokens of the `icon_blacklist` setting.
 */
module StatusBarIcons {
  import opened Wrappers
  import Text

  /**
   * One logical icon: every raw token it may have across ROMs, whether it is shown
   * when the user has not said otherwise, its UI grouping and its drawable resource.
   * No catalog entry overrides the default preferences key, so it is a member here.
   */
  datatype StatusBarIcon = StatusBarIcon(
    id: string,
    displayName: string,
    blacklistNames: seq<string>,
    defaultVisible: bool,
    category: string,
    iconRes: Option<string>)
  {
    /** The SharedPreferences key of this icon's visibility flag. */
    function PreferencesKey(): (key: string)
      ensures Text.StartsWith(key, "icon_") && |key| == |id| + 13 && key[5..5 + |id|] == id
      ensures key[5 + |id|..] == "_visible"
    {
      "icon_" + id + "_visible"
    }
  }

  const CAT_CONNECTIVITY := "Connectivity"
  const CAT_PHONE_NETWORK := "Phone & Network"
  const CAT_AUDIO_MEDIA := "Audio & Media"
  const CAT_SYSTEM_STATUS := "System Status"
  const CAT_OEM_SPECIFIC := "OEM Specific"

  const WIFI := StatusBarIcon("wifi", "WiFi", ["wifi", "wifi_oxygen", "wifi_p2p"], true, CAT_CONNECTIVITY, Some("rounded_android_wifi_3_bar_24"))
  const BLUETOOTH := StatusBarIcon("bluetooth", "Bluetooth", ["bluetooth", "bluetooth_handsfree_battery", "ble_unlock_mode"], true, CAT_CONNECTIVITY, Some("rounded_bluetooth_24"))
  const NFC := StatusBarIcon("nfc", "NFC / Felica", ["nfc", "nfc_on", "nfclock", "felica_lock"], true, CAT_CONNECTIVITY, Some("rounded_nfc_24"))
  const VPN := StatusBarIcon("vpn", "VPN", ["vpn"], true, CAT_CONNECTIVITY, Some("rounded_vpn_key_24"))
  const AIRPLANE_MODE := StatusBarIcon("airplane_mode", "Airplane Mode", ["airplane", "airplane_mode"], true, CAT_CONNECTIVITY, Some("rounded_flight_24"))
  const HOTSPOT := StatusBarIcon("hotspot", "Hotspot", ["hotspot", "wifi_ap"], true, CAT_CONNECTIVITY, Some("rounded_wifi_tethering_24"))
  const CAST := StatusBarIcon("cast", "Cast", ["cast"], true, CAT_CONNECTIVITY, Some("rounded_cast_24"))
  const MOBILE_DATA := StatusBarIcon("mobile_data", "Mobile Data", ["mobile", "data_connection"], true, CAT_PHONE_NETWORK, Some("rounded_android_cell_dual_4_bar_24"))
  const PHONE_SIGNAL := StatusBarIcon("phone_signal", "Phone Signal", ["phone_signal", "phone_signal_second_stub", "phone_evdo_signal", "cdma_eri", "wimax"], true, CAT_PHONE_NETWORK, Some("rounded_signal_cellular_alt_24"))
  const VOLTE := StatusBarIcon("volte", "VoLTE / VoNR", ["volte", "ims_volte", "volte_call", "unicom_call"], true, CAT_PHONE_NETWORK, Some("rounded_wifi_calling_bar_3_24"))
  const WIFI_CALLING := StatusBarIcon("wifi_calling", "WiFi Calling / VoWiFi", ["wifi_calling", "vowifi"], true, CAT_PHONE_NETWORK, Some("rounded_wifi_calling_bar_3_24"))
  const REMOTE_CALL := StatusBarIcon("remote_call", "Call Status / Sync", ["remote_call", "call_record", "answering_memo", "missed_call"], true, CAT_PHONE_NETWORK, Some("rounded_call_log_24"))
  const TTY := StatusBarIcon("tty", "TTY", ["tty"], true, CAT_PHONE_NETWORK, Some("rounded_settings_accessibility_24"))
  const VOLUME := StatusBarIcon("volume", "Volume", ["volume", "mute", "quiet"], true, CAT_AUDIO_MEDIA, Some("rounded_volume_up_24"))
  const HEADSET := StatusBarIcon("headset", "Headset", ["headset", "earphone"], false, CAT_AUDIO_MEDIA, Some("rounded_headset_mic_24"))
  const SPEAKERPHONE := StatusBarIcon("speakerphone", "Speakerphone", ["speakerphone"], true, CAT_AUDIO_MEDIA, Some("rounded_volume_up_24"))
  const DMB := StatusBarIcon("dmb", "DMB", ["dmb"], true, CAT_AUDIO_MEDIA, Some("rounded_play_arrow_24"))
  const CLOCK := StatusBarIcon("clock", "Clock", ["clock"], true, CAT_SYSTEM_STATUS, Some("rounded_nest_clock_farsight_analog_24"))
  const IME := StatusBarIcon("ime", "Input Method (IME)", ["ime"], true, CAT_SYSTEM_STATUS, Some("rounded_settings_accessibility_24"))
  const ALARM := StatusBarIcon("alarm", "Alarm", ["alarm", "alarm_clock"], false, CAT_SYSTEM_STATUS, Some("rounded_alarm_24"))
  const BATTERY := StatusBarIcon("battery", "Battery", ["battery"], true, CAT_SYSTEM_STATUS, Some("rounded_battery_android_frame_6_24"))
  const POWER_SAVER := StatusBarIcon("power_saver", "Power Saving", ["power_saver", "powersavingmode"], true, CAT_SYSTEM_STATUS, Some("rounded_battery_android_frame_plus_24"))
  const DATA_SAVER := StatusBarIcon("data_saver", "Data Saver", ["data_saver"], true, CAT_SYSTEM_STATUS, Some("rounded_data_saver_on_24"))
  const ROTATE := StatusBarIcon("rotate", "Rotation Lock", ["rotate"], false, CAT_SYSTEM_STATUS, Some("rounded_mobile_rotate_24"))
  const LOCATION := StatusBarIcon("location", "Location / GPS", ["location", "gps", "lbs"], true, CAT_SYSTEM_STATUS, Some("rounded_navigation_24"))
  const SYNC := StatusBarIcon("sync", "Sync", ["sync_active", "sync_failing"], true, CAT_SYSTEM_STATUS, Some("rounded_sync_24"))
  const MANAGED_PROFILE := StatusBarIcon("managed_profile", "Managed Profile", ["managed_profile"], true, CAT_SYSTEM_STATUS, Some("rounded_security_24"))
  const DND := StatusBarIcon("dnd", "Do Not Disturb", ["do_not_disturb", "dnd", "zen"], true, CAT_SYSTEM_STATUS, Some("rounded_do_not_disturb_on_24"))
  const PRIVACY := StatusBarIcon("privacy", "Privacy & Secure Folder", ["privacy_mode", "private_mode", "knox_container"], true, CAT_SYSTEM_STATUS, Some("rounded_security_24"))
  const SECURE := StatusBarIcon("secure", "Security Status (SU)", ["secure", "su"], true, CAT_SYSTEM_STATUS, Some("rounded_security_24"))
  const OTG := StatusBarIcon("otg", "OTG Mouse / Keyboard", ["otg_mouse", "otg_keyboard"], true, CAT_OEM_SPECIFIC, Some("rounded_settings_accessibility_24"))
  const SAMSUNG_SMART := StatusBarIcon("samsung_smart", "Samsung Smart Features", ["glove", "gesture", "smart_scroll", "face", "smart_network", "smart_bonding"], true, CAT_OEM_SPECIFIC, Some("rounded_fiber_smart_record_24"))
  const SAMSUNG_SERVICES := StatusBarIcon("samsung_services", "Samsung Services", ["wearable_gear", "femtoicon", "com.samsung.rcs", "toddler", "keyguard_wakeup", "safezone"], true, CAT_OEM_SPECIFIC, Some("rounded_interests_24"))

  // The table, in the source's category groups.
  const CONNECTIVITY_ICONS: seq<StatusBarIcon> := [WIFI, BLUETOOTH, NFC, VPN, AIRPLANE_MODE, HOTSPOT, CAST]
  const PHONE_NETWORK_ICONS: seq<StatusBarIcon> := [MOBILE_DATA, PHONE_SIGNAL, VOLTE, WIFI_CALLING, REMOTE_CALL, TTY]
  const AUDIO_MEDIA_ICONS: seq<StatusBarIcon> := [VOLUME, HEADSET, SPEAKERPHONE, DMB]
  const SYSTEM_STATUS_ICONS: seq<StatusBarIcon> := [
    CLOCK, IME, ALARM, BATTERY, POWER_SAVER, DATA_SAVER, ROTATE, LOCATION, SYNC, MANAGED_PROFILE, DND, PRIVACY, SECURE
  ]
  const OEM_SPECIFIC_ICONS: seq<StatusBarIcon> := [OTG, SAMSUNG_SMART, SAMSUNG_SERVICES]

  /** Every supported icon, in the order the compiler and the decoder visit them. */
  const ALL_ICONS: seq<StatusBarIcon> :=
    CONNECTIVITY_ICONS + PHONE_NETWORK_ICONS + AUDIO_MEDIA_ICONS + SYSTEM_STATUS_ICONS + OEM_SPECIFIC_ICONS

  /** The ids of the icons in `icons`. */
  function IdsOf(icons: seq<StatusBarIcon>): (ids: set<string>)
    ensures forall k | 0 <= k < |icons| :: icons[k].id in ids
    ensures forall id | id in ids :: exists k :: 0 <= k < |icons| && icons[k].id == id
  {
    if |icons| == 0 then {}
    else
      var prefix := icons[..|icons| - 1];
      assert forall k | 0 <= k < |prefix| :: prefix[k] == icons[k];
      IdsOf(prefix) + {icons[|icons| - 1].id}
  }

  /** The ids of the catalog. */
  function IconIds(): set<string> {
    IdsOf(ALL_ICONS)
  }

  // ---------------------------------------------------------------------------
  // Reverse lookups
  // ---------------------------------------------------------------------------

  /** `icons.associateBy { it.id }`: a later icon with the same id replaces an earlier one. */
  function AssociateById(icons: seq<StatusBarIcon>): (m: map<string, StatusBarIcon>)
    ensures forall k | 0 <= k < |icons| :: icons[k].id in m
    ensures forall id | id in m :: m[id].id == id && m[id] in icons
  {
    if |icons| == 0 then map[]
    else
      var last := icons[|icons| - 1];
      var prefix := icons[..|icons| - 1];
      var m := AssociateById(prefix);
      assert forall k | 0 <= k < |prefix| :: prefix[k] == icons[k];
      assert forall x | x in prefix :: x in icons;
      m[last.id := last]
  }

  /** The map from each of an icon's tokens to that icon. */
  function TokenPairs(icon: StatusBarIcon): (m: map<string, StatusBarIcon>)
    ensures m.Keys == set t | t in icon.blacklistNames
    ensures forall t | t in m :: m[t] == icon
  {
    map t | t in icon.blacklistNames :: icon
  }

  /** `icons.flatMap { icon -> icon.blacklistNames.map { it to icon } }.toMap()`: a later pair wins. */
  function AssociateByToken(icons: seq<StatusBarIcon>): (m: map<string, StatusBarIcon>)
    ensures forall k, t | 0 <= k < |icons| && t in icons[k].blacklistNames :: t in m
    ensures forall t | t in m :: t in m[t].blacklistNames && m[t] in icons
  {
    if |icons| == 0 then map[]
    else
      var last := icons[|icons| - 1];
      var prefix := icons[..|icons| - 1];
      var m := AssociateByToken(prefix);
      assert forall k | 0 <= k < |prefix| :: prefix[k] == icons[k];
      assert forall x | x in prefix :: x in icons;
      m + TokenPairs(last)
  }

  const iconMap := AssociateById(ALL_ICONS)
  const blacklistNameMap := AssociateByToken(ALL_ICONS)

  /** The icon with the given id, if the catalog has one. */
  function GetIconById(id: string): (r: Option<StatusBarIcon>)
    ensures r.Some? <==> id in IconIds()
    ensures r.Some? ==> r.value.id == id && r.value in ALL_ICONS
  {
    if id in iconMap then Some(iconMap[id]) else None
  }

  /** The icon that owns the given raw token, if any. */
  function GetIconByBlacklistName(blacklistName: string): (r: Option<StatusBarIcon>)
    ensures r.Some? <==> exists k :: 0 <= k < |ALL_ICONS| && blacklistName in ALL_ICONS[k].blacklistNames
    ensures r.Some? ==> blacklistName in r.value.blacklistNames && r.value in ALL_ICONS
  {
    if blacklistName in blacklistNameMap then Some(blacklistNameMap[blacklistName]) else None
  }

  // ---------------------------------------------------------------------------
  // Compiling a visibility map into tokens
  // ---------------------------------------------------------------------------

  /** An icon's effective visibility: the explicit entry, else its default. */
  function IsVisible(iconVisibilities: map<string, bool>, icon: StatusBarIcon): bool {
    if icon.id in iconVisibilities then iconVisibilities[icon.id] else icon.defaultVisible
  }

  /** The tokens of one icon, as a set. */
  function NameSet(icon: StatusBarIcon): (s: set<string>)
    ensures forall t :: t in s <==> t in icon.blacklistNames
  {
    set t | t in icon.blacklistNames
  }

  /** The union of the tokens of the icons in `icons` that are hidden under `iconVisibilities`. */
  function HiddenTokensIn(icons: seq<StatusBarIcon>, iconVisibilities: map<string, bool>): (hidden: set<string>)
    ensures forall t :: t in hidden <==>
      exists k :: 0 <= k < |icons| && !IsVisible(iconVisibilities, icons[k]) && t in icons[k].blacklistNames
  {
    if |icons| == 0 then {}
    else
      var last := icons[|icons| - 1];
      var prefix := icons[..|icons| - 1];
      var earlier := HiddenTokensIn(prefix, iconVisibilities);
      assert forall k | 0 <= k < |prefix| :: prefix[k] == icons[k];
      earlier + (if IsVisible(iconVisibilities, last) then {} else NameSet(last))
  }

  /** The tokens the catalog hides under `iconVisibilities`. */
  function HiddenTokens(iconVisibilities: map<string, bool>): set<string> {
    HiddenTokensIn(ALL_ICONS, iconVisibilities)
  }

  /** The loop of `getBlacklistNames`, over a given icon table. */
  method GetBlacklistNamesIn(icons: seq<StatusBarIcon>, iconVisibilities: map<string, bool>)
    returns (blacklistNames: set<string>)
    ensures blacklistNames == HiddenTokensIn(icons, iconVisibilities)
  {
    blacklistNames := {};
    for k := 0 to |icons|
      invariant blacklistNames == HiddenTokensIn(icons[..k], iconVisibilities)
    {
      var icon := icons[k];
      var isVisible := if icon.id in iconVisibilities then iconVisibilities[icon.id] else icon.defaultVisible;
      if !isVisible {
        blacklistNames := blacklistNames + NameSet(icon);
      }
      assert icons[..k + 1][..k] == icons[..k];
    }
    assert icons[..|icons|] == icons;
  }

  /** Collects the tokens of every hidden catalog icon into one set. */
  method GetBlacklistNames(iconVisibilities: map<string, bool>) returns (blacklistNames: set<string>)
    ensures forall t :: t in blacklistNames <==>
      exists k :: 0 <= k < |ALL_ICONS| && !IsVisible(iconVisibilities, ALL_ICONS[k]) && t in ALL_ICONS[k].blacklistNames
    ensures blacklistNames == HiddenTokens(iconVisibilities)
  {
    blacklistNames := GetBlacklistNamesIn(ALL_ICONS, iconVisibilities);
  }

  // ---------------------------------------------------------------------------
  // Decoding the setting into a visibility map
  // ---------------------------------------------------------------------------

  /** The tokens listed in the (possibly unset) comma-separated setting. */
  function BlacklistSet(blacklist: Option<string>): (s: set<string>)
    ensures blacklist.None? ==> s == {}
    ensures blacklist.Some? ==> forall t :: t in s <==> t in Text.Split(blacklist.value, ',')
  {
    match blacklist
    case None => {}
    case Some(b) => set t | t in Text.Split(b, ',')
  }

  /** `icon.blacklistNames.any { it in blacklistSet }`. */
  predicate Listed(icon: StatusBarIcon, blacklistSet: set<string>) {
    exists j :: 0 <= j < |icon.blacklistNames| && icon.blacklistNames[j] in blacklistSet
  }

  /** No two icons of `icons` share an id. */
  predicate IdsUnique(icons: seq<StatusBarIcon>) {
    forall i, j | 0 <= i < j < |icons| :: icons[i].id != icons[j].id
  }

  /** The map `getVisibilityState` builds from the icons of `icons`, one entry per icon in order. */
  function VisibilityMap(icons: seq<StatusBarIcon>, blacklistSet: set<string>): (m: map<string, bool>)
    ensures m.Keys == IdsOf(icons)
  {
    if |icons| == 0 then map[]
    else
      var last := icons[|icons| - 1];
      VisibilityMap(icons[..|icons| - 1], blacklistSet)[last.id := !Listed(last, blacklistSet)]
  }

  /** With distinct ids, every icon's entry says whether none of its tokens is listed, and there is one entry per icon. */
  lemma {:induction false} VisibilityMapEntries(icons: seq<StatusBarIcon>, blacklistSet: set<string>)
    requires IdsUnique(icons)
    ensures |VisibilityMap(icons, blacklistSet)| == |icons|
    ensures forall k | 0 <= k < |icons| :: VisibilityMap(icons, blacklistSet)[icons[k].id] == !Listed(icons[k], blacklistSet)
  {
    if |icons| > 0 {
      var prefix := icons[..|icons| - 1];
      var last := icons[|icons| - 1];
      assert IdsUnique(prefix) by {
        assert forall k | 0 <= k < |prefix| :: prefix[k] == icons[k];
      }
      VisibilityMapEntries(prefix, blacklistSet);
      var m := VisibilityMap(prefix, blacklistSet);
      assert last.id !in m;
      forall k | 0 <= k < |icons|
        ensures VisibilityMap(icons, blacklistSet)[icons[k].id] == !Listed(icons[k], blacklistSet)
      {
        if k < |icons| - 1 {
          assert prefix[k] == icons[k];
        }
      }
    }
  }

  /** No token belongs to two icons of `icons`. */
  predicate TokensUnique(icons: seq<StatusBarIcon>) {
    forall i, j, t | 0 <= i < |icons| && 0 <= j < |icons|
      && t in icons[i].blacklistNames && t in icons[j].blacklistNames :: i == j
  }

  /** The loop of `getVisibilityState`, over a given icon table. */
  method GetVisibilityStateIn(icons: seq<StatusBarIcon>, blacklist: Option<string>)
    returns (visibilities: map<string, bool>)
    ensures visibilities == VisibilityMap(icons, BlacklistSet(blacklist))
  {
    var blacklistSet := BlacklistSet(blacklist);
    visibilities := map[];
    for k := 0 to |icons|
      invariant visibilities == VisibilityMap(icons[..k], blacklistSet)
    {
      var icon := icons[k];
      assert icons[..k + 1][..k] == icons[..k];
      var isHidden := Listed(icon, blacklistSet);
      visibilities := visibilities[icon.id := !isHidden];
    }
    assert icons[..|icons|] == icons;
  }

  /** One entry per catalog icon: visible iff none of its tokens is listed. */
  method GetVisibilityState(blacklist: Option<string>) returns (visibilities: map<string, bool>)
    ensures visibilities.Keys == IconIds()
    ensures |visibilities| == |ALL_ICONS|
    ensures forall k | 0 <= k < |ALL_ICONS| ::
      visibilities[ALL_ICONS[k].id] == !Listed(ALL_ICONS[k], BlacklistSet(blacklist))
  {
    visibilities := GetVisibilityStateIn(ALL_ICONS, blacklist);
    IdsDistinct();
    VisibilityMapEntries(ALL_ICONS, BlacklistSet(blacklist));
  }

  // ---------------------------------------------------------------------------
  // Facts about the table
  // ---------------------------------------------------------------------------

  /** The position of an id in the table (-1 for none); a proof device. */
  ghost function IdOwner(id: string): int {
    if |id| == 0 then -1
    else match id[0]
      case 'w' => (match id
        case "wifi" => 0
        case "wifi_calling" => 10
        case _ => -1)
      case 'b' => (match id
        case "bluetooth" => 1
        case "battery" => 20
        case _ => -1)
      case 'n' => (match id
        case "nfc" => 2
        case _ => -1)
      case 'v' => (match id
        case "vpn" => 3
        case "volte" => 9
        case "volume" => 13
        case _ => -1)
      case 'a' => (match id
        case "airplane_mode" => 4
        case "alarm" => 19
        case _ => -1)
      case 'h' => (match id
        case "hotspot" => 5
        case "headset" => 14
        case _ => -1)
      case 'c' => (match id
        case "cast" => 6
        case "clock" => 17
        case _ => -1)
      case 'm' => (match id
        case "mobile_data" => 7
        case "managed_profile" => 26
        case _ => -1)
      case 'p' => (match id
        case "phone_signal" => 8
        case "power_saver" => 21
        case "privacy" => 28
        case _ => -1)
      case 'r' => (match id
        case "remote_call" => 11
        case "rotate" => 23
        case _ => -1)
      case 't' => (match id
        case "tty" => 12
        case _ => -1)
      case 's' => (match id
        case "speakerphone" => 15
        case "sync" => 25
        case "secure" => 29
        case "samsung_smart" => 31
        case "samsung_services" => 32
        case _ => -1)
      case 'd' => (match id
        case "dmb" => 16
        case "data_saver" => 22
        case "dnd" => 27
        case _ => -1)
      case 'i' => (match id
        case "ime" => 18
        case _ => -1)
      case 'l' => (match id
        case "location" => 24
        case _ => -1)
      case 'o' => (match id
        case "otg" => 30
        case _ => -1)
      case _ => -1
  }

  /** The position of the icon owning a token (-1 for none); a proof device. */
  ghost function TokenOwner(token: string): int {
    if |token| == 0 then -1
    else match token[0]
      case 'w' => (match token
        case "wifi" => 0
        case "wifi_oxygen" => 0
        case "wifi_p2p" => 0
        case "wifi_ap" => 5
        case "wimax" => 8
        case "wifi_calling" => 10
        case "wearable_gear" => 32
        case _ => -1)
      case 'b' => (match token
        case "bluetooth" => 1
        case "bluetooth_handsfree_battery" => 1
        case "ble_unlock_mode" => 1
        case "battery" => 20
        case _ => -1)
      case 'n' => (match token
        case "nfc" => 2
        case "nfc_on" => 2
        case "nfclock" => 2
        case _ => -1)
      case 'f' => (match token
        case "felica_lock" => 2
        case "face" => 31
        case "femtoicon" => 32
        case _ => -1)
      case 'v' => (match token
        case "vpn" => 3
        case "volte" => 9
        case "volte_call" => 9
        case "vowifi" => 10
        case "volume" => 13
        case _ => -1)
      case 'a' => (match token
        case "airplane" => 4
        case "airplane_mode" => 4
        case "answering_memo" => 11
        case "alarm" => 19
        case "alarm_clock" => 19
        case _ => -1)
      case 'h' => (match token
        case "hotspot" => 5
        case "headset" => 14
        case _ => -1)
      case 'c' => (match token
        case "cast" => 6
        case "cdma_eri" => 8
        case "call_record" => 11
        case "clock" => 17
        case "com.samsung.rcs" => 32
        case _ => -1)
      case 'm' => (match token
        case "mobile" => 7
        case "missed_call" => 11
        case "mute" => 13
        case "managed_profile" => 26
        case _ => -1)
      case 'd' => (match token
        case "data_connection" => 7
        case "dmb" => 16
        case "data_saver" => 22
        case "do_not_disturb" => 27
        case "dnd" => 27
        case _ => -1)
      case 'p' => (match token
        case "phone_signal" => 8
        case "phone_signal_second_stub" => 8
        case "phone_evdo_signal" => 8
        case "power_saver" => 21
        case "powersavingmode" => 21
        case "privacy_mode" => 28
        case "private_mode" => 28
        case _ => -1)
      case 'i' => (match token
        case "ims_volte" => 9
        case "ime" => 18
        case _ => -1)
      case 'u' => (match token
        case "unicom_call" => 9
        case _ => -1)
      case 'r' => (match token
        case "remote_call" => 11
        case "rotate" => 23
        case _ => -1)
      case 't' => (match token
        case "tty" => 12
        case "toddler" => 32
        case _ => -1)
      case 'q' => (match token
        case "quiet" => 13
        case _ => -1)
      case 'e' => (match token
        case "earphone" => 14
        case _ => -1)
      case 's' => (match token
        case "speakerphone" => 15
        case "sync_active" => 25
        case "sync_failing" => 25
        case "secure" => 29
        case "su" => 29
        case "smart_scroll" => 31
        case "smart_network" => 31
        case "smart_bonding" => 31
        case "safezone" => 32
        case _ => -1)
      case 'l' => (match token
        case "location" => 24
        case "lbs" => 24
        case _ => -1)
      case 'g' => (match token
        case "gps" => 24
        case "glove" => 31
        case "gesture" => 31
        case _ => -1)
      case 'z' => (match token
        case "zen" => 27
        case _ => -1)
      case 'k' => (match token
        case "knox_container" => 28
        case "keyguard_wakeup" => 32
        case _ => -1)
      case 'o' => (match token
        case "otg_mouse" => 30
        case "otg_keyboard" => 30
        case _ => -1)
      case _ => -1
  }

  // Each entry of the table, checked on its own (one lemma per entry keeps each proof small).

  lemma WifiEntry()
    ensures IdOwner(WIFI.id) == 0 && WIFI.defaultVisible && |WIFI.blacklistNames| > 0
    ensures forall t | t in WIFI.blacklistNames :: TokenOwner(t) == 0 && ',' !in t
  {
  }

  lemma BluetoothEntry()
    ensures IdOwner(BLUETOOTH.id) == 1 && BLUETOOTH.defaultVisible && |BLUETOOTH.blacklistNames| > 0
    ensures forall t | t in BLUETOOTH.blacklistNames :: TokenOwner(t) == 1 && ',' !in t
  {
  }

  lemma NfcEntry()
    ensures IdOwner(NFC.id) == 2 && NFC.defaultVisible && |NFC.blacklistNames| > 0
    ensures forall t | t in NFC.blacklistNames :: TokenOwner(t) == 2 && ',' !in t
  {
  }

  lemma VpnEntry()
    ensures IdOwner(VPN.id) == 3 && VPN.defaultVisible && |VPN.blacklistNames| > 0
    ensures forall t | t in VPN.blacklistNames :: TokenOwner(t) == 3 && ',' !in t
  {
  }

  lemma AirplaneModeEntry()
    ensures IdOwner(AIRPLANE_MODE.id) == 4 && AIRPLANE_MODE.defaultVisible && |AIRPLANE_MODE.blacklistNames| > 0
    ensures forall t | t in AIRPLANE_MODE.blacklistNames :: TokenOwner(t) == 4 && ',' !in t
  {
  }

  lemma HotspotEntry()
    ensures IdOwner(HOTSPOT.id) == 5 && HOTSPOT.defaultVisible && |HOTSPOT.blacklistNames| > 0
    ensures forall t | t in HOTSPOT.blacklistNames :: TokenOwner(t) == 5 && ',' !in t
  {
  }

  lemma CastEntry()
    ensures IdOwner(CAST.id) == 6 && CAST.defaultVisible && |CAST.blacklistNames| > 0
    ensures forall t | t in CAST.blacklistNames :: TokenOwner(t) == 6 && ',' !in t
  {
  }

  lemma MobileDataEntry()
    ensures IdOwner(MOBILE_DATA.id) == 7 && MOBILE_DATA.defaultVisible && |MOBILE_DATA.blacklistNames| > 0
    ensures forall t | t in MOBILE_DATA.blacklistNames :: TokenOwner(t) == 7 && ',' !in t
  {
  }

  lemma PhoneSignalEntry()
    ensures IdOwner(PHONE_SIGNAL.id) == 8 && PHONE_SIGNAL.defaultVisible && |PHONE_SIGNAL.blacklistNames| > 0
    ensures forall t | t in PHONE_SIGNAL.blacklistNames :: TokenOwner(t) == 8 && ',' !in t
  {
    assert TokenOwner("phone_signal") == 8 && TokenOwner("phone_signal_second_stub") == 8;
    assert TokenOwner("phone_evdo_signal") == 8 && TokenOwner("cdma_eri") == 8 && TokenOwner("wimax") == 8;
  }

  lemma VolteEntry()
    ensures IdOwner(VOLTE.id) == 9 && VOLTE.defaultVisible && |VOLTE.blacklistNames| > 0
    ensures forall t | t in VOLTE.blacklistNames :: TokenOwner(t) == 9 && ',' !in t
  {
  }

  lemma WifiCallingEntry()
    ensures IdOwner(WIFI_CALLING.id) == 10 && WIFI_CALLING.defaultVisible && |WIFI_CALLING.blacklistNames| > 0
    ensures forall t | t in WIFI_CALLING.blacklistNames :: TokenOwner(t) == 10 && ',' !in t
  {
  }

  lemma RemoteCallEntry()
    ensures IdOwner(REMOTE_CALL.id) == 11 && REMOTE_CALL.defaultVisible && |REMOTE_CALL.blacklistNames| > 0
    ensures forall t | t in REMOTE_CALL.blacklistNames :: TokenOwner(t) == 11 && ',' !in t
  {
  }

  lemma TtyEntry()
    ensures IdOwner(TTY.id) == 12 && TTY.defaultVisible && |TTY.blacklistNames| > 0
    ensures forall t | t in TTY.blacklistNames :: TokenOwner(t) == 12 && ',' !in t
  {
  }

  lemma VolumeEntry()
    ensures IdOwner(VOLUME.id) == 13 && VOLUME.defaultVisible && |VOLUME.blacklistNames| > 0
    ensures forall t | t in VOLUME.blacklistNames :: TokenOwner(t) == 13 && ',' !in t
  {
  }

  lemma HeadsetEntry()
    ensures IdOwner(HEADSET.id) == 14 && !HEADSET.defaultVisible && |HEADSET.blacklistNames| > 0
    ensures forall t | t in HEADSET.blacklistNames :: TokenOwner(t) == 14 && ',' !in t
  {
  }

  lemma SpeakerphoneEntry()
    ensures IdOwner(SPEAKERPHONE.id) == 15 && SPEAKERPHONE.defaultVisible && |SPEAKERPHONE.blacklistNames| > 0
    ensures forall t | t in SPEAKERPHONE.blacklistNames :: TokenOwner(t) == 15 && ',' !in t
  {
  }

  lemma DmbEntry()
    ensures IdOwner(DMB.id) == 16 && DMB.defaultVisible && |DMB.blacklistNames| > 0
    ensures forall t | t in DMB.blacklistNames :: TokenOwner(t) == 16 && ',' !in t
  {
  }

  lemma ClockEntry()
    ensures IdOwner(CLOCK.id) == 17 && CLOCK.defaultVisible && |CLOCK.blacklistNames| > 0
    ensures forall t | t in CLOCK.blacklistNames :: TokenOwner(t) == 17 && ',' !in t
  {
  }

  lemma ImeEntry()
    ensures IdOwner(IME.id) == 18 && IME.defaultVisible && |IME.blacklistNames| > 0
    ensures forall t | t in IME.blacklistNames :: TokenOwner(t) == 18 && ',' !in t
  {
  }

  lemma AlarmEntry()
    ensures IdOwner(ALARM.id) == 19 && !ALARM.defaultVisible && |ALARM.blacklistNames| > 0
    ensures forall t | t in ALARM.blacklistNames :: TokenOwner(t) == 19 && ',' !in t
  {
  }

  lemma BatteryEntry()
    ensures IdOwner(BATTERY.id) == 20 && BATTERY.defaultVisible && |BATTERY.blacklistNames| > 0
    ensures forall t | t in BATTERY.blacklistNames :: TokenOwner(t) == 20 && ',' !in t
  {
  }

  lemma PowerSaverEntry()
    ensures IdOwner(POWER_SAVER.id) == 21 && POWER_SAVER.defaultVisible && |POWER_SAVER.blacklistNames| > 0
    ensures forall t | t in POWER_SAVER.blacklistNames :: TokenOwner(t) == 21 && ',' !in t
  {
  }

  lemma DataSaverEntry()
    ensures IdOwner(DATA_SAVER.id) == 22 && DATA_SAVER.defaultVisible && |DATA_SAVER.blacklistNames| > 0
    ensures forall t | t in DATA_SAVER.blacklistNames :: TokenOwner(t) == 22 && ',' !in t
  {
  }

  lemma RotateEntry()
    ensures IdOwner(ROTATE.id) == 23 && !ROTATE.defaultVisible && |ROTATE.blacklistNames| > 0
    ensures forall t | t in ROTATE.blacklistNames :: TokenOwner(t) == 23 && ',' !in t
  {
  }

  lemma LocationEntry()
    ensures IdOwner(LOCATION.id) == 24 && LOCATION.defaultVisible && |LOCATION.blacklistNames| > 0
    ensures forall t | t in LOCATION.blacklistNames :: TokenOwner(t) == 24 && ',' !in t
  {
  }

  lemma SyncEntry()
    ensures IdOwner(SYNC.id) == 25 && SYNC.defaultVisible && |SYNC.blacklistNames| > 0
    ensures forall t | t in SYNC.blacklistNames :: TokenOwner(t) == 25 && ',' !in t
  {
  }

  lemma ManagedProfileEntry()
    ensures IdOwner(MANAGED_PROFILE.id) == 26 && MANAGED_PROFILE.defaultVisible && |MANAGED_PROFILE.blacklistNames| > 0
    ensures forall t | t in MANAGED_PROFILE.blacklistNames :: TokenOwner(t) == 26 && ',' !in t
  {
  }

  lemma DndEntry()
    ensures IdOwner(DND.id) == 27 && DND.defaultVisible && |DND.blacklistNames| > 0
    ensures forall t | t in DND.blacklistNames :: TokenOwner(t) == 27 && ',' !in t
  {
  }

  lemma PrivacyEntry()
    ensures IdOwner(PRIVACY.id) == 28 && PRIVACY.defaultVisible && |PRIVACY.blacklistNames| > 0
    ensures forall t | t in PRIVACY.blacklistNames :: TokenOwner(t) == 28 && ',' !in t
  {
  }

  lemma SecureEntry()
    ensures IdOwner(SECURE.id) == 29 && SECURE.defaultVisible && |SECURE.blacklistNames| > 0
    ensures forall t | t in SECURE.blacklistNames :: TokenOwner(t) == 29 && ',' !in t
  {
  }

  lemma OtgEntry()
    ensures IdOwner(OTG.id) == 30 && OTG.defaultVisible && |OTG.blacklistNames| > 0
    ensures forall t | t in OTG.blacklistNames :: TokenOwner(t) == 30 && ',' !in t
  {
  }

  lemma SamsungSmartEntry()
    ensures IdOwner(SAMSUNG_SMART.id) == 31 && SAMSUNG_SMART.defaultVisible && |SAMSUNG_SMART.blacklistNames| > 0
    ensures forall t | t in SAMSUNG_SMART.blacklistNames :: TokenOwner(t) == 31 && ',' !in t
  {
  }

  lemma SamsungServicesEntry()
    ensures IdOwner(SAMSUNG_SERVICES.id) == 32 && SAMSUNG_SERVICES.defaultVisible && |SAMSUNG_SERVICES.blacklistNames| > 0
    ensures forall t | t in SAMSUNG_SERVICES.blacklistNames :: TokenOwner(t) == 32 && ',' !in t
  {
  }

  /** What the table says about its k-th entry. */
  lemma CatalogFacts(k: int)
    requires 0 <= k < |ALL_ICONS|
    ensures IdOwner(ALL_ICONS[k].id) == k
    ensures |ALL_ICONS[k].blacklistNames| > 0
    ensures forall t | t in ALL_ICONS[k].blacklistNames :: TokenOwner(t) == k && ',' !in t
    ensures !ALL_ICONS[k].defaultVisible <==> k == 14 || k == 19 || k == 23
  {
    if k < 6 { CatalogFacts0To6(k); } else if k < 12 { CatalogFacts6To12(k); } else if k < 18 { CatalogFacts12To18(k); } else if k < 24 { CatalogFacts18To24(k); } else if k < 30 { CatalogFacts24To30(k); } else { CatalogFacts30To33(k); }
  }

  lemma CatalogFacts0To6(k: int)
    requires 0 <= k < 6
    ensures IdOwner(ALL_ICONS[k].id) == k
    ensures |ALL_ICONS[k].blacklistNames| > 0
    ensures forall t | t in ALL_ICONS[k].blacklistNames :: TokenOwner(t) == k && ',' !in t
    ensures !ALL_ICONS[k].defaultVisible <==> k == 14 || k == 19 || k == 23
  {
    if k == 0 {
      WifiEntry();
    } else if k == 1 {
      BluetoothEntry();
    } else if k == 2 {
      NfcEntry();
    } else if k == 3 {
      VpnEntry();
    } else if k == 4 {
      AirplaneModeEntry();
    } else {
      HotspotEntry();
    }
  }

  lemma CatalogFacts6To12(k: int)
    requires 6 <= k < 12
    ensures IdOwner(ALL_ICONS[k].id) == k
    ensures |ALL_ICONS[k].blacklistNames| > 0
    ensures forall t | t in ALL_ICONS[k].blacklistNames :: TokenOwner(t) == k && ',' !in t
    ensures !ALL_ICONS[k].defaultVisible <==> k == 14 || k == 19 || k == 23
  {
    if k == 6 {
      CastEntry();
    } else if k == 7 {
      MobileDataEntry();
    } else if k == 8 {
      PhoneSignalEntry();
    } else if k == 9 {
      VolteEntry();
    } else if k == 10 {
      WifiCallingEntry();
    } else {
      RemoteCallEntry();
    }
  }

  lemma CatalogFacts12To18(k: int)
    requires 12 <= k < 18
    ensures IdOwner(ALL_ICONS[k].id) == k
    ensures |ALL_ICONS[k].blacklistNames| > 0
    ensures forall t | t in ALL_ICONS[k].blacklistNames :: TokenOwner(t) == k && ',' !in t
    ensures !ALL_ICONS[k].defaultVisible <==> k == 14 || k == 19 || k == 23
  {
    if k == 12 {
      TtyEntry();
    } else if k == 13 {
      VolumeEntry();
    } else if k == 14 {
      HeadsetEntry();
    } else if k == 15 {
      SpeakerphoneEntry();
    } else if k == 16 {
      DmbEntry();
    } else {
      ClockEntry();
    }
  }

  lemma CatalogFacts18To24(k: int)
    requires 18 <= k < 24
    ensures IdOwner(ALL_ICONS[k].id) == k
    ensures |ALL_ICONS[k].blacklistNames| > 0
    ensures forall t | t in ALL_ICONS[k].blacklistNames :: TokenOwner(t) == k && ',' !in t
    ensures !ALL_ICONS[k].defaultVisible <==> k == 14 || k == 19 || k == 23
  {
    if k == 18 {
      ImeEntry();
    } else if k == 19 {
      AlarmEntry();
    } else if k == 20 {
      BatteryEntry();
    } else if k == 21 {
      PowerSaverEntry();
    } else if k == 22 {
      DataSaverEntry();
    } else {
      RotateEntry();
    }
  }

  lemma CatalogFacts24To30(k: int)
    requires 24 <= k < 30
    ensures IdOwner(ALL_ICONS[k].id) == k
    ensures |ALL_ICONS[k].blacklistNames| > 0
    ensures forall t | t in ALL_ICONS[k].blacklistNames :: TokenOwner(t) == k && ',' !in t
    ensures !ALL_ICONS[k].defaultVisible <==> k == 14 || k == 19 || k == 23
  {
    if k == 24 {
      LocationEntry();
    } else if k == 25 {
      SyncEntry();
    } else if k == 26 {
      ManagedProfileEntry();
    } else if k == 27 {
      DndEntry();
    } else if k == 28 {
      PrivacyEntry();
    } else {
      SecureEntry();
    }
  }

  lemma CatalogFacts30To33(k: int)
    requires 30 <= k < 33
    ensures IdOwner(ALL_ICONS[k].id) == k
    ensures |ALL_ICONS[k].blacklistNames| > 0
    ensures forall t | t in ALL_ICONS[k].blacklistNames :: TokenOwner(t) == k && ',' !in t
    ensures !ALL_ICONS[k].defaultVisible <==> k == 14 || k == 19 || k == 23
  {
    if k == 30 {
      OtgEntry();
    } else if k == 31 {
      SamsungSmartEntry();
    } else {
      SamsungServicesEntry();
    }
  }

  /** No two icons share an id. */
  lemma IdsDistinct()
    ensures IdsUnique(ALL_ICONS)
  {
    forall i, j | 0 <= i < j < |ALL_ICONS| ensures ALL_ICONS[i].id != ALL_ICONS[j].id {
      CatalogFacts(i);
      CatalogFacts(j);
    }
  }

  /** Every icon has at least one token, and no token is empty or contains a comma. */
  lemma TokensWellFormed()
    ensures forall k | 0 <= k < |ALL_ICONS| :: |ALL_ICONS[k].blacklistNames| > 0
    ensures forall k, t | 0 <= k < |ALL_ICONS| && t in ALL_ICONS[k].blacklistNames :: t != "" && ',' !in t
  {
    forall k | 0 <= k < |ALL_ICONS|
      ensures |ALL_ICONS[k].blacklistNames| > 0
      ensures forall t | t in ALL_ICONS[k].blacklistNames :: t != "" && ',' !in t
    {
      CatalogFacts(k);
    }
  }

  /** The token lists of distinct icons are disjoint. */
  lemma TokensDisjoint()
    ensures TokensUnique(ALL_ICONS)
  {
    forall i, j, t | 0 <= i < |ALL_ICONS| && 0 <= j < |ALL_ICONS|
      && t in ALL_ICONS[i].blacklistNames && t in ALL_ICONS[j].blacklistNames
      ensures i == j
    {
      CatalogFacts(i);
      CatalogFacts(j);
    }
  }

  // ---------------------------------------------------------------------------
  // Properties of the lookups, the compiler and the decoder
  // ---------------------------------------------------------------------------

  /** With distinct ids, `associateBy` maps each icon's id to that icon. */
  lemma {:induction false} AssociateByIdFinds(icons: seq<StatusBarIcon>)
    requires IdsUnique(icons)
    ensures forall k | 0 <= k < |icons| :: AssociateById(icons)[icons[k].id] == icons[k]
  {
    if |icons| > 0 {
      var prefix := icons[..|icons| - 1];
      assert forall k | 0 <= k < |prefix| :: prefix[k] == icons[k];
      AssociateByIdFinds(prefix);
    }
  }

  /** With disjoint token lists, the token map sends each token to the icon that lists it. */
  lemma {:induction false} AssociateByTokenFinds(icons: seq<StatusBarIcon>)
    requires TokensUnique(icons)
    ensures forall k, t | 0 <= k < |icons| && t in icons[k].blacklistNames :: AssociateByToken(icons)[t] == icons[k]
  {
    if |icons| > 0 {
      var prefix := icons[..|icons| - 1];
      assert forall k | 0 <= k < |prefix| :: prefix[k] == icons[k];
      AssociateByTokenFinds(prefix);
    }
  }

  /** Each catalog icon is found by its id and by each of its tokens. */
  lemma LookupsFindEveryIcon()
    ensures forall k | 0 <= k < |ALL_ICONS| :: GetIconById(ALL_ICONS[k].id) == Some(ALL_ICONS[k])
    ensures forall k, t | 0 <= k < |ALL_ICONS| && t in ALL_ICONS[k].blacklistNames ::
      GetIconByBlacklistName(t) == Some(ALL_ICONS[k])
  {
    IdsDistinct();
    TokensDisjoint();
    AssociateByIdFinds(ALL_ICONS);
    AssociateByTokenFinds(ALL_ICONS);
  }

  /** With nothing set explicitly, exactly the tokens of the three icons hidden by default are compiled. */
  lemma DefaultHiddenTokens()
    ensures HiddenTokens(map[]) == {"headset", "earphone", "alarm", "alarm_clock", "rotate"}
  {
    var hidden := HiddenTokens(map[]);
    var expected: set<string> := {"headset", "earphone", "alarm", "alarm_clock", "rotate"};
    forall t | t in hidden ensures t in expected {
      var k :| 0 <= k < |ALL_ICONS| && !IsVisible(map[], ALL_ICONS[k]) && t in ALL_ICONS[k].blacklistNames;
      CatalogFacts(k);
    }
    assert ALL_ICONS[14] == HEADSET && "headset" in HEADSET.blacklistNames && "earphone" in HEADSET.blacklistNames;
    assert ALL_ICONS[19] == ALARM && "alarm" in ALARM.blacklistNames && "alarm_clock" in ALARM.blacklistNames;
    assert ALL_ICONS[23] == ROTATE && "rotate" in ROTATE.blacklistNames;
  }

  /** Entries of the visibility map whose keys are not catalog ids have no effect. */
  lemma ForeignKeysIgnored(v: map<string, bool>, w: map<string, bool>)
    requires forall id | id in IconIds() :: (id in v <==> id in w) && (id in v ==> v[id] == w[id])
    ensures HiddenTokens(v) == HiddenTokens(w)
  {
    assert forall k | 0 <= k < |ALL_ICONS| :: IsVisible(v, ALL_ICONS[k]) == IsVisible(w, ALL_ICONS[k]);
  }

  /** Hiding one more icon adds exactly its tokens. */
  lemma HideOneMore(v: map<string, bool>, k: int)
    requires 0 <= k < |ALL_ICONS|
    ensures HiddenTokens(v[ALL_ICONS[k].id := false]) == HiddenTokens(v) + NameSet(ALL_ICONS[k])
  {
    IdsDistinct();
    var w := v[ALL_ICONS[k].id := false];
    assert forall j | 0 <= j < |ALL_ICONS| && j != k :: IsVisible(w, ALL_ICONS[j]) == IsVisible(v, ALL_ICONS[j]);
    assert !IsVisible(w, ALL_ICONS[k]);
  }

  /** Showing an icon removes exactly its tokens, since no other icon lists them. */
  lemma ShowOneMore(v: map<string, bool>, k: int)
    requires 0 <= k < |ALL_ICONS|
    ensures HiddenTokens(v[ALL_ICONS[k].id := true]) == HiddenTokens(v) - NameSet(ALL_ICONS[k])
  {
    IdsDistinct();
    TokensDisjoint();
    var w := v[ALL_ICONS[k].id := true];
    assert forall j | 0 <= j < |ALL_ICONS| && j != k :: IsVisible(w, ALL_ICONS[j]) == IsVisible(v, ALL_ICONS[j]);
    assert IsVisible(w, ALL_ICONS[k]);
  }

  /** Hiding an icon never un-hides a token. */
  lemma HidingIsMonotone(v: map<string, bool>, id: string)
    ensures HiddenTokens(v) <= HiddenTokens(v[id := false])
  {
    var w := v[id := false];
    assert forall k | 0 <= k < |ALL_ICONS| :: !IsVisible(v, ALL_ICONS[k]) ==> !IsVisible(w, ALL_ICONS[k]);
  }

  /** An unset setting, and an empty one, leave every icon visible. */
  lemma EmptySettingShowsAll()
    ensures forall k | 0 <= k < |ALL_ICONS| :: !Listed(ALL_ICONS[k], BlacklistSet(None))
    ensures forall k | 0 <= k < |ALL_ICONS| :: !Listed(ALL_ICONS[k], BlacklistSet(Some("")))
  {
    Text.SplitEmpty(',');
    TokensWellFormed();
    assert BlacklistSet(Some("")) == {""};
  }

  /** With disjoint, non-empty token lists, an icon has a token among the hidden ones iff it is hidden. */
  lemma ListedIffHidden(icons: seq<StatusBarIcon>, v: map<string, bool>, k: int)
    requires TokensUnique(icons)
    requires 0 <= k < |icons| && |icons[k].blacklistNames| > 0
    ensures Listed(icons[k], HiddenTokensIn(icons, v)) <==> !IsVisible(v, icons[k])
  {
    var hidden := HiddenTokensIn(icons, v);
    if !IsVisible(v, icons[k]) {
      assert icons[k].blacklistNames[0] in hidden;
    }
    if Listed(icons[k], hidden) {
      var j :| 0 <= j < |icons[k].blacklistNames| && icons[k].blacklistNames[j] in hidden;
      var t := icons[k].blacklistNames[j];
      var i :| 0 <= i < |icons| && !IsVisible(v, icons[i]) && t in icons[i].blacklistNames;
      assert i == k;
    }
  }

  /**
   * The compile→decode round trip: writing the hidden tokens, in any order, as a comma-joined string
   * and decoding it gives every catalog icon its effective visibility back.
   */
  lemma RoundTrip(v: map<string, bool>, order: seq<string>, k: int)
    requires forall t :: t in order <==> t in HiddenTokens(v)
    requires 0 <= k < |ALL_ICONS|
    ensures !Listed(ALL_ICONS[k], BlacklistSet(Some(Text.Join(order, ',')))) == IsVisible(v, ALL_ICONS[k])
  {
    TokensWellFormed();
    TokensDisjoint();
    ListedIffHidden(ALL_ICONS, v, k);
    if |order| == 0 {
      Text.SplitEmpty(',');
      assert BlacklistSet(Some(Text.Join(order, ','))) == {""};
      assert HiddenTokens(v) == {};
    } else {
      assert forall j | 0 <= j < |order| :: order[j] in HiddenTokens(v);
      Text.SplitJoin(order, ',');
      assert BlacklistSet(Some(Text.Join(order, ','))) == HiddenTokens(v);
    }
  }
}
