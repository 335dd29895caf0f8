/**
 * The status-bar view model. It writes the `icon_blacklist` secure setting from two manual flags
 * (mobile data, WiFi) and from two automation policies (Smart WiFi, Smart Data), each policy driven
 * by a periodic loop. The secure settings and the shared preferences are objects the view model
 * holds; every loop is reduced to one tick that receives the sampled value.
 */
module ViewModel {
  import opened Wrappers
  import Text

  // ---------------------------------------------------------------------------
  // Network types and the classifier
  // ---------------------------------------------------------------------------

  datatype NetworkType = NETWORK_5G | NETWORK_4G | NETWORK_3G | NETWORK_OTHER {
    /** The enum constant's `name`. */
    function Name(): string {
      match this
      case NETWORK_5G => "NETWORK_5G"
      case NETWORK_4G => "NETWORK_4G"
      case NETWORK_3G => "NETWORK_3G"
      case NETWORK_OTHER => "NETWORK_OTHER"
    }
  }

  /** `NetworkType.valueOf(name)`; `None` where Kotlin throws `IllegalArgumentException`. */
  function ValueOf(name: string): (r: Option<NetworkType>)
    ensures r.Some? ==> r.value.Name() == name
    ensures forall t: NetworkType :: t.Name() == name ==> r == Some(t)
  {
    match name
    case "NETWORK_5G" => Some(NETWORK_5G)
    case "NETWORK_4G" => Some(NETWORK_4G)
    case "NETWORK_3G" => Some(NETWORK_3G)
    case "NETWORK_OTHER" => Some(NETWORK_OTHER)
    case _ => None
  }

  // `TelephonyManager.NETWORK_TYPE_*` codes the classifier distinguishes.
  const NETWORK_TYPE_UMTS := 3
  const NETWORK_TYPE_HSDPA := 8
  const NETWORK_TYPE_HSUPA := 9
  const NETWORK_TYPE_HSPA := 10
  const NETWORK_TYPE_LTE := 13
  const NETWORK_TYPE_HSPAP := 15
  const NETWORK_TYPE_TD_SCDMA := 17
  const NETWORK_TYPE_NR := 20

  /** What the connectivity service reports about the active network; `ProbeFailed` stands for an exception. */
  datatype Connectivity =
    | ProbeFailed
    | Reported(hasActiveNetwork: bool, hasCapabilities: bool, hasWifiTransport: bool)

  /** `isWifiConnected`: an active network with capabilities and the WiFi transport. */
  function IsWifiConnected(c: Connectivity): bool {
    match c
    case ProbeFailed => false
    case Reported(active, caps, wifi) => active && caps && wifi
  }

  /** The active network is known and is not WiFi, so the telephony code is consulted. */
  predicate OnCellular(phoneStateGranted: bool, c: Connectivity) {
    phoneStateGranted && c.Reported? && c.hasActiveNetwork && c.hasCapabilities && !c.hasWifiTransport
  }

  /**
   * `getCurrentNetworkType`: without the phone-state permission, without an active network or its
   * capabilities, on WiFi, or when a probe throws, the answer is `NETWORK_OTHER`; otherwise the
   * telephony code is classified.
   */
  function GetCurrentNetworkType(phoneStateGranted: bool, c: Connectivity, telephonyCode: int): (t: NetworkType)
    ensures !OnCellular(phoneStateGranted, c) ==> t == NETWORK_OTHER
    ensures OnCellular(phoneStateGranted, c) ==>
      && (t == NETWORK_5G <==> telephonyCode == NETWORK_TYPE_NR)
      && (t == NETWORK_4G <==> telephonyCode in {NETWORK_TYPE_LTE, NETWORK_TYPE_HSPAP})
      && (t == NETWORK_3G <==> (telephonyCode in
           {NETWORK_TYPE_HSDPA, NETWORK_TYPE_HSUPA, NETWORK_TYPE_HSPA, NETWORK_TYPE_UMTS, NETWORK_TYPE_TD_SCDMA}))
  {
    if !phoneStateGranted then NETWORK_OTHER
    else match c
      case ProbeFailed => NETWORK_OTHER
      case Reported(active, caps, wifi) =>
        if !active || !caps then NETWORK_OTHER
        else if wifi then NETWORK_OTHER
        else if telephonyCode == NETWORK_TYPE_NR then NETWORK_5G
        else if telephonyCode == NETWORK_TYPE_LTE || telephonyCode == NETWORK_TYPE_HSPAP then NETWORK_4G
        else if telephonyCode == NETWORK_TYPE_HSDPA || telephonyCode == NETWORK_TYPE_HSUPA
          || telephonyCode == NETWORK_TYPE_HSPA || telephonyCode == NETWORK_TYPE_UMTS
          || telephonyCode == NETWORK_TYPE_TD_SCDMA then NETWORK_3G
        else NETWORK_OTHER
  }

  /** Whenever the WiFi probe says connected, the network-type probe answers `NETWORK_OTHER`. */
  lemma WifiClassifiedAsOther(phoneStateGranted: bool, c: Connectivity, telephonyCode: int)
    requires IsWifiConnected(c)
    ensures GetCurrentNetworkType(phoneStateGranted, c, telephonyCode) == NETWORK_OTHER
  {
    assert !OnCellular(phoneStateGranted, c);
  }

  // ---------------------------------------------------------------------------
  // The blacklist values
  // ---------------------------------------------------------------------------

  const ICON_BLACKLIST_SETTING := "icon_blacklist"
  const PREF_SMART_WIFI_ENABLED := "smart_wifi_enabled"
  const PREF_SMART_DATA_ENABLED := "smart_data_enabled"
  const PREF_SELECTED_NETWORK_TYPES := "selected_network_types"
  const PREF_MOBILE_VISIBLE := "icon_mobile_visible"
  const PREF_WIFI_VISIBLE := "icon_wifi_visible"

  /** The tokens of `BASE_BLACKLIST`, in order; "vpn" occurs twice. */
  const BASE_TOKENS: seq<string> :=
    ["rotate", "vowifi", "ims", "nfc", "vpn", "volte", "alarm_clock", "headset", "hotspot", "bluetooth", "ims_volte", "vpn"]

  /** `BASE_BLACKLIST`, "rotate,vowifi,ims,nfc,vpn,volte,alarm_clock,headset,hotspot,bluetooth,ims_volte,vpn". */
  const BASE_BLACKLIST: string := Text.Join(BASE_TOKENS, ',')

  /** The base tokens hold no comma and neither "mobile" nor "wifi"; neither of those holds a comma. */
  lemma BaseTokensFacts()
    ensures forall k :: 0 <= k < |BASE_TOKENS| ==> ',' !in BASE_TOKENS[k]
    ensures "mobile" !in BASE_TOKENS && "wifi" !in BASE_TOKENS
    ensures ',' !in "mobile" && ',' !in "wifi"
    ensures BASE_TOKENS[4] == "vpn" && BASE_TOKENS[11] == "vpn"
  {
  }

  /** `BASE_BLACKLIST.split(",")` gives the base tokens back. */
  lemma BaseBlacklistSplits()
    ensures Text.Split(BASE_BLACKLIST, ',') == BASE_TOKENS
  {
    BaseTokensFacts();
    Text.SplitJoin(BASE_TOKENS, ',');
  }

  /**
   * The list `updateIconBlacklist` writes: the base tokens in order, then "mobile" if mobile data is
   * hidden by hand, then "wifi" if WiFi is.
   */
  function ManualBlacklist(mobileVisible: bool, wifiVisible: bool): (items: seq<string>)
    ensures |items| >= |BASE_TOKENS| && items[..|BASE_TOKENS|] == BASE_TOKENS
    ensures "mobile" in items <==> !mobileVisible
    ensures "wifi" in items <==> !wifiVisible
  {
    BaseTokensFacts();
    BASE_TOKENS + (if mobileVisible then [] else ["mobile"]) + (if wifiVisible then [] else ["wifi"])
  }

  /**
   * The list one Smart WiFi tick writes: the base tokens, then "wifi" if WiFi is hidden by hand, then
   * "mobile" when WiFi is connected or mobile data is hidden by hand.
   */
  function SmartWiFiBlacklist(wifiVisible: bool, mobileVisible: bool, wifiConnected: bool): (items: seq<string>)
    ensures |items| >= |BASE_TOKENS| && items[..|BASE_TOKENS|] == BASE_TOKENS
    ensures "wifi" in items <==> !wifiVisible
    ensures wifiConnected ==> "mobile" in items
    ensures !wifiConnected ==> ("mobile" in items <==> !mobileVisible)
  {
    BaseTokensFacts();
    BASE_TOKENS + (if wifiVisible then [] else ["wifi"]) + (if wifiConnected || !mobileVisible then ["mobile"] else [])
  }

  /** While WiFi is disconnected, a Smart WiFi tick writes the manual tokens, "wifi" and "mobile" swapped in order. */
  lemma SmartWiFiDisconnectedIsManual(wifiVisible: bool, mobileVisible: bool)
    ensures multiset(SmartWiFiBlacklist(wifiVisible, mobileVisible, false)) == multiset(ManualBlacklist(mobileVisible, wifiVisible))
    ensures !wifiVisible && !mobileVisible ==>
      SmartWiFiBlacklist(wifiVisible, mobileVisible, false) != ManualBlacklist(mobileVisible, wifiVisible)
  {
    var w: seq<string> := if wifiVisible then [] else ["wifi"];
    var m: seq<string> := if mobileVisible then [] else ["mobile"];
    assert SmartWiFiBlacklist(wifiVisible, mobileVisible, false) == BASE_TOKENS + w + m;
    assert ManualBlacklist(mobileVisible, wifiVisible) == BASE_TOKENS + m + w;
    SwappedTails(BASE_TOKENS, w, m);
  }

  lemma SwappedTails(base: seq<string>, w: seq<string>, m: seq<string>)
    ensures multiset(base + w + m) == multiset(base + m + w)
    ensures w == ["wifi"] && m == ["mobile"] ==> (base + w + m)[|base|] != (base + m + w)[|base|]
  {
  }

  /** The Smart Data hiding rule, `shouldHideMobileData`. */
  predicate ShouldHideMobileData(selected: set<NetworkType>, networkType: NetworkType) {
    networkType in selected
    || (NETWORK_OTHER in selected && networkType !in {NETWORK_5G, NETWORK_4G, NETWORK_3G})
  }

  /** The `NETWORK_OTHER` clause adds nothing: the four types are all there are, so the rule is membership. */
  lemma ShouldHideIsMembership(selected: set<NetworkType>, networkType: NetworkType)
    ensures ShouldHideMobileData(selected, networkType) <==> networkType in selected
  {
    if networkType !in {NETWORK_5G, NETWORK_4G, NETWORK_3G} {
      assert networkType == NETWORK_OTHER;
    }
  }

  /** The list one Smart Data tick writes: the base tokens, then "wifi" if WiFi is hidden, then "mobile" if the rule hides it. */
  function SmartDataBlacklist(wifiVisible: bool, selected: set<NetworkType>, networkType: NetworkType): (items: seq<string>)
    ensures |items| >= |BASE_TOKENS| && items[..|BASE_TOKENS|] == BASE_TOKENS
    ensures "wifi" in items <==> !wifiVisible
    ensures "mobile" in items <==>
      (networkType in selected || (NETWORK_OTHER in selected && networkType !in {NETWORK_5G, NETWORK_4G, NETWORK_3G}))
  {
    BaseTokensFacts();
    BASE_TOKENS + (if wifiVisible then [] else ["wifi"])
      + (if ShouldHideMobileData(selected, networkType) then ["mobile"] else [])
  }

  /** Every written list splits back into itself, since no token holds a comma. */
  lemma WrittenListsSplitBack(items: seq<string>)
    requires |items| >= |BASE_TOKENS| && items[..|BASE_TOKENS|] == BASE_TOKENS
    requires forall k | |BASE_TOKENS| <= k < |items| :: items[k] == "mobile" || items[k] == "wifi"
    ensures Text.Split(Text.Join(items, ','), ',') == items
  {
    BaseTokensFacts();
    CommaFreeExtension(BASE_TOKENS, items);
    Text.SplitJoin(items, ',');
  }

  /** A comma-free list extended by "mobile" and "wifi" tokens stays comma-free. */
  lemma CommaFreeExtension(base: seq<string>, items: seq<string>)
    requires forall k :: 0 <= k < |base| ==> ',' !in base[k]
    requires |items| >= |base| && items[..|base|] == base
    requires forall k | |base| <= k < |items| :: items[k] == "mobile" || items[k] == "wifi"
    ensures forall k :: 0 <= k < |items| ==> ',' !in items[k]
  {
    assert ',' !in "mobile" && ',' !in "wifi";
    forall k | 0 <= k < |items| ensures ',' !in items[k] {
      if k < |base| {
        assert items[k] == base[k];
      }
    }
  }

  /**
   * One add-or-remove step on the list being built: `if (hidden && !list.contains(token))
   * list.add(token) else if (!hidden) list.remove(token)`, on a list that does not hold
   * the token yet.
   */
  method ApplyToken(items: seq<string>, token: string, hidden: bool) returns (r: seq<string>)
    requires token !in items
    ensures r == items + (if hidden then [token] else [])
  {
    r := items;
    if hidden && token !in r {
      r := r + [token];
    } else if !hidden {
      r := Text.RemoveFirst(r, token);
    }
  }

  /** The list-building part of `updateIconBlacklist`. */
  method CompileManual(mobileVisible: bool, wifiVisible: bool) returns (blacklistItems: seq<string>)
    ensures blacklistItems == ManualBlacklist(mobileVisible, wifiVisible)
  {
    BaseBlacklistSplits();
    BaseTokensFacts();
    blacklistItems := Text.Split(BASE_BLACKLIST, ',');
    blacklistItems := ApplyToken(blacklistItems, "mobile", !mobileVisible);
    blacklistItems := ApplyToken(blacklistItems, "wifi", !wifiVisible);
  }

  /** The list-building part of `updateSmartWiFiBlacklist`. */
  method CompileSmartWiFi(wifiVisible: bool, mobileVisible: bool, wifiConnected: bool) returns (blacklistItems: seq<string>)
    ensures blacklistItems == SmartWiFiBlacklist(wifiVisible, mobileVisible, wifiConnected)
  {
    BaseBlacklistSplits();
    BaseTokensFacts();
    blacklistItems := Text.Split(BASE_BLACKLIST, ',');
    blacklistItems := ApplyToken(blacklistItems, "wifi", !wifiVisible);
    if wifiConnected {
      blacklistItems := ApplyToken(blacklistItems, "mobile", true);
    } else {
      blacklistItems := ApplyToken(blacklistItems, "mobile", !mobileVisible);
    }
  }

  /** The list-building part of `updateSmartDataBlacklist`, once mobile data is known to be visible. */
  method CompileSmartData(wifiVisible: bool, selected: set<NetworkType>, networkType: NetworkType)
    returns (blacklistItems: seq<string>)
    ensures blacklistItems == SmartDataBlacklist(wifiVisible, selected, networkType)
  {
    BaseBlacklistSplits();
    BaseTokensFacts();
    blacklistItems := Text.Split(BASE_BLACKLIST, ',');
    blacklistItems := ApplyToken(blacklistItems, "wifi", !wifiVisible);
    var shouldHideMobileData := ShouldHideMobileData(selected, networkType);
    blacklistItems := ApplyToken(blacklistItems, "mobile", shouldHideMobileData);
  }

  /** The literal suffix the permission probe appends, read as two more tokens. */
  lemma ProbeSuffix()
    ensures ",mobile,wifi" == [','] + "mobile" + [','] + "wifi"
  {
    var suffix := [','] + "mobile" + [','] + "wifi";
    assert suffix[..7] == ",mobile";
  }

  /** The value the permission probe writes into an unset setting is the manual list with both icons hidden. */
  lemma ProbeFallbackIsAllHidden()
    ensures BASE_BLACKLIST + ",mobile,wifi" == Text.Join(ManualBlacklist(false, false), ',')
  {
    assert ManualBlacklist(false, false) == BASE_TOKENS + ["mobile"] + ["wifi"];
    Text.JoinTwoMore(BASE_TOKENS, "mobile", "wifi", ',');
    ProbeSuffix();
  }

  /** The stored type names after `updateSelectedNetworkTypes(enabled)`: 4G and 5G added or removed. */
  function UpdatedTypeNames(stored: set<string>, enabled: bool): (names: set<string>)
    ensures "NETWORK_5G" in names <==> enabled
    ensures "NETWORK_4G" in names <==> enabled
    ensures forall n | n !in {"NETWORK_5G", "NETWORK_4G"} :: n in names <==> n in stored
  {
    if enabled then stored + {"NETWORK_5G", "NETWORK_4G"} else stored - {"NETWORK_5G", "NETWORK_4G"}
  }

  /** `names.map { NetworkType.valueOf(it) }.toSet()`; `None` when some name is not a type's name. */
  function ParseTypeNames(names: set<string>): (r: Option<set<NetworkType>>)
    ensures r.Some? <==> forall n | n in names :: ValueOf(n).Some?
    ensures r.Some? ==> forall t: NetworkType :: t in r.value <==> t.Name() in names
  {
    if forall n | n in names :: ValueOf(n).Some? then
      Some(set n | n in names && ValueOf(n).Some? :: ValueOf(n).value)
    else None
  }

  /** After the update, 4G and 5G are selected iff enabled; 3G and OTHER keep their stored membership. */
  lemma SelectedTypesAfterUpdate(stored: set<string>, enabled: bool)
    requires ParseTypeNames(UpdatedTypeNames(stored, enabled)).Some?
    ensures var selected := ParseTypeNames(UpdatedTypeNames(stored, enabled)).value;
      && (NETWORK_5G in selected <==> enabled)
      && (NETWORK_4G in selected <==> enabled)
      && (NETWORK_3G in selected <==> "NETWORK_3G" in stored)
      && (NETWORK_OTHER in selected <==> "NETWORK_OTHER" in stored)
  {
    var names := UpdatedTypeNames(stored, enabled);
    assert NETWORK_5G.Name() == "NETWORK_5G" && NETWORK_4G.Name() == "NETWORK_4G";
    assert NETWORK_3G.Name() == "NETWORK_3G" && "NETWORK_3G" !in {"NETWORK_5G", "NETWORK_4G"};
    assert NETWORK_OTHER.Name() == "NETWORK_OTHER" && "NETWORK_OTHER" !in {"NETWORK_5G", "NETWORK_4G"};
  }

  // ---------------------------------------------------------------------------
  // Loop bookkeeping
  // ---------------------------------------------------------------------------

  /**
   * `jobs[i]` says whether the i-th loop launched for a policy still runs; `handle` is the job
   * field. Only the job the field refers to may still run.
   */
  predicate JobsValid(jobs: seq<bool>, handle: Option<nat>) {
    && (handle.Some? ==> handle.value < |jobs|)
    && forall i | 0 <= i < |jobs| && jobs[i] :: handle == Some(i)
  }

  /** The positions of the loops that still run. */
  function LiveJobs(jobs: seq<bool>): set<nat> {
    set i: nat | i < |jobs| && jobs[i]
  }

  /** At most one loop runs per policy. */
  lemma AtMostOneLoop(jobs: seq<bool>, handle: Option<nat>)
    requires JobsValid(jobs, handle)
    ensures |LiveJobs(jobs)| <= 1
  {
    var live := LiveJobs(jobs);
    if handle.Some? && handle.value in live {
      assert live == {handle.value};
    } else {
      assert live == {};
    }
  }

  /** `job?.cancel()`. */
  function Cancelled(jobs: seq<bool>, handle: Option<nat>): (r: seq<bool>)
    requires JobsValid(jobs, handle)
    ensures |r| == |jobs| && LiveJobs(r) == {}
    ensures forall i | 0 <= i < |r| :: !r[i]
  {
    if handle.Some? then jobs[handle.value := false] else jobs
  }

  /** Launching one more loop while none runs leaves exactly that loop running. */
  lemma LaunchedIsOnlyLive(jobs: seq<bool>)
    requires forall i | 0 <= i < |jobs| :: !jobs[i]
    ensures LiveJobs(jobs + [true]) == {|jobs|}
  {
    assert forall i | 0 <= i < |jobs| :: (jobs + [true])[i] == jobs[i];
  }

  // ---------------------------------------------------------------------------
  // The stores
  // ---------------------------------------------------------------------------

  /** The `icon_blacklist` secure setting, and whether the app holds the permission to write it. */
  class SecureSettings {
    var iconBlacklist: Option<string>
    var writeGranted: bool

    constructor (iconBlacklist: Option<string>, writeGranted: bool)
      ensures this.iconBlacklist == iconBlacklist && this.writeGranted == writeGranted
    {
      this.iconBlacklist := iconBlacklist;
      this.writeGranted := writeGranted;
    }

    /** `Settings.Secure.putString` inside `try`: without the permission it throws and nothing changes. */
    method PutString(value: string) returns (ok: bool)
      modifies this`iconBlacklist
      ensures ok == writeGranted
      ensures iconBlacklist == if writeGranted then Some(value) else old(iconBlacklist)
    {
      if writeGranted {
        iconBlacklist := Some(value);
      }
      ok := writeGranted;
    }
  }

  /** The `essentials_prefs` shared preferences: booleans and string sets by key. */
  class Preferences {
    var booleans: map<string, bool>
    var stringSets: map<string, set<string>>

    constructor (booleans: map<string, bool>, stringSets: map<string, set<string>>)
      ensures this.booleans == booleans && this.stringSets == stringSets
    {
      this.booleans := booleans;
      this.stringSets := stringSets;
    }

    function GetBoolean(key: string, default: bool): bool
      reads this
    {
      if key in booleans then booleans[key] else default
    }

    function GetStringSet(key: string, default: set<string>): set<string>
      reads this
    {
      if key in stringSets then stringSets[key] else default
    }

    method PutBoolean(key: string, value: bool)
      modifies this`booleans
      ensures booleans == old(booleans)[key := value]
    {
      booleans := booleans[key := value];
    }

    method PutStringSet(key: string, value: set<string>)
      modifies this`stringSets
      ensures stringSets == old(stringSets)[key := value]
    {
      stringSets := stringSets[key := value];
    }
  }

  /** The default selection: 4G and 5G. */
  const DEFAULT_TYPE_NAMES: set<string> := {"NETWORK_4G", "NETWORK_5G"}

  // ---------------------------------------------------------------------------
  // The view model
  // ---------------------------------------------------------------------------

  class StatusBarIconViewModel {
    var isWriteSecureSettingsEnabled: bool
    var isMobileDataVisible: bool
    var isWiFiVisible: bool
    var isSmartWiFiEnabled: bool
    var isSmartDataEnabled: bool
    var selectedNetworkTypes: set<NetworkType>
    /** Liveness of every Smart WiFi loop launched so far, and the `smartWifiJob` field. */
    var smartWifiJobs: seq<bool>
    var smartWifiJob: Option<nat>
    /** Liveness of every Smart Data loop launched so far, and the `smartDataJob` field. */
    var smartDataJobs: seq<bool>
    var smartDataJob: Option<nat>
    const settings: SecureSettings
    const prefs: Preferences

    predicate Valid()
      reads this
    {
      JobsValid(smartWifiJobs, smartWifiJob) && JobsValid(smartDataJobs, smartDataJob)
    }

    constructor (settings: SecureSettings, prefs: Preferences)
      ensures Valid()
      ensures this.settings == settings && this.prefs == prefs
      ensures !isWriteSecureSettingsEnabled && isMobileDataVisible && !isWiFiVisible
      ensures !isSmartWiFiEnabled && !isSmartDataEnabled
      ensures selectedNetworkTypes == {NETWORK_4G, NETWORK_5G}
      ensures smartWifiJobs == [] && smartWifiJob == None && smartDataJobs == [] && smartDataJob == None
    {
      isWriteSecureSettingsEnabled := false;
      isMobileDataVisible := true;
      isWiFiVisible := false;
      isSmartWiFiEnabled := false;
      isSmartDataEnabled := false;
      selectedNetworkTypes := {NETWORK_4G, NETWORK_5G};
      smartWifiJobs := [];
      smartWifiJob := None;
      smartDataJobs := [];
      smartDataJob := None;
      this.settings := settings;
      this.prefs := prefs;
    }

    /** The setting is written only when the view model believes it may write and the permission is held. */
    predicate WriteHappens()
      reads this, settings
    {
      isWriteSecureSettingsEnabled && settings.writeGranted
    }

    /** `updateIconBlacklist`: recompiles the setting from the manual flags. */
    method UpdateIconBlacklist()
      modifies settings`iconBlacklist
      ensures settings.iconBlacklist ==
        if WriteHappens() then Some(Text.Join(ManualBlacklist(isMobileDataVisible, isWiFiVisible), ','))
        else old(settings.iconBlacklist)
    {
      if !isWriteSecureSettingsEnabled {
        return;
      }
      var blacklistItems := CompileManual(isMobileDataVisible, isWiFiVisible);
      var newBlacklist := Text.Join(blacklistItems, ',');
      var _ := settings.PutString(newBlacklist);
    }

    /** `updateSmartWiFiBlacklist`: one tick of the Smart WiFi loop, given the sampled WiFi state. */
    method UpdateSmartWiFiBlacklist(wifiConnected: bool)
      modifies settings`iconBlacklist
      ensures settings.iconBlacklist ==
        if isSmartWiFiEnabled && WriteHappens()
        then Some(Text.Join(SmartWiFiBlacklist(isWiFiVisible, isMobileDataVisible, wifiConnected), ','))
        else old(settings.iconBlacklist)
    {
      if !isSmartWiFiEnabled || !isWriteSecureSettingsEnabled {
        return;
      }
      var blacklistItems := CompileSmartWiFi(isWiFiVisible, isMobileDataVisible, wifiConnected);
      var newBlacklist := Text.Join(blacklistItems, ',');
      var _ := settings.PutString(newBlacklist);
    }

    /** `updateSmartDataBlacklist`: one tick of the Smart Data loop, given the sampled network type. */
    method UpdateSmartDataBlacklist(networkType: NetworkType)
      modifies settings`iconBlacklist
      ensures settings.iconBlacklist ==
        if isSmartDataEnabled && isMobileDataVisible && WriteHappens()
        then Some(Text.Join(SmartDataBlacklist(isWiFiVisible, selectedNetworkTypes, networkType), ','))
        else old(settings.iconBlacklist)
    {
      if !isSmartDataEnabled || !isWriteSecureSettingsEnabled || !isMobileDataVisible {
        return;
      }
      var blacklistItems := CompileSmartData(isWiFiVisible, selectedNetworkTypes, networkType);
      var newBlacklist := Text.Join(blacklistItems, ',');
      var _ := settings.PutString(newBlacklist);
    }
  
    /** `smartWifiJob?.cancel()`. */
    method CancelSmartWiFiJob()
      requires JobsValid(smartWifiJobs, smartWifiJob)
      modifies this`smartWifiJobs
      ensures smartWifiJobs == Cancelled(old(smartWifiJobs), smartWifiJob)
      ensures JobsValid(smartWifiJobs, smartWifiJob) && LiveJobs(smartWifiJobs) == {}
    {
      if smartWifiJob.Some? {
        smartWifiJobs := smartWifiJobs[smartWifiJob.value := false];
      }
    }

    /** `smartDataJob?.cancel()`. */
    method CancelSmartDataJob()
      requires JobsValid(smartDataJobs, smartDataJob)
      modifies this`smartDataJobs
      ensures smartDataJobs == Cancelled(old(smartDataJobs), smartDataJob)
      ensures JobsValid(smartDataJobs, smartDataJob) && LiveJobs(smartDataJobs) == {}
    {
      if smartDataJob.Some? {
        smartDataJobs := smartDataJobs[smartDataJob.value := false];
      }
    }

    /** `startSmartWiFiUpdates`: cancels the current loop, then launches a new one and keeps its handle. */
    method StartSmartWiFiUpdates()
      requires JobsValid(smartWifiJobs, smartWifiJob)
      modifies this`smartWifiJobs, this`smartWifiJob
      ensures smartWifiJobs == Cancelled(old(smartWifiJobs), old(smartWifiJob)) + [true]
      ensures smartWifiJob == Some(|old(smartWifiJobs)|)
      ensures JobsValid(smartWifiJobs, smartWifiJob)
      ensures LiveJobs(smartWifiJobs) == {|old(smartWifiJobs)|}
    {
      CancelSmartWiFiJob();
      LaunchedIsOnlyLive(smartWifiJobs);
      smartWifiJobs := smartWifiJobs + [true];
      smartWifiJob := Some(|smartWifiJobs| - 1);
    }

    /** `startSmartDataUpdates`: cancels the current loop, then launches a new one and keeps its handle. */
    method StartSmartDataUpdates()
      requires JobsValid(smartDataJobs, smartDataJob)
      modifies this`smartDataJobs, this`smartDataJob
      ensures smartDataJobs == Cancelled(old(smartDataJobs), old(smartDataJob)) + [true]
      ensures smartDataJob == Some(|old(smartDataJobs)|)
      ensures JobsValid(smartDataJobs, smartDataJob)
      ensures LiveJobs(smartDataJobs) == {|old(smartDataJobs)|}
    {
      CancelSmartDataJob();
      LaunchedIsOnlyLive(smartDataJobs);
      smartDataJobs := smartDataJobs + [true];
      smartDataJob := Some(|smartDataJobs| - 1);
    }

    /** `setMobileDataVisible`: stores the flag and recompiles the setting by hand. */
    method SetMobileDataVisible(visible: bool)
      modifies this`isMobileDataVisible, prefs`booleans, settings`iconBlacklist
      ensures isMobileDataVisible == visible
      ensures prefs.booleans == old(prefs.booleans)[PREF_MOBILE_VISIBLE := visible]
      ensures settings.iconBlacklist ==
        if WriteHappens() then Some(Text.Join(ManualBlacklist(visible, isWiFiVisible), ','))
        else old(settings.iconBlacklist)
    {
      isMobileDataVisible := visible;
      prefs.PutBoolean(PREF_MOBILE_VISIBLE, visible);
      UpdateIconBlacklist();
    }

    /** `setWiFiVisible`: stores the flag and recompiles the setting by hand. */
    method SetWiFiVisible(visible: bool)
      modifies this`isWiFiVisible, prefs`booleans, settings`iconBlacklist
      ensures isWiFiVisible == visible
      ensures prefs.booleans == old(prefs.booleans)[PREF_WIFI_VISIBLE := visible]
      ensures settings.iconBlacklist ==
        if WriteHappens() then Some(Text.Join(ManualBlacklist(isMobileDataVisible, visible), ','))
        else old(settings.iconBlacklist)
    {
      isWiFiVisible := visible;
      prefs.PutBoolean(PREF_WIFI_VISIBLE, visible);
      UpdateIconBlacklist();
    }

    /**
     * `setSmartWiFiEnabled`: stores the flag; with the privilege, enabling (re)starts the loop;
     * otherwise the loop is cancelled and the setting recompiled by hand.
     */
    method SetSmartWiFiEnabled(enabled: bool)
      requires Valid()
      modifies this`isSmartWiFiEnabled, this`smartWifiJobs, this`smartWifiJob, prefs`booleans, settings`iconBlacklist
      ensures Valid()
      ensures isSmartWiFiEnabled == enabled
      ensures prefs.booleans == old(prefs.booleans)[PREF_SMART_WIFI_ENABLED := enabled]
      ensures enabled && isWriteSecureSettingsEnabled ==>
        && smartWifiJob == Some(|old(smartWifiJobs)|)
        && LiveJobs(smartWifiJobs) == {|old(smartWifiJobs)|}
        && settings.iconBlacklist == old(settings.iconBlacklist)
      ensures !(enabled && isWriteSecureSettingsEnabled) ==>
        && smartWifiJob == old(smartWifiJob)
        && LiveJobs(smartWifiJobs) == {}
        && settings.iconBlacklist ==
          if WriteHappens() then Some(Text.Join(ManualBlacklist(isMobileDataVisible, isWiFiVisible), ','))
          else old(settings.iconBlacklist)
    {
      isSmartWiFiEnabled := enabled;
      prefs.PutBoolean(PREF_SMART_WIFI_ENABLED, enabled);
      if enabled && isWriteSecureSettingsEnabled {
        StartSmartWiFiUpdates();
      } else {
        CancelSmartWiFiJob();
        UpdateIconBlacklist();
      }
    }

    /**
     * `updateSelectedNetworkTypes`: adds or removes 4G and 5G in the stored names, then parses them into
     * the field and stores them. A stored name that is no type's name makes `valueOf` throw, which
     * leaves both unchanged and is reported as `ok == false`.
     */
    method UpdateSelectedNetworkTypes(enabled: bool) returns (ok: bool)
      modifies this`selectedNetworkTypes, prefs`stringSets
      ensures var names := UpdatedTypeNames(old(prefs.GetStringSet(PREF_SELECTED_NETWORK_TYPES, DEFAULT_TYPE_NAMES)), enabled);
        && (ok <==> ParseTypeNames(names).Some?)
        && (ok ==> selectedNetworkTypes == ParseTypeNames(names).value)
        && (ok ==> prefs.stringSets == old(prefs.stringSets)[PREF_SELECTED_NETWORK_TYPES := names])
      ensures !ok ==> selectedNetworkTypes == old(selectedNetworkTypes) && prefs.stringSets == old(prefs.stringSets)
    {
      var stored := prefs.GetStringSet(PREF_SELECTED_NETWORK_TYPES, DEFAULT_TYPE_NAMES);
      var currentTypes := stored;
      if enabled {
        currentTypes := currentTypes + {NETWORK_5G.Name()};
        currentTypes := currentTypes + {NETWORK_4G.Name()};
      } else {
        currentTypes := currentTypes - {NETWORK_5G.Name()};
        currentTypes := currentTypes - {NETWORK_4G.Name()};
      }
      assert currentTypes == UpdatedTypeNames(stored, enabled);
      var parsed := ParseTypeNames(currentTypes);
      if parsed.None? {
        return false;
      }
      selectedNetworkTypes := parsed.value;
      prefs.PutStringSet(PREF_SELECTED_NETWORK_TYPES, currentTypes);
      ok := true;
    }

    /**
     * `setSmartDataEnabled`: as `setSmartWiFiEnabled` for the Smart Data loop, then
     * `updateSelectedNetworkTypes(enabled)`.
     */
    method SetSmartDataEnabled(enabled: bool) returns (ok: bool)
      requires Valid()
      modifies this`isSmartDataEnabled, this`smartDataJobs, this`smartDataJob, this`selectedNetworkTypes
      modifies prefs, settings`iconBlacklist
      ensures Valid()
      ensures isSmartDataEnabled == enabled
      ensures prefs.booleans == old(prefs.booleans)[PREF_SMART_DATA_ENABLED := enabled]
      ensures enabled && isWriteSecureSettingsEnabled ==>
        && smartDataJob == Some(|old(smartDataJobs)|)
        && LiveJobs(smartDataJobs) == {|old(smartDataJobs)|}
        && settings.iconBlacklist == old(settings.iconBlacklist)
      ensures !(enabled && isWriteSecureSettingsEnabled) ==>
        && smartDataJob == old(smartDataJob)
        && LiveJobs(smartDataJobs) == {}
        && settings.iconBlacklist ==
          if WriteHappens() then Some(Text.Join(ManualBlacklist(isMobileDataVisible, isWiFiVisible), ','))
          else old(settings.iconBlacklist)
      ensures var names := UpdatedTypeNames(old(prefs.GetStringSet(PREF_SELECTED_NETWORK_TYPES, DEFAULT_TYPE_NAMES)), enabled);
        && (ok <==> ParseTypeNames(names).Some?)
        && (ok ==> selectedNetworkTypes == ParseTypeNames(names).value)
        && (ok ==> prefs.stringSets == old(prefs.stringSets)[PREF_SELECTED_NETWORK_TYPES := names])
      ensures !ok ==> selectedNetworkTypes == old(selectedNetworkTypes) && prefs.stringSets == old(prefs.stringSets)
    {
      isSmartDataEnabled := enabled;
      prefs.PutBoolean(PREF_SMART_DATA_ENABLED, enabled);
      if enabled && isWriteSecureSettingsEnabled {
        StartSmartDataUpdates();
      } else {
        CancelSmartDataJob();
        UpdateIconBlacklist();
      }
      ok := UpdateSelectedNetworkTypes(enabled);
    }

    /**
     * `canWriteSecureSettings`: writes the current value back, or the base list with both icons hidden
     * when the setting is unset, and reports whether the write went through.
     */
    method CanWriteSecureSettings() returns (ok: bool)
      modifies settings`iconBlacklist
      ensures ok == settings.writeGranted
      ensures settings.iconBlacklist ==
        if ok then Some(old(settings.iconBlacklist).GetOr(BASE_BLACKLIST + ",mobile,wifi")) else old(settings.iconBlacklist)
      ensures old(settings.iconBlacklist).Some? ==> settings.iconBlacklist == old(settings.iconBlacklist)
    {
      var currentValue := settings.iconBlacklist;
      var newValue := if currentValue.Some? then currentValue.value else BASE_BLACKLIST + ",mobile,wifi";
      ok := settings.PutString(newValue);
    }

    method LoadIconVisibilityState()
      modifies this`isMobileDataVisible, this`isWiFiVisible
      ensures isMobileDataVisible == prefs.GetBoolean(PREF_MOBILE_VISIBLE, true)
      ensures isWiFiVisible == prefs.GetBoolean(PREF_WIFI_VISIBLE, false)
    {
      isMobileDataVisible := prefs.GetBoolean(PREF_MOBILE_VISIBLE, true);
      isWiFiVisible := prefs.GetBoolean(PREF_WIFI_VISIBLE, false);
    }

    method LoadSmartWiFiPref()
      modifies this`isSmartWiFiEnabled
      ensures isSmartWiFiEnabled == prefs.GetBoolean(PREF_SMART_WIFI_ENABLED, false)
    {
      isSmartWiFiEnabled := prefs.GetBoolean(PREF_SMART_WIFI_ENABLED, false);
    }

    method LoadSmartDataPref()
      modifies this`isSmartDataEnabled
      ensures isSmartDataEnabled == prefs.GetBoolean(PREF_SMART_DATA_ENABLED, false)
    {
      isSmartDataEnabled := prefs.GetBoolean(PREF_SMART_DATA_ENABLED, false);
    }

    /** `loadSelectedNetworkTypes`; a stored name that is no type's name throws, reported as `ok == false`. */
    method LoadSelectedNetworkTypes() returns (ok: bool)
      modifies this`selectedNetworkTypes
      ensures var parsed := ParseTypeNames(prefs.GetStringSet(PREF_SELECTED_NETWORK_TYPES, DEFAULT_TYPE_NAMES));
        && (ok <==> parsed.Some?)
        && (ok ==> selectedNetworkTypes == parsed.value)
      ensures !ok ==> selectedNetworkTypes == old(selectedNetworkTypes)
    {
      var parsed := ParseTypeNames(prefs.GetStringSet(PREF_SELECTED_NETWORK_TYPES, DEFAULT_TYPE_NAMES));
      if parsed.None? {
        return false;
      }
      selectedNetworkTypes := parsed.value;
      ok := true;
    }

    /** The first half of `check`: probes the privilege, then reloads the flags and the selection. */
    method Reload() returns (ok: bool)
      modifies this`isWriteSecureSettingsEnabled, this`isMobileDataVisible, this`isWiFiVisible
      modifies this`isSmartWiFiEnabled, this`isSmartDataEnabled, this`selectedNetworkTypes
      modifies settings`iconBlacklist
      ensures isWriteSecureSettingsEnabled == settings.writeGranted
      ensures settings.iconBlacklist ==
        if settings.writeGranted then Some(old(settings.iconBlacklist).GetOr(BASE_BLACKLIST + ",mobile,wifi"))
        else old(settings.iconBlacklist)
      ensures isMobileDataVisible == prefs.GetBoolean(PREF_MOBILE_VISIBLE, true)
      ensures isWiFiVisible == prefs.GetBoolean(PREF_WIFI_VISIBLE, false)
      ensures isSmartWiFiEnabled == prefs.GetBoolean(PREF_SMART_WIFI_ENABLED, false)
      ensures isSmartDataEnabled == prefs.GetBoolean(PREF_SMART_DATA_ENABLED, false)
      ensures var parsed := ParseTypeNames(prefs.GetStringSet(PREF_SELECTED_NETWORK_TYPES, DEFAULT_TYPE_NAMES));
        (ok <==> parsed.Some?) && (ok ==> selectedNetworkTypes == parsed.value)
      ensures !ok ==> selectedNetworkTypes == old(selectedNetworkTypes)
    {
      isWriteSecureSettingsEnabled := CanWriteSecureSettings();
      LoadIconVisibilityState();
      LoadSmartWiFiPref();
      LoadSmartDataPref();
      ok := LoadSelectedNetworkTypes();
    }

    /** The second half of `check`: starts each enabled policy's loop when privileged. */
    method StartEnabledLoops()
      requires Valid()
      modifies this`smartWifiJobs, this`smartWifiJob, this`smartDataJobs, this`smartDataJob
      ensures Valid()
      ensures if isSmartWiFiEnabled && isWriteSecureSettingsEnabled
        then smartWifiJob == Some(|old(smartWifiJobs)|) && LiveJobs(smartWifiJobs) == {|old(smartWifiJobs)|}
        else smartWifiJobs == old(smartWifiJobs) && smartWifiJob == old(smartWifiJob)
      ensures if isSmartDataEnabled && isWriteSecureSettingsEnabled
        then smartDataJob == Some(|old(smartDataJobs)|) && LiveJobs(smartDataJobs) == {|old(smartDataJobs)|}
        else smartDataJobs == old(smartDataJobs) && smartDataJob == old(smartDataJob)
    {
      if isSmartWiFiEnabled && isWriteSecureSettingsEnabled {
        StartSmartWiFiUpdates();
      }
      if isSmartDataEnabled && isWriteSecureSettingsEnabled {
        StartSmartDataUpdates();
      }
    }

    /**
     * `check`: reloads, then starts the enabled loops. `ok == false` stands for the exception a bad
     * stored type name raises, which skips the starts.
     */
    method Check() returns (ok: bool)
      requires Valid()
      modifies this`isWriteSecureSettingsEnabled, this`isMobileDataVisible, this`isWiFiVisible
      modifies this`isSmartWiFiEnabled, this`isSmartDataEnabled, this`selectedNetworkTypes
      modifies this`smartWifiJobs, this`smartWifiJob, this`smartDataJobs, this`smartDataJob
      modifies settings`iconBlacklist
      ensures Valid()
      ensures isWriteSecureSettingsEnabled == settings.writeGranted
      ensures settings.iconBlacklist ==
        if settings.writeGranted then Some(old(settings.iconBlacklist).GetOr(BASE_BLACKLIST + ",mobile,wifi"))
        else old(settings.iconBlacklist)
      ensures isMobileDataVisible == prefs.GetBoolean(PREF_MOBILE_VISIBLE, true)
      ensures isWiFiVisible == prefs.GetBoolean(PREF_WIFI_VISIBLE, false)
      ensures isSmartWiFiEnabled == prefs.GetBoolean(PREF_SMART_WIFI_ENABLED, false)
      ensures isSmartDataEnabled == prefs.GetBoolean(PREF_SMART_DATA_ENABLED, false)
      ensures var parsed := ParseTypeNames(prefs.GetStringSet(PREF_SELECTED_NETWORK_TYPES, DEFAULT_TYPE_NAMES));
        (ok <==> parsed.Some?) && (ok ==> selectedNetworkTypes == parsed.value)
      ensures !ok ==> selectedNetworkTypes == old(selectedNetworkTypes)
      ensures if ok && isSmartWiFiEnabled && isWriteSecureSettingsEnabled
        then smartWifiJob == Some(|old(smartWifiJobs)|) && LiveJobs(smartWifiJobs) == {|old(smartWifiJobs)|}
        else smartWifiJobs == old(smartWifiJobs) && smartWifiJob == old(smartWifiJob)
      ensures if ok && isSmartDataEnabled && isWriteSecureSettingsEnabled
        then smartDataJob == Some(|old(smartDataJobs)|) && LiveJobs(smartDataJobs) == {|old(smartDataJobs)|}
        else smartDataJobs == old(smartDataJobs) && smartDataJob == old(smartDataJob)
    {
      ok := Reload();
      if !ok {
        return;
      }
      StartEnabledLoops();
    }

    /** `onCleared`: cancels both loops. */
    method OnCleared()
      requires Valid()
      modifies this`smartWifiJobs, this`smartDataJobs
      ensures Valid()
      ensures LiveJobs(smartWifiJobs) == {} && LiveJobs(smartDataJobs) == {}
      ensures |smartWifiJobs| == |old(smartWifiJobs)| && |smartDataJobs| == |old(smartDataJobs)|
    {
      CancelSmartWiFiJob();
      CancelSmartDataJob();
    }
  }
}
