/**
 * The notification listener: it keeps the global "Google Maps is navigating" flag in
 * step with Maps' notifications, and starts the edge-lighting overlay for every posted
 * notification when that feature is on and its permissions are in place.
 */
module NotificationListening {
  import opened Wrappers
  import Text

  const MAPS_PACKAGE := "com.google.android.apps.maps"
  /** `Notification.FLAG_ONGOING_EVENT`. */
  const FLAG_ONGOING_EVENT: bv32 := 0x2
  const NAVIGATION := "navigation"
  const EDGE_LIGHTING_ENABLED_PREF := "edge_lighting_enabled"
  const ACCESSIBILITY_SERVICE_CLASS := "com.sameerasw.essentials.services.ScreenOffAccessibilityService"
  /** `Build.VERSION_CODES.M` and `Build.VERSION_CODES.O`. */
  const SDK_M := 23
  const SDK_O := 26

  /** The part of a notification the listener reads; `flags` is a 32-bit Java `int`. */
  datatype Notification = Notification(flags: bv32, category: Option<string>)

  datatype StatusBarNotification = StatusBarNotification(packageName: string, notification: Notification)

  /** `isPersistentNotification`: the ongoing-event bit is set. */
  predicate IsPersistent(n: Notification) {
    n.flags & FLAG_ONGOING_EVENT != 0
  }

  /**
   * The ongoing-event flag is bit 1 of `flags`: the test holds exactly when setting
   * that bit changes nothing, and other flags (such as `FLAG_NO_CLEAR`, 0x20) do not
   * affect it.
   */
  lemma PersistentIsBitOne(n: Notification)
    ensures IsPersistent(n) <==> (n.flags >> 1) & 1 == 1
    ensures IsPersistent(n) <==> n.flags | FLAG_ONGOING_EVENT == n.flags
    ensures IsPersistent(n) <==> IsPersistent(n.(flags := n.flags ^ 0x20))
  {
  }

  /**
   * `hasNavigationCategory`: the category matches `(?i).*navigation.*`, that is, it
   * contains "navigation" ignoring ASCII case; no category never matches.
   */
  predicate HasNavigationCategory(n: Notification) {
    n.category.Some? && Text.Contains(Text.Lowercase(n.category.value), NAVIGATION)
  }

  /** `isNavigationNotification`: ongoing, with a navigation category. */
  predicate IsNavigation(n: Notification) {
    IsPersistent(n) && HasNavigationCategory(n)
  }

  /** The category test ignores case: upper-casing the category does not change it. */
  lemma CategoryIgnoresCase(n: Notification)
    requires n.category.Some?
    ensures HasNavigationCategory(n) <==> HasNavigationCategory(n.(category := Some(Text.Uppercase(n.category.value))))
  {
    var c := n.category.value;
    var u := Text.Uppercase(c);
    assert Text.Lowercase(u) == Text.Lowercase(c) by {
      forall k | 0 <= k < |c|
        ensures Text.LowerChar(Text.UpperChar(c[k])) == Text.LowerChar(c[k])
      {
      }
    }
  }

  /** An ongoing "Navigation" notification is a navigation notification; a non-ongoing one never is. */
  lemma NavigationExamples(flags: bv32)
    ensures IsNavigation(Notification(FLAG_ONGOING_EVENT, Some("Navigation")))
    ensures flags & FLAG_ONGOING_EVENT == 0 ==> !IsNavigation(Notification(flags, Some("navigation")))
    ensures !IsNavigation(Notification(flags, None))
  {
    var lowered := Text.Lowercase("Navigation");
    assert lowered == "navigation";
    assert Text.OccursAt(lowered, NAVIGATION, 0);
  }

  /** How a read of `Settings.Secure.ENABLED_ACCESSIBILITY_SERVICES` went. */
  datatype SecureRead = ReadThrew | ReadValue(value: Option<string>)

  /** The device state the edge-lighting gate consults. */
  datatype Environment = Environment(
    edgeLightingEnabled: bool,
    sdkInt: int,
    overlayPermission: bool,
    enabledServices: SecureRead,
    packageName: string)

  /** How the edge-lighting service is started. */
  datatype StartKind = ForegroundService | PlainService

  /** `canDrawOverlays`: the overlay permission from Android M on, always before. */
  predicate CanDrawOverlays(env: Environment) {
    env.sdkInt >= SDK_M ==> env.overlayPermission
  }

  /** The component name of this app's accessibility service. */
  function AccessibilityServiceName(packageName: string): string {
    packageName + "/" + ACCESSIBILITY_SERVICE_CLASS
  }

  /** `isAccessibilityServiceEnabled`: a null setting or a failed read counts as disabled. */
  predicate AccessibilityServiceEnabled(env: Environment) {
    match env.enabledServices
    case ReadThrew => false
    case ReadValue(None) => false
    case ReadValue(Some(services)) => Text.Contains(services, AccessibilityServiceName(env.packageName))
  }

  /** `hasAllRequiredPermissions`. */
  predicate HasAllRequiredPermissions(env: Environment) {
    CanDrawOverlays(env) && AccessibilityServiceEnabled(env)
  }

  /** What the edge-lighting block of `onNotificationPosted` starts, if anything. */
  function EdgeLightingStart(env: Environment): (start: Option<StartKind>)
    ensures start.Some? <==> env.edgeLightingEnabled && HasAllRequiredPermissions(env)
    ensures start.Some? ==> (start.value == ForegroundService <==> env.sdkInt >= SDK_O)
  {
    if env.edgeLightingEnabled && HasAllRequiredPermissions(env) then
      Some(if env.sdkInt >= SDK_O then ForegroundService else PlainService)
    else None
  }

  /** The edge lighting never starts without the accessibility service, whatever else holds. */
  lemma NoEdgeLightingWithoutAccessibility(env: Environment)
    requires env.enabledServices.ReadThrew? || env.enabledServices == ReadValue(None)
    ensures EdgeLightingStart(env) == None
  {
  }

  /** `MapsState`: the process-wide navigation flag. */
  class MapsState {
    var hasNavigationNotification: bool

    constructor ()
      ensures !hasNavigationNotification
    {
      hasNavigationNotification := false;
    }
  }

  class NotificationListener {
    const maps: MapsState

    constructor (maps: MapsState)
      ensures this.maps == maps
    {
      this.maps := maps;
    }

    /**
     * `onNotificationPosted`: maybe starts edge lighting, then, for a Maps notification,
     * records whether it is a navigation notification.
     */
    method OnNotificationPosted(sbn: StatusBarNotification, env: Environment) returns (start: Option<StartKind>)
      modifies maps`hasNavigationNotification
      ensures start == EdgeLightingStart(env)
      ensures maps.hasNavigationNotification ==
        if sbn.packageName == MAPS_PACKAGE then IsNavigation(sbn.notification) else old(maps.hasNavigationNotification)
    {
      start := None;
      if env.edgeLightingEnabled && HasAllRequiredPermissions(env) {
        start := Some(if env.sdkInt >= SDK_O then ForegroundService else PlainService);
      }
      if sbn.packageName == MAPS_PACKAGE {
        maps.hasNavigationNotification := IsNavigation(sbn.notification);
      }
    }

    /** `onNotificationRemoved`: any Maps notification going away clears the flag. */
    method OnNotificationRemoved(sbn: StatusBarNotification)
      modifies maps`hasNavigationNotification
      ensures maps.hasNavigationNotification ==
        if sbn.packageName == MAPS_PACKAGE then false else old(maps.hasNavigationNotification)
    {
      if sbn.packageName == MAPS_PACKAGE {
        maps.hasNavigationNotification := false;
      }
    }
  }

  /**
   * Whatever other apps post or remove, the flag follows Maps alone: after a Maps
   * navigation notification is posted and another app's notification is removed, the
   * flag is still set; removing the Maps notification clears it.
   */
  method MapsFlagScenario(other: StatusBarNotification, nav: Notification, env: Environment)
    returns (afterOther: bool, afterRemoval: bool)
    requires other.packageName != MAPS_PACKAGE && IsNavigation(nav)
    ensures afterOther && !afterRemoval
  {
    var maps := new MapsState();
    var listener := new NotificationListener(maps);
    var mapsNotification := StatusBarNotification(MAPS_PACKAGE, nav);
    var _ := listener.OnNotificationPosted(mapsNotification, env);
    listener.OnNotificationRemoved(other);
    afterOther := maps.hasNavigationNotification;
    listener.OnNotificationRemoved(mapsNotification);
    afterRemoval := maps.hasNavigationNotification;
  }
}
