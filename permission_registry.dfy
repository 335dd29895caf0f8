/**
 * The permission → feature registry: for each permission key, the features that depend
 * on it, each listed once, in the order they were first registered.
 */
module Permissions {

  const ACCESSIBILITY := "ACCESSIBILITY"
  const SCREEN_OFF_WIDGET := "Screen off widget"

  /** No element occurs twice. */
  predicate NoDuplicates(s: seq<string>) {
    forall i, j :: 0 <= i < j < |s| ==> s[i] != s[j]
  }

  /** The list after `if (!list.contains(feature)) list.add(feature)`. */
  function Registered(list: seq<string>, feature: string): (r: seq<string>)
    ensures feature in r
    ensures |list| <= |r| <= |list| + 1 && r[..|list|] == list
    ensures forall x :: x in r <==> x in list || x == feature
    ensures NoDuplicates(list) ==> NoDuplicates(r)
  {
    if feature in list then list else list + [feature]
  }

  /** Registering the same feature again changes nothing. */
  lemma RegisterIdempotent(list: seq<string>, feature: string)
    ensures Registered(Registered(list, feature), feature) == Registered(list, feature)
  {
    assert feature in Registered(list, feature);
  }

  /** Registering keeps the earlier features in their positions: first-registration order. */
  lemma {:induction false} RegisterKeepsOrder(list: seq<string>, features: seq<string>, i: nat)
    requires i < |list|
    ensures |RegisteredAll(list, features)| > i && RegisteredAll(list, features)[i] == list[i]
  {
    if features != [] {
      var before := RegisteredAll(list, features[..|features| - 1]);
      RegisterKeepsOrder(list, features[..|features| - 1], i);
      assert Registered(before, features[|features| - 1])[..|before|] == before;
    }
  }

  /** The list after registering each of `features` in turn. */
  function RegisteredAll(list: seq<string>, features: seq<string>): seq<string> {
    if features == [] then list
    else Registered(RegisteredAll(list, features[..|features| - 1]), features[|features| - 1])
  }

  /** The list stored under `key`, or the empty list when there is none. */
  function FeaturesOf(registry: map<string, seq<string>>, key: string): seq<string> {
    if key in registry then registry[key] else []
  }

  /**
   * The registry object. Its per-key `MutableList`s are modelled as the values of a map
   * field that `Register` reassigns.
   */
  class PermissionRegistry {
    var registry: map<string, seq<string>>

    /** No key lists a feature twice. */
    ghost predicate Valid()
      reads this
    {
      forall k :: k in registry ==> NoDuplicates(registry[k])
    }

    constructor ()
      ensures Valid() && registry == map[]
    {
      registry := map[];
    }

    /**
     * `register`: fetches or creates the key's list and appends the feature unless it
     * is already there. Only that key's list changes.
     */
    method Register(permissionKey: string, featureName: string)
      requires Valid()
      modifies this
      ensures Valid()
      ensures registry == old(registry)[permissionKey := Registered(FeaturesOf(old(registry), permissionKey), featureName)]
    {
      var list := if permissionKey in registry then registry[permissionKey] else [];
      if featureName !in list {
        list := list + [featureName];
      }
      registry := registry[permissionKey := list];
    }

    /** `getFeatures`: a copy of the key's list, or the empty list for an unknown key. */
    method GetFeatures(permissionKey: string) returns (features: seq<string>)
      requires Valid()
      ensures permissionKey !in registry ==> features == []
      ensures permissionKey in registry ==> features == registry[permissionKey]
      ensures NoDuplicates(features)
    {
      if permissionKey in registry {
        features := registry[permissionKey];
      } else {
        features := [];
      }
    }
  }

  /** `initPermissionRegistry`: the screen-off widget depends on the accessibility service. */
  method InitPermissionRegistry(r: PermissionRegistry)
    requires r.Valid()
    modifies r
    ensures r.Valid()
    ensures r.registry == old(r.registry)[ACCESSIBILITY := Registered(FeaturesOf(old(r.registry), ACCESSIBILITY), SCREEN_OFF_WIDGET)]
  {
    r.Register(ACCESSIBILITY, SCREEN_OFF_WIDGET);
  }

  /**
   * On a fresh registry, initialisation lists exactly the screen-off widget under the
   * accessibility key; a later lookup returns a copy, which later registrations leave
   * as it was.
   */
  method FreshRegistryScenario() returns (first: seq<string>, later: seq<string>)
    ensures first == ["Screen off widget"]
    ensures later == ["Screen off widget", "Caffeinate"]
  {
    var r := new PermissionRegistry();
    InitPermissionRegistry(r);
    first := r.GetFeatures(ACCESSIBILITY);
    r.Register(ACCESSIBILITY, "Caffeinate");
    r.Register(ACCESSIBILITY, SCREEN_OFF_WIDGET);
    later := r.GetFeatures(ACCESSIBILITY);
  }
}
