/**
 * Removing the notification types a user may not see
 * (`filter_out_visible_notifications`), the registry of role-restricted types
 * built from the notification-type catalog
 * (`get_notification_types_with_visibility_settings`), and the wiring that
 * filters a stored preference bundle in place (`remove_preferences_with_no_access`).
 */
module Visibility {
  import opened Wrappers
  import opened Preferences

  /** One entry of the notification-type catalog: its "name" and its "visible_to" role list. */
  datatype CatalogEntry = CatalogEntry(name: string, visibleTo: Option<seq<string>>)

  /** Notification type name to the roles allowed to see it. */
  type Registry = map<string, seq<string>>

  /** A truthy "visible_to": present and non-empty. */
  predicate HasVisibility(entry: CatalogEntry)
  {
    entry.visibleTo.Some? && entry.visibleTo.value != []
  }

  /** The registry after visiting the catalog in order: a later entry of the same name wins. */
  function RegistryOf(catalog: seq<CatalogEntry>): (registry: Registry)
  {
    if catalog == [] then map[]
    else
      var last := catalog[|catalog| - 1];
      var earlier := RegistryOf(catalog[..|catalog| - 1]);
      if HasVisibility(last) then earlier[last.name := last.visibleTo.value] else earlier
  }

  /** `get_notification_types_with_visibility_settings`, with the catalog's values as a parameter. */
  method GetNotificationTypesWithVisibilitySettings(catalog: seq<CatalogEntry>) returns (registry: Registry)
    ensures registry == RegistryOf(catalog)
  {
    registry := map[];
    for i := 0 to |catalog|
      invariant registry == RegistryOf(catalog[..i])
    {
      var notificationType := catalog[i];
      assert catalog[..i + 1][..i] == catalog[..i];
      if HasVisibility(notificationType) {
        registry := registry[notificationType.name := notificationType.visibleTo.value];
      }
    }
    assert catalog[..|catalog|] == catalog;
  }

  /** A name is in the registry exactly when some catalog entry of that name has a non-empty "visible_to". */
  lemma {:induction false} RegistryOfKeys(catalog: seq<CatalogEntry>, name: string)
    ensures name in RegistryOf(catalog) <==>
            exists i :: 0 <= i < |catalog| && catalog[i].name == name && HasVisibility(catalog[i])
    decreases |catalog|
  {
    if catalog != [] {
      var n := |catalog| - 1;
      var earlier := catalog[..n];
      RegistryOfKeys(earlier, name);
      if exists i :: 0 <= i < n && earlier[i].name == name && HasVisibility(earlier[i]) {
        var i :| 0 <= i < n && earlier[i].name == name && HasVisibility(earlier[i]);
        assert catalog[i] == earlier[i];
      }
      if exists i :: 0 <= i < |catalog| && catalog[i].name == name && HasVisibility(catalog[i]) {
        var i :| 0 <= i < |catalog| && catalog[i].name == name && HasVisibility(catalog[i]);
        if i < n {
          assert earlier[i] == catalog[i];
        }
      }
    }
  }

  /** A name in the registry maps to the roles of the last catalog entry of that name with a non-empty "visible_to". */
  lemma {:induction false} RegistryOfValue(catalog: seq<CatalogEntry>, name: string)
    requires name in RegistryOf(catalog)
    ensures exists i :: && 0 <= i < |catalog| && catalog[i].name == name && HasVisibility(catalog[i])
                        && RegistryOf(catalog)[name] == catalog[i].visibleTo.value
                        && forall j :: i < j < |catalog| && catalog[j].name == name ==> !HasVisibility(catalog[j])
    decreases |catalog|
  {
    var n := |catalog| - 1;
    var earlier := catalog[..n];
    if catalog[n].name == name && HasVisibility(catalog[n]) {
      assert RegistryOf(catalog)[name] == catalog[n].visibleTo.value;
    } else {
      RegistryOfValue(earlier, name);
      var i :| && 0 <= i < n && earlier[i].name == name && HasVisibility(earlier[i])
               && RegistryOf(earlier)[name] == earlier[i].visibleTo.value
               && forall j :: i < j < n && earlier[j].name == name ==> !HasVisibility(earlier[j]);
      assert catalog[i] == earlier[i];
      forall j | i < j < |catalog| && catalog[j].name == name
        ensures !HasVisibility(catalog[j])
      {
        if j < n {
          assert earlier[j] == catalog[j];
        }
      }
    }
  }

  /** The registry never lists a type with an empty role list. */
  lemma {:induction false} RegistryRolesNonEmpty(catalog: seq<CatalogEntry>)
    ensures forall name :: name in RegistryOf(catalog) ==> RegistryOf(catalog)[name] != []
    decreases |catalog|
  {
    if catalog != [] {
      RegistryRolesNonEmpty(catalog[..|catalog| - 1]);
    }
  }

  /** Some listed role is one of the user's forum roles or course roles. */
  predicate VisibleTo(visibleTo: seq<string>, forumRoles: seq<string>, courseRoles: seq<string>)
  {
    exists role :: role in visibleTo && (role in forumRoles || role in courseRoles)
  }

  /** The registry restricts the type and the user holds none of its roles (an empty list included). */
  predicate Hidden(notificationType: string, registry: Registry, forumRoles: seq<string>, courseRoles: seq<string>)
  {
    notificationType in registry && !VisibleTo(registry[notificationType], forumRoles, courseRoles)
  }

  /** The types of one category that the user may see. */
  function WithoutHidden(types: map<string, TypeConfig>, registry: Registry,
                         forumRoles: seq<string>, courseRoles: seq<string>): (remaining: map<string, TypeConfig>)
  {
    map t | t in types && !Hidden(t, registry, forumRoles, courseRoles) :: types[t]
  }

  /** One category with its hidden types removed, if it has "notification_types". */
  function FilteredCategory(category: CategoryConfig, registry: Registry,
                            forumRoles: seq<string>, courseRoles: seq<string>): (filtered: CategoryConfig)
  {
    if category.notificationTypes.Some? then
      category.(notificationTypes := Some(WithoutHidden(category.notificationTypes.value, registry, forumRoles, courseRoles)))
    else category
  }

  /** The whole preference configuration filtered. */
  function Filtered(config: NotificationConfig, registry: Registry,
                    forumRoles: seq<string>, courseRoles: seq<string>): (filtered: NotificationConfig)
  {
    map app | app in config :: FilteredCategory(config[app], registry, forumRoles, courseRoles)
  }

  /** The `is_visible` loop: true exactly when some listed role is held. */
  method IsVisible(visibleTo: seq<string>, forumRoles: seq<string>, courseRoles: seq<string>)
    returns (isVisible: bool)
    ensures isVisible <==> VisibleTo(visibleTo, forumRoles, courseRoles)
  {
    isVisible := false;
    var i := 0;
    while i < |visibleTo|
      invariant 0 <= i <= |visibleTo|
      invariant forall k :: 0 <= k < i ==> visibleTo[k] !in forumRoles && visibleTo[k] !in courseRoles
    {
      var role := visibleTo[i];
      if role in forumRoles || role in courseRoles {
        isVisible := true;
        break;
      }
      i := i + 1;
    }
  }

  /** The loop over the registry for one category: every hidden type present is popped. */
  method RemoveHiddenTypes(types: map<string, TypeConfig>, registry: Registry,
                           forumRoles: seq<string>, courseRoles: seq<string>)
    returns (remaining: map<string, TypeConfig>)
    ensures forall t :: t in remaining <==> t in types && !Hidden(t, registry, forumRoles, courseRoles)
    ensures forall t :: t in remaining ==> remaining[t] == types[t]
    ensures remaining == WithoutHidden(types, registry, forumRoles, courseRoles)
  {
    remaining := types;
    var entries := registry.Keys;
    while entries != {}
      invariant entries <= registry.Keys
      invariant forall t :: t in remaining ==> t in types && remaining[t] == types[t]
      invariant forall t :: t in types ==>
        (t in remaining <==> !(t !in entries && Hidden(t, registry, forumRoles, courseRoles)))
      decreases entries
    {
      var notificationType :| notificationType in entries;
      var isVisible := IsVisible(registry[notificationType], forumRoles, courseRoles);
      if !isVisible && notificationType in remaining {
        remaining := remaining - {notificationType};
      }
      entries := entries - {notificationType};
    }
    assert remaining.Keys == WithoutHidden(types, registry, forumRoles, courseRoles).Keys;
  }

  /** A user's preference dictionary, which the filter changes in place. */
  class PreferenceConfig {
    var apps: NotificationConfig

    constructor (apps: NotificationConfig)
      ensures this.apps == apps
    {
      this.apps := apps;
    }
  }

  /**
   * `filter_out_visible_notifications`: every category that has
   * "notification_types" loses its hidden types; the same object is returned.
   */
  method FilterOutVisibleNotifications(userPreferences: PreferenceConfig, registry: Registry,
                                       forumRoles: seq<string>, courseRoles: seq<string>)
    returns (filtered: PreferenceConfig)
    modifies userPreferences
    ensures filtered == userPreferences
    ensures userPreferences.apps == Filtered(old(userPreferences.apps), registry, forumRoles, courseRoles)
  {
    var apps := userPreferences.apps.Keys;
    while apps != {}
      invariant apps <= userPreferences.apps.Keys
      invariant userPreferences.apps.Keys == old(userPreferences.apps).Keys
      invariant forall app :: app in userPreferences.apps ==>
        userPreferences.apps[app] == if app in apps then old(userPreferences.apps)[app]
                                     else FilteredCategory(old(userPreferences.apps)[app], registry, forumRoles, courseRoles)
      decreases apps
    {
      var app :| app in apps;
      var appConfig := userPreferences.apps[app];
      if appConfig.notificationTypes.Some? {
        var types := RemoveHiddenTypes(appConfig.notificationTypes.value, registry, forumRoles, courseRoles);
        userPreferences.apps := userPreferences.apps[app := appConfig.(notificationTypes := Some(types))];
      }
      apps := apps - {app};
    }
    filtered := userPreferences;
  }

  /** A stored preference record: its course and its "notification_preference_config". */
  class PreferenceBundle {
    const courseId: string
    var notificationPreferenceConfig: PreferenceConfig

    constructor (courseId: string, config: PreferenceConfig)
      ensures this.courseId == courseId && notificationPreferenceConfig == config
    {
      this.courseId := courseId;
      notificationPreferenceConfig := config;
    }
  }

  /**
   * `remove_preferences_with_no_access`, with the user's forum roles and
   * course roles for the bundle's course, and the catalog, given as parameters.
   */
  method RemovePreferencesWithNoAccess(preferences: PreferenceBundle, catalog: seq<CatalogEntry>,
                                       forumRoles: seq<string>, courseRoles: seq<string>)
    returns (result: PreferenceBundle)
    modifies preferences, preferences.notificationPreferenceConfig
    ensures result == preferences
    ensures preferences.notificationPreferenceConfig == old(preferences.notificationPreferenceConfig)
    ensures preferences.notificationPreferenceConfig.apps ==
            Filtered(old(preferences.notificationPreferenceConfig.apps), RegistryOf(catalog), forumRoles, courseRoles)
  {
    var userPreferences := preferences.notificationPreferenceConfig;
    var registry := GetNotificationTypesWithVisibilitySettings(catalog);
    var filtered := FilterOutVisibleNotifications(userPreferences, registry, forumRoles, courseRoles);
    preferences.notificationPreferenceConfig := filtered;
    result := preferences;
  }

  // ---------------------------------------------------------------------------
  // Properties of the filter
  // ---------------------------------------------------------------------------

  /**
   * A type disappears from a category exactly when the category has
   * "notification_types", the type is in it and in the registry, and the user
   * holds none of its roles; nothing else changes and nothing is added.
   */
  lemma FilteredRemovesExactlyHidden(config: NotificationConfig, registry: Registry,
                                     forumRoles: seq<string>, courseRoles: seq<string>)
    ensures var result := Filtered(config, registry, forumRoles, courseRoles);
      && result.Keys == config.Keys
      && forall app :: app in config ==>
           && result[app].enabled == config[app].enabled
           && result[app].coreTypes == config[app].coreTypes
           && result[app].notificationTypes.Some? == config[app].notificationTypes.Some?
           && (config[app].notificationTypes.Some? ==>
                 forall t :: && (t in result[app].notificationTypes.value <==>
                                  t in config[app].notificationTypes.value && !Hidden(t, registry, forumRoles, courseRoles))
                             && (t in result[app].notificationTypes.value ==>
                                  result[app].notificationTypes.value[t] == config[app].notificationTypes.value[t]))
  {
  }

  /** An empty registry hides nothing. */
  lemma FilterWithEmptyRegistry(config: NotificationConfig, forumRoles: seq<string>, courseRoles: seq<string>)
    ensures Filtered(config, map[], forumRoles, courseRoles) == config
  {
    forall app | app in config
      ensures FilteredCategory(config[app], map[], forumRoles, courseRoles) == config[app]
    {
      if config[app].notificationTypes.Some? {
        var types := config[app].notificationTypes.value;
        assert WithoutHidden(types, map[], forumRoles, courseRoles) == types;
      }
    }
  }

  /** Filtering twice with the same roles removes nothing more. */
  lemma FilterIdempotent(config: NotificationConfig, registry: Registry,
                         forumRoles: seq<string>, courseRoles: seq<string>)
    ensures var once := Filtered(config, registry, forumRoles, courseRoles);
            Filtered(once, registry, forumRoles, courseRoles) == once
  {
    var once := Filtered(config, registry, forumRoles, courseRoles);
    forall app | app in once
      ensures FilteredCategory(once[app], registry, forumRoles, courseRoles) == once[app]
    {
      if once[app].notificationTypes.Some? {
        var types := once[app].notificationTypes.value;
        assert WithoutHidden(types, registry, forumRoles, courseRoles) == types;
      }
    }
  }

  /** A user with more roles keeps every type a user with fewer roles keeps. */
  lemma FilterMonotoneInRoles(config: NotificationConfig, registry: Registry,
                              forumRoles: seq<string>, courseRoles: seq<string>,
                              moreForumRoles: seq<string>, moreCourseRoles: seq<string>,
                              app: string, t: string)
    requires forall role :: role in forumRoles ==> role in moreForumRoles
    requires forall role :: role in courseRoles ==> role in moreCourseRoles
    requires app in config && config[app].notificationTypes.Some?
    requires t in Filtered(config, registry, forumRoles, courseRoles)[app].notificationTypes.value
    ensures t in Filtered(config, registry, moreForumRoles, moreCourseRoles)[app].notificationTypes.value
  {
    if t in registry && VisibleTo(registry[t], forumRoles, courseRoles) {
      var role :| role in registry[t] && (role in forumRoles || role in courseRoles);
      assert role in moreForumRoles || role in moreCourseRoles;
    }
  }

  /**
   * With a registry built from the catalog every role list is non-empty, so a
   * type is hidden exactly when the catalog restricts it and the user holds
   * none of the roles of its last restricting entry.
   */
  lemma CatalogHiddenTypes(catalog: seq<CatalogEntry>, t: string, forumRoles: seq<string>, courseRoles: seq<string>)
    ensures Hidden(t, RegistryOf(catalog), forumRoles, courseRoles) ==>
              RegistryOf(catalog)[t] != [] && !VisibleTo(RegistryOf(catalog)[t], forumRoles, courseRoles)
    ensures Hidden(t, RegistryOf(catalog), forumRoles, courseRoles) ==>
              exists i :: 0 <= i < |catalog| && catalog[i].name == t && HasVisibility(catalog[i])
  {
    RegistryRolesNonEmpty(catalog);
    RegistryOfKeys(catalog, t);
  }
}
