# Notification preference engine: Dafny model

This project models the preference-processing helpers of the Open edX
notifications app (`openedx/core/djangoapps/notifications/utils.py`) and proves
what they compute:

- **Aggregation** (`aggregate_notification_configs`): a default per-category
  configuration is merged with any number of per-course configurations. The
  flags `enabled`, `web`, `push` and `email` are OR-ed ("most permissive
  wins"), `core_notification_types` is united, categories and types that the
  default does not know are dropped, and every type keeps the default's
  `email_cadence`.
- **Visibility filtering** (`filter_out_visible_notifications`,
  `get_notification_types_with_visibility_settings`,
  `remove_preferences_with_no_access`): notification types restricted to roles
  the user does not hold are removed in place from the user's preferences.
- **Helpers**: chunking a list (`get_list_in_batches`), first-match lookups of
  normalized apps and preferences, and reducing command arguments to query
  arguments (`clean_arguments`).

Files and modules:

- `wrappers.dfy` (`Wrappers`): `Option`, used for every dictionary key that may be missing.
- `preferences.dfy` (`Preferences`): the configuration shape: `Channel`
  (`web`/`push`/`email`), `TypeConfig`, `CategoryConfig` and `NotificationConfig`.
  Default and override configurations have the same shape, as the Python
  dictionaries do.
- `aggregation.dfy` (`Aggregation`): the merge. The functions `MergeType`,
  `MergeTypes`, `MergeCategory`, the left fold `MergeAll` and `Aggregate`
  specify it. The methods follow the source's nested loops and are proved equal
  to those functions. The lemmas describe the result without using the fold.
- `visibility.dfy` (`Visibility`): the registry built from the catalog, the
  filter, and the two classes whose fields are changed in place.
- `batching.dfy`, `lookup.dfy`, `arguments.dfy`: the helpers.

Design decisions:

- Some keys are read unconditionally by the source, and a dictionary without
  them raises `KeyError`. These are the `requires` of the aggregation,
  collected in `MergeableAll`. When an override lists a category, the default's
  category must have `enabled`. When the override lists at least one type, the
  default's category must also have `notification_types`. For every type that
  both list, each channel the override carries must exist in the default type,
  and the default type must have an `email_cadence`.
- Python dictionaries iterate in insertion order. The model visits categories,
  types and registry entries in an arbitrary order instead. The results are
  specified by functions that do not depend on that order.
- Configurations are values, so the aggregation cannot change the default
  configuration it is given; the source needs its deep copy (utils.py:184) for that.
- `core_notification_types` is a set (the source's `list(set(...))` has no
  defined order).

Where the docstring and the code disagree, and how the code's edge cases are modelled:

- The docstring of `aggregate_notification_configs` says every cadence becomes
  "Daily". The code copies the default's own cadence (utils.py:218-220), and
  that is what the model does (`Aggregation.AggregateKeepsDefaultCadence`).
- `is_visible` starts `False` (utils.py:115) and only a held role sets it, so a
  type whose registry entry has an empty role list is removed. The model does
  the same (`Visibility.Hidden`). A registry built from the catalog never holds
  an empty list (`Visibility.RegistryRolesNonEmpty`), so this case only arises
  for registries that come from elsewhere.
- The aggregation reads `enabled` (utils.py:202), `notification_types`
  (utils.py:211-214), each channel key the override carries (utils.py:217) and
  `email_cadence` (utils.py:220) of the default without checking for them; a
  default lacking one raises `KeyError`. The model states these reads as the
  precondition `Aggregation.MergeableAll`.

## Model

| member | source | states |
|---|---|---|
| `Aggregation.AggregateNotificationConfigs` | openedx/core/djangoapps/notifications/utils.py:164-222 | with no overrides the result is the default itself; otherwise the nested loops over categories, overrides, types and channels produce exactly `Aggregate(default, configs)` |
| `Aggregation.MergeCategoryConfig` | openedx/core/djangoapps/notifications/utils.py:199-220 | one override category folded in: `enabled` OR-ed (missing counts as false), core types united only when the override has the key, types merged only when the override lists some |
| `Aggregation.MergeTypeMaps` | openedx/core/djangoapps/notifications/utils.py:211-220 | the loop over the override's types merges exactly the types the current category has; types unknown to it are ignored |
| `Aggregation.MergeTypeConfig` | openedx/core/djangoapps/notifications/utils.py:215-220 | the loop over `web`/`push`/`email` OR-s each channel the override carries; the cadence becomes the default's |
| `Aggregation.MergeCategory` | openedx/core/djangoapps/notifications/utils.py:199-220 | merging one override keeps whether `enabled` and `notification_types` are present, the type keys, each type's channel keys and its cadence; `core_notification_types` may be added |
| `Aggregation.MergeAll` | openedx/core/djangoapps/notifications/utils.py:194-220 | folding all overrides, in list order, keeps whether `enabled` and `notification_types` are present, the type keys, each type's channel keys and its cadence; `core_notification_types` may be added |
| `Aggregation.MergeAllEnabled` | openedx/core/djangoapps/notifications/utils.py:194-202 | after the fold, `enabled` is the start value OR-ed with every override that sets it true; it is untouched if no override lists the category |
| `Aggregation.MergeAllChannel` | openedx/core/djangoapps/notifications/utils.py:194-217 | after the fold, a channel of a known type is the start value OR-ed with every override that sets it true |
| `Aggregation.MergeAllCore` | openedx/core/djangoapps/notifications/utils.py:194-208 | after the fold, the core types are the start set (empty if absent) united with every supplied set; untouched if none is supplied |
| `Aggregation.AggregateKeepsTaxonomy` | openedx/core/djangoapps/notifications/utils.py:186-214 | the aggregate has exactly the default's categories, in each exactly the default's types, and in each type exactly the default's channel keys; override-only categories, types and channels never appear |
| `Aggregation.AggregateKeepsDefaultCadence` | openedx/core/djangoapps/notifications/utils.py:218-220 | every type's `email_cadence` equals the default's, whatever cadence the overrides carry |
| `Aggregation.AggregateEnabled` | openedx/core/djangoapps/notifications/utils.py:202 | a category's `enabled` is the default's OR-ed with every override listing the category |
| `Aggregation.AggregateChannel` | openedx/core/djangoapps/notifications/utils.py:215-217 | each `web`/`push`/`email` of a default type is the default's value OR-ed with every override that sets it for that category and type |
| `Aggregation.AggregateCore` | openedx/core/djangoapps/notifications/utils.py:205-208 | `core_notification_types` is the default's set united with every override's set; the default's value stays as it is if no override has the key |
| `Aggregation.MergeAllDependsOnElementsOnly` | openedx/core/djangoapps/notifications/utils.py:194-220 | two override lists with the same members give the same merged category |
| `Aggregation.AggregateOrderIndependent` | openedx/core/djangoapps/notifications/utils.py:194-220 | the aggregate depends only on which overrides are listed, not on their order or repetition |
| `Aggregation.MergeCategoryWithItself` | openedx/core/djangoapps/notifications/utils.py:199-220 | merging a category with itself gives the category back |
| `Aggregation.AggregateIdempotent` | openedx/core/djangoapps/notifications/utils.py:164-222 | aggregating the default with itself as the only override gives the default back |
| `Aggregation.DiscussionExample` | openedx/core/djangoapps/notifications/utils.py:199-220 | a disabled, all-off daily default merged with an override that raises `enabled` and `web` and asks for weekly: `enabled` and `web` become true, `push` and `email` stay false, the cadence stays "Daily" |
| `Visibility.GetNotificationTypesWithVisibilitySettings` | openedx/core/djangoapps/notifications/utils.py:87-92 | the loop over the catalog builds exactly `RegistryOf(catalog)` |
| `Visibility.RegistryOfKeys` | openedx/core/djangoapps/notifications/utils.py:88-90 | a name is in the registry iff some catalog entry with that name has a non-empty `visible_to` |
| `Visibility.RegistryOfValue` | openedx/core/djangoapps/notifications/utils.py:88-90 | a name in the registry maps to the roles of the last such entry |
| `Visibility.RegistryRolesNonEmpty` | openedx/core/djangoapps/notifications/utils.py:89-90 | no role list in the registry is empty |
| `Visibility.CatalogHiddenTypes` | openedx/core/djangoapps/notifications/utils.py:87-123 | with the catalog's registry, a hidden type has a non-empty role list that the user misses entirely, and comes from a catalog entry |
| `Visibility.IsVisible` | openedx/core/djangoapps/notifications/utils.py:115-119 | the flag loop answers true iff some listed role is among the forum roles or the course roles |
| `Visibility.RemoveHiddenTypes` | openedx/core/djangoapps/notifications/utils.py:114-123 | a type is popped iff it is in a registry entry and the user holds none of its roles, an empty list included; kept entries are unchanged and nothing is added |
| `Visibility.FilterOutVisibleNotifications` | openedx/core/djangoapps/notifications/utils.py:111-124 | every category that has `notification_types` loses exactly its hidden types, the other categories are untouched, and the same object is returned |
| `Visibility.RemovePreferencesWithNoAccess` | openedx/core/djangoapps/notifications/utils.py:135-148 | the bundle's preference object is filtered with the catalog's registry and the given roles, and stored back as the same object |
| `Visibility.FilteredRemovesExactlyHidden` | openedx/core/djangoapps/notifications/utils.py:111-124 | the categories and their other fields are unchanged; a type is removed iff the category has `notification_types`, the type is in the registry, and none of its roles is held |
| `Visibility.FilterWithEmptyRegistry` | openedx/core/djangoapps/notifications/utils.py:114-123 | an empty registry hides nothing |
| `Visibility.FilterIdempotent` | openedx/core/djangoapps/notifications/utils.py:111-124 | filtering a second time with the same roles changes nothing |
| `Visibility.FilterMonotoneInRoles` | openedx/core/djangoapps/notifications/utils.py:115-119 | a user with more forum or course roles keeps every type that a user with fewer roles keeps |
| `Batching.GetListInBatches` | openedx/core/djangoapps/notifications/utils.py:58-64 | for a positive size: concatenating the chunks gives the input back; there are ceil(n / size) chunks; all but the last have exactly `size` elements and the last has 1 to `size`; an empty input gives no chunks. A negative size gives no chunks |
| `Lookup.FindAppInNormalizedApps` | openedx/core/djangoapps/notifications/utils.py:13-20 | returns the first record in list order whose `name` equals the argument, and None iff no record matches |
| `Lookup.FindPrefInNormalizedPrefs` | openedx/core/djangoapps/notifications/utils.py:23-30 | returns the first record whose `name` and `app_name` both match, and None iff no record matches |
| `Arguments.CleanArguments` | openedx/core/djangoapps/notifications/utils.py:151-161 | the result's keys are allow-listed keys or keys of a truthy `created`; `created`'s entries are merged last and win; an allow-listed key is kept iff its value is truthy; every other key is dropped |

## Left out

- `get_show_notifications_tray` (utils.py:33-48) is not modelled. It queries course enrollments and reads a feature flag.
- `get_is_new_notification_view_enabled` (utils.py:51-55) is not modelled. It only reads a feature flag.
- `get_user_forum_roles` (utils.py:67-75) is not modelled: it is a database query. The forum roles become a parameter of `Visibility.RemovePreferencesWithNoAccess`.
- The database query for course access roles in `remove_preferences_with_no_access` is not modelled either. Those roles are also a parameter.
- The `@request_cached()` decorator is not modelled.
- The contents of `COURSE_NOTIFICATION_TYPES` are not modelled: that catalog lives in `base_notification.py`, which is not part of this model. The catalog's values are a parameter. A truthy `visible_to` is modelled as present and non-empty; non-list values are not represented.
- `urls.py` is not modelled. It only routes URLs to views.
- `get_list_in_batches` is a generator. The model returns the whole list of chunks, so laziness is not captured.
- The model uses value semantics, so aliasing is not captured. With no overrides the source returns the default object itself, so a caller that mutates the result also changes the default. With overrides it returns a deep copy. The model returns an equal value on both paths.
- The filter's nested dictionaries are values inside the `PreferenceConfig` object, not separate objects. Only the outer object's identity is modelled.
- Category and type dictionaries may hold keys the core never reads or writes. The merge copies them unchanged from the default. These keys are not represented.
- The source has error paths that the model turns into preconditions instead of modelled errors:
  - a misshapen default configuration, which raises `KeyError`;
  - a batch size of 0, which makes `range` raise;
  - a truthy `created` that is not a dictionary, which `dict.update` rejects or treats as a list of pairs.
- Values are assumed to be what the code expects: booleans for the channel flags and for `enabled`, strings for the cadence. Python's `|=` on other types is not modelled.
- `Lookup.FindAppInNormalizedApps`: a key that is missing reads as None, but a key that holds a None-like value does not. Python's `dict.get` treats both the same.
- `Lookup.FindPrefInNormalizedPrefs`: the same difference between a missing key and a None-like value applies.
