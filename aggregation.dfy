/**
 * Folding per-course notification configurations into a default one
 * (`aggregate_notification_configs`). Booleans combine "most permissive wins",
 * core types are unioned, categories and types unknown to the default are
 * dropped, and every type keeps the default's email cadence.
 *
 * The merge is specified by pure functions (MergeType, MergeTypes,
 * MergeCategory, the fold MergeAll and Aggregate); the methods that follow the
 * source's loops are proved equal to them, and the lemmas at the end state
 * what the fold computes without referring to the fold.
 */
module Aggregation {
  import opened Wrappers
  import opened Preferences

  // ---------------------------------------------------------------------------
  // What the merge demands of the default configuration
  // ---------------------------------------------------------------------------

  /** The default type must carry every channel the override raises, and a cadence. */
  predicate TypeMergeable(defaultType: TypeConfig, other: TypeConfig)
  {
    other.channels.Keys <= defaultType.channels.Keys && defaultType.emailCadence.Some?
  }

  /**
   * Merging category `other` into the default category reads "enabled", reads
   * "notification_types" as soon as the override lists a type, and then reads
   * the channel keys and the cadence of every type both of them list.
   */
  predicate Mergeable(defaultCategory: CategoryConfig, other: CategoryConfig)
  {
    && defaultCategory.enabled.Some?
    && (other.notificationTypes.Some? && other.notificationTypes.value != map[] ==>
          defaultCategory.notificationTypes.Some?)
    && (other.notificationTypes.Some? && defaultCategory.notificationTypes.Some? ==>
          forall t :: t in other.notificationTypes.value && t in defaultCategory.notificationTypes.value ==>
            TypeMergeable(defaultCategory.notificationTypes.value[t], other.notificationTypes.value[t]))
  }

  /** Every category of the default that some override mentions can be merged with it. */
  predicate MergeableAll(defaultConfig: NotificationConfig, configs: seq<NotificationConfig>)
  {
    forall c, o :: c in defaultConfig && o in configs && c in o ==> Mergeable(defaultConfig[c], o[c])
  }

  /** The keys the merge writes to, and the cadences, agree between `x` and `y`. */
  predicate SameTypeShapes(x: map<string, TypeConfig>, y: map<string, TypeConfig>)
  {
    && x.Keys == y.Keys
    && forall t :: t in x ==>
         t in y && x[t].channels.Keys == y[t].channels.Keys && x[t].emailCadence == y[t].emailCadence
  }

  predicate SameShape(a: CategoryConfig, b: CategoryConfig)
  {
    && a.enabled.Some? == b.enabled.Some?
    && a.notificationTypes.Some? == b.notificationTypes.Some?
    && (a.notificationTypes.Some? ==> SameTypeShapes(a.notificationTypes.value, b.notificationTypes.value))
  }

  // ---------------------------------------------------------------------------
  // The merge as functions
  // ---------------------------------------------------------------------------

  /** One override type folded into the current type: channels OR-ed, cadence from the default. */
  function MergeType(current: TypeConfig, other: TypeConfig, defaultCadence: Option<string>): (merged: TypeConfig)
    requires other.channels.Keys <= current.channels.Keys
  {
    TypeConfig(
      map ch | ch in current.channels :: current.channels[ch] || (ch in other.channels && other.channels[ch]),
      defaultCadence)
  }

  /** The override's types folded into the current ones; types the current map lacks are ignored. */
  function MergeTypes(current: map<string, TypeConfig>, other: map<string, TypeConfig>,
                      defaults: map<string, TypeConfig>): (merged: map<string, TypeConfig>)
    requires SameTypeShapes(current, defaults)
    requires forall t :: t in other && t in defaults ==> TypeMergeable(defaults[t], other[t])
  {
    map t | t in current ::
      if t in other then
        assert t in defaults && TypeMergeable(defaults[t], other[t]);
        MergeType(current[t], other[t], defaults[t].emailCadence)
      else current[t]
  }

  /** One override category folded into the current category. */
  function MergeCategory(current: CategoryConfig, other: CategoryConfig, defaultCategory: CategoryConfig)
    : (merged: CategoryConfig)
    requires SameShape(current, defaultCategory) && Mergeable(defaultCategory, other)
    ensures SameShape(merged, defaultCategory)
  {
    CategoryConfig(
      Some(current.enabled.value || other.enabled.GetOr(false)),
      if other.coreTypes.Some? then Some(current.coreTypes.GetOr({}) + other.coreTypes.value)
      else current.coreTypes,
      if other.notificationTypes.Some? && other.notificationTypes.value != map[] then
        Some(MergeTypes(current.notificationTypes.value, other.notificationTypes.value,
                        defaultCategory.notificationTypes.value))
      else current.notificationTypes)
  }

  /** Category `category` of every config, in list order, folded into `current`. */
  function MergeAll(current: CategoryConfig, configs: seq<NotificationConfig>, category: string,
                    defaultCategory: CategoryConfig): (merged: CategoryConfig)
    requires SameShape(current, defaultCategory)
    requires forall o :: o in configs && category in o ==> Mergeable(defaultCategory, o[category])
    ensures SameShape(merged, defaultCategory)
    decreases |configs|
  {
    if configs == [] then current
    else
      var next := if category in configs[0] then MergeCategory(current, configs[0][category], defaultCategory)
                  else current;
      MergeAll(next, configs[1..], category, defaultCategory)
  }

  /** The aggregate: the default itself for no overrides, otherwise every default category merged. */
  function Aggregate(defaultConfig: NotificationConfig, configs: seq<NotificationConfig>): (aggregate: NotificationConfig)
    requires MergeableAll(defaultConfig, configs)
  {
    if configs == [] then defaultConfig
    else map c | c in defaultConfig :: MergeAll(defaultConfig[c], configs, c, defaultConfig[c])
  }

  // ---------------------------------------------------------------------------
  // The merge as the source runs it
  // ---------------------------------------------------------------------------

  /** The loop over "web", "push", "email" and the cadence overwrite, for one type. */
  method MergeTypeConfig(typeConfig: TypeConfig, other: TypeConfig, defaultCadence: Option<string>)
    returns (merged: TypeConfig)
    requires other.channels.Keys <= typeConfig.channels.Keys
    ensures merged == MergeType(typeConfig, other, defaultCadence)
  {
    merged := typeConfig;
    for k := 0 to |Channels|
      invariant merged.channels.Keys == typeConfig.channels.Keys
      invariant forall ch :: ch in merged.channels ==>
        merged.channels[ch] == (typeConfig.channels[ch] || (ch in Channels[..k] && ch in other.channels && other.channels[ch]))
    {
      var field := Channels[k];
      if field in other.channels {
        merged := merged.(channels := merged.channels[field := merged.channels[field] || other.channels[field]]);
      }
    }
    merged := merged.(emailCadence := defaultCadence);
    forall ch | ch in merged.channels
      ensures merged.channels[ch] == (typeConfig.channels[ch] || (ch in other.channels && other.channels[ch]))
    {
      AllChannelsListed(ch);
      assert Channels[..|Channels|] == Channels;
    }
  }

  /** The loop over the override's "notification_types". */
  method MergeTypeMaps(types: map<string, TypeConfig>, otherTypes: map<string, TypeConfig>,
                       defaultTypes: map<string, TypeConfig>) returns (merged: map<string, TypeConfig>)
    requires SameTypeShapes(types, defaultTypes)
    requires forall t :: t in otherTypes && t in defaultTypes ==> TypeMergeable(defaultTypes[t], otherTypes[t])
    ensures merged == MergeTypes(types, otherTypes, defaultTypes)
  {
    merged := types;
    var pending := otherTypes.Keys;
    while pending != {}
      invariant pending <= otherTypes.Keys
      invariant merged.Keys == types.Keys
      invariant forall t :: t in merged ==>
        merged[t] == if t in otherTypes && t !in pending
                     then MergeType(types[t], otherTypes[t], defaultTypes[t].emailCadence)
                     else types[t]
      decreases pending
    {
      var typeKey :| typeKey in pending;
      if typeKey in merged {
        var typeConfig := MergeTypeConfig(merged[typeKey], otherTypes[typeKey], defaultTypes[typeKey].emailCadence);
        merged := merged[typeKey := typeConfig];
      }
      pending := pending - {typeKey};
    }
  }

  /** The body of the loop over the overrides, for one override that has the category. */
  method MergeCategoryConfig(categoryConfig: CategoryConfig, other: CategoryConfig, defaultCategory: CategoryConfig)
    returns (merged: CategoryConfig)
    requires SameShape(categoryConfig, defaultCategory) && Mergeable(defaultCategory, other)
    ensures merged == MergeCategory(categoryConfig, other, defaultCategory)
  {
    merged := categoryConfig.(enabled := Some(categoryConfig.enabled.value || other.enabled.GetOr(false)));
    if other.coreTypes.Some? {
      var existingTypes := merged.coreTypes.GetOr({});
      existingTypes := existingTypes + other.coreTypes.value;
      merged := merged.(coreTypes := Some(existingTypes));
    }
    // The current category's "notification_types" is read only once the override lists a type.
    if other.notificationTypes.Some? && other.notificationTypes.value != map[] {
      var types := MergeTypeMaps(merged.notificationTypes.value, other.notificationTypes.value,
                                 defaultCategory.notificationTypes.value);
      merged := merged.(notificationTypes := Some(types));
    }
  }

  /**
   * `aggregate_notification_configs`: with no overrides the default itself;
   * otherwise a copy of the default with every category merged with every
   * override, in list order.
   */
  method AggregateNotificationConfigs(defaultConfig: NotificationConfig, configs: seq<NotificationConfig>)
    returns (result: NotificationConfig)
    requires MergeableAll(defaultConfig, configs)
    ensures configs == [] ==> result == defaultConfig
    ensures result == Aggregate(defaultConfig, configs)
  {
    if configs == [] {
      return defaultConfig;
    }
    result := defaultConfig;
    var categories := defaultConfig.Keys;
    while categories != {}
      invariant categories <= defaultConfig.Keys
      invariant result.Keys == defaultConfig.Keys
      invariant forall c :: c in result ==>
        result[c] == if c in categories then defaultConfig[c]
                     else MergeAll(defaultConfig[c], configs, c, defaultConfig[c])
      decreases categories
    {
      var category :| category in categories;
      var defaultCategory := defaultConfig[category];
      var categoryConfig := result[category];
      var j := 0;
      while j < |configs|
        invariant 0 <= j <= |configs|
        invariant SameShape(categoryConfig, defaultCategory)
        invariant forall o :: o in configs[j..] ==> o in configs
        invariant MergeAll(categoryConfig, configs[j..], category, defaultCategory)
               == MergeAll(defaultCategory, configs, category, defaultCategory)
      {
        var config := configs[j];
        assert configs[j..][0] == config && configs[j..][1..] == configs[j + 1..];
        if category in config {
          categoryConfig := MergeCategoryConfig(categoryConfig, config[category], defaultCategory);
        }
        j := j + 1;
      }
      result := result[category := categoryConfig];
      categories := categories - {category};
    }
  }

  // ---------------------------------------------------------------------------
  // What the aggregate is, stated without the fold
  // ---------------------------------------------------------------------------

  /** Some override lists category `c`. */
  ghost predicate Mentions(configs: seq<NotificationConfig>, c: string)
  {
    exists o: NotificationConfig :: o in configs && c in o
  }

  /** Some override sets "enabled" of category `c` to true. */
  ghost predicate EnablesCategory(configs: seq<NotificationConfig>, c: string)
  {
    exists o: NotificationConfig :: o in configs && c in o && o[c].enabled == Some(true)
  }

  /** Some override sets channel `ch` of type `t` of category `c` to true. */
  ghost predicate RaisesChannel(configs: seq<NotificationConfig>, c: string, t: string, ch: Channel)
  {
    exists o: NotificationConfig :: o in configs && c in o && RaisedIn(o[c], t, ch)
  }

  ghost predicate RaisedIn(other: CategoryConfig, t: string, ch: Channel)
  {
    && other.notificationTypes.Some? && t in other.notificationTypes.value
    && ch in other.notificationTypes.value[t].channels && other.notificationTypes.value[t].channels[ch]
  }

  /** Some override carries "core_notification_types" for category `c`. */
  ghost predicate SuppliesCore(configs: seq<NotificationConfig>, c: string)
  {
    exists o: NotificationConfig :: o in configs && c in o && o[c].coreTypes.Some?
  }

  /** Every core type any override lists for category `c`. */
  ghost function SuppliedCore(configs: seq<NotificationConfig>, c: string): set<string>
  {
    set o: NotificationConfig, x: string | o in configs && c in o && o[c].coreTypes.Some? && x in o[c].coreTypes.value :: x
  }

  lemma ElementsOfTail(configs: seq<NotificationConfig>)
    requires configs != []
    ensures forall o :: o in configs <==> o == configs[0] || o in configs[1..]
  {
  }

  lemma {:induction false} MergeAllEnabled(current: CategoryConfig, configs: seq<NotificationConfig>, c: string,
                                           defaultCategory: CategoryConfig)
    requires SameShape(current, defaultCategory)
    requires forall o :: o in configs && c in o ==> Mergeable(defaultCategory, o[c])
    ensures Mentions(configs, c) ==> current.enabled.Some?
    ensures MergeAll(current, configs, c, defaultCategory).enabled ==
            if Mentions(configs, c) then Some(current.enabled.value || EnablesCategory(configs, c))
            else current.enabled
    decreases |configs|
  {
    if configs != [] {
      ElementsOfTail(configs);
      var next := if c in configs[0] then MergeCategory(current, configs[0][c], defaultCategory) else current;
      MergeAllEnabled(next, configs[1..], c, defaultCategory);
      if c in configs[0] {
        assert Mentions(configs, c);
        assert EnablesCategory(configs, c) <==>
               configs[0][c].enabled == Some(true) || EnablesCategory(configs[1..], c);
      } else {
        assert Mentions(configs, c) <==> Mentions(configs[1..], c);
        assert EnablesCategory(configs, c) <==> EnablesCategory(configs[1..], c);
      }
    }
  }

  lemma {:induction false} MergeAllChannel(current: CategoryConfig, configs: seq<NotificationConfig>, c: string,
                                           defaultCategory: CategoryConfig, t: string, ch: Channel)
    requires SameShape(current, defaultCategory)
    requires forall o :: o in configs && c in o ==> Mergeable(defaultCategory, o[c])
    requires current.notificationTypes.Some? && t in current.notificationTypes.value
    requires ch in current.notificationTypes.value[t].channels
    ensures var merged := MergeAll(current, configs, c, defaultCategory);
      && merged.notificationTypes.Some? && t in merged.notificationTypes.value
      && ch in merged.notificationTypes.value[t].channels
      && merged.notificationTypes.value[t].channels[ch] ==
         (current.notificationTypes.value[t].channels[ch] || RaisesChannel(configs, c, t, ch))
    decreases |configs|
  {
    if configs != [] {
      ElementsOfTail(configs);
      var next := if c in configs[0] then MergeCategory(current, configs[0][c], defaultCategory) else current;
      assert next.notificationTypes.Some? && t in next.notificationTypes.value;
      assert next.notificationTypes.value[t].channels[ch] ==
             (current.notificationTypes.value[t].channels[ch] || (c in configs[0] && RaisedIn(configs[0][c], t, ch)));
      MergeAllChannel(next, configs[1..], c, defaultCategory, t, ch);
      assert RaisesChannel(configs, c, t, ch) <==>
             (c in configs[0] && RaisedIn(configs[0][c], t, ch)) || RaisesChannel(configs[1..], c, t, ch);
    }
  }

  lemma SuppliedCoreOfTail(configs: seq<NotificationConfig>, c: string)
    requires configs != []
    ensures SuppliedCore(configs, c) ==
            (if c in configs[0] && configs[0][c].coreTypes.Some? then configs[0][c].coreTypes.value else {})
            + SuppliedCore(configs[1..], c)
  {
  }

  lemma {:induction false} MergeAllCore(current: CategoryConfig, configs: seq<NotificationConfig>, c: string,
                                        defaultCategory: CategoryConfig)
    requires SameShape(current, defaultCategory)
    requires forall o :: o in configs && c in o ==> Mergeable(defaultCategory, o[c])
    ensures MergeAll(current, configs, c, defaultCategory).coreTypes ==
            if SuppliesCore(configs, c) then Some(current.coreTypes.GetOr({}) + SuppliedCore(configs, c))
            else current.coreTypes
    decreases |configs|
  {
    if configs != [] {
      ElementsOfTail(configs);
      SuppliedCoreOfTail(configs, c);
      var next := if c in configs[0] then MergeCategory(current, configs[0][c], defaultCategory) else current;
      MergeAllCore(next, configs[1..], c, defaultCategory);
      assert MergeAll(current, configs, c, defaultCategory) == MergeAll(next, configs[1..], c, defaultCategory);
      if c in configs[0] && configs[0][c].coreTypes.Some? {
        var s0 := configs[0][c].coreTypes.value;
        assert SuppliesCore(configs, c);
        assert next.coreTypes == Some(current.coreTypes.GetOr({}) + s0);
        if !SuppliesCore(configs[1..], c) {
          assert SuppliedCore(configs[1..], c) == {};
          assert SuppliedCore(configs, c) == s0;
        } else {
          assert (current.coreTypes.GetOr({}) + s0) + SuppliedCore(configs[1..], c)
              == current.coreTypes.GetOr({}) + SuppliedCore(configs, c);
        }
      } else {
        assert next.coreTypes == current.coreTypes;
        assert SuppliesCore(configs, c) <==> SuppliesCore(configs[1..], c);
        assert SuppliedCore(configs, c) == SuppliedCore(configs[1..], c);
      }
    }
  }

  // ---------------------------------------------------------------------------
  // Properties of the aggregate
  // ---------------------------------------------------------------------------

  /**
   * Categories, types and channels the default does not know never appear:
   * the aggregate has the default's categories, in each the default's types,
   * and in each type the default's channel keys.
   */
  lemma AggregateKeepsTaxonomy(defaultConfig: NotificationConfig, configs: seq<NotificationConfig>)
    requires MergeableAll(defaultConfig, configs)
    ensures Aggregate(defaultConfig, configs).Keys == defaultConfig.Keys
    ensures forall c :: c in defaultConfig ==>
      && Aggregate(defaultConfig, configs)[c].notificationTypes.Some? == defaultConfig[c].notificationTypes.Some?
      && (defaultConfig[c].notificationTypes.Some? ==>
            Aggregate(defaultConfig, configs)[c].notificationTypes.value.Keys
            == defaultConfig[c].notificationTypes.value.Keys)
    ensures forall c, t :: c in defaultConfig && defaultConfig[c].notificationTypes.Some? &&
                           t in defaultConfig[c].notificationTypes.value ==>
      Aggregate(defaultConfig, configs)[c].notificationTypes.value[t].channels.Keys
      == defaultConfig[c].notificationTypes.value[t].channels.Keys
  {
  }

  /** Every type of the aggregate has the default's "email_cadence", whatever the overrides carry. */
  lemma AggregateKeepsDefaultCadence(defaultConfig: NotificationConfig, configs: seq<NotificationConfig>,
                                     c: string, t: string)
    requires MergeableAll(defaultConfig, configs)
    requires c in defaultConfig && defaultConfig[c].notificationTypes.Some?
    requires t in defaultConfig[c].notificationTypes.value
    ensures var merged := Aggregate(defaultConfig, configs);
      && c in merged && merged[c].notificationTypes.Some? && t in merged[c].notificationTypes.value
      && merged[c].notificationTypes.value[t].emailCadence == defaultConfig[c].notificationTypes.value[t].emailCadence
  {
  }

  /**
   * "enabled" of a category is the default's OR-ed with every override that
   * lists the category (a missing "enabled" counts as false); a category no
   * override lists is left as it is.
   */
  lemma AggregateEnabled(defaultConfig: NotificationConfig, configs: seq<NotificationConfig>, c: string)
    requires MergeableAll(defaultConfig, configs) && c in defaultConfig
    ensures Mentions(configs, c) ==> defaultConfig[c].enabled.Some?
    ensures Aggregate(defaultConfig, configs)[c].enabled ==
            if Mentions(configs, c) then Some(defaultConfig[c].enabled.value || EnablesCategory(configs, c))
            else defaultConfig[c].enabled
  {
    MergeAllEnabled(defaultConfig[c], configs, c, defaultConfig[c]);
  }

  /** Each of "web", "push", "email" of a default type is the default's OR-ed with every override's. */
  lemma AggregateChannel(defaultConfig: NotificationConfig, configs: seq<NotificationConfig>,
                         c: string, t: string, ch: Channel)
    requires MergeableAll(defaultConfig, configs)
    requires c in defaultConfig && defaultConfig[c].notificationTypes.Some?
    requires t in defaultConfig[c].notificationTypes.value
    requires ch in defaultConfig[c].notificationTypes.value[t].channels
    ensures var merged := Aggregate(defaultConfig, configs);
      && c in merged && merged[c].notificationTypes.Some? && t in merged[c].notificationTypes.value
      && ch in merged[c].notificationTypes.value[t].channels
      && merged[c].notificationTypes.value[t].channels[ch] ==
         (defaultConfig[c].notificationTypes.value[t].channels[ch] || RaisesChannel(configs, c, t, ch))
  {
    MergeAllChannel(defaultConfig[c], configs, c, defaultConfig[c], t, ch);
  }

  /**
   * "core_notification_types" is the default's set (empty if absent) united
   * with every override's; untouched if no override carries the key.
   */
  lemma AggregateCore(defaultConfig: NotificationConfig, configs: seq<NotificationConfig>, c: string)
    requires MergeableAll(defaultConfig, configs) && c in defaultConfig
    ensures Aggregate(defaultConfig, configs)[c].coreTypes ==
            if SuppliesCore(configs, c) then Some(defaultConfig[c].coreTypes.GetOr({}) + SuppliedCore(configs, c))
            else defaultConfig[c].coreTypes
  {
    MergeAllCore(defaultConfig[c], configs, c, defaultConfig[c]);
  }

  lemma MergeAllDependsOnElementsOnly(current: CategoryConfig, configs1: seq<NotificationConfig>,
                                      configs2: seq<NotificationConfig>, c: string, defaultCategory: CategoryConfig)
    requires SameShape(current, defaultCategory)
    requires forall o :: o in configs1 && c in o ==> Mergeable(defaultCategory, o[c])
    requires forall o :: o in configs1 <==> o in configs2
    ensures forall o :: o in configs2 && c in o ==> Mergeable(defaultCategory, o[c])
    ensures MergeAll(current, configs1, c, defaultCategory) == MergeAll(current, configs2, c, defaultCategory)
  {
    var a := MergeAll(current, configs1, c, defaultCategory);
    var b := MergeAll(current, configs2, c, defaultCategory);
    MergeAllEnabled(current, configs1, c, defaultCategory);
    MergeAllEnabled(current, configs2, c, defaultCategory);
    assert Mentions(configs1, c) == Mentions(configs2, c);
    assert EnablesCategory(configs1, c) == EnablesCategory(configs2, c);
    MergeAllCore(current, configs1, c, defaultCategory);
    MergeAllCore(current, configs2, c, defaultCategory);
    assert SuppliesCore(configs1, c) == SuppliesCore(configs2, c);
    assert SuppliedCore(configs1, c) == SuppliedCore(configs2, c);
    if a.notificationTypes.Some? {
      var ta, tb := a.notificationTypes.value, b.notificationTypes.value;
      forall t | t in ta ensures ta[t] == tb[t] {
        forall ch | ch in ta[t].channels ensures ta[t].channels[ch] == tb[t].channels[ch] {
          MergeAllChannel(current, configs1, c, defaultCategory, t, ch);
          MergeAllChannel(current, configs2, c, defaultCategory, t, ch);
          assert RaisesChannel(configs1, c, t, ch) == RaisesChannel(configs2, c, t, ch);
        }
        assert ta[t].channels == tb[t].channels;
      }
      assert ta == tb;
    }
  }

  /**
   * The aggregate depends only on which overrides are in the list: neither
   * their order nor repetitions matter.
   */
  lemma AggregateOrderIndependent(defaultConfig: NotificationConfig, configs1: seq<NotificationConfig>,
                                  configs2: seq<NotificationConfig>)
    requires MergeableAll(defaultConfig, configs1)
    requires forall o :: o in configs1 <==> o in configs2
    ensures MergeableAll(defaultConfig, configs2)
    ensures Aggregate(defaultConfig, configs1) == Aggregate(defaultConfig, configs2)
  {
    if configs2 != [] {
      assert configs2[0] in configs1;
    }
    forall c | c in defaultConfig
      ensures forall o :: o in configs2 && c in o ==> Mergeable(defaultConfig[c], o[c])
      ensures configs1 != [] ==>
        MergeAll(defaultConfig[c], configs1, c, defaultConfig[c]) == MergeAll(defaultConfig[c], configs2, c, defaultConfig[c])
    {
      MergeAllDependsOnElementsOnly(defaultConfig[c], configs1, configs2, c, defaultConfig[c]);
    }
  }

  lemma MergeCategoryWithItself(category: CategoryConfig)
    requires SameShape(category, category) && Mergeable(category, category)
    ensures MergeCategory(category, category, category) == category
  {
    var merged := MergeCategory(category, category, category);
    if category.notificationTypes.Some? && category.notificationTypes.value != map[] {
      var types := category.notificationTypes.value;
      forall t | t in types
        ensures MergeType(types[t], types[t], types[t].emailCadence) == types[t]
      {
        assert MergeType(types[t], types[t], types[t].emailCadence).channels == types[t].channels;
      }
      assert merged.notificationTypes.value == types;
    }
    if category.coreTypes.Some? {
      assert category.coreTypes.value + category.coreTypes.value == category.coreTypes.value;
    }
  }

  /** Merging the default into itself changes nothing. */
  lemma AggregateIdempotent(defaultConfig: NotificationConfig)
    requires MergeableAll(defaultConfig, [defaultConfig])
    ensures Aggregate(defaultConfig, [defaultConfig]) == defaultConfig
  {
    forall c | c in defaultConfig
      ensures MergeAll(defaultConfig[c], [defaultConfig], c, defaultConfig[c]) == defaultConfig[c]
    {
      assert defaultConfig in [defaultConfig];
      MergeCategoryWithItself(defaultConfig[c]);
      assert [defaultConfig][1..] == [];
    }
  }

  /** A worked example: a daily default type that is off on every channel, in a disabled category. */
  const ExampleDefault: NotificationConfig := map["discussion" := CategoryConfig(Some(false), None,
    Some(map["new_comment" := TypeConfig(map[Web := false, Push := false, Email := false], Some("Daily"))]))]

  /** A course that enables the category, raises "web" only and asks for a weekly cadence. */
  const ExampleCourse: NotificationConfig := map["discussion" := CategoryConfig(Some(true), None,
    Some(map["new_comment" := TypeConfig(map[Web := true], Some("Weekly"))]))]

  /** "enabled" and "web" are raised, "push" and "email" stay off, the cadence stays daily. */
  lemma DiscussionExample()
    ensures MergeableAll(ExampleDefault, [ExampleCourse])
    ensures Aggregate(ExampleDefault, [ExampleCourse]) == map["discussion" := CategoryConfig(Some(true), None,
      Some(map["new_comment" := TypeConfig(map[Web := true, Push := false, Email := false], Some("Daily"))]))]
  {
    var category := ExampleDefault["discussion"];
    var other := ExampleCourse["discussion"];
    var typeConfig := category.notificationTypes.value["new_comment"];
    assert TypeMergeable(typeConfig, other.notificationTypes.value["new_comment"]);
    assert Mergeable(category, other);
    var mergedType := MergeType(typeConfig, other.notificationTypes.value["new_comment"], Some("Daily"));
    assert mergedType.channels == map[Web := true, Push := false, Email := false];
    var mergedTypes := MergeTypes(category.notificationTypes.value, other.notificationTypes.value,
                                  category.notificationTypes.value);
    assert mergedTypes == map["new_comment" := mergedType];
    var merged := MergeCategory(category, other, category);
    assert merged == CategoryConfig(Some(true), None, Some(mergedTypes));
    assert [ExampleCourse][1..] == [];
    assert MergeAll(category, [ExampleCourse], "discussion", category) == merged;
  }
}
