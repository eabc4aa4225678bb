/**
 * First-match search over normalized app and preference records
 * (`find_app_in_normalized_apps`, `find_pref_in_normalized_prefs`). A record is
 * a dictionary; a missing key reads as None, as `dict.get` does.
 */
module Lookup {
  import opened Wrappers

  /** `record.get(key)`. */
  function Get<V>(record: map<string, V>, key: string): Option<V>
  {
    if key in record then Some(record[key]) else None
  }

  predicate IsApp<V(==)>(record: map<string, V>, appName: Option<V>)
  {
    Get(record, "name") == appName
  }

  predicate IsPref<V(==)>(record: map<string, V>, prefName: Option<V>, appName: Option<V>)
  {
    Get(record, "name") == prefName && Get(record, "app_name") == appName
  }

  /** The first app whose "name" equals `appName`, or None when there is none. */
  method FindAppInNormalizedApps<V(==)>(appName: Option<V>, appsList: seq<map<string, V>>)
    returns (app: Option<map<string, V>>)
    ensures app.None? <==> forall i :: 0 <= i < |appsList| ==> !IsApp(appsList[i], appName)
    ensures app.Some? ==>
      exists i :: && 0 <= i < |appsList| && appsList[i] == app.value && IsApp(appsList[i], appName)
                  && forall j :: 0 <= j < i ==> !IsApp(appsList[j], appName)
  {
    for i := 0 to |appsList|
      invariant forall j :: 0 <= j < i ==> !IsApp(appsList[j], appName)
    {
      if Get(appsList[i], "name") == appName {
        return Some(appsList[i]);
      }
    }
    return None;
  }

  /** The first preference whose "name" equals `prefName` and whose "app_name" equals `appName`, or None. */
  method FindPrefInNormalizedPrefs<V(==)>(prefName: Option<V>, appName: Option<V>, prefsList: seq<map<string, V>>)
    returns (pref: Option<map<string, V>>)
    ensures pref.None? <==> forall i :: 0 <= i < |prefsList| ==> !IsPref(prefsList[i], prefName, appName)
    ensures pref.Some? ==>
      exists i :: && 0 <= i < |prefsList| && prefsList[i] == pref.value && IsPref(prefsList[i], prefName, appName)
                  && forall j :: 0 <= j < i ==> !IsPref(prefsList[j], prefName, appName)
  {
    for i := 0 to |prefsList|
      invariant forall j :: 0 <= j < i ==> !IsPref(prefsList[j], prefName, appName)
    {
      if Get(prefsList[i], "name") == prefName && Get(prefsList[i], "app_name") == appName {
        return Some(prefsList[i]);
      }
    }
    return None;
  }
}
