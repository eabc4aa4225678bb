/** Reducing command-line arguments to query arguments (`clean_arguments`). */
module Arguments {

  /** The argument values the command layer passes in, with Python's truthiness. */
  datatype Value =
    | Null
    | Bool(b: bool)
    | Int(i: int)
    | Str(s: string)
    | List(items: seq<Value>)
    | Dict(entries: map<string, Value>)

  predicate Truthy(v: Value)
  {
    match v
    case Null => false
    case Bool(b) => b
    case Int(i) => i != 0
    case Str(s) => s != ""
    case List(items) => items != []
    case Dict(entries) => entries != map[]
  }

  /** The keys copied from the arguments themselves. */
  const AllowedKeys: seq<string> := ["app_name", "notification_type", "course_id"]

  /** `kwargs.get('created', {})` when truthy and a dictionary; no entries otherwise. */
  function CreatedEntries(kwargs: map<string, Value>): (entries: map<string, Value>)
  {
    if "created" in kwargs && Truthy(kwargs["created"]) && kwargs["created"].Dict? then kwargs["created"].entries
    else map[]
  }

  /**
   * `clean_arguments`: the allow-listed keys whose values are truthy, then
   * the entries of a truthy "created" dictionary, which win on a clash.
   */
  method CleanArguments(kwargs: map<string, Value>) returns (cleanKwargs: map<string, Value>)
    requires "created" in kwargs && Truthy(kwargs["created"]) ==> kwargs["created"].Dict?
    ensures forall k :: k in cleanKwargs ==> k in AllowedKeys || k in CreatedEntries(kwargs)
    ensures forall k :: k in CreatedEntries(kwargs) ==> k in cleanKwargs && cleanKwargs[k] == CreatedEntries(kwargs)[k]
    ensures forall k :: k in AllowedKeys && k !in CreatedEntries(kwargs) ==>
      && (k in cleanKwargs <==> k in kwargs && Truthy(kwargs[k]))
      && (k in cleanKwargs ==> cleanKwargs[k] == kwargs[k])
  {
    cleanKwargs := map[];
    for i := 0 to |AllowedKeys|
      invariant forall k :: k in cleanKwargs <==> k in AllowedKeys[..i] && k in kwargs && Truthy(kwargs[k])
      invariant forall k :: k in cleanKwargs ==> cleanKwargs[k] == kwargs[k]
    {
      var key := AllowedKeys[i];
      if key in kwargs && Truthy(kwargs[key]) {
        cleanKwargs := cleanKwargs[key := kwargs[key]];
      }
    }
    assert AllowedKeys[..|AllowedKeys|] == AllowedKeys;
    if "created" in kwargs && Truthy(kwargs["created"]) {
      cleanKwargs := cleanKwargs + kwargs["created"].entries;
    }
  }
}
