/** The dictionaries the models hand to the web layer (`to_dict`). */
module Json {
  import opened Wrappers
  import opened Dicts
  import opened Text

  datatype Json =
    | Null
    | Bool(b: bool)
    | Int(i: int)
    | Num(x: real)
    | Str(s: string)
    | List(items: seq<Json>)
    | Obj(fields: Dict<Json>)

  /** A nullable text column. */
  function OptStr(s: Option<string>): (r: Json)
    ensures r == Null <==> s.None?
  {
    match s
    case None => Null
    case Some(v) => Str(v)
  }

  /** A nullable integer or timestamp column: `None` when unset. */
  function OptInt(i: Option<int>): (r: Json)
    ensures r == Null <==> i.None?
  {
    match i
    case None => Null
    case Some(v) => Int(v)
  }

  /** The `notify_<type>` column name of an event type. */
  function ColumnName(eventType: string): string
  {
    "notify_" + Lower(eventType)
  }

  /** The `notify_*` entries of a `to_dict`, in column order. */
  function NotifyFields(events: seq<string>, on: set<string>): (r: Dict<Json>)
    ensures |r| == |events|
    ensures forall k :: 0 <= k < |events| ==> r[k] == (ColumnName(events[k]), Bool(events[k] in on))
  {
    seq(|events|, k requires 0 <= k < |events| => (ColumnName(events[k]), Bool(events[k] in on)))
  }

  const MASK: string := "********"

  /** How a secret column is shown to clients: a fixed mask when it is set,
    * the empty string otherwise; the secret itself never appears. */
  function Masked(secret: Option<string>): (r: string)
    ensures r == MASK <==> secret.Some? && secret.value != ""
    ensures r == "" <==> !(secret.Some? && secret.value != "")
  {
    if secret.Some? && secret.value != "" then MASK else ""
  }

  /** Python's truth value of a decoded JSON value. */
  predicate Truthy(j: Json)
  {
    match j
    case Null => false
    case Bool(b) => b
    case Int(i) => i != 0
    case Num(x) => x != 0.0
    case Str(s) => s != ""
    case List(items) => items != []
    case Obj(fields) => fields != []
  }
}
