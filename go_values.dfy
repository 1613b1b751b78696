/** Go values as the Terraform plugin SDK hands them to the provider's expand
    functions: a configuration block is a `map[string]interface{}` whose
    values are strings, booleans, `*schema.Set`s, `[]interface{}` lists,
    nested maps or the nil interface. Type assertions of the comma-ok form
    (`v, ok := x.(T)`) are total functions here; Go pointers are `Option`s. */
module GoValues {

  datatype Option<+T> = None | Some(value: T)

  /** The dynamic value behind an `interface{}` */
  datatype Value =
    | Nil                                      // the nil interface; an absent key reads as this
    | Str(s: string)                           // string
    | Bool(b: bool)                            // bool
    | Set(items: seq<Value>)                   // *schema.Set, members in the order its List() gives
    | List(items: seq<Value>)                  // []interface{}
    | Map(entries: Option<map<string, Value>>) // map[string]interface{}; None is a nil map

  /** A `map[string]interface{}` parameter; None is Go's nil map */
  type TfMap = Option<map<string, Value>>

  /** The outcome of a call that may panic on a failed type assertion */
  datatype Outcome<+T> = Returned(value: T) | Panicked

  /** Go's index expression `m[key]`: a missing key, or any key of a nil map,
      yields the nil interface */
  function Get(m: TfMap, key: string): (v: Value)
    ensures v != Nil ==> m.Some? && key in m.value && m.value[key] == v
    ensures m.Some? && key in m.value ==> v == m.value[key]
  {
    if m.Some? && key in m.value then m.value[key] else Nil
  }

  /** `v, ok := x.(string)`: Some(v) exactly when ok */
  function AsString(x: Value): Option<string> {
    if x.Str? then Some(x.s) else None
  }

  /** `v, ok := x.(bool)` */
  function AsBool(x: Value): Option<bool> {
    if x.Bool? then Some(x.b) else None
  }

  /** `v, ok := x.(*schema.Set)`, giving the set's members */
  function AsSet(x: Value): Option<seq<Value>> {
    if x.Set? then Some(x.items) else None
  }

  /** `v, ok := x.([]interface{})` */
  function AsList(x: Value): Option<seq<Value>> {
    if x.List? then Some(x.items) else None
  }

  /** `v, ok := x.(map[string]interface{})`; a failed assertion gives ok == false
      and the zero value, a nil map */
  function AsMap(x: Value): Option<TfMap> {
    if x.Map? then Some(x.entries) else None
  }

  /** aws.StringValue: the pointed-to string, or "" for a nil pointer */
  function StringValue(p: Option<string>): string {
    if p.Some? then p.value else ""
  }

  /** aws.BoolValue: the pointed-to bool, or false for a nil pointer */
  function BoolValue(p: Option<bool>): bool {
    if p.Some? then p.value else false
  }
}
