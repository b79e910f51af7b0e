/** Values shared by every part of the model: options, JSON-like values, and the
    state dictionary that the supervisor threads through its step function. */
module Base {

  datatype Option<+T> = None | Some(value: T) {
    function GetOr(default: T): T {
      match this
      case Some(v) => v
      case None => default
    }
  }

  /** Thread ids, request ids, checkpoint ids and metric row ids. */
  type Id = string

  /** What a Python state dictionary can hold under a key. */
  datatype Value =
    | Null
    | Bool(b: bool)
    | Num(n: int)
    | Str(s: string)
    | List(items: seq<Value>)
    | Obj(fields: map<string, Value>)

  type State = map<string, Value>

  /** Python truthiness. */
  predicate Truthy(v: Value) {
    match v
    case Null => false
    case Bool(b) => b
    case Num(n) => n != 0
    case Str(s) => s != ""
    case List(items) => items != []
    case Obj(fields) => fields != map[]
  }

  /** `state.get(key)`. */
  function Get(s: State, key: string): Value {
    if key in s then s[key] else Null
  }

  /** The test `if state.get("completed")` that ends the loop. */
  predicate IsComplete(s: State) {
    Truthy(Get(s, "completed"))
  }

  /** The state of a thread that has no checkpoint yet. */
  const FRESH: State := map["messages" := List([]), "step" := Num(0)]

  /** Every run overwrites these two keys of the state it starts from. */
  function Override(s: State, input: string, thread: Id): State {
    s["input" := Str(input)]["thread_id" := Str(thread)]
  }

  function Last<T>(xs: seq<T>): T
    requires xs != []
  {
    xs[|xs| - 1]
  }
}
