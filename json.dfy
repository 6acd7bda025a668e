/** Values that `JSON.parse` produces, and the JavaScript reads the chat handlers
    make on them: property access and truthiness. */
module Json {
  import opened Wrappers

  /** A JSON value. Numbers are reals (JSON has no NaN or infinities); an object maps
      each key to its value (when a text repeats a key, `JSON.parse` keeps the last). */
  datatype Value =
    | Null
    | Bool(b: bool)
    | Number(n: real)
    | Str(s: string)
    | Array(items: seq<Value>)
    | Object(fields: map<string, Value>)

  /** `v.key` on a value that is not `null`: `None` stands for `undefined`. Strings,
      numbers, booleans and arrays have none of the keys the handlers read. */
  function Member(v: Value, key: string): (r: Option<Value>)
    requires !v.Null?
    ensures r.Some? <==> v.Object? && key in v.fields
    ensures r.Some? ==> r.value == v.fields[key]
  {
    if v.Object? && key in v.fields then Some(v.fields[key]) else None
  }

  /** JavaScript truthiness of a property read: `undefined`, `null`, `false`, `0` and
      `""` are falsy; arrays and objects are truthy even when empty. */
  predicate Truthy(v: Option<Value>)
  {
    match v
    case None => false
    case Some(Null) => false
    case Some(Bool(b)) => b
    case Some(Number(n)) => n != 0.0
    case Some(Str(s)) => s != []
    case Some(Array(_)) => true
    case Some(Object(_)) => true
  }

  /** `typeof x === 'string'` for a property read. */
  predicate IsString(v: Option<Value>)
  {
    v.Some? && v.value.Str?
  }

  /** `x === s` for a property read and a string literal `s`. */
  predicate IsStr(v: Option<Value>, s: string)
  {
    v == Some(Str(s))
  }

  /** `message.type === 'agent_log'` for a frame that is not null: the test both chat
      components use to keep the agent's log frames out of the message list. */
  predicate IsAgentLog(frame: Value)
    requires !frame.Null?
  {
    IsStr(Member(frame, "type"), "agent_log")
  }
}
