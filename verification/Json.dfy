/** JSON values and the accessors of `serde_json::Value`. */
module Json {
  import opened Wrappers

  datatype Value =
    | Null
    | Bool(b: bool)
    | Int(n: int)
    | Float(r: real)
    | Str(s: string)
    | Arr(items: seq<Value>)
    | Obj(fields: map<string, Value>)
  {
    function Get(key: string): Option<Value> {
      if Obj? && key in fields then Some(fields[key]) else None
    }

    function At(i: nat): Option<Value> {
      if Arr? && i < |items| then Some(items[i]) else None
    }

    function AsStr(): Option<string> {
      if Str? then Some(s) else None
    }

    function AsI64(): Option<int> {
      if Int? && -0x8000_0000_0000_0000 <= n < 0x8000_0000_0000_0000 then Some(n) else None
    }

    function AsU64(): Option<nat> {
      if Int? && 0 <= n < 0x1_0000_0000_0000_0000 then Some(n) else None
    }

    function AsArray(): Option<seq<Value>> {
      if Arr? then Some(items) else None
    }

    /** The string stored under a key, if there is one. */
    function GetStr(key: string): Option<string> {
      var v :- Get(key);
      v.AsStr()
    }

    function GetI64(key: string): Option<int> {
      var v :- Get(key);
      v.AsI64()
    }

    function GetArray(key: string): Option<seq<Value>> {
      var v :- Get(key);
      v.AsArray()
    }
  }

  /** `serde_json::from_str` is left open: any function from texts to values. */
  type Parser = string -> Option<Value>

  /** `serde_json::to_string`, left open in the same way. */
  type Printer = Value -> string
}
