/**
  The slice of JavaScript semantics the theme engine depends on: dynamic
  values, truthiness, own-property reads, object spread, reading a dotted
  path through nested objects, and the TypeError raised by reading a
  property of `undefined`.
 */
module JsRuntime {

  datatype Option<+T> = None | Some(value: T)

  /** A JavaScript value as it appears in a configuration tree. Objects keep
      their own enumerable properties; numbers are integers here. */
  datatype Value =
    | Undefined
    | Null
    | Bool(b: bool)
    | Num(n: int)
    | Str(s: string)
    | Arr(items: seq<Value>)
    | Obj(fields: map<string, Value>)

  /** The result of an expression that may throw. Only reading a property of
      `undefined` can throw in the engine. */
  datatype Outcome<+T> = Returned(value: T) | TypeErrorThrown

  /** JavaScript truthiness: `false`, `0`, `""`, `null` and `undefined` are
      falsy; every array and object is truthy. */
  predicate Truthy(v: Value) {
    match v
    case Undefined => false
    case Null => false
    case Bool(b) => b
    case Num(n) => n != 0
    case Str(s) => s != ""
    case Arr(_) => true
    case Obj(_) => true
  }

  /** `v[key]` on a value that is not null or undefined: an object's own
      property, or `undefined` when there is none. */
  function Read(v: Value, key: string): (r: Value)
    ensures v.Obj? && key in v.fields ==> r == v.fields[key]
    ensures !v.Obj? || key !in v.fields ==> r == Undefined
  {
    if v.Obj? && key in v.fields then v.fields[key] else Undefined
  }

  /** `{ ...v }`: the own properties of an object; nothing for
      `undefined`, `null`, booleans and numbers. */
  function Spread(v: Value): (fields: map<string, Value>)
    ensures v.Obj? ==> fields == v.fields
    ensures v.Undefined? || v.Null? || v.Bool? || v.Num? ==> fields == map[]
  {
    if v.Obj? then v.fields else map[]
  }

  /** Walks `parts` from `root`, stepping into `current[part]` while that is
      truthy; None as soon as a step is missing or falsy. This is the loop
      shared by the semantic resolvers and the runtime migration. */
  function ReadPath(root: Value, parts: seq<string>): Option<Value>
    decreases |parts|
  {
    if parts == [] then Some(root)
    else
      var next := Read(root, parts[0]);
      if Truthy(next) then ReadPath(next, parts[1..]) else None
  }

  /** The walking loop itself: `let current = root; for (const part of parts)
      { if (current && current[part]) current = current[part]; else stop }`.
      It stops at the first missing or falsy step and otherwise ends on the
      value the whole path names. */
  method WalkPath(root: Value, parts: seq<string>) returns (found: Option<Value>)
    requires Truthy(root)
    ensures found == ReadPath(root, parts)
  {
    var current := root;
    for i := 0 to |parts|
      invariant Truthy(current)
      invariant ReadPath(root, parts) == ReadPath(current, parts[i..])
    {
      assert parts[i..][0] == parts[i] && parts[i..][1..] == parts[i + 1..];
      var next := Read(current, parts[i]);
      if !Truthy(next) {
        return None;
      }
      current := next;
    }
    assert parts[|parts|..] == [];
    return Some(current);
  }

  /** A successful walk always lands on a truthy value (given a truthy root). */
  lemma {:induction false} ReadPathTruthy(root: Value, parts: seq<string>)
    requires Truthy(root)
    ensures ReadPath(root, parts).Some? ==> Truthy(ReadPath(root, parts).value)
    decreases |parts|
  {
    if parts != [] {
      var next := Read(root, parts[0]);
      if Truthy(next) {
        ReadPathTruthy(next, parts[1..]);
      }
    }
  }

  /** Walking two segments through nested objects reaches the inner value
      exactly when both steps are present and truthy. */
  lemma ReadPathTwo(root: Value, first: string, second: string)
    ensures ReadPath(root, [first, second]) ==
      (if Truthy(Read(root, first)) && Truthy(Read(Read(root, first), second))
       then Some(Read(Read(root, first), second)) else None)
  {
    assert [first, second][1..] == [second];
    assert [second][1..] == [];
    var next := Read(root, first);
    if Truthy(next) {
      assert ReadPath(root, [first, second]) == ReadPath(next, [second]);
    }
  }
}
