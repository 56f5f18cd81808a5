/** JSON values as the gateway handles them, and the library's rules for filling a struct from an object. */
module Json {

  datatype Option<+T> = None | Some(value: T) {
    predicate IsFailure() {
      None?
    }

    function PropagateFailure<U>(): Option<U>
      requires None?
    {
      None
    }

    function Extract(): T
      requires Some?
    {
      value
    }
  }

  datatype Value =
    | Null
    | Bool(b: bool)
    | Int(n: int)
    | Frac(r: real)
    | Str(s: string)
    | Arr(items: seq<Value>)
    | Obj(fields: map<string, Value>)

  /** The members of a nested struct: absent and `null` leave it empty, any other non-object is an error. */
  function StructField(fields: map<string, Value>, key: string): Option<map<string, Value>> {
    if key !in fields || fields[key].Null? then Some(map[])
    else if fields[key].Obj? then Some(fields[key].fields)
    else None
  }

  /** A nested struct behind a pointer: absent and `null` leave the pointer nil. */
  function PointerField(fields: map<string, Value>, key: string): Option<Option<map<string, Value>>> {
    if key !in fields || fields[key].Null? then Some(None)
    else if fields[key].Obj? then Some(Some(fields[key].fields))
    else None
  }

  function StringField(fields: map<string, Value>, key: string): Option<string> {
    if key !in fields || fields[key].Null? then Some("")
    else if fields[key].Str? then Some(fields[key].s)
    else None
  }

  function IntField(fields: map<string, Value>, key: string): Option<int> {
    if key !in fields || fields[key].Null? then Some(0)
    else if fields[key].Int? then Some(fields[key].n)
    else None
  }

  function BoolField(fields: map<string, Value>, key: string): Option<bool> {
    if key !in fields || fields[key].Null? then Some(false)
    else if fields[key].Bool? then Some(fields[key].b)
    else None
  }

  /** The top level of a struct: `null` changes nothing, any other non-object is an error. */
  function Struct(v: Value): Option<map<string, Value>> {
    if v.Null? then Some(map[]) else if v.Obj? then Some(v.fields) else None
  }

  /** The byte syntax, kept abstract: `parse` reads a text, `compact` is what re-encoding does to a raw fragment. */
  datatype Codec = Codec(parse: string -> Option<Value>, compact: string -> string) {
    predicate IsValid(s: string) {
      parse(s).Some?
    }

    /** Re-encoding keeps the value, is idempotent, and the empty text is no JSON while `{}` is. */
    ghost predicate Lawful() {
      && (forall s :: IsValid(s) ==> parse(compact(s)) == parse(s) && compact(compact(s)) == compact(s))
      && !IsValid("") && IsValid("{}") && compact("{}") == "{}"
    }
  }
}
