/** Decoded JSON, as encoding/json puts it into interface{} values, and results
    that carry an error. */
module Json {
  datatype Json =
    | Null
    | Bool(b: bool)
    | Num(x: real)
    | Str(s: string)
    | Arr(items: seq<Json>)
    | Obj(fields: map<string, Json>)

  datatype Result<+T, +E> = Ok(value: T) | Err(error: E)
  {
    predicate IsFailure() {
      Err?
    }

    function PropagateFailure<U>(): Result<U, E>
      requires Err?
    {
      Err(error)
    }

    function Extract(): T
      requires Ok?
    {
      value
    }
  }

  /** A check without a value. */
  datatype Check<+E> = Pass | Fail(error: E)
  {
    predicate IsFailure() {
      Fail?
    }

    function PropagateFailure<U>(): Result<U, E>
      requires Fail?
    {
      Err(error)
    }
  }

  function Need<E>(condition: bool, error: E): Check<E> {
    if condition then Pass else Fail(error)
  }

  predicate IsNum(fields: map<string, Json>, key: string) {
    key in fields && fields[key].Num?
  }

  /** The string under `key`, "" for anything else. */
  function StrAt(fields: map<string, Json>, key: string): string {
    if key in fields && fields[key].Str? then fields[key].s else ""
  }

  function BoolAt(fields: map<string, Json>, key: string): bool {
    key in fields && fields[key].Bool? && fields[key].b
  }
}
