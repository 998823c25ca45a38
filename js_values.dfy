/**
 * The few JavaScript values the test harness inspects: thrown values,
 * declared expected exceptions, bound method parameters and the `error`
 * field of a test result.
 */
module JsValues {

  datatype Option<T> = None | Some(value: T)

  /** A JavaScript exception escaping a call, or the call's normal result. */
  datatype Result<T> = Ok(value: T) | Thrown(error: Value)

  /**
   * `Str` is what `utils.isString` accepts and `Obj` what `utils.isObject`
   * accepts. An object is described by the constructors on its prototype
   * chain (what `instanceof` consults) and its message. `Ctor` is a
   * constructor function, the usual right-hand side of `instanceof`.
   * `Prim` stands for every other primitive (numbers, booleans, null),
   * identified abstractly and carrying its JavaScript truthiness. A
   * function that is not a constructor, a symbol and a bigint are not
   * represented.
   */
  datatype Value =
    | Undefined
    | Str(s: string)
    | Obj(ctors: set<string>, message: string)
    | Ctor(name: string)
    | Prim(id: int, truthy: bool)

  /** JavaScript truthiness, as `if (v)` and `v || w` test it. */
  predicate Truthy(v: Value)
  {
    match v
    case Undefined => false
    case Str(s) => s != ""
    case Obj(_, _) => true
    case Ctor(_) => true
    case Prim(_, t) => t
  }

  /** `new Error(message)`. */
  function ErrorObject(message: string): Value
  {
    Obj({"Error", "Object"}, message)
  }

  /**
   * What `e instanceof d` throws when `d` is not callable: a TypeError. The
   * message stands for the runtime's text, which depends on `d` ("... is not
   * callable" for an object, "... is not an object" for a primitive); no
   * part of the harness reads it.
   */
  const INSTANCEOF_TYPE_ERROR: Value :=
    Obj({"TypeError", "Error", "Object"}, "Right-hand side of 'instanceof' is not callable")
}
