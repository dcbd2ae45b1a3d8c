/**
 * The small part of JavaScript value semantics the colorbar service relies on:
 * untyped option values, truthiness (for `a || b`), `Object.assign` and
 * object spread (`{...a, ...b}`), all on string-keyed property maps.
 */
module Js {

  /** A value that may be missing (`undefined` on a lookup). */
  datatype Option<T> = None | Some(value: T)

  /** A JavaScript value, as far as the service inspects or stores one. */
  datatype JsValue =
    | Undefined
    | Null
    | Bool(b: bool)
    | Num(n: int)
    | Str(s: string)
    | Arr(items: seq<JsValue>)
    | Obj(fields: map<string, JsValue>)

  /** Own enumerable properties of a plain object, keyed by property name. */
  type Props = map<string, JsValue>

  /** JavaScript's ToBoolean: `undefined`, `null`, `false`, `0` and `''` are falsy. */
  predicate Truthy(v: JsValue) {
    match v
    case Undefined => false
    case Null => false
    case Bool(b) => b
    case Num(n) => n != 0
    case Str(s) => s != ""
    case Arr(_) => true
    case Obj(_) => true
  }

  /** The expression `a || b`: the left operand when it is truthy, else the right one. */
  function Or(a: JsValue, b: JsValue): JsValue {
    if Truthy(a) then a else b
  }

  /**
   * `Object.assign(target, source)`: every property of `source` is written onto
   * `target`, overwriting a property of the same name; the others stay. The
   * same rule gives `{...target, ...source}`.
   */
  function Assign<K>(target: map<K, JsValue>, source: map<K, JsValue>): (r: map<K, JsValue>)
    ensures r.Keys == target.Keys + source.Keys
  {
    target + source
  }

  /** Under `Object.assign` the source's properties win; the target's others survive. */
  lemma AssignPrecedence<K>(target: map<K, JsValue>, source: map<K, JsValue>, k: K)
    requires k in target || k in source
    ensures Assign(target, source)[k] == if k in source then source[k] else target[k]
  {
  }

  /**
   * The properties that `...v` contributes to an object literal: those of a
   * plain object, none for `undefined`, `null`, booleans and numbers. Strings
   * and arrays, which spread their indices, are treated as contributing none.
   */
  function Spread(v: JsValue): Props {
    if v.Obj? then v.fields else map[]
  }
}
