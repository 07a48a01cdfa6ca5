/**
 * Property lookup on a JavaScript object literal. Every literal inherits
 * the members of `Object.prototype`, so `obj[key]` on a key the literal
 * does not define is still defined (and truthy) for those names, and
 * `undefined` for every other missing key.
 */
module JsObject {

  /** The names a plain object literal inherits from `Object.prototype`. */
  const PrototypeMembers: set<string> := {
    "constructor", "hasOwnProperty", "isPrototypeOf", "propertyIsEnumerable",
    "toLocaleString", "toString", "valueOf", "__proto__",
    "__defineGetter__", "__defineSetter__", "__lookupGetter__", "__lookupSetter__"
  }

  /** What `obj[key]` yields: an own value, an inherited member, or `undefined`. */
  datatype Prop<V> = Own(value: V) | Inherited(name: string) | Absent

  /** `obj[key]` on a literal whose own properties are `own`. */
  function Get<V>(own: map<string, V>, key: string): Prop<V> {
    if key in own then Own(own[key])
    else if key in PrototypeMembers then Inherited(key)
    else Absent
  }

  /**
   * `p || fallback` when every own value is truthy (all the tables looked
   * up this way hold non-empty strings, arrays or objects): only
   * `undefined` falls through to the fallback.
   */
  function OrElse<V>(p: Prop<V>, fallback: V): Prop<V> {
    if p.Absent? then Own(fallback) else p
  }

  /**
   * `obj[key] || fallback` gives the key's own value when it has one, the
   * fallback for any other key except the inherited names, and an
   * inherited member (never the fallback) for those.
   */
  lemma LookupOrElse<V>(own: map<string, V>, key: string, fallback: V)
    ensures key in own ==> OrElse(Get(own, key), fallback) == Own(own[key])
    ensures key !in own && key !in PrototypeMembers ==> OrElse(Get(own, key), fallback) == Own(fallback)
    ensures OrElse(Get(own, key), fallback).Inherited? <==> key !in own && key in PrototypeMembers
  {
  }
}
