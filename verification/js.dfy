/** The few pieces of JavaScript value semantics the source relies on:
    truthiness of strings, the `a || b` fallback, and template interpolation. */
module Js {
  import opened Wrappers

  /** A string value is truthy when it is present and not empty. */
  predicate Truthy(s: Option<string>)
  {
    s.Some? && s.value != ""
  }

  /** `s || fallback` for a string-valued `s`. */
  function Or(s: Option<string>, fallback: string): string
  {
    if Truthy(s) then s.value else fallback
  }

  /** `${s}` inside a template literal: an absent value prints as "undefined". */
  function Interpolate(s: Option<string>): string
  {
    if s.Some? then s.value else "undefined"
  }

  /** The placeholder display name `User ${userId}` used throughout the source. */
  function UserLabel(userId: Option<string>): string
  {
    "User " + Interpolate(userId)
  }

  /** The names an object literal inherits from `Object.prototype`. Looking
      one of them up in a literal table yields the inherited member, which is
      truthy, rather than `undefined`. */
  const ObjectPrototypeKeys: set<string> := {
    "constructor", "hasOwnProperty", "isPrototypeOf", "propertyIsEnumerable",
    "toLocaleString", "toString", "valueOf", "__proto__",
    "__defineGetter__", "__defineSetter__", "__lookupGetter__", "__lookupSetter__"}

  /** `error.message || fallback`, the store's way of reporting a failure. */
  function ErrorText(message: string, fallback: string): string
  {
    Or(Some(message), fallback)
  }
}
