/**
 * The small part of JavaScript's semantics the kiosk script relies on:
 * what a value looks like, when it is truthy, strict equality against an
 * entity id that may be undefined, reading element 0, Array.prototype.find,
 * String.prototype.toLowerCase and String.prototype.startsWith.
 */
module JsRuntime {
  import opened Wrappers

  /** A JSON-shaped JavaScript value, as delivered by the hub or passed between the script's methods. */
  datatype JsValue = Undefined | Null | Bool(b: bool) | Str(s: string) | Arr(items: seq<JsValue>)

  /** JavaScript's ToBoolean: undefined, null, false and the empty string are falsy; every array is truthy. */
  predicate Truthy(v: JsValue): (t: bool)
    ensures t <==> v != Undefined && v != Null && v != Bool(false) && v != Str("")
  {
    match v
    case Undefined => false
    case Null => false
    case Bool(b) => b
    case Str(s) => s != ""
    case Arr(_) => true
  }

  /** The JavaScript value held by a slot that is either a string or undefined. */
  function FromOption(id: Option<string>): (v: JsValue)
    ensures v.Undefined? <==> id.None?
    ensures id.Some? ==> v == Str(id.value)
  {
    match id
    case None => Undefined
    case Some(s) => Str(s)
  }

  /**
   * `id === v` where `id` is a string or undefined. Two strings are strictly
   * equal when they hold the same characters; undefined is strictly equal only
   * to undefined (not to null).
   */
  predicate StrictEquals(id: Option<string>, v: JsValue): (e: bool)
    ensures id.None? ==> (e <==> v.Undefined?)
    ensures id.Some? ==> (e <==> v.Str? && v.s == id.value)
  {
    FromOption(id) == v
  }

  /**
   * `v[0]`. Reading a property of undefined or null throws a TypeError (None);
   * a string yields its first character as a one-character string; an array
   * yields its first element; out of range, or on a boolean, the result is undefined.
   */
  function ElementZero(v: JsValue): (r: Option<JsValue>)
    ensures r.None? <==> v.Undefined? || v.Null?
    ensures v.Str? ==> r == Some(if |v.s| > 0 then Str(v.s[..1]) else Undefined)
    ensures v.Arr? ==> r == Some(if |v.items| > 0 then v.items[0] else Undefined)
    ensures v.Bool? ==> r == Some(Undefined)
  {
    match v
    case Undefined => None
    case Null => None
    case Bool(_) => Some(Undefined)
    case Str(s) => if |s| > 0 then assert s[..1] == [s[0]]; Some(Str([s[0]])) else Some(Undefined)
    case Arr(items) => if |items| > 0 then Some(items[0]) else Some(Undefined)
  }

  /** Index `i` is the first position of `s` whose element satisfies `p`. */
  ghost predicate FirstSatisfying<T>(s: seq<T>, p: T -> bool, i: int) {
    0 <= i < |s| && p(s[i]) && forall j :: 0 <= j < i ==> !p(s[j])
  }

  /**
   * Array.prototype.find: the first element satisfying the predicate, or
   * undefined when there is none.
   */
  function Find<T>(s: seq<T>, p: T -> bool): (r: Option<T>)
    ensures r.None? <==> forall i :: 0 <= i < |s| ==> !p(s[i])
    ensures r.Some? ==> p(r.value) && exists i :: FirstSatisfying(s, p, i) && s[i] == r.value
  {
    if |s| == 0 then None
    else if p(s[0]) then
      assert FirstSatisfying(s, p, 0);
      Some(s[0])
    else
      var r := Find(s[1..], p);
      assert r.None? ==> forall i :: 0 <= i < |s| ==> !p(s[i]) by {
        if r.None? {
          forall i | 0 <= i < |s| ensures !p(s[i]) {
            if i > 0 { assert s[i] == s[1..][i - 1]; }
          }
        }
      }
      assert r.Some? ==> exists i :: FirstSatisfying(s, p, i) && s[i] == r.value by {
        if r.Some? {
          var k :| FirstSatisfying(s[1..], p, k) && s[1..][k] == r.value;
          assert FirstSatisfying(s, p, k + 1) by {
            forall j | 0 <= j < k + 1 ensures !p(s[j]) {
              if j > 0 { assert s[j] == s[1..][j - 1]; }
            }
          }
        }
      }
      r
  }

  /** Lower-casing of one character; only the ASCII letters A-Z are mapped. */
  function LowerChar(c: char): char {
    if 'A' <= c <= 'Z' then (c as int - 'A' as int + 'a' as int) as char else c
  }

  /** String.prototype.toLowerCase, character by character (ASCII letters only). */
  function ToLowerCase(s: string): (r: string)
    ensures |r| == |s|
    ensures forall i :: 0 <= i < |s| ==> r[i] == LowerChar(s[i])
    ensures forall i :: 0 <= i < |r| ==> !('A' <= r[i] <= 'Z')
  {
    if |s| == 0 then "" else [LowerChar(s[0])] + ToLowerCase(s[1..])
  }

  /** String.prototype.startsWith. */
  predicate StartsWith(s: string, prefix: string): (b: bool)
    ensures b <==> |prefix| <= |s| && forall i :: 0 <= i < |prefix| ==> s[i] == prefix[i]
  {
    |prefix| <= |s| && s[..|prefix|] == prefix
  }
}
