/**
 * The small part of JavaScript's value semantics that the server's origin
 * check relies on: `undefined`, falsiness of strings, strict equality as
 * used by `Array.prototype.indexOf`, and `String.prototype.endsWith`.
 */
module JsValues {

  /** A value that is either a string-like payload or JavaScript `undefined`. */
  datatype Option<+T> = None | Some(value: T)

  /**
   * JavaScript truthiness of a value that is a string or `undefined`:
   * `undefined` and the empty string are falsy, every other string is truthy.
   */
  function Truthy(v: Option<string>): (b: bool)
    ensures !b <==> v in {None, Some("")}
  {
    v.Some? && v.value != ""
  }

  /**
   * `list.indexOf(x)`: the first index whose element is strictly equal to `x`,
   * or -1 when there is none. Strict equality on strings and `undefined` is
   * value equality here.
   */
  function IndexOf<T(==)>(list: seq<T>, x: T): (r: int)
    ensures -1 <= r < |list|
    ensures r == -1 <==> x !in list
    ensures 0 <= r ==> list[r] == x
    ensures forall j :: 0 <= j < r ==> list[j] != x
  {
    if |list| == 0 then -1
    else if list[0] == x then 0
    else
      var k := IndexOf(list[1..], x);
      if k == -1 then -1 else k + 1
  }

  /** `s` is some string followed by `suffix`. */
  ghost predicate HasSuffix(s: string, suffix: string) {
    exists prefix: string :: s == prefix + suffix
  }

  /**
   * `s.endsWith(suffix)`: the last `|suffix|` characters of `s` are `suffix`,
   * which holds exactly when `s` is some prefix followed by `suffix`.
   */
  function EndsWith(s: string, suffix: string): (b: bool)
    ensures b <==> HasSuffix(s, suffix)
  {
    var b := |suffix| <= |s| && s[|s| - |suffix|..] == suffix;
    assert b ==> s == s[..|s| - |suffix|] + suffix;
    assert HasSuffix(s, suffix) ==> b by {
      if HasSuffix(s, suffix) {
        var prefix: string :| s == prefix + suffix;
        assert s[|s| - |suffix|..] == suffix;
      }
    }
    b
  }

  /** One differing character among the last `|suffix|` rules `endsWith` out. */
  lemma MismatchNotEndsWith(s: string, suffix: string, k: nat)
    requires |suffix| <= |s| && k < |suffix|
    requires s[|s| - |suffix| + k] != suffix[k]
    ensures !EndsWith(s, suffix)
  {
    assert s[|s| - |suffix|..][k] != suffix[k];
  }
}
