/**
 * The pieces of JavaScript semantics the sampler's one condition relies on:
 * how an expression completes (a value or a thrown error), what counts as
 * truthy in an `if`, and `String.prototype.endsWith`.
 *
 * A JavaScript string is a sequence of UTF-16 code units; here a `string`
 * is a sequence of Dafny characters (Unicode scalar values). For a suffix
 * that is all ASCII, as the sampler's is, the two comparisons agree: no
 * surrogate code unit is ASCII.
 */
module Js {

  import opened Otel

  /** The errors an evaluation in this model can throw. */
  datatype JsError = TypeError

  /** How the evaluation of an expression or a call ends. */
  datatype Completion<T> = Normal(value: T) | Throw(error: JsError)

  /**
   * Truthiness of a value that is `undefined` (None) or a boolean: only
   * `true` is truthy.
   */
  predicate Truthy(v: Option<bool>)
  {
    v == Some(true)
  }

  /**
   * `s.endsWith(searchString)` with no end position, following the
   * ECMAScript algorithm: the end is the length of `s`, the start lies
   * `|searchString|` before it; a negative start gives false, otherwise the
   * code units from the start to the end are compared with `searchString`.
   */
  function EndsWith(s: string, searchString: string): (b: bool)
    ensures b <==> |searchString| <= |s| &&
                   forall i :: 0 <= i < |searchString| ==> s[|s| - |searchString| + i] == searchString[i]
  {
    var end := |s|;
    var start := end - |searchString|;
    if start < 0 then false else s[start..end] == searchString
  }

  /** `s` ends with `suffix` exactly when `s` is some string followed by `suffix`. */
  lemma EndsWithIffConcat(s: string, suffix: string)
    ensures EndsWith(s, suffix) <==> exists p :: s == p + suffix
  {
    if EndsWith(s, suffix) {
      var p := s[..|s| - |suffix|];
      assert s == p + suffix;
    }
    if p :| s == p + suffix {
      assert s[|p|..] == suffix;
    }
  }

  /**
   * The comparison is exact: one code unit among the last `|suffix|` that
   * differs from its counterpart in `suffix` (an upper-case letter for a
   * lower-case one, say) makes the test fail.
   */
  lemma MismatchNotEndsWith(s: string, suffix: string, i: nat)
    requires |suffix| <= |s| && i < |suffix|
    requires s[|s| - |suffix| + i] != suffix[i]
    ensures !EndsWith(s, suffix)
  {
  }
}
