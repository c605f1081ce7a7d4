/** Searching in strings, as JavaScript's String.prototype.indexOf does. */
module Text {
  /** `pattern` occurs in `text` starting at index `i`. */
  predicate OccursAt(text: string, pattern: string, i: int) {
    0 <= i && i + |pattern| <= |text| && text[i..i + |pattern|] == pattern
  }

  /**
   * String.prototype.indexOf searching from `from`: the first index at or
   * after `from` where `pattern` occurs, or -1 when there is none.
   */
  function IndexOfFrom(text: string, pattern: string, from: nat): (r: int)
    requires from <= |text|
    ensures r == -1 <==> forall i :: from <= i <= |text| ==> !OccursAt(text, pattern, i)
    ensures r != -1 ==>
      from <= r && OccursAt(text, pattern, r) && forall i :: from <= i < r ==> !OccursAt(text, pattern, i)
    decreases |text| - from
  {
    if OccursAt(text, pattern, from) then from
    else if from == |text| then -1
    else IndexOfFrom(text, pattern, from + 1)
  }

  /** String.prototype.indexOf. */
  function IndexOf(text: string, pattern: string): (r: int)
    ensures -1 <= r <= |text|
    ensures r == -1 <==> forall i :: 0 <= i <= |text| ==> !OccursAt(text, pattern, i)
    ensures r != -1 ==> OccursAt(text, pattern, r) && forall i :: 0 <= i < r ==> !OccursAt(text, pattern, i)
  {
    IndexOfFrom(text, pattern, 0)
  }

  /** `pattern` occurs somewhere in `text`. */
  ghost predicate Contains(text: string, pattern: string) {
    exists i :: OccursAt(text, pattern, i)
  }

  /** A concatenation of three parts starts with the first and ends with the last. */
  lemma ConcatEnds(a: string, b: string, c: string)
    ensures OccursAt(a + b + c, a, 0)
    ensures OccursAt(a + b + c, c, |a + b + c| - |c|)
  {
  }

  /**
   * Where the parts of a concatenation of five occur: the second and third
   * right after the ones before them, the last at the end.
   */
  lemma ConcatParts(a: string, b: string, c: string, d: string, e: string)
    ensures OccursAt(a + b + c + d + e, b, |a|)
    ensures OccursAt(a + b + c + d + e, c, |a| + |b|)
    ensures OccursAt(a + b + c + d + e, e, |a + b + c + d + e| - |e|)
  {
  }
}
