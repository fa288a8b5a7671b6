/**
  * C's strstr as the extension probe uses it: the position of the first
  * occurrence of a needle, or None for NULL. A string stands for the
  * characters before the terminating NUL.
  */
module CString {
  import opened Wrappers

  /** `needle` occurs in `haystack` starting at position `i`. */
  predicate OccursAt(haystack: string, needle: string, i: nat) {
    i + |needle| <= |haystack| && haystack[i..i + |needle|] == needle
  }

  /** Reference definition: `needle` is a substring of `haystack`. */
  ghost predicate Contains(haystack: string, needle: string) {
    exists i: nat :: OccursAt(haystack, needle, i)
  }

  /** The first occurrence of `needle` at or after position `from`, scanning left to right. */
  function FindFrom(haystack: string, needle: string, from: nat): (r: Option<nat>)
    ensures r.Some? ==> from <= r.value && OccursAt(haystack, needle, r.value)
    ensures forall i: nat :: from <= i && OccursAt(haystack, needle, i) ==> r.Some? && r.value <= i
    decreases |haystack| - from
  {
    if from + |needle| > |haystack| then None
    else if haystack[from..from + |needle|] == needle then Some(from)
    else FindFrom(haystack, needle, from + 1)
  }

  /** strstr(haystack, needle): non-NULL exactly when the needle is a substring, and then the first match. */
  function StrStr(haystack: string, needle: string): (r: Option<nat>)
    ensures r.Some? <==> Contains(haystack, needle)
    ensures r.Some? ==> OccursAt(haystack, needle, r.value)
    ensures r.Some? ==> forall i: nat :: i < r.value ==> !OccursAt(haystack, needle, i)
  {
    FindFrom(haystack, needle, 0)
  }
}
