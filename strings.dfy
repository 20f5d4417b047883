/** The few JavaScript string operations the core relies on, over `seq<char>`. */
module Strings {
  import opened Wrappers

  /** `s.startsWith(p)` */
  predicate StartsWith(s: string, p: string) {
    |p| <= |s| && s[..|p|] == p
  }

  /** True iff `sep` occurs in `s` starting at index `i`. */
  predicate OccursAt(s: string, sep: string, i: nat) {
    i + |sep| <= |s| && s[i..i + |sep|] == sep
  }

  /** `s.includes(p)` */
  predicate Contains(s: string, p: string) {
    exists j: nat :: j <= |s| && OccursAt(s, p, j)
  }

  /** `s.indexOf(sep)`: the first index at which the non-empty `sep` occurs, or None (JavaScript's -1). */
  function IndexOf(s: string, sep: string): (r: Option<nat>)
    requires sep != []
    ensures r.Some? ==> OccursAt(s, sep, r.value)
    ensures r.Some? ==> forall j: nat :: j < r.value ==> !OccursAt(s, sep, j)
    ensures r.None? ==> forall j: nat :: !OccursAt(s, sep, j)
  {
    IndexFrom(s, sep, 0)
  }

  /** `indexOf` finds an occurrence exactly when there is one. */
  lemma IndexOfFinds(s: string, sep: string)
    requires sep != []
    ensures IndexOf(s, sep).Some? <==> Contains(s, sep)
  {
    if IndexOf(s, sep).Some? {
      var i := IndexOf(s, sep).value;
      assert i <= |s| && OccursAt(s, sep, i);
    }
  }

  /** The first occurrence of `sep` in `s` at or after index `i`. */
  function IndexFrom(s: string, sep: string, i: nat): (r: Option<nat>)
    requires sep != []
    ensures r.Some? ==> i <= r.value && OccursAt(s, sep, r.value)
    ensures r.Some? ==> forall j: nat :: i <= j < r.value ==> !OccursAt(s, sep, j)
    ensures r.None? ==> forall j: nat :: i <= j ==> !OccursAt(s, sep, j)
    decreases |s| - i
  {
    if i + |sep| > |s| then None
    else if OccursAt(s, sep, i) then Some(i)
    else IndexFrom(s, sep, i + 1)
  }

  /** `s.split(sep, 1)[0]`: everything before the first `sep`, or the whole string. */
  function BeforeFirst(s: string, sep: string): string
    requires sep != []
  {
    match IndexOf(s, sep)
    case None => s
    case Some(i) => s[..i]
  }

  /** `s.split(sep)[1]`: the piece between the first and the second `sep` (or the end of `s`);
      None (`undefined`) when `sep` does not occur in `s`. */
  function SplitSecond(s: string, sep: string): Option<string>
    requires sep != []
  {
    match IndexOf(s, sep)
    case None => None
    case Some(i) =>
      var rest := s[i + |sep|..];
      Some(BeforeFirst(rest, sep))
  }

  /** `s.slice(start)` for a non-negative start: the suffix from `start`, empty past the end. */
  function SliceFrom(s: string, start: nat): (r: string)
    ensures start <= |s| ==> s[..start] + r == s
    ensures start >= |s| ==> r == []
  {
    if start <= |s| then s[start..] else []
  }

  /** `s.split(' ')[0]`: the text before the first space. */
  function FirstWord(s: string): string {
    BeforeFirst(s, " ")
  }
}
