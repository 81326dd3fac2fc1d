/** Shapes of request paths. */
module Paths {
  predicate EndsWith(s: string, end: string) {
    |end| <= |s| && s[|s| - |end|..] == end
  }

  predicate Contains(s: string, part: string) {
    exists i :: 0 <= i <= |s| && part <= s[i..]
  }

  /** `head`, then one segment that is not empty and has no slash, then `end`. */
  predicate OneSegment(path: string, head: string, end: string) {
    && |path| > |head| + |end|
    && head <= path && EndsWith(path, end)
    && '/' !in path[|head|..|path| - |end|]
  }
}
