/** `path.join` as a plain separator fold. Node's normalisation (dropping empty
    segments, resolving "." and "..") is not part of this model. */
module Paths {

  const Separator: char := '/'

  /** `path.join(base, segments...)`: each segment is appended after one separator. */
  function Join(base: string, segments: seq<string>): (p: string)
    ensures |p| >= |base|
    ensures p[..|base|] == base
    ensures |segments| > 0 ==>
              |p| > |segments[|segments| - 1]|
              && p[|p| - |segments[|segments| - 1]| - 1] == Separator
              && p[|p| - |segments[|segments| - 1]|..] == segments[|segments| - 1]
    decreases |segments|
  {
    if |segments| == 0 then base
    else Join(base + [Separator] + segments[0], segments[1..])
  }

  /** Joining in two steps is joining once with the concatenated segments. */
  lemma {:induction false} JoinAppend(base: string, s: seq<string>, t: seq<string>)
    ensures Join(Join(base, s), t) == Join(base, s + t)
    decreases |s|
  {
    if |s| == 0 {
      assert s + t == t;
    } else {
      assert (s + t)[0] == s[0];
      assert (s + t)[1..] == s[1..] + t;
      JoinAppend(base + [Separator] + s[0], s[1..], t);
    }
  }
}
