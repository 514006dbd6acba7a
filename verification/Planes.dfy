/** Flat planes of words, and parts of them. */
module Planes {
  import opened Events

  /** The offset of a region that is absent. */
  const NONE: U64 := U64_MAX

  const ARENA_META_WORDS: nat := 4

  /** The words from `from` on begin with `part`. */
  ghost predicate HasAt(words: seq<nat>, from: nat, part: seq<nat>) {
    from + |part| <= |words| && words[from..from + |part|] == part
  }

  /** A part of a part. */
  lemma PartAt(words: seq<nat>, at: nat, part: seq<nat>, from: nat, to: nat)
    requires HasAt(words, at, part) && from <= to <= |part|
    ensures words[at + from..at + to] == part[from..to]
    ensures from < to ==> words[at + from] == part[from]
  {
    forall x | at + from <= x < at + to
      ensures words[x] == part[x - at]
    {
      assert words[at..at + |part|][x - at] == part[x - at];
    }
  }

  /** Replaces the words from `at` on by `part`. */
  function Patched(words: seq<U64>, at: nat, part: seq<U64>): (r: seq<U64>)
    requires at + |part| <= |words|
    ensures |r| == |words| && HasAt(r, at, part)
    ensures forall x | 0 <= x < |words| && !(at <= x < at + |part|) :: r[x] == words[x]
  {
    words[..at] + part + words[at + |part|..]
  }
}
