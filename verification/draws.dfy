/** Injected randomness. Every `Math.floor(Math.random() * n)` of the generator
    becomes one value taken, in evaluation order, from a `Source`: a raw natural
    `r` stands for the draw `r % n` (`0` when `n == 0`, as `Math.random() * 0`
    floors to `0`), and an exhausted source reads `0`. Any list of naturals is a
    legal source and every outcome `k < n` is reachable (raw value `k`), so a
    property proved for all sources holds for every run of the generator. */
module Draws {

  type Source = seq<nat>

  /** One bounded draw `Math.floor(Math.random() * n)` and the source left after it. */
  function Draw(src: Source, n: nat): (r: (nat, Source))
    ensures n > 0 ==> r.0 < n
    ensures n == 0 ==> r.0 == 0
    ensures r.1 == if |src| > 0 then src[1..] else src
  {
    var raw := if |src| > 0 then src[0] else 0;
    (if n == 0 then 0 else raw % n, if |src| > 0 then src[1..] else src)
  }

  /** Every admissible outcome of a draw is produced by some source. */
  lemma DrawReachesEveryOutcome(n: nat, k: nat, rest: Source)
    requires k < n
    ensures Draw([k] + rest, n) == (k, rest)
  {
    assert ([k] + rest)[1..] == rest;
  }

  /** `s.slice(0, end)` for a non-negative `end`: JavaScript clamps `end` to the length. */
  function Take<T>(s: seq<T>, end: nat): (r: seq<T>)
    ensures |r| == if end <= |s| then end else |s|
    ensures r <= s
  {
    if end <= |s| then s[..end] else s
  }

  function Max(a: int, b: int): int {
    if a >= b then a else b
  }
}
