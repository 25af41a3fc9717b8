/**
 * Running a list of callbacks where each call sits in its own `try`/`catch`, as both the
 * client's handler loop (src/services/sse.ts) and the store's callback loop
 * (src/stores/sse.ts) do. A callback is named by an identity; the ones that throw are given
 * as a set, since what a callback does is not part of the model.
 */
module Dispatch {
  import opened SeqSet

  /** `fs.forEach(f => { try { f(data) } catch { } })`: every callback runs, in order,
      whether or not an earlier one threw; `caught` lists the throws, in order. */
  method ForEachIsolated<T(==,!new)>(fs: seq<T>, throwing: set<T>) returns (ran: seq<T>, caught: seq<T>)
    ensures ran == fs
    ensures caught == Within(fs, throwing)
  {
    ran, caught := [], [];
    var i := 0;
    while i < |fs|
      invariant 0 <= i <= |fs|
      invariant ran == fs[..i]
      invariant caught == Within(fs[..i], throwing)
    {
      assert fs[..i + 1] == fs[..i] + [fs[i]];
      WithinAppend(fs[..i], [fs[i]], throwing);
      ran := ran + [fs[i]];
      if fs[i] in throwing {
        caught := caught + [fs[i]];
      }
      i := i + 1;
    }
    assert fs[..|fs|] == fs;
  }
}
