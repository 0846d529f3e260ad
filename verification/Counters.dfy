/** Counters and what is kept of them per replica: client and server compare them the same way. */
module Counters {
  function Min(a: nat, b: nat): nat { if a <= b then a else b }

  function Max(a: nat, b: nat): nat { if a <= b then b else a }

  /** A replica that is not listed counts as 0. */
  function At(f: map<string, nat>, r: string): nat {
    if r in f then f[r] else 0
  }
}
