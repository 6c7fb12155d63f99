/** Timer deadlines: the library keeps them in nanoseconds of a monotonic clock, the
    application sees milliseconds. Unsigned and signed 64-bit ranges are explicit. */
module Deadlines {
  import opened Common

  type u64 = n: nat | n < 0x1_0000_0000_0000_0000

  const MILLISECONDS: nat := 1_000_000

  /** The rounded wait until the expiry. */
  function TimeoutMs(expiry: u64, now: u64): nat {
    if expiry <= now then 0 else (expiry - now) / MILLISECONDS
  }

  /** The wait never passes the expiry, is short of it by less than a millisecond, and fits
      a signed 64-bit integer, also after adding an epoch clock below 2^62 ms. */
  lemma TimeoutIsTight(expiry: u64, now: u64, epochMs: nat)
    requires epochMs < 0x4000_0000_0000_0000
    ensures expiry <= now ==> TimeoutMs(expiry, now) == 0
    ensures expiry > now ==> now + TimeoutMs(expiry, now) * 1_000_000 <= expiry
    ensures expiry > now ==> expiry < now + (TimeoutMs(expiry, now) + 1) * 1_000_000
    ensures epochMs + TimeoutMs(expiry, now) <= 0x7fff_ffff_ffff_ffff
  {
  }

  /** A later expiry never gives a shorter wait, a later clock never a longer one. */
  lemma TimeoutMonotone(expiry: u64, expiry': u64, now: u64, now': u64)
    requires expiry <= expiry' && now' <= now
    ensures TimeoutMs(expiry, now) <= TimeoutMs(expiry', now')
  {
    if expiry > now {
      DivMonotone(expiry - now, expiry' - now');
    }
  }

  lemma DivMonotone(a: nat, b: nat)
    requires a <= b
    ensures a / MILLISECONDS <= b / MILLISECONDS
  {
  }

  function Min(a: u64, b: u64): u64 {
    if a < b then a else b
  }

  /** The earliest expiry among those that are there. */
  function Earliest(expiries: seq<Option<u64>>): Option<u64> {
    if expiries == [] then None
    else
      var rest := Earliest(expiries[..|expiries| - 1]);
      match expiries[|expiries| - 1]
      case None => rest
      case Some(e) => if rest.Some? then Some(Min(rest.value, e)) else Some(e)
  }

  /** `Earliest` is one of the expiries and no expiry is before it; none if there are none. */
  lemma {:induction false} EarliestIsLeast(expiries: seq<Option<u64>>)
    ensures Earliest(expiries).None? <==> forall i :: 0 <= i < |expiries| ==> expiries[i].None?
    ensures Earliest(expiries).Some? ==> Earliest(expiries) in expiries
    ensures Earliest(expiries).Some? ==> forall i :: 0 <= i < |expiries| && expiries[i].Some? ==>
      Earliest(expiries).value <= expiries[i].value
  {
    if expiries != [] {
      var n := |expiries| - 1;
      EarliestIsLeast(expiries[..n]);
      assert expiries == expiries[..n] + [expiries[n]];
    }
  }
}
