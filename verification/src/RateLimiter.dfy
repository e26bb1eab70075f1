/** The per-address connection throttle (server.rs). */
module RateLimiting {
  import opened Bytes

  const RATE_LIMIT_PER_MIN := 20
  const WINDOW_MS := 60_000
  const RATE_LIMIT_BAN_MS := 300_000

  type Addr = nat

  /** What the limiter remembers about one address. */
  datatype Slot = Slot(start: Option<nat>, count: nat, bannedUntil: Option<nat>)

  const NEW_SLOT := Slot(None, 0, None)

  /** One attempt at time `now`: the slot afterwards and the decision. */
  function Attempt(s: Slot, now: nat): (Slot, bool) {
    if s.bannedUntil.Some? && now < s.bannedUntil.value then (s, false) else
    var start := if s.start.Some? then s.start.value else now;
    var fresh' := now >= start && now - start >= WINDOW_MS;
    var start' := if fresh' then now else start;
    var c := (if fresh' then 0 else s.count) + 1;
    if c > RATE_LIMIT_PER_MIN then (Slot(Some(start'), c, Some(now + RATE_LIMIT_BAN_MS)), false)
    else (Slot(Some(start'), c, None), true)
  }

  class RateLimiter {
    var windowStart: map<Addr, nat>
    var counts: map<Addr, nat>
    var bannedUntil: map<Addr, nat>

    function SlotOf(ip: Addr): Slot
      reads this
    {
      Slot(if ip in windowStart then Some(windowStart[ip]) else None,
           if ip in counts then counts[ip] else 0,
           if ip in bannedUntil then Some(bannedUntil[ip]) else None)
    }

    constructor ()
      ensures forall ip :: SlotOf(ip) == NEW_SLOT
    {
      windowStart, counts, bannedUntil := map[], map[], map[];
    }

    /** `allow`: decides by this address's slot alone and touches no other. */
    method Allow(ip: Addr, now: nat) returns (ok: bool)
      modifies this
      ensures (SlotOf(ip), ok) == Attempt(old(SlotOf(ip)), now)
      ensures forall other :: other != ip ==> SlotOf(other) == old(SlotOf(other))
    {
      if ip in bannedUntil {
        if now < bannedUntil[ip] {
          return false;
        }
        bannedUntil := bannedUntil - {ip};
      }
      if ip !in windowStart {
        windowStart := windowStart[ip := now];
      }
      var start := windowStart[ip];
      if (if now < start then 0 else now - start) >= WINDOW_MS {
        windowStart := windowStart[ip := now];
        counts := counts[ip := 0];
      }
      if ip !in counts {
        counts := counts[ip := 0];
      }
      counts := counts[ip := counts[ip] + 1];
      if counts[ip] > RATE_LIMIT_PER_MIN {
        bannedUntil := bannedUntil[ip := now + RATE_LIMIT_BAN_MS];
        return false;
      }
      return true;
    }
  }

  // ------------------------------------------------------------------
  // Runs: attempts from any addresses, under a clock that does not go back
  // ------------------------------------------------------------------

  datatype Try = Try(ip: Addr, now: nat)

  predicate Ordered(ts: seq<Try>) {
    forall i, j :: 0 <= i <= j < |ts| ==> ts[i].now <= ts[j].now
  }

  /** The slot of `ip` after the first `k` attempts. */
  function SlotAt(ts: seq<Try>, k: nat, ip: Addr): Slot
    requires k <= |ts|
  {
    if k == 0 then NEW_SLOT
    else if ts[k - 1].ip != ip then SlotAt(ts, k - 1, ip)
    else Attempt(SlotAt(ts, k - 1, ip), ts[k - 1].now).0
  }

  predicate Allowed(ts: seq<Try>, k: nat)
    requires k < |ts|
  {
    Attempt(SlotAt(ts, k, ts[k].ip), ts[k].now).1
  }

  /** How many of the first `k` attempts were from `ip`, at `lo` or later, and admitted. */
  function AdmittedFrom(ts: seq<Try>, k: nat, ip: Addr, lo: int): nat
    requires k <= |ts|
  {
    if k == 0 then 0 else
    AdmittedFrom(ts, k - 1, ip, lo) +
    if ts[k - 1].ip == ip && lo <= ts[k - 1].now && Allowed(ts, k - 1) then 1 else 0
  }

  /** Those in the half-open interval from `lo` to `hi`. */
  function AdmittedIn(ts: seq<Try>, k: nat, ip: Addr, lo: int, hi: int): int
    requires k <= |ts|
  {
    AdmittedFrom(ts, k, ip, lo) - AdmittedFrom(ts, k, ip, hi)
  }

  lemma {:induction false} FewerLater(ts: seq<Try>, k: nat, ip: Addr, lo: int, hi: int)
    requires k <= |ts| && lo <= hi
    ensures AdmittedFrom(ts, k, ip, hi) <= AdmittedFrom(ts, k, ip, lo)
  {
    if k > 0 { FewerLater(ts, k - 1, ip, lo, hi); }
  }

  function Min(a: nat, b: nat): nat { if a < b then a else b }

  /** The slot accounts for what was admitted: all of the current window, and little before it. */
  ghost predicate Accounted(ts: seq<Try>, k: nat, ip: Addr)
    requires k <= |ts|
  {
    var s := SlotAt(ts, k, ip);
    s.count <= RATE_LIMIT_PER_MIN + 1 && (s.bannedUntil.Some? ==> s.start.Some? && s.count == RATE_LIMIT_PER_MIN + 1) &&
    if s.start.None? then s.count == 0 && AdmittedFrom(ts, k, ip, 0) == 0
    else
      var from := s.start.value;
      (k > 0 && from <= ts[k - 1].now) && s.count >= 1 &&
      AdmittedFrom(ts, k, ip, from) == Min(s.count, RATE_LIMIT_PER_MIN) &&
      AdmittedFrom(ts, k, ip, from + WINDOW_MS) == 0 &&
      AdmittedIn(ts, k, ip, from - WINDOW_MS, from) <= RATE_LIMIT_PER_MIN &&
      (s.bannedUntil.Some? ==> from + RATE_LIMIT_BAN_MS <= s.bannedUntil.value) &&
      (s.bannedUntil.None? ==> s.count <= RATE_LIMIT_PER_MIN)
  }

  lemma {:induction false} SlotAccounts(ts: seq<Try>, k: nat, ip: Addr)
    requires Ordered(ts) && k <= |ts|
    ensures Accounted(ts, k, ip)
  {
    if k > 0 {
      SlotAccounts(ts, k - 1, ip);
      var s, t := SlotAt(ts, k - 1, ip), ts[k - 1];
      if t.ip == ip && !(s.bannedUntil.Some? && t.now < s.bannedUntil.value) {
        if s.start.None? { FirstWindow(ts, k, ip); }
        else if t.now - s.start.value >= WINDOW_MS { NextWindow(ts, k, ip); }
        else { SameWindow(ts, k, ip); }
      }
    }
  }

  lemma FirstWindow(ts: seq<Try>, k: nat, ip: Addr)
    requires Ordered(ts) && 0 < k <= |ts| && ts[k - 1].ip == ip && Accounted(ts, k - 1, ip)
    requires SlotAt(ts, k - 1, ip).start.None?
    ensures Accounted(ts, k, ip)
  {
    var now := ts[k - 1].now;
    FewerLater(ts, k - 1, ip, 0, now);
    FewerLater(ts, k - 1, ip, 0, now + WINDOW_MS);
    NoneBeforeZero(ts, k - 1, ip, now - WINDOW_MS);
  }

  lemma {:induction false} NoneBeforeZero(ts: seq<Try>, k: nat, ip: Addr, lo: int)
    requires k <= |ts|
    ensures lo <= 0 ==> AdmittedFrom(ts, k, ip, lo) == AdmittedFrom(ts, k, ip, 0)
    ensures lo >= 0 ==> AdmittedFrom(ts, k, ip, lo) <= AdmittedFrom(ts, k, ip, 0)
  {
    if k > 0 { NoneBeforeZero(ts, k - 1, ip, lo); }
  }

  lemma NextWindow(ts: seq<Try>, k: nat, ip: Addr)
    requires Ordered(ts) && 0 < k <= |ts| && ts[k - 1].ip == ip && Accounted(ts, k - 1, ip)
    requires var s := SlotAt(ts, k - 1, ip);
      s.start.Some? && s.start.value + WINDOW_MS <= ts[k - 1].now &&
      (s.bannedUntil.Some? ==> s.bannedUntil.value <= ts[k - 1].now)
    ensures Accounted(ts, k, ip)
  {
    var now, from := ts[k - 1].now, SlotAt(ts, k - 1, ip).start.value;
    FewerLater(ts, k - 1, ip, from + WINDOW_MS, now);
    FewerLater(ts, k - 1, ip, from + WINDOW_MS, now + WINDOW_MS);
    FewerLater(ts, k - 1, ip, from, now - WINDOW_MS);
    assert Attempt(SlotAt(ts, k - 1, ip), now) == (Slot(Some(now), 1, None), true);
  }

  lemma SameWindow(ts: seq<Try>, k: nat, ip: Addr)
    requires Ordered(ts) && 0 < k <= |ts| && ts[k - 1].ip == ip && Accounted(ts, k - 1, ip)
    requires var s := SlotAt(ts, k - 1, ip);
      s.start.Some? && ts[k - 1].now < s.start.value + WINDOW_MS &&
      (s.bannedUntil.Some? ==> s.bannedUntil.value <= ts[k - 1].now)
    ensures Accounted(ts, k, ip)
  {
    var s := SlotAt(ts, k - 1, ip);
    assert s.bannedUntil.None?;
    assert k > 1 && s.start.value <= ts[k - 2].now <= ts[k - 1].now;
  }

  /** In every fixed window at most 20 attempts of an address are admitted, and its counter never
      exceeds 21. */
  lemma WindowBound(ts: seq<Try>, k: nat, ip: Addr)
    requires Ordered(ts) && k <= |ts|
    ensures SlotAt(ts, k, ip).count <= 21
    ensures SlotAt(ts, k, ip).start.Some? ==> AdmittedFrom(ts, k, ip, SlotAt(ts, k, ip).start.value) <= 20
  {
    SlotAccounts(ts, k, ip);
  }

  /** In any half-open interval of 60,000 ms whatsoever at most 40 are admitted. */
  lemma {:induction false} IntervalBound(ts: seq<Try>, k: nat, ip: Addr, t: int)
    requires Ordered(ts) && k <= |ts|
    ensures AdmittedIn(ts, k, ip, t, t + WINDOW_MS) <= 40
  {
    if k > 0 {
      IntervalBound(ts, k - 1, ip, t);
      var now := ts[k - 1].now;
      if ts[k - 1].ip == ip && Allowed(ts, k - 1) && t <= now < t + WINDOW_MS {
        SlotAccounts(ts, k, ip);
        var from := SlotAt(ts, k, ip).start.value;
        assert from <= now < from + WINDOW_MS by { AdmittedInWindow(ts, k, ip); }
        if t >= from {
          FewerLater(ts, k, ip, from, t);
        } else {
          FewerLater(ts, k, ip, from - WINDOW_MS, t);
        }
      }
    }
  }

  /** An admitted attempt falls into the window that is current after it. */
  lemma AdmittedInWindow(ts: seq<Try>, k: nat, ip: Addr)
    requires Ordered(ts) && 0 < k <= |ts| && ts[k - 1].ip == ip && Allowed(ts, k - 1)
    ensures var s := SlotAt(ts, k, ip); s.start.Some? && s.start.value <= ts[k - 1].now < s.start.value + WINDOW_MS
  {
    SlotAccounts(ts, k, ip);
  }

  /** The slot of a banned address does not move while the ban lasts. */
  lemma {:induction false} BanHolds(ts: seq<Try>, k: nat, j: nat, ip: Addr, until: nat)
    requires Ordered(ts) && k <= j <= |ts| && SlotAt(ts, k, ip).bannedUntil == Some(until)
    requires forall i :: k <= i < j && ts[i].ip == ip ==> ts[i].now < until
    ensures SlotAt(ts, j, ip) == SlotAt(ts, k, ip)
  {
    if k < j { BanHolds(ts, k, j - 1, ip, until); }
  }

  /** The attempt that goes over the limit bans its address for exactly 300,000 ms: until the first
      attempt at or after the end of the ban every attempt is refused, and that one is admitted. */
  lemma BanLastsExactly(ts: seq<Try>, k: nat, j: nat)
    requires Ordered(ts) && k < j < |ts| && ts[j].ip == ts[k].ip
    requires SlotAt(ts, k + 1, ts[k].ip).bannedUntil == Some(ts[k].now + RATE_LIMIT_BAN_MS)
    requires forall i :: k < i < j && ts[i].ip == ts[k].ip ==> ts[i].now < ts[k].now + RATE_LIMIT_BAN_MS
    ensures Allowed(ts, j) <==> ts[j].now >= ts[k].now + RATE_LIMIT_BAN_MS
  {
    var ip, until := ts[k].ip, ts[k].now + RATE_LIMIT_BAN_MS;
    BanHolds(ts, k + 1, j, ip, until);
    SlotAccounts(ts, j, ip);
  }

  /** Refusals come only from bans, and a ban is the 21st attempt of a window. */
  lemma RefusedOnlyWhenOver(ts: seq<Try>, k: nat)
    requires Ordered(ts) && k < |ts| && !Allowed(ts, k)
    ensures var s := SlotAt(ts, k + 1, ts[k].ip);
      s.bannedUntil.Some? && ts[k].now < s.bannedUntil.value && s.count == RATE_LIMIT_PER_MIN + 1
  {
    SlotAccounts(ts, k, ts[k].ip);
    SlotAccounts(ts, k + 1, ts[k].ip);
  }
}
