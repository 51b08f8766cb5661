/** What breaks exclusivity: a live call that takes longer than STALE_PROCESSING_MS. */
module Sharpness {
  import opened Protocol
  import opened InFlight
  import opened Regimes
  import opened Exclusivity
  import opened Witness

  /** A lone sweep takes the overdue, but live, call for dead. */
  lemma OverdueReleased(cfg: Config, r: Regime) returns (run: seq<Label>)
    requires (r.bound.Some? ==> cfg.staleMs < r.bound.value) && 2 <= cfg.maxAttempts
    ensures Follows(cfg, r, run) && After(cfg, run) == ReleasedBy(Overdue(cfg), 0)
  {
    var s := Overdue(cfg);
    run := OverdueReached(cfg, r);
    ClaimIsStale(cfg);
    run := SweptNow(cfg, r, run, s);
  }

  /**
   * For any longer bound, however many other assumptions are made: if process() may be called directly, or the
   * job of a live call may be declared stalled, one sweep is enough for two live charges of one payment.
   */
  lemma LateCallIsChargedTwice(cfg: Config, r: Regime) returns (run: seq<Label>)
    requires (r.bound.Some? ==> cfg.staleMs < r.bound.value) && 2 <= cfg.maxAttempts && !Serial(r)
    ensures Follows(cfg, r, run) && !Exclusive(After(cfg, run), 0)
  {
    var s := ReleasedBy(Overdue(cfg), 0);
    run := OverdueReleased(cfg, r);
    run := Reclaimed(cfg, r, run, s, 1, !r.queueOnly);
    TwoInFlight(cfg, ClaimedBy(s, 1, !r.queueOnly), 0, 1);
  }

  lemma TwoInFlight(cfg: Config, s: State, v: nat, w: nat)
    requires v != w && IsHolding(s, v) && IsHolding(s, w)
    requires s.workers[v].pid == 0 && s.workers[w].pid == 0
    ensures !Exclusive(s, 0)
  {
    assert v in InFlightOn(s, 0) && w in InFlightOn(s, 0);
  }
}
