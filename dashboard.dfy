/** The dashboard: the four counters, the collection rate and the role that
    decides whether the user-management card is shown. */
module Dashboard {
  import opened Common

  /** `count || 0`: an absent count reads as zero. */
  function CountOrZero(c: Option<nat>): (n: nat)
    ensures c.None? ==> n == 0
    ensures c.Some? ==> n == c.value
  {
    if c.Some? then c.value else 0
  }

  /** The kits counted by the rate: pending plus collected. */
  function TotalKits(pending: Option<nat>, collected: Option<nat>): nat
  {
    CountOrZero(pending) + CountOrZero(collected)
  }

  /** `Math.round(collected / total * 100)`, or 0 when there are no kits:
      the whole percentage nearest to the collected share, a half rounding up. */
  function CollectionRate(pending: Option<nat>, collected: Option<nat>): (rate: nat)
    ensures rate <= 100
    ensures TotalKits(pending, collected) == 0 ==> rate == 0
    ensures var t, c := TotalKits(pending, collected), CountOrZero(collected);
            t > 0 ==> 2 * t * rate <= 200 * c + t < 2 * t * (rate + 1)
  {
    var t, c := TotalKits(pending, collected), CountOrZero(collected);
    if t > 0 then
      HalfUpBounds(c, t);
      (200 * c + t) / (2 * t)
    else 0
  }

  /** A strict inequality between multiples of `b` holds between the factors. */
  lemma MulCancelLt(b: nat, x: nat, y: nat)
    requires b * x < b * y
    ensures x < y
  {
  }

  /** The quotient that implements round-half-up lies in its bracket and
      does not exceed 100 when `c <= t`. */
  lemma HalfUpBounds(c: nat, t: nat)
    requires 0 < t && c <= t
    ensures var q := (200 * c + t) / (2 * t);
            0 <= q <= 100 && 2 * t * q <= 200 * c + t < 2 * t * (q + 1)
  {
    var a, b := 200 * c + t, 2 * t;
    var q := a / b;
    assert b * q <= a < b * q + b;
    assert a < b * 101;
    MulCancelLt(b, q, 101);
  }

  /** The counters the dashboard shows. */
  datatype Stats = Stats(totalRunners: nat, availableKits: nat, collectedKits: nat, collectionRate: nat)

  /** `fetchStats`: every counter is its count, or 0 when the count is absent. */
  function StatsFrom(runners: Option<nat>, pending: Option<nat>, collected: Option<nat>): (s: Stats)
    ensures s.totalRunners == CountOrZero(runners)
    ensures s.availableKits == CountOrZero(pending) && s.collectedKits == CountOrZero(collected)
    ensures s.collectionRate == CollectionRate(pending, collected)
    ensures s.collectionRate <= 100
    ensures s.availableKits + s.collectedKits == 0 ==> s.collectionRate == 0
  {
    Stats(CountOrZero(runners), CountOrZero(pending), CountOrZero(collected), CollectionRate(pending, collected))
  }

  /** Three pending kits and one collected give a rate of 25. */
  lemma OneInFourIsQuarter()
    ensures CollectionRate(Some(3), Some(1)) == 25
  {
    var r := CollectionRate(Some(3), Some(1));
    assert 8 * r <= 204 < 8 * (r + 1);
  }

  /** With nothing pending and something collected, the rate is 100. */
  lemma NothingPendingIsFull(pending: Option<nat>, collected: nat)
    requires CountOrZero(pending) == 0 && collected > 0
    ensures CollectionRate(pending, Some(collected)) == 100
  {
    var r := CollectionRate(pending, Some(collected));
    assert 2 * collected * 100 < 2 * collected * (r + 1);
    MulCancelLt(2 * collected, 100, r + 1);
  }

  /** With nothing collected, the rate is 0. */
  lemma NothingCollectedIsZero(pending: Option<nat>, collected: Option<nat>)
    requires CountOrZero(collected) == 0
    ensures CollectionRate(pending, collected) == 0
  {
    var t, r := TotalKits(pending, collected), CollectionRate(pending, collected);
    if t > 0 {
      assert 2 * t * r < 2 * t * 1;
      MulCancelLt(2 * t, r, 1);
    }
  }

  /** What the role lookup (`select('role').eq('user_id', …).single()`)
      answered: an error (or an exception), or the row's role. */
  datatype RoleLookup = LookupFailed | Found(role: Option<string>)

  /** `fetchUserRole`: a failed lookup keeps the previous role; a found role
      is stored, a missing or empty one as null. */
  function RoleAfterLookup(previous: Option<string>, lookup: RoleLookup): (r: Option<string>)
    ensures lookup == LookupFailed ==> r == previous
    ensures lookup.Found? ==> (r.None? <==> lookup.role.None? || lookup.role == Some(""))
    ensures lookup.Found? && r.Some? ==> r == lookup.role && r.value != ""
  {
    match lookup
    case LookupFailed => previous
    case Found(role) => if role.Some? && role.value != "" then role else None
  }

  /** The user-management card is shown for the role `admin` only. */
  predicate ShowsAdminCard(role: Option<string>)
  {
    role == Some("admin")
  }

  /** A successful lookup never leaves an empty role behind, so the card
      follows the stored role exactly. */
  lemma AdminCardAfterLookup(previous: Option<string>, role: Option<string>)
    ensures ShowsAdminCard(RoleAfterLookup(previous, Found(role))) <==> role == Some("admin")
  {
  }
}
