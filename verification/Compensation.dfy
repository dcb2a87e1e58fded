/** The compensation service: the profile of a user whose alert turned out to be false. */
module Compensation {
  import opened Domain
  import opened Ledger

  /** A profile row loaded into a session. */
  class RiskProfile {
    var totalAlerts: nat
    var falsePositiveCount: nat
    var riskScore: int

    constructor (row: Profile)
      ensures Row() == row
    {
      totalAlerts, falsePositiveCount, riskScore := row.total, row.falsePositives, row.score;
    }

    function Row(): Profile
      reads this
    {
      Profile(totalAlerts, falsePositiveCount, riskScore)
    }
  }

  method RecalculateUserRiskProfile(existing: RiskProfile?) returns (profile: RiskProfile)
    modifies existing
    ensures existing == null ==> fresh(profile) && profile.Row() == Profile(0, 1, 0)
    ensures existing != null ==> profile == existing && profile.Row() == Recalculated(old(existing.Row()))
  {
    if existing == null {
      profile := new RiskProfile(Profile(0, 1, 0));
    } else {
      profile := existing;
      profile.falsePositiveCount := profile.falsePositiveCount + 1;
      var net: int := profile.totalAlerts - profile.falsePositiveCount;
      var effective := if net > 0 then net else 0;
      var raw := 0;
      if profile.totalAlerts > 0 {
        raw := if 2500 * effective < 10000 then 2500 * effective else 10000;
      }
      profile.riskScore := if raw > 10000 then 10000 else if raw < 0 then 0 else raw;
    }
  }

  /**
   Compensation lowers a score, or keeps it, exactly when the score is at its maximum or worth a quarter for
   each alert that stays unmarked.
   */
  lemma LowersIff(p: Profile)
    requires 0 <= p.score <= 10000
    ensures Recalculated(p).score <= p.score <==> p.score == 10000 || 2500 * (p.total - p.falsePositives - 1) <= p.score
  {
  }

  /**
   Detection never writes the score, so the first compensation after several alerts raises it from zero to the
   top.
   */
  lemma FirstCompensationRaises()
    ensures Recalculated(Profile(5, 0, 0)) == Profile(5, 1, 10000)
  {
  }

  /** n compensations one after the other, with no alert in between. */
  function Repeated(p: Profile, n: nat): Profile {
    if n == 0 then p else Recalculated(Repeated(p, n - 1))
  }

  /** From the first compensation on the score only falls, and it is zero as soon as every alert has been marked. */
  lemma {:induction false} RepeatedFalls(p: Profile, n: nat)
    requires 1 <= n
    ensures Repeated(p, n).total == p.total && Repeated(p, n).falsePositives == p.falsePositives + n
    ensures Repeated(p, n + 1).score <= Repeated(p, n).score
    ensures Repeated(p, n).score == 0 <==> p.total <= p.falsePositives + n
  {
    if n > 1 {
      RepeatedFalls(p, n - 1);
    }
  }
}
