/** The per-user energy ledger: raw counters, derived metrics and the three mutators. */
module Accounts {
  import opened Wrappers

  /** The carbon factor used when none is given, in offset units per kWh generated. */
  const DefaultCarbonFactor: real := 0.5

  /** The reporting snapshot of one account: its raw fields and every derived metric. */
  datatype Metrics = Metrics(
    accountId: string,
    name: string,
    generated: real,
    consumed: real,
    credits: real,
    surplus: real,
    deficit: real,
    efficiency: real,
    selfSufficiency: real,
    carbonOffset: real)

  /**
   * One participant's ledger. `generated` and `consumed` are cumulative kWh,
   * `credits` the platform-currency balance. No lower bound is enforced on
   * any of them: the mutators accept negative values, as the library does.
   */
  class EnergyAccount {
    const accountId: string
    const name: string
    var generated: real
    var consumed: real
    var credits: real

    constructor (accountId: string, name: string,
                 generated: real := 0.0, consumed: real := 0.0, credits: real := 0.0)
      ensures this.accountId == accountId && this.name == name
      ensures this.generated == generated && this.consumed == consumed && this.credits == credits
    {
      this.accountId := accountId;
      this.name := name;
      this.generated := generated;
      this.consumed := consumed;
      this.credits := credits;
    }

    /** The net energy position, generated minus consumed (a specification helper). */
    ghost function NetEnergy(): real
      reads this
    {
      generated - consumed
    }

    /** Energy available to trade: the least non-negative amount covering generated - consumed. */
    function CalculateSurplus(): (surplus: real)
      reads this
      ensures surplus >= 0.0 && surplus >= generated - consumed
      ensures surplus == 0.0 || surplus == generated - consumed
    {
      if 0.0 >= generated - consumed then 0.0 else generated - consumed
    }

    /** Energy shortfall: the least non-negative amount covering consumed - generated. */
    function CalculateDeficit(): (deficit: real)
      reads this
      ensures deficit >= 0.0 && deficit >= consumed - generated
      ensures deficit == 0.0 || deficit == consumed - generated
    {
      if 0.0 >= consumed - generated then 0.0 else consumed - generated
    }

    /**
     * Generated energy as a percentage of consumed energy; exactly 100 when
     * nothing was consumed, whatever was generated, and unbounded above.
     */
    function CalculateEfficiency(): (efficiency: real)
      reads this
      ensures consumed == 0.0 ==> efficiency == 100.0
      ensures consumed != 0.0 ==> efficiency * consumed == generated * 100.0
    {
      if consumed == 0.0 then 100.0 else generated / consumed * 100.0
    }

    /** The efficiency capped at 100 percent. */
    function CalculateSelfSufficiency(): (selfSufficiency: real)
      reads this
      ensures selfSufficiency <= 100.0
      ensures selfSufficiency <= CalculateEfficiency()
      ensures selfSufficiency == 100.0 || selfSufficiency == CalculateEfficiency()
    {
      if consumed == 0.0 then 100.0
      else
        var ratio := generated / consumed * 100.0;
        if 100.0 <= ratio then 100.0 else ratio
    }

    /** The carbon emissions avoided by the generated energy at the given factor. */
    function CalculateCarbonOffset(carbonFactor: real := DefaultCarbonFactor): (offset: real)
      reads this
      ensures carbonFactor == DefaultCarbonFactor ==> offset + offset == generated
      ensures generated >= 0.0 && carbonFactor >= 0.0 ==> offset >= 0.0
      ensures generated == 0.0 || carbonFactor == 0.0 ==> offset == 0.0
    {
      generated * carbonFactor
    }

    /**
     * Sets whichever of the two counters is given and leaves the other, and
     * the credits, as they were. Negative values are accepted.
     */
    method UpdateEnergy(generated: Option<real> := None, consumed: Option<real> := None)
      modifies this
      ensures this.generated == if generated.Some? then generated.value else old(this.generated)
      ensures this.consumed == if consumed.Some? then consumed.value else old(this.consumed)
      ensures credits == old(credits)
    {
      if generated.Some? {
        this.generated := generated.value;
      }
      if consumed.Some? {
        this.consumed := consumed.value;
      }
    }

    /** Adds `amount` to the credits, without any guard; the energy counters stay. */
    method AddCredits(amount: real)
      modifies this
      ensures credits == old(credits) + amount
      ensures generated == old(generated) && consumed == old(consumed)
    {
      credits := credits + amount;
    }

    /**
     * Takes `amount` off the credits when the balance covers it and reports
     * whether it did; otherwise nothing changes. A non-negative balance
     * therefore stays non-negative.
     */
    method DeductCredits(amount: real) returns (ok: bool)
      modifies this
      ensures ok <==> old(credits) >= amount
      ensures credits == if ok then old(credits) - amount else old(credits)
      ensures old(credits) >= 0.0 ==> credits >= 0.0
      ensures generated == old(generated) && consumed == old(consumed)
    {
      if credits >= amount {
        credits := credits - amount;
        return true;
      }
      return false;
    }

    /** A snapshot of the raw fields with every derived metric, which agree with each other. */
    function GetMetrics(): (m: Metrics)
      reads this
      ensures m.accountId == accountId && m.name == name
      ensures m.generated == generated && m.consumed == consumed && m.credits == credits
      ensures m.surplus == CalculateSurplus() && m.deficit == CalculateDeficit()
      ensures m.efficiency == CalculateEfficiency() && m.selfSufficiency == CalculateSelfSufficiency()
      ensures m.carbonOffset == CalculateCarbonOffset(DefaultCarbonFactor)
      ensures m.surplus - m.deficit == m.generated - m.consumed
      ensures m.surplus == 0.0 || m.deficit == 0.0
      ensures m.selfSufficiency <= 100.0 && m.selfSufficiency <= m.efficiency
    {
      Metrics(accountId, name, generated, consumed, credits,
              CalculateSurplus(), CalculateDeficit(), CalculateEfficiency(),
              CalculateSelfSufficiency(), CalculateCarbonOffset())
    }
  }

  /**
   * Surplus and deficit are never both positive, are both zero on a balanced
   * ledger, and together recover the net energy position.
   */
  lemma SurplusDeficitExclusive(a: EnergyAccount)
    ensures a.CalculateSurplus() >= 0.0 && a.CalculateDeficit() >= 0.0
    ensures !(a.CalculateSurplus() > 0.0 && a.CalculateDeficit() > 0.0)
    ensures a.generated == a.consumed ==> a.CalculateSurplus() == 0.0 && a.CalculateDeficit() == 0.0
    ensures a.CalculateSurplus() - a.CalculateDeficit() == a.generated - a.consumed
  {
  }

  /**
   * On a ledger with non-negative counters, the account is fully
   * self-sufficient exactly when it has no deficit.
   */
  lemma FullySelfSufficientIffNoDeficit(a: EnergyAccount)
    requires a.generated >= 0.0 && a.consumed >= 0.0
    ensures a.CalculateSelfSufficiency() == 100.0 <==> a.CalculateDeficit() == 0.0
  {
    if a.consumed != 0.0 {
      ScaleByPositive(a.CalculateEfficiency(), 100.0, a.consumed);
      assert a.CalculateSelfSufficiency() == 100.0 <==> a.CalculateEfficiency() >= 100.0;
      assert a.CalculateEfficiency() >= 100.0 <==> a.generated >= a.consumed;
    }
  }

  /** Multiplying both sides by a positive factor keeps their order. */
  lemma ScaleByPositive(x: real, y: real, factor: real)
    requires factor > 0.0
    ensures x * factor >= y * factor <==> x >= y
  {
    if x >= y {
      assert x * factor - y * factor == (x - y) * factor;
    } else {
      assert y * factor - x * factor == (y - x) * factor;
    }
  }

  /**
   * Once something was consumed, efficiency exceeds 100 percent exactly when
   * there is a surplus. (With nothing consumed, efficiency is 100 even when
   * there is a surplus.)
   */
  lemma EfficiencyAboveHundredIffSurplus(a: EnergyAccount)
    requires a.consumed > 0.0
    ensures a.CalculateEfficiency() > 100.0 <==> a.CalculateSurplus() > 0.0
  {
  }
}
