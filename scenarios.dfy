/**
 * Worked examples of the library's behaviour, proved from the contracts of the
 * account, transaction and marketplace alone.
 */
module Scenarios {
  import opened Wrappers
  import opened Accounts
  import opened Transactions
  import opened Marketplace

  /** Selling 20 kWh of a 60 kWh surplus back at 0.15 per kWh. */
  method BuybackScenario() returns (success: bool, consumed: real, credits: real)
    ensures success && consumed == 60.0 && credits == 3.0
  {
    var a := new EnergyAccount("a", "A", 100.0, 40.0);
    var tx := new EnergyTransaction(a, null, 20.0, "buyback", 0.15);
    var message;
    success, message := tx.Execute();
    consumed, credits := a.consumed, a.credits;
  }

  /** Lending 15 kWh out of a 10 kWh surplus fails and changes neither account. */
  method LoanBeyondSurplusScenario()
    returns (success: bool, message: string, fromLedger: Metrics, toLedger: Metrics)
    ensures !success && message == "Insufficient surplus energy"
    ensures fromLedger.generated == 100.0 && fromLedger.consumed == 90.0 && fromLedger.credits == 0.0
    ensures toLedger.generated == 0.0 && toLedger.consumed == 0.0 && toLedger.credits == 0.0
  {
    var a := new EnergyAccount("a", "A", 100.0, 90.0);
    var b := new EnergyAccount("b", "B");
    var tx := new EnergyTransaction(a, b, 15.0, "loan");
    success, message := tx.Execute();
    fromLedger, toLedger := a.GetMetrics(), b.GetMetrics();
  }

  /** Deducting 50 from 30 credits fails; deducting 20 afterwards leaves 10. */
  method DeductionScenario() returns (first: bool, second: bool, balance: real)
    ensures !first && second && balance == 10.0
  {
    var a := new EnergyAccount("a", "A", credits := 30.0);
    first := a.DeductCredits(50.0);
    second := a.DeductCredits(20.0);
    balance := a.credits;
  }

  /** A kind outside the five is refused at construction. */
  method InvalidTypeScenario() returns (r: Result<EnergyTransaction, Error>)
    ensures r == Failure(InvalidTransactionType)
  {
    var a := new EnergyAccount("a", "A", 100.0);
    r := NewTransaction(a, null, 1.0, "invalid");
  }

  /**
   * Run one after the other, two 8 kWh transactions out of a 10 kWh surplus
   * cannot both succeed: the second sees the surplus the first left.
   */
  method SequentialTransactionsScenario() returns (first: bool, second: bool, surplus: real)
    ensures first && !second && surplus == 2.0
  {
    var a := new EnergyAccount("a", "A", 10.0);
    var b := new EnergyAccount("b", "B");
    var c := new EnergyAccount("c", "C");
    var t1 := new EnergyTransaction(a, b, 8.0, "loan");
    var t2 := new EnergyTransaction(a, c, 8.0, "donation");
    var message;
    first, message := t1.Execute();
    second, message := t2.Execute();
    surplus := a.CalculateSurplus();
  }

  /**
   * A transaction priced from the marketplace keeps its credits when the
   * marketplace's rate changes afterwards; kinds without a rate price at 0.
   */
  method RateLockedAtConstructionScenario()
    returns (creditsTransferred: real, buybackRate: real, donationRate: real)
    ensures creditsTransferred == 3.0 && buybackRate == 0.3 && donationRate == 0.0
  {
    var market := new EnergyMarketplace();
    var a := new EnergyAccount("a", "A", 100.0);
    var tx := new EnergyTransaction(a, null, 20.0, "buyback", market.GetRate("buyback"));
    market.SetRate("buyback", 0.3);
    creditsTransferred := tx.creditsTransferred;
    buybackRate := market.GetRate("buyback");
    donationRate := market.GetRate("donation");
  }

  /**
   * What a caller that executes a transaction between registered accounts can
   * conclude about the registry: a peer transaction (even one from an account
   * to itself) keeps its total net energy, a buyback lowers it by the
   * amount, and a failed one keeps it.
   */
  method ExecuteRegistered(m: EnergyMarketplace, tx: EnergyTransaction) returns (success: bool, message: string)
    requires m.Valid()
    requires m.GetAccount(tx.fromAccount.accountId) == tx.fromAccount
    requires tx.toAccount != null ==> m.GetAccount(tx.toAccount.accountId) == tx.toAccount
    modifies tx.fromAccount, tx.toAccount
    ensures success <==> old(tx.fromAccount.CalculateSurplus()) >= tx.amount
    ensures success && tx.toAccount != null ==> m.TotalNetEnergy() == old(m.TotalNetEnergy())
    ensures success && tx.toAccount == null ==>
              m.TotalNetEnergy() == old(m.TotalNetEnergy()) - tx.amount
    ensures !success ==> m.TotalNetEnergy() == old(m.TotalNetEnergy())
  {
    ghost var before := m.NetEnergies();
    success, message := tx.Execute();
    ghost var from, to, amount := tx.fromAccount, tx.toAccount, tx.amount;
    if success && to != null && to != from {
      ghost var after := before[from.accountId := before[from.accountId] - amount]
                               [to.accountId := before[to.accountId] + amount];
      forall id | id in m.accounts
        ensures m.NetEnergies()[id] == after[id]
      {
        var a := m.accounts[id];
        if a != from && a != to {
          assert a.NetEnergy() == old(a.NetEnergy());
        }
      }
      assert m.NetEnergies() == after;
      TransferKeepsTotal(before, from.accountId, to.accountId, amount);
    } else if success && to == null {
      ghost var after := before[from.accountId := before[from.accountId] - amount];
      forall id | id in m.accounts
        ensures m.NetEnergies()[id] == after[id]
      {
        var a := m.accounts[id];
        if a != from {
          assert a.NetEnergy() == old(a.NetEnergy());
        }
      }
      assert m.NetEnergies() == after;
      WithdrawalLowersTotal(before, from.accountId, amount);
    } else if !success || to == from {
      assert m.NetEnergies() == before;
    }
  }
}
