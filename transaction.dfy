/** A single transfer of energy out of one account, optionally into another, priced at a fixed rate. */
module Transactions {
  import opened Wrappers
  import opened Accounts

  /** The five kinds a transaction may have, in the library's order. */
  const TransactionTypes: seq<string> := ["buyback", "loan", "donation", "purchase", "transfer"]

  const InsufficientSurplus: string := "Insufficient surplus energy"
  const TransactionSuccessful: string := "Transaction successful"

  predicate IsTransactionType(transactionType: string)
  {
    transactionType in TransactionTypes
  }

  /** Exactly the five listed kinds are accepted; anything else, such as "invalid", is not. */
  lemma TransactionTypesExactly(t: string)
    ensures IsTransactionType(t) <==>
            t == "buyback" || t == "loan" || t == "donation" || t == "purchase" || t == "transfer"
    ensures !IsTransactionType("invalid") && !IsTransactionType("")
  {
  }

  /** The error raised when a transaction is built with an unknown kind. */
  datatype Error = InvalidTransactionType

  /**
   * A transaction between `fromAccount` and an optional `toAccount` (null for
   * a buyback). Its terms are fixed when it is built: in particular the
   * credits it grants are computed once, from the rate given then.
   */
  class EnergyTransaction {
    const fromAccount: EnergyAccount
    const toAccount: EnergyAccount?
    const amount: real
    const transactionType: string
    const rate: real
    const creditsTransferred: real

    constructor (fromAccount: EnergyAccount, toAccount: EnergyAccount?, amount: real,
                 transactionType: string, rate: real := 0.0)
      requires IsTransactionType(transactionType)
      ensures this.fromAccount == fromAccount && this.toAccount == toAccount
      ensures this.amount == amount && this.transactionType == transactionType && this.rate == rate
      ensures creditsTransferred == amount * rate
    {
      this.fromAccount := fromAccount;
      this.toAccount := toAccount;
      this.amount := amount;
      this.transactionType := transactionType;
      this.rate := rate;
      this.creditsTransferred := amount * rate;
    }

    /**
     * Moves `amount` out of the source's surplus. When the surplus does not
     * cover the amount, fails and touches nothing. Otherwise the source
     * counts the amount as consumed and earns the fixed credits, and the
     * destination, if any, counts it as generated. The destination may be
     * the source itself, in which case both of its counters grow.
     */
    method Execute() returns (success: bool, message: string)
      modifies fromAccount, toAccount
      ensures success <==> old(fromAccount.CalculateSurplus()) >= amount
      ensures message == if success then TransactionSuccessful else InsufficientSurplus
      // failure changes neither account
      ensures !success ==> unchanged(fromAccount) && (toAccount != null ==> unchanged(toAccount))
      // effects on the source
      ensures success ==> fromAccount.consumed == old(fromAccount.consumed) + amount
      ensures success ==> fromAccount.credits == old(fromAccount.credits) + creditsTransferred
      ensures success ==> fromAccount.generated ==
                          old(fromAccount.generated) + (if toAccount == fromAccount then amount else 0.0)
      // effects on a distinct destination
      ensures success && toAccount != null && toAccount != fromAccount ==>
                toAccount.generated == old(toAccount.generated) + amount &&
                toAccount.consumed == old(toAccount.consumed) &&
                toAccount.credits == old(toAccount.credits)
      // consequences for the surplus and the net energy positions
      ensures success && toAccount != fromAccount && amount >= 0.0 ==>
                fromAccount.CalculateSurplus() == old(fromAccount.CalculateSurplus()) - amount
      ensures success && toAccount == fromAccount ==>
                fromAccount.CalculateSurplus() == old(fromAccount.CalculateSurplus())
      ensures success && toAccount == null ==>
                fromAccount.NetEnergy() == old(fromAccount.NetEnergy()) - amount
      ensures success && toAccount != null && toAccount != fromAccount ==>
                fromAccount.NetEnergy() + toAccount.NetEnergy() ==
                old(fromAccount.NetEnergy() + toAccount.NetEnergy())
    {
      if fromAccount.CalculateSurplus() < amount {
        return false, InsufficientSurplus;
      }
      fromAccount.consumed := fromAccount.consumed + amount;
      fromAccount.AddCredits(creditsTransferred);
      if toAccount != null {
        toAccount.generated := toAccount.generated + amount;
      }
      return true, TransactionSuccessful;
    }
  }

  /**
   * Builds a transaction, failing with InvalidTransactionType when the kind
   * is not one of the five; on success the credits are locked in as
   * amount * rate.
   */
  method NewTransaction(fromAccount: EnergyAccount, toAccount: EnergyAccount?, amount: real,
                        transactionType: string, rate: real := 0.0)
    returns (r: Result<EnergyTransaction, Error>)
    ensures r.Success? <==> IsTransactionType(transactionType)
    ensures r.Failure? ==> r.error == InvalidTransactionType
    ensures r.Success? ==> fresh(r.value)
    ensures r.Success? ==> r.value.fromAccount == fromAccount && r.value.toAccount == toAccount &&
                           r.value.amount == amount && r.value.transactionType == transactionType &&
                           r.value.rate == rate && r.value.creditsTransferred == amount * rate
  {
    if !IsTransactionType(transactionType) {
      return Failure(InvalidTransactionType);
    }
    var tx := new EnergyTransaction(fromAccount, toAccount, amount, transactionType, rate);
    return Success(tx);
  }
}
