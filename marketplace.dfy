/** The registry of accounts by id and the table of rates by transaction kind. */
module Marketplace {
  import opened Accounts

  /** The rates a new marketplace starts with; "donation" has none and so looks up as 0. */
  const DefaultRates: map<string, real> :=
    map["buyback" := 0.15, "loan" := 0.10, "purchase" := 0.20, "transfer" := 0.05]

  /** The sum of the values of a map (a specification helper for registry-wide totals). */
  ghost function Total(m: map<string, real>): real
    decreases |m|
  {
    if m == map[] then 0.0
    else
      var k :| k in m;
      m[k] + Total(m - {k})
  }

  /** Any one entry can be split off the total, not only the one Total happens to pick. */
  lemma {:induction false} TotalRemove(m: map<string, real>, k: string)
    requires k in m
    ensures Total(m) == m[k] + Total(m - {k})
    decreases |m|
  {
    var j :| j in m && Total(m) == m[j] + Total(m - {j});
    if j != k {
      var rest := m - {j};
      TotalRemove(rest, k);
      TotalRemove(m - {k}, j);
      assert rest - {k} == (m - {k}) - {j};
    }
  }

  /** Changing one entry changes the total by exactly the difference. */
  lemma TotalUpdate(m: map<string, real>, k: string, v: real)
    requires k in m
    ensures Total(m[k := v]) == Total(m) - m[k] + v
  {
    TotalRemove(m, k);
    TotalRemove(m[k := v], k);
    assert m[k := v] - {k} == m - {k};
  }

  /**
   * Moving `amount` from one entry to a different one leaves the total as it
   * was: a peer transaction neither creates nor destroys energy.
   */
  lemma TransferKeepsTotal(m: map<string, real>, from: string, to: string, amount: real)
    requires from in m && to in m && from != to
    ensures Total(m[from := m[from] - amount][to := m[to] + amount]) == Total(m)
  {
    var m1 := m[from := m[from] - amount];
    TotalUpdate(m, from, m[from] - amount);
    TotalUpdate(m1, to, m[to] + amount);
  }

  /** Taking `amount` out of one entry lowers the total by exactly that amount. */
  lemma WithdrawalLowersTotal(m: map<string, real>, from: string, amount: real)
    requires from in m
    ensures Total(m[from := m[from] - amount]) == Total(m) - amount
  {
    TotalUpdate(m, from, m[from] - amount);
  }

  /**
   * A passive registry: accounts keyed by their id (a later registration
   * under the same id replaces the earlier one) and a rate per transaction
   * kind (an unknown kind has rate 0).
   */
  class EnergyMarketplace {
    var accounts: map<string, EnergyAccount>
    var rates: map<string, real>

    /** Every account is filed under its own id. */
    ghost predicate Valid()
      reads this
    {
      forall id :: id in accounts ==> accounts[id].accountId == id
    }

    constructor ()
      ensures Valid()
      ensures accounts == map[] && rates == DefaultRates
    {
      accounts := map[];
      rates := DefaultRates;
    }

    /** Files `account` under its id, replacing any account already there. */
    method RegisterAccount(account: EnergyAccount)
      requires Valid()
      modifies this
      ensures Valid()
      ensures accounts == old(accounts)[account.accountId := account]
      ensures rates == old(rates)
      ensures GetAccount(account.accountId) == account
      ensures forall id :: id != account.accountId ==> GetAccount(id) == old(GetAccount(id))
    {
      accounts := accounts[account.accountId := account];
    }

    /** The account filed under `id`, or null when there is none. */
    function GetAccount(id: string): (account: EnergyAccount?)
      reads this
      ensures account != null <==> id in accounts
      ensures account != null ==> account == accounts[id]
      ensures Valid() && account != null ==> account.accountId == id
    {
      if id in accounts then accounts[id] else null
    }

    /** Sets the rate of one kind; every other kind keeps its rate. */
    method SetRate(transactionType: string, rate: real)
      modifies this
      ensures rates == old(rates)[transactionType := rate]
      ensures accounts == old(accounts)
      ensures GetRate(transactionType) == rate
      ensures forall t :: t != transactionType ==> GetRate(t) == old(GetRate(t))
    {
      rates := rates[transactionType := rate];
    }

    /** The rate of a kind, 0 for a kind that has never been given one. */
    function GetRate(transactionType: string): (rate: real)
      reads this
      ensures transactionType in rates ==> rate == rates[transactionType]
      ensures transactionType !in rates ==> rate == 0.0
    {
      if transactionType in rates then rates[transactionType] else 0.0
    }

    /** The net energy position of every registered account, by id. */
    ghost function NetEnergies(): map<string, real>
      reads this, accounts.Values
    {
      map id | id in accounts :: accounts[id].NetEnergy()
    }

    /** The net energy position of the whole registry. */
    ghost function TotalNetEnergy(): real
      reads this, accounts.Values
    {
      Total(NetEnergies())
    }
  }
}
