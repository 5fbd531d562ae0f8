/** `BinanceClient.get_balance` (app/binance_client.py:247-258): the balance
    of one asset, searched for in the account's balance list, or the whole
    list. The account itself comes from `get_account`, an exchange call whose
    answer is a parameter here (`Failure` carries the text of its exception). */
module Balances {
  import opened Wrappers

  datatype Balance = Balance(asset: string, free: string, locked: string)

  /** A single balance record, or the full list when no asset is named. */
  datatype BalanceReply = Single(balance: Balance) | All(balances: seq<Balance>)

  /** The index of the first entry for `asset`, or `|balances|` when none is. */
  function FirstMatch(balances: seq<Balance>, asset: string): (k: nat)
    ensures k <= |balances|
    ensures forall j :: 0 <= j < k ==> balances[j].asset != asset
    ensures k < |balances| ==> balances[k].asset == asset
  {
    if balances == [] then 0
    else if balances[0].asset == asset then 0
    else 1 + FirstMatch(balances[1..], asset)
  }

  const Zero := "0.00000000"
  const FailurePrefix := "Failed to get balance: "

  /** The record returned for an asset the account does not list. */
  function EmptyBalance(asset: string): Balance {
    Balance(asset, Zero, Zero)
  }

  function GetBalance(account: Result<seq<Balance>, string>, asset: Option<string>): (r: Result<BalanceReply, string>)
    // a failing account query is re-raised with a prefix
    ensures account.Failure? ==> r == Failure(FailurePrefix + account.error)
    // no asset (None or the empty string): the whole list
    ensures account.Success? && (asset.None? || asset.value == "") ==> r == Success(All(account.value))
    // an asset: the first entry for it ...
    ensures account.Success? && asset.Some? && asset.value != "" ==>
              r.Success? && r.value.Single? &&
              ((exists k :: 0 <= k < |account.value| && r.value.balance == account.value[k] &&
                            r.value.balance.asset == asset.value &&
                            forall j :: 0 <= j < k ==> account.value[j].asset != asset.value)
               // ... or zero balances when the account has none
               || ((forall b :: b in account.value ==> b.asset != asset.value) &&
                   r.value.balance == EmptyBalance(asset.value)))
  {
    match account
    case Failure(e) => Failure(FailurePrefix + e)
    case Success(balances) =>
      if asset.None? || asset.value == "" then Success(All(balances))
      else
        var k := FirstMatch(balances, asset.value);
        if k < |balances| then Success(Single(balances[k]))
        else Success(Single(EmptyBalance(asset.value)))
  }

  /** An entry for another asset in front of the list does not change what is
      found for a named asset. */
  lemma OtherAssetsIgnored(b: Balance, balances: seq<Balance>, asset: string)
    requires b.asset != asset && asset != ""
    ensures GetBalance(Success([b] + balances), Some(asset)) == GetBalance(Success(balances), Some(asset))
  {
  }
}
