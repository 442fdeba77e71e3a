/**
 * The coin wallet (`src/persistence/wallet.ts`): a balance and the date key
 * of the last daily reward. The store holding the single wallet record is a
 * `WalletStore` object; the current date key is a parameter.
 */
module Wallet {
  import opened Wrappers

  const DAILY_REWARD_COINS := 5

  datatype WalletRecord = WalletRecord(coins: int, lastRewardDate: Option<string>)

  /** The record `getWallet` writes when none is stored. */
  function DefaultWallet(): WalletRecord {
    WalletRecord(0, None)
  }

  /** The record `getWallet` returns for what is stored. */
  function LoadedWallet(stored: Option<WalletRecord>): (w: WalletRecord)
    ensures stored.Some? ==> w == stored.value
    ensures stored.None? ==> w.coins == 0 && w.lastRewardDate.None?
  {
    stored.GetOr(DefaultWallet())
  }

  /** The record after `addCoins(amount)`. */
  function Credited(w: WalletRecord, amount: int): WalletRecord {
    w.(coins := Max(0, w.coins + amount))
  }

  /** `addCoins` never leaves a negative balance, and is exact when the sum is not negative. */
  lemma CreditedExact(w: WalletRecord, amount: int)
    ensures Credited(w, amount).coins >= 0
    ensures w.coins + amount >= 0 ==> Credited(w, amount).coins == w.coins + amount
    ensures w.coins + amount < 0 ==> Credited(w, amount).coins == 0
    ensures Credited(w, amount).lastRewardDate == w.lastRewardDate
  {
  }

  /** The result of `claimDailyRewardIfEligible`. */
  datatype Claim = Claim(claimed: bool, newCoins: int, rewardAmount: int)

  /** `claimDailyRewardIfEligible` on wallet `w` and date key `today`: the result and the new wallet. */
  function ClaimOutcome(w: WalletRecord, today: string): (Claim, WalletRecord) {
    if w.lastRewardDate == Some(today) then (Claim(false, w.coins, 0), w)
    else
      var newCoins := w.coins + DAILY_REWARD_COINS;
      (Claim(true, newCoins, DAILY_REWARD_COINS), WalletRecord(newCoins, Some(today)))
  }

  /**
   * A claim reports the balance it leaves; it pays the 5-coin reward and
   * records the date exactly when the wallet's last reward was on another date.
   */
  lemma ClaimPays(w: WalletRecord, today: string)
    ensures var (c, w') := ClaimOutcome(w, today);
      && c.newCoins == w'.coins
      && w'.lastRewardDate == Some(today)
      && (c.claimed <==> w.lastRewardDate != Some(today))
      && (c.claimed ==> c.rewardAmount == DAILY_REWARD_COINS && w'.coins == w.coins + DAILY_REWARD_COINS)
      && (!c.claimed ==> c.rewardAmount == 0 && w' == w)
  {
  }

  /** A second claim with the same date key pays nothing and changes nothing. */
  lemma {:induction false} ClaimOncePerDay(w: WalletRecord, today: string)
    ensures var w1 := ClaimOutcome(w, today).1;
      var (c2, w2) := ClaimOutcome(w1, today);
      !c2.claimed && c2.rewardAmount == 0 && w2 == w1 && c2.newCoins == w1.coins
  {
    ClaimPays(w, today);
  }

  /** A claim on a new date key after a claim pays again. */
  lemma ClaimNextDay(w: WalletRecord, today: string, tomorrow: string)
    requires today != tomorrow
    ensures var w1 := ClaimOutcome(w, today).1;
      var (c2, w2) := ClaimOutcome(w1, tomorrow);
      c2.claimed && w2.coins == w1.coins + DAILY_REWARD_COINS
  {
  }

  /** The wallet store, holding at most one record. */
  class WalletStore {
    var stored: Option<WalletRecord>

    constructor()
      ensures stored == None
    {
      stored := None;
    }

    /** `getWallet`: the stored record, writing the default one when none is stored. */
    method GetWallet() returns (w: WalletRecord)
      modifies this
      ensures w == LoadedWallet(old(stored))
      ensures stored == Some(w)
    {
      if stored.Some? {
        w := stored.value;
      } else {
        w := DefaultWallet();
        stored := Some(w);
      }
    }

    /** `getCoins`; a fresh wallet holds 0 coins. */
    method GetCoins() returns (coins: int)
      modifies this
      ensures coins == LoadedWallet(old(stored)).coins
      ensures old(stored).None? ==> coins == 0
      ensures stored == Some(LoadedWallet(old(stored)))
    {
      var w := GetWallet();
      coins := w.coins;
    }

    /** `setCoins`: the balance becomes `max(0, coins)`. */
    method SetCoins(coins: int)
      modifies this
      ensures stored == Some(LoadedWallet(old(stored)).(coins := Max(0, coins)))
      ensures stored.value.coins >= 0
    {
      var w := GetWallet();
      stored := Some(w.(coins := Max(0, coins)));
    }

    /** `addCoins`: stores and returns `max(0, old + amount)`. */
    method AddCoins(amount: int) returns (next: int)
      modifies this
      ensures stored == Some(Credited(LoadedWallet(old(stored)), amount))
      ensures next == stored.value.coins && next == Max(0, LoadedWallet(old(stored)).coins + amount)
    {
      var w := GetWallet();
      next := Max(0, w.coins + amount);
      stored := Some(w.(coins := next));
    }

    /** `claimDailyRewardIfEligible`, with today's date key as a parameter. */
    method ClaimDailyRewardIfEligible(today: string) returns (claimed: bool, newCoins: int, rewardAmount: int)
      modifies this
      ensures var (c, w') := ClaimOutcome(LoadedWallet(old(stored)), today);
        Claim(claimed, newCoins, rewardAmount) == c && stored == Some(w')
    {
      var w := GetWallet();
      if w.lastRewardDate == Some(today) {
        return false, w.coins, 0;
      }
      newCoins := w.coins + DAILY_REWARD_COINS;
      stored := Some(w.(coins := newCoins, lastRewardDate := Some(today)));
      claimed, rewardAmount := true, DAILY_REWARD_COINS;
    }
  }
}
