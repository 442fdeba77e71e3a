/**
 * Garden achievements (`src/persistence/achievements.ts`): the first bloom,
 * a seven-day visit streak, five bugs removed and three weeds trimmed, each
 * unlocked once and paid with 2 coins, plus the list of seed ids ever
 * planted. The store holding the single record is an `AchievementStore`
 * object; the clock (`Date.now()`) and today's date key are parameters, and
 * the day difference between two date keys is a function parameter.
 */
module Achievements {
  import opened Wrappers
  import opened Wallet

  const UNLOCK_COINS := 2
  const STREAK_GOAL := 7
  const BUGS_GOAL := 5
  const WEEDS_GOAL := 3

  /** `AchievementRecord`; the `...At` timestamps are absent until the unlock. */
  datatype AchievementRecord = AchievementRecord(
    firstBloomUnlocked: bool,
    firstBloomUnlockedAt: Option<int>,
    gardenStreak7Unlocked: bool,
    gardenStreak7UnlockedAt: Option<int>,
    lastGardenVisitDate: string,
    gardenConsecutiveDays: int,
    bugsRemovedCount: int,
    bugsRemoved5Unlocked: bool,
    bugsRemoved5UnlockedAt: Option<int>,
    weedsTrimmedCount: int,
    weedsTrimmed3Unlocked: bool,
    weedsTrimmed3UnlockedAt: Option<int>,
    plantedSeedIds: Option<seq<string>>)

  /** The record `getAchievementRecord` writes when none is stored. */
  function DefaultAchievements(): AchievementRecord {
    AchievementRecord(false, None, false, None, "", 0, 0, false, None, 0, false, None, Some([]))
  }

  function LoadedRecord(stored: Option<AchievementRecord>): AchievementRecord {
    stored.GetOr(DefaultAchievements())
  }

  /** The `{ justUnlocked, coinsAwarded }` result. */
  datatype Unlock = Unlock(justUnlocked: bool, coinsAwarded: int)

  function Award(just: bool): (u: Unlock)
    ensures u.justUnlocked == just
    ensures u.coinsAwarded == 0 || u.coinsAwarded == UNLOCK_COINS
    ensures u.coinsAwarded == UNLOCK_COINS <==> just
  {
    Unlock(just, if just then UNLOCK_COINS else 0)
  }

  /** `unlockFirstBloom` on record `r` at time `now`: the result and the record afterwards. */
  function FirstBloom(r: AchievementRecord, now: int): (Unlock, AchievementRecord) {
    if r.firstBloomUnlocked then (Award(false), r)
    else (Award(true), r.(firstBloomUnlocked := true, firstBloomUnlockedAt := Some(now)))
  }

  /** The first bloom is paid on the first call only; later calls change nothing. */
  lemma FirstBloomOnce(r: AchievementRecord, now: int, later: int)
    ensures var (u1, r1) := FirstBloom(r, now);
      var (u2, r2) := FirstBloom(r1, later);
      && (u1.justUnlocked <==> !r.firstBloomUnlocked)
      && r1.firstBloomUnlocked
      && u2 == Unlock(false, 0) && r2 == r1
  {
  }

  // ---------------------------------------------------------------- counters

  /**
   * One call of a counted achievement: the count goes up by one, and the
   * unlock fires when the new count reaches the goal and it has not fired.
   */
  function CounterStep(count: int, unlocked: bool, goal: int): (s: (int, bool, bool))
    ensures s.0 == count + 1
    ensures s.2 <==> !unlocked && count + 1 >= goal
    ensures s.1 <==> unlocked || s.2
  {
    var just := count + 1 >= goal && !unlocked;
    (count + 1, unlocked || just, just)
  }

  /** `incrementBugsRemoved`. */
  function BugRemoved(r: AchievementRecord, now: int): (Unlock, AchievementRecord) {
    var (count, unlocked, just) := CounterStep(r.bugsRemovedCount, r.bugsRemoved5Unlocked, BUGS_GOAL);
    (Award(just),
     r.(bugsRemovedCount := count, bugsRemoved5Unlocked := unlocked,
        bugsRemoved5UnlockedAt := if just then Some(now) else r.bugsRemoved5UnlockedAt))
  }

  /** `incrementWeedsTrimmed`. */
  function WeedTrimmed(r: AchievementRecord, now: int): (Unlock, AchievementRecord) {
    var (count, unlocked, just) := CounterStep(r.weedsTrimmedCount, r.weedsTrimmed3Unlocked, WEEDS_GOAL);
    (Award(just),
     r.(weedsTrimmedCount := count, weedsTrimmed3Unlocked := unlocked,
        weedsTrimmed3UnlockedAt := if just then Some(now) else r.weedsTrimmed3UnlockedAt))
  }

  /** How many of `n` consecutive calls of a counted achievement fire its unlock. */
  function Unlocks(count: int, unlocked: bool, goal: int, n: nat): nat
    decreases n
  {
    if n == 0 then 0
    else
      var (count', unlocked', just) := CounterStep(count, unlocked, goal);
      (if just then 1 else 0) + Unlocks(count', unlocked', goal, n - 1)
  }

  /**
   * Over any run of calls the unlock fires at most once, and it fires
   * exactly when it had not fired and the run takes the count to the goal.
   */
  lemma {:induction false} UnlocksAtMostOnce(count: int, unlocked: bool, goal: int, n: nat)
    ensures Unlocks(count, unlocked, goal, n) <= 1
    ensures Unlocks(count, unlocked, goal, n) == 1 <==> !unlocked && n >= 1 && count + n >= goal
    decreases n
  {
    if n > 0 {
      var (count', unlocked', just) := CounterStep(count, unlocked, goal);
      UnlocksAtMostOnce(count', unlocked', goal, n - 1);
      if unlocked' {
        NoUnlocksOnceUnlocked(count', goal, n - 1);
      }
    }
  }

  lemma {:induction false} NoUnlocksOnceUnlocked(count: int, goal: int, n: nat)
    ensures Unlocks(count, true, goal, n) == 0
    decreases n
  {
    if n > 0 {
      NoUnlocksOnceUnlocked(count + 1, goal, n - 1);
    }
  }

  /** One bug removal: the count rises by one; the unlock fires once, at five. */
  lemma BugRemovedStep(r: AchievementRecord, now: int)
    ensures var (u, r') := BugRemoved(r, now);
      && r'.bugsRemovedCount == r.bugsRemovedCount + 1
      && (u.justUnlocked <==> !r.bugsRemoved5Unlocked && r.bugsRemovedCount + 1 >= BUGS_GOAL)
      && (r'.bugsRemoved5Unlocked <==> r.bugsRemoved5Unlocked || u.justUnlocked)
      && r'.weedsTrimmedCount == r.weedsTrimmedCount && r'.plantedSeedIds == r.plantedSeedIds
  {
  }

  /** One weed trimmed: the count rises by one; the unlock fires once, at three. */
  lemma WeedTrimmedStep(r: AchievementRecord, now: int)
    ensures var (u, r') := WeedTrimmed(r, now);
      && r'.weedsTrimmedCount == r.weedsTrimmedCount + 1
      && (u.justUnlocked <==> !r.weedsTrimmed3Unlocked && r.weedsTrimmedCount + 1 >= WEEDS_GOAL)
      && (r'.weedsTrimmed3Unlocked <==> r.weedsTrimmed3Unlocked || u.justUnlocked)
      && r'.bugsRemovedCount == r.bugsRemovedCount && r'.plantedSeedIds == r.plantedSeedIds
  {
  }

  /** From a fresh record, the fifth bug removal is the one that pays. */
  lemma FifthBugPays()
    ensures Unlocks(0, false, BUGS_GOAL, 4) == 0
    ensures Unlocks(0, false, BUGS_GOAL, 5) == 1
  {
    UnlocksAtMostOnce(0, false, BUGS_GOAL, 4);
    UnlocksAtMostOnce(0, false, BUGS_GOAL, 5);
  }

  // ---------------------------------------------------------------- visits

  /** The `{ consecutiveDays, justUnlocked, coinsAwarded }` result of a visit. */
  datatype Visit = Visit(consecutiveDays: int, justUnlocked: bool, coinsAwarded: int)

  /**
   * `recordGardenVisit` on date key `today`; `daysBetween(a, b)` is the
   * number of days from date key `a` to date key `b`.
   */
  function GardenVisit(r: AchievementRecord, today: string, daysBetween: (string, string) -> int, now: int)
    : (Visit, AchievementRecord)
  {
    if r.lastGardenVisitDate == today then (Visit(r.gardenConsecutiveDays, false, 0), r)
    else
      var daysDiff := if r.lastGardenVisitDate != "" then daysBetween(r.lastGardenVisitDate, today) else 1;
      var days := if daysDiff == 1 then r.gardenConsecutiveDays + 1 else 1;
      var just := days >= STREAK_GOAL && !r.gardenStreak7Unlocked;
      var u := Award(just);
      (Visit(days, just, u.coinsAwarded),
       r.(gardenConsecutiveDays := days, lastGardenVisitDate := today,
          gardenStreak7Unlocked := r.gardenStreak7Unlocked || just,
          gardenStreak7UnlockedAt := if just then Some(now) else r.gardenStreak7UnlockedAt))
  }

  /** The visit follows the last one by one day, or there was none. */
  predicate Continues(r: AchievementRecord, today: string, daysBetween: (string, string) -> int) {
    r.lastGardenVisitDate == "" || daysBetween(r.lastGardenVisitDate, today) == 1
  }

  /**
   * A second visit on the same date changes nothing and pays nothing; a
   * visit on the day after the last one, or the first visit ever, extends
   * the streak; any other visit restarts it at 1.
   */
  lemma VisitStreak(r: AchievementRecord, today: string, daysBetween: (string, string) -> int, now: int)
    ensures var (v, r') := GardenVisit(r, today, daysBetween, now);
      && r'.lastGardenVisitDate == today
      && v.consecutiveDays == r'.gardenConsecutiveDays
      && (v.coinsAwarded == UNLOCK_COINS <==> v.justUnlocked)
      && (v.coinsAwarded == 0 <==> !v.justUnlocked)
      && (r.lastGardenVisitDate == today ==> r' == r && !v.justUnlocked)
      && (r.lastGardenVisitDate != today && Continues(r, today, daysBetween) ==>
            r'.gardenConsecutiveDays == r.gardenConsecutiveDays + 1)
      && (r.lastGardenVisitDate != today && !Continues(r, today, daysBetween) ==>
            r'.gardenConsecutiveDays == 1)
      && (v.justUnlocked <==>
            (!r.gardenStreak7Unlocked && r.lastGardenVisitDate != today && r'.gardenConsecutiveDays >= STREAK_GOAL))
      && (r'.gardenStreak7Unlocked <==> r.gardenStreak7Unlocked || v.justUnlocked)
  {
  }

  /** How many visits on the date keys `days`, in order, fire the seven-day unlock. */
  function VisitUnlocks(r: AchievementRecord, days: seq<string>, daysBetween: (string, string) -> int, now: int): nat
    decreases |days|
  {
    if days == [] then 0
    else
      var (v, r') := GardenVisit(r, days[0], daysBetween, now);
      (if v.justUnlocked then 1 else 0) + VisitUnlocks(r', days[1..], daysBetween, now)
  }

  /** The seven-day unlock fires at most once over any run of visits, and never once unlocked. */
  lemma {:induction false} StreakUnlockAtMostOnce(
    r: AchievementRecord, days: seq<string>, daysBetween: (string, string) -> int, now: int)
    ensures VisitUnlocks(r, days, daysBetween, now) <= 1
    ensures r.gardenStreak7Unlocked ==> VisitUnlocks(r, days, daysBetween, now) == 0
    decreases |days|
  {
    if days != [] {
      var (v, r') := GardenVisit(r, days[0], daysBetween, now);
      VisitStreak(r, days[0], daysBetween, now);
      StreakUnlockAtMostOnce(r', days[1..], daysBetween, now);
    }
  }

  /** Seven visits on consecutive days from a fresh record unlock the streak on the seventh. */
  lemma SeventhDayUnlocks(r: AchievementRecord, today: string, daysBetween: (string, string) -> int, now: int)
    requires !r.gardenStreak7Unlocked && r.gardenConsecutiveDays == STREAK_GOAL - 1
    requires r.lastGardenVisitDate != today && r.lastGardenVisitDate != ""
    requires daysBetween(r.lastGardenVisitDate, today) == 1
    ensures GardenVisit(r, today, daysBetween, now).0 == Visit(STREAK_GOAL, true, UNLOCK_COINS)
  {
  }

  // ---------------------------------------------------------------- planted seeds

  /** No id occurs twice. */
  predicate NoDuplicates(ids: seq<string>) {
    forall i, j :: 0 <= i < j < |ids| ==> ids[i] != ids[j]
  }

  /** `addPlantedSeedId`: the id is appended when it is not listed yet. */
  function PlantSeed(r: AchievementRecord, seedId: string): AchievementRecord {
    var ids := r.plantedSeedIds.GetOr([]);
    if r.plantedSeedIds.Some? && seedId in ids then r
    else r.(plantedSeedIds := Some(ids + [seedId]))
  }

  /** The list keeps every id it had, gains `seedId` only if it was missing, and stays duplicate-free. */
  lemma PlantSeedKeepsUnique(r: AchievementRecord, seedId: string)
    requires NoDuplicates(r.plantedSeedIds.GetOr([]))
    ensures var ids := r.plantedSeedIds.GetOr([]);
      var ids' := PlantSeed(r, seedId).plantedSeedIds.GetOr([]);
      && NoDuplicates(ids')
      && seedId in ids'
      && (seedId in ids ==> ids' == ids)
      && (seedId !in ids ==> ids' == ids + [seedId])
  {
  }

  // ---------------------------------------------------------------- the store

  /** The achievements store, holding at most one record; unlocks pay into `wallet`. */
  class AchievementStore {
    var stored: Option<AchievementRecord>

    constructor()
      ensures stored == None
    {
      stored := None;
    }

    /** `getAchievementRecord`: the stored record, writing the default one when none is stored. */
    method GetRecord() returns (r: AchievementRecord)
      modifies this
      ensures r == LoadedRecord(old(stored)) && stored == Some(r)
    {
      if stored.Some? {
        r := stored.value;
      } else {
        r := DefaultAchievements();
        stored := Some(r);
      }
    }

    /** `addCoins(UNLOCK_COINS)` when an unlock fires. */
    static method Pay(wallet: WalletStore, just: bool)
      modifies wallet
      ensures just ==> wallet.stored == Some(Credited(LoadedWallet(old(wallet.stored)), UNLOCK_COINS))
      ensures !just ==> wallet.stored == old(wallet.stored)
    {
      if just {
        var _ := wallet.AddCoins(UNLOCK_COINS);
      }
    }

    method UnlockFirstBloom(wallet: WalletStore, now: int) returns (justUnlocked: bool, coinsAwarded: int)
      modifies this, wallet
      ensures var (u, r') := FirstBloom(LoadedRecord(old(stored)), now);
        && Unlock(justUnlocked, coinsAwarded) == u && stored == Some(r')
        && (justUnlocked ==> wallet.stored == Some(Credited(LoadedWallet(old(wallet.stored)), UNLOCK_COINS)))
        && (!justUnlocked ==> wallet.stored == old(wallet.stored))
    {
      var r := GetRecord();
      if r.firstBloomUnlocked {
        return false, 0;
      }
      stored := Some(r.(firstBloomUnlocked := true, firstBloomUnlockedAt := Some(now)));
      Pay(wallet, true);
      justUnlocked, coinsAwarded := true, UNLOCK_COINS;
    }

    method RecordGardenVisit(wallet: WalletStore, today: string, daysBetween: (string, string) -> int, now: int)
      returns (consecutiveDays: int, justUnlocked: bool, coinsAwarded: int)
      modifies this, wallet
      ensures var (v, r') := GardenVisit(LoadedRecord(old(stored)), today, daysBetween, now);
        && Visit(consecutiveDays, justUnlocked, coinsAwarded) == v && stored == Some(r')
        && (justUnlocked ==> wallet.stored == Some(Credited(LoadedWallet(old(wallet.stored)), UNLOCK_COINS)))
        && (!justUnlocked ==> wallet.stored == old(wallet.stored))
    {
      var r := GetRecord();
      if r.lastGardenVisitDate == today {
        return r.gardenConsecutiveDays, false, 0;
      }
      var daysDiff := if r.lastGardenVisitDate != "" then daysBetween(r.lastGardenVisitDate, today) else 1;
      if daysDiff == 1 {
        r := r.(gardenConsecutiveDays := r.gardenConsecutiveDays + 1);
      } else {
        r := r.(gardenConsecutiveDays := 1);
      }
      r := r.(lastGardenVisitDate := today);
      justUnlocked, coinsAwarded := false, 0;
      if r.gardenConsecutiveDays >= STREAK_GOAL && !r.gardenStreak7Unlocked {
        r := r.(gardenStreak7Unlocked := true, gardenStreak7UnlockedAt := Some(now));
        Pay(wallet, true);
        justUnlocked, coinsAwarded := true, UNLOCK_COINS;
      }
      stored := Some(r);
      consecutiveDays := r.gardenConsecutiveDays;
    }

    method IncrementBugsRemoved(wallet: WalletStore, now: int) returns (justUnlocked: bool, coinsAwarded: int)
      modifies this, wallet
      ensures var (u, r') := BugRemoved(LoadedRecord(old(stored)), now);
        && Unlock(justUnlocked, coinsAwarded) == u && stored == Some(r')
        && (justUnlocked ==> wallet.stored == Some(Credited(LoadedWallet(old(wallet.stored)), UNLOCK_COINS)))
        && (!justUnlocked ==> wallet.stored == old(wallet.stored))
    {
      var r := GetRecord();
      r := r.(bugsRemovedCount := r.bugsRemovedCount + 1);
      justUnlocked, coinsAwarded := false, 0;
      if r.bugsRemovedCount >= BUGS_GOAL && !r.bugsRemoved5Unlocked {
        r := r.(bugsRemoved5Unlocked := true, bugsRemoved5UnlockedAt := Some(now));
        Pay(wallet, true);
        justUnlocked, coinsAwarded := true, UNLOCK_COINS;
      }
      stored := Some(r);
    }

    method IncrementWeedsTrimmed(wallet: WalletStore, now: int) returns (justUnlocked: bool, coinsAwarded: int)
      modifies this, wallet
      ensures var (u, r') := WeedTrimmed(LoadedRecord(old(stored)), now);
        && Unlock(justUnlocked, coinsAwarded) == u && stored == Some(r')
        && (justUnlocked ==> wallet.stored == Some(Credited(LoadedWallet(old(wallet.stored)), UNLOCK_COINS)))
        && (!justUnlocked ==> wallet.stored == old(wallet.stored))
    {
      var r := GetRecord();
      r := r.(weedsTrimmedCount := r.weedsTrimmedCount + 1);
      justUnlocked, coinsAwarded := false, 0;
      if r.weedsTrimmedCount >= WEEDS_GOAL && !r.weedsTrimmed3Unlocked {
        r := r.(weedsTrimmed3Unlocked := true, weedsTrimmed3UnlockedAt := Some(now));
        Pay(wallet, true);
        justUnlocked, coinsAwarded := true, UNLOCK_COINS;
      }
      stored := Some(r);
    }

    /** `getPlantedSeedIds`. */
    method GetPlantedSeedIds() returns (ids: seq<string>)
      modifies this
      ensures ids == LoadedRecord(old(stored)).plantedSeedIds.GetOr([])
      ensures stored == Some(LoadedRecord(old(stored)))
    {
      var r := GetRecord();
      ids := r.plantedSeedIds.GetOr([]);
    }

    method AddPlantedSeedId(seedId: string)
      modifies this
      ensures stored == Some(PlantSeed(LoadedRecord(old(stored)), seedId))
    {
      var r := GetRecord();
      var ids := r.plantedSeedIds.GetOr([]);
      if !(seedId in ids) {
        stored := Some(r.(plantedSeedIds := Some(ids + [seedId])));
      }
    }
  }
}
