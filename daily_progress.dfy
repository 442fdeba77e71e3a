/**
 * Today's question set (`src/persistence/dailyProgress.ts`): one record per
 * day counting the answered questions up to 20, and the streak of
 * consecutive completed days. Dates are day ordinals (`today - 1` is
 * yesterday); today's ordinal and the clock (`Date.now()`) are parameters.
 * The store holding one record per date is a `DailyProgressStore` object
 * whose `records` are what `getAll` returns.
 */
module DailyProgress {
  import opened Wrappers
  import opened Sorting

  const TODAY_SET_SIZE := 20

  /** `DailyProgressRecord`, keyed by `date`. */
  datatype DailyProgressRecord = DailyProgressRecord(
    date: int, questionsCompleted: int, correctCount: Option<int>, completedAt: Option<int>)

  /** No two records share a date: the store is keyed by date. */
  predicate DistinctDates(rs: seq<DailyProgressRecord>) {
    forall i, j :: 0 <= i < j < |rs| ==> rs[i].date != rs[j].date
  }

  /** `db.get(date)`. */
  function Find(rs: seq<DailyProgressRecord>, date: int): (r: Option<DailyProgressRecord>)
    ensures r.Some? ==> r.value in rs && r.value.date == date
    ensures r.None? ==> forall i :: 0 <= i < |rs| ==> rs[i].date != date
  {
    if rs == [] then None
    else if rs[0].date == date then Some(rs[0])
    else Find(rs[1..], date)
  }

  /** `db.put(rec)`: replaces the record with the same date, or adds it. */
  function Upsert(rs: seq<DailyProgressRecord>, rec: DailyProgressRecord): seq<DailyProgressRecord> {
    if rs == [] then [rec]
    else if rs[0].date == rec.date then [rec] + rs[1..]
    else [rs[0]] + Upsert(rs[1..], rec)
  }

  /** A stored record is read back, and the other dates keep their records. */
  lemma {:induction false} UpsertFind(rs: seq<DailyProgressRecord>, rec: DailyProgressRecord, date: int)
    ensures Find(Upsert(rs, rec), date) == if date == rec.date then Some(rec) else Find(rs, date)
  {
    if rs != [] && rs[0].date != rec.date {
      UpsertFind(rs[1..], rec, date);
    }
  }

  /** After a put the store holds `rec` and records of other dates it held before, with no date repeated. */
  lemma {:induction false} UpsertDistinct(rs: seq<DailyProgressRecord>, rec: DailyProgressRecord)
    requires DistinctDates(rs)
    ensures rec in Upsert(rs, rec)
    ensures forall r :: r in Upsert(rs, rec) ==> r == rec || (r in rs && r.date != rec.date)
    ensures DistinctDates(Upsert(rs, rec))
  {
    if rs != [] && rs[0].date != rec.date {
      UpsertDistinct(rs[1..], rec);
      var u := Upsert(rs, rec);
      assert u == [rs[0]] + Upsert(rs[1..], rec);
      forall i, j | 0 <= i < j < |u| ensures u[i].date != u[j].date {
        if i == 0 {
          assert u[j] in Upsert(rs[1..], rec);
          if u[j] != rec {
            var m :| 0 <= m < |rs[1..]| && rs[1..][m] == u[j];
            assert rs[m + 1] == u[j];
          }
        }
      }
    } else if rs != [] {
      var u := Upsert(rs, rec);
      forall i, j | 0 <= i < j < |u| ensures u[i].date != u[j].date {
        assert u[j] == rs[j];
        if i > 0 {
          assert u[i] == rs[i];
        }
      }
    }
  }

  // ---------------------------------------------------------------- the counter

  /** The `{ completed, total, completedAt }` result of `getTodayProgress`. */
  datatype Progress = Progress(completed: int, total: int, completedAt: Option<int>)

  /** `getTodayProgress`: 0 of 20 when there is no record for today. */
  function TodayProgress(rs: seq<DailyProgressRecord>, today: int): (p: Progress)
    ensures p.total == TODAY_SET_SIZE
    ensures Find(rs, today).None? ==> p == Progress(0, TODAY_SET_SIZE, None)
  {
    match Find(rs, today)
    case None => Progress(0, TODAY_SET_SIZE, None)
    case Some(r) => Progress(r.questionsCompleted, TODAY_SET_SIZE, r.completedAt)
  }

  /**
   * `incrementTodayProgress`'s new record for `today` and its `justCompleted`
   * flag, from the existing record; the new record has no `correctCount`.
   */
  function Incremented(existing: Option<DailyProgressRecord>, today: int, now: int): (DailyProgressRecord, bool) {
    var prev := if existing.Some? then existing.value.questionsCompleted else 0;
    var next := Min(TODAY_SET_SIZE, prev + 1);
    var completedAt := if next >= TODAY_SET_SIZE then Some(now)
                       else if existing.Some? then existing.value.completedAt else None;
    (DailyProgressRecord(today, next, None, completedAt), prev < TODAY_SET_SIZE && next >= TODAY_SET_SIZE)
  }

  /**
   * The count rises by one and stops at 20; the set is just completed when
   * the previous count was 19; `completedAt` is stamped on every call that
   * ends at 20 and otherwise kept.
   */
  lemma IncrementCapped(existing: Option<DailyProgressRecord>, today: int, now: int)
    ensures var prev := if existing.Some? then existing.value.questionsCompleted else 0;
      var (rec, just) := Incremented(existing, today, now);
      && rec.date == today
      && rec.questionsCompleted <= TODAY_SET_SIZE
      && (prev < TODAY_SET_SIZE ==> rec.questionsCompleted == prev + 1)
      && (prev >= TODAY_SET_SIZE ==> rec.questionsCompleted == TODAY_SET_SIZE)
      && (just <==> prev == TODAY_SET_SIZE - 1)
      && (rec.questionsCompleted == TODAY_SET_SIZE ==> rec.completedAt == Some(now))
      && (existing.Some? && rec.questionsCompleted < TODAY_SET_SIZE ==> rec.completedAt == existing.value.completedAt)
      && (existing.None? && rec.questionsCompleted < TODAY_SET_SIZE ==> rec.completedAt.None?)
  {
  }

  /** How many of `n` calls in a row, starting from count `prev`, report `justCompleted`. */
  function Completions(prev: int, n: nat): nat
    decreases n
  {
    if n == 0 then 0
    else
      var next := Min(TODAY_SET_SIZE, prev + 1);
      (if prev < TODAY_SET_SIZE && next >= TODAY_SET_SIZE then 1 else 0) + Completions(next, n - 1)
  }

  /** A day's set is reported completed at most once, and exactly when the calls reach 20. */
  lemma {:induction false} CompletedOnce(prev: int, n: nat)
    ensures Completions(prev, n) <= 1
    ensures Completions(prev, n) == 1 <==> prev < TODAY_SET_SIZE && prev + n >= TODAY_SET_SIZE
    decreases n
  {
    if n > 0 {
      CompletedOnce(Min(TODAY_SET_SIZE, prev + 1), n - 1);
    }
  }

  // ---------------------------------------------------------------- the streak

  /** Day `d` has a record with all 20 questions answered. */
  predicate CompletedOn(rs: seq<DailyProgressRecord>, d: int) {
    exists i :: 0 <= i < |rs| && rs[i].date == d && rs[i].questionsCompleted >= TODAY_SET_SIZE
  }

  /** `d` is the latest completed day. */
  ghost predicate Latest(rs: seq<DailyProgressRecord>, d: int) {
    CompletedOn(rs, d) && forall e :: CompletedOn(rs, e) ==> e <= d
  }

  /** The `k` days ending on `anchor` are completed, and the day before them is not. */
  ghost predicate RunBack(rs: seq<DailyProgressRecord>, anchor: int, k: int) {
    && k >= 1
    && (forall d :: anchor - k < d <= anchor ==> CompletedOn(rs, d))
    && !CompletedOn(rs, anchor - k)
  }

  /** The dates of the completed days, in record order. */
  function CompletedDates(rs: seq<DailyProgressRecord>): (ds: seq<int>)
    ensures forall d :: d in ds <==> CompletedOn(rs, d)
    ensures DistinctDates(rs) ==> Distinct(ds)
  {
    if rs == [] then []
    else
      var rest := CompletedDates(rs[1..]);
      assert forall d :: CompletedOn(rs, d) <==> (rs[0].date == d && rs[0].questionsCompleted >= TODAY_SET_SIZE) || CompletedOn(rs[1..], d) by {
        forall d ensures CompletedOn(rs, d) ==> (rs[0].date == d && rs[0].questionsCompleted >= TODAY_SET_SIZE) || CompletedOn(rs[1..], d) {
          if CompletedOn(rs, d) {
            var i :| 0 <= i < |rs| && rs[i].date == d && rs[i].questionsCompleted >= TODAY_SET_SIZE;
            if i > 0 {
              assert rs[1..][i - 1] == rs[i];
            }
          }
        }
        forall d ensures CompletedOn(rs[1..], d) ==> CompletedOn(rs, d) {
          if CompletedOn(rs[1..], d) {
            var i :| 0 <= i < |rs[1..]| && rs[1..][i].date == d && rs[1..][i].questionsCompleted >= TODAY_SET_SIZE;
            assert rs[i + 1] == rs[1..][i];
          }
        }
      }
      assert DistinctDates(rs) ==> rs[0].date !in rest;
      if rs[0].questionsCompleted >= TODAY_SET_SIZE then [rs[0].date] + rest else rest
  }

  /** No value occurs twice. */
  predicate Distinct(s: seq<int>) {
    forall i, j :: 0 <= i < j < |s| ==> s[i] != s[j]
  }

  /** A sequence is distinct exactly when no value occurs twice in its multiset. */
  lemma {:induction false} DistinctMultiplicity(s: seq<int>)
    ensures Distinct(s) <==> forall x :: multiset(s)[x] <= 1
  {
    if s != [] {
      var t := s[1..];
      assert s == [s[0]] + t;
      DistinctMultiplicity(t);
      assert forall x :: multiset(s)[x] == multiset(t)[x] + (if x == s[0] then 1 else 0);
      if Distinct(s) {
        assert Distinct(t) by {
          forall i, j | 0 <= i < j < |t| ensures t[i] != t[j] {
            assert t[i] == s[i + 1] && t[j] == s[j + 1];
          }
        }
        assert s[0] !in t;
      }
      if forall x :: multiset(s)[x] <= 1 {
        assert multiset(s)[s[0]] <= 1;
        assert s[0] !in t;
        forall i, j | 0 <= i < j < |s| ensures s[i] != s[j] {
          if i == 0 {
            assert s[j] == t[j - 1];
          } else {
            assert s[i] == t[i - 1] && s[j] == t[j - 1];
          }
        }
      }
    }
  }

  /** Reordering keeps a sequence distinct. */
  lemma DistinctPermutation(a: seq<int>, b: seq<int>)
    requires multiset(a) == multiset(b) && Distinct(a)
    ensures Distinct(b)
  {
    DistinctMultiplicity(a);
    DistinctMultiplicity(b);
  }

  /** The order of `sort().reverse()` on day keys: later days first. */
  function Later(): (geq: (int, int) -> bool)
    ensures forall x, y :: geq(x, y) <==> x >= y
  {
    (x: int, y: int) => x >= y
  }

  /** A descending, distinct sequence is strictly descending. */
  lemma StrictlyDescending(s: seq<int>)
    requires SortedBy(s, Later()) && Distinct(s)
    ensures forall i, j :: 0 <= i < j < |s| ==> s[i] > s[j]
  {
  }

  /** `completedDays`: the completed dates, latest first. */
  function CompletedDays(rs: seq<DailyProgressRecord>): (days: seq<int>)
    requires DistinctDates(rs)
    ensures forall d :: d in days <==> CompletedOn(rs, d)
    ensures forall i, j :: 0 <= i < j < |days| ==> days[i] > days[j]
    ensures forall d :: d in days ==> d <= days[0]
  {
    var dates := CompletedDates(rs);
    var days := SortDesc(dates, Later());
    SortDescSorted(dates, Later(), set d | d in dates);
    DistinctPermutation(dates, days);
    StrictlyDescending(days);
    assert forall d :: d in days ==> d <= days[0] by {
      forall d | d in days ensures d <= days[0] {
        var j :| 0 <= j < |days| && days[j] == d;
      }
    }
    days
  }

  /** `completedDays.indexOf(d)`. */
  function IndexOfDay(s: seq<int>, d: int): (i: int)
    ensures -1 <= i < |s|
    ensures i >= 0 ==> s[i] == d
    ensures i < 0 ==> d !in s
  {
    if s == [] then -1
    else if s[0] == d then 0
    else
      var j := IndexOfDay(s[1..], d);
      if j < 0 then -1 else j + 1
  }

  /**
   * The counting loop of `getStreak`: from `start`, how many entries of the
   * list step down by exactly one day each.
   */
  method CountRun(days: seq<int>, start: nat) returns (k: nat)
    requires start < |days|
    ensures k >= 1 && start + k <= |days|
    ensures forall j :: start <= j < start + k ==> days[j] == days[start] - (j - start)
    ensures start + k < |days| ==> days[start + k - 1] - days[start + k] != 1
  {
    k := 1;
    var i := start + 1;
    while i < |days|
      invariant start + 1 <= i <= |days| && k == i - start
      invariant forall j :: start <= j < i ==> days[j] == days[start] - (j - start)
    {
      var diff := days[i - 1] - days[i];
      if diff != 1 {
        break;
      }
      k := k + 1;
      i := i + 1;
    }
  }

  /** The run counted from `start` in a strictly descending list is a run of consecutive days, and no longer. */
  lemma RunIsConsecutive(rs: seq<DailyProgressRecord>, days: seq<int>, start: nat, k: nat)
    requires forall d :: d in days <==> CompletedOn(rs, d)
    requires forall i, j :: 0 <= i < j < |days| ==> days[i] > days[j]
    requires start < |days| && k >= 1 && start + k <= |days|
    requires forall j :: start <= j < start + k ==> days[j] == days[start] - (j - start)
    requires start + k < |days| ==> days[start + k - 1] - days[start + k] != 1
    ensures RunBack(rs, days[start], k)
  {
    var anchor := days[start];
    forall d | anchor - k < d <= anchor ensures CompletedOn(rs, d) {
      var j := start + (anchor - d);
      assert days[j] == d;
    }
  }

  /** The latest completed day heads the list. */
  lemma LatestIsFirst(rs: seq<DailyProgressRecord>, days: seq<int>, d: int)
    requires |days| > 0
    requires forall e :: e in days <==> CompletedOn(rs, e)
    requires forall e :: e in days ==> e <= days[0]
    ensures Latest(rs, d) <==> days[0] == d
  {
    assert days[0] in days;
  }

  /**
   * `getStreak`: with today completed, the run of consecutive completed
   * days ending today; else, when yesterday is the latest completed day,
   * the run ending yesterday; else 0.
   */
  method GetStreak(rs: seq<DailyProgressRecord>, today: int) returns (k: nat)
    requires DistinctDates(rs)
    ensures CompletedOn(rs, today) ==> RunBack(rs, today, k)
    ensures !CompletedOn(rs, today) && Latest(rs, today - 1) ==> RunBack(rs, today - 1, k)
    ensures !CompletedOn(rs, today) && !Latest(rs, today - 1) ==> k == 0
  {
    var days := CompletedDays(rs);
    if |days| == 0 {
      return 0;
    }
    var idx := IndexOfDay(days, today);
    if idx < 0 {
      LatestIsFirst(rs, days, today - 1);
      if days[0] != today - 1 {
        return 0;
      }
      k := RunFrom(rs, days, 0);
      return k;
    }
    k := RunFrom(rs, days, idx);
  }

  /** The streak counted from entry `start` of the completed days, latest first. */
  method RunFrom(rs: seq<DailyProgressRecord>, days: seq<int>, start: nat) returns (k: nat)
    requires forall d :: d in days <==> CompletedOn(rs, d)
    requires forall i, j :: 0 <= i < j < |days| ==> days[i] > days[j]
    requires start < |days|
    ensures RunBack(rs, days[start], k)
  {
    k := CountRun(days, start);
    RunIsConsecutive(rs, days, start, k);
  }

  /** A streak of at least seven ending today means each of the last seven days is completed, and back. */
  lemma SevenDayStreak(rs: seq<DailyProgressRecord>, today: int, k: nat)
    requires RunBack(rs, today, k)
    ensures k >= 7 <==> forall d :: today - 7 < d <= today ==> CompletedOn(rs, d)
  {
  }

  // ---------------------------------------------------------------- the store

  /** The daily-progress store: one record per date. */
  class DailyProgressStore {
    var records: seq<DailyProgressRecord>

    ghost predicate Valid()
      reads this
    {
      DistinctDates(records)
    }

    constructor()
      ensures records == [] && Valid()
    {
      records := [];
    }

    method GetTodayProgress(today: int) returns (p: Progress)
      ensures p == TodayProgress(records, today)
    {
      var existing := Find(records, today);
      if existing.None? {
        return Progress(0, TODAY_SET_SIZE, None);
      }
      p := Progress(existing.value.questionsCompleted, TODAY_SET_SIZE, existing.value.completedAt);
    }

    /**
     * `incrementTodayProgress`: stores today's incremented record, and
     * reports `justStreak7` when the set was just completed and each of the
     * last seven days, today included, is completed.
     */
    method IncrementTodayProgress(today: int, now: int)
      returns (completed: int, total: int, justCompleted: bool, justStreak7: bool)
      requires Valid()
      modifies this
      ensures Valid()
      ensures var (rec, just) := Incremented(Find(old(records), today), today, now);
        && records == Upsert(old(records), rec)
        && completed == rec.questionsCompleted && total == TODAY_SET_SIZE && justCompleted == just
      ensures justStreak7 <==> justCompleted && forall d :: today - 7 < d <= today ==> CompletedOn(records, d)
    {
      var existing := Find(records, today);
      var prev := if existing.Some? then existing.value.questionsCompleted else 0;
      var next := Min(TODAY_SET_SIZE, prev + 1);
      var completedAt := if next >= TODAY_SET_SIZE then Some(now)
                         else if existing.Some? then existing.value.completedAt else None;
      var rec := DailyProgressRecord(today, next, None, completedAt);
      UpsertDistinct(records, rec);
      records := Upsert(records, rec);
      justCompleted := prev < TODAY_SET_SIZE && next >= TODAY_SET_SIZE;
      var streak := GetStreak(records, today);
      justStreak7 := justCompleted && streak >= 7;
      if justCompleted {
        assert CompletedOn(records, today) by {
          var i :| 0 <= i < |records| && records[i] == rec;
        }
        SevenDayStreak(records, today, streak);
      }
      completed, total := next, TODAY_SET_SIZE;
    }
  }
}
