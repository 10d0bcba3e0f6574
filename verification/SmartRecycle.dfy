/**
 Smart Recycle: which snapshots of one service a retention policy keeps. The
 newest-first scan with its four "seen" maps is proved to keep exactly the newest
 snapshot of every day, ISO week, month and year that lies in its window.
 */
module SmartRecycle {
  import opened Calendar

  datatype SnapshotInfo = SnapshotInfo(id: string, createdAt: Instant)

  datatype Policy = Policy(
    enabled: bool, keepHours: int, keepDaily: int, keepWeekly: int,
    keepMonthly: int, keepYearly: int, keepMin: int)

  function AtLeast(x: int, lo: int): int {
    if x < lo then lo else x
  }

  function Normalize(p: Policy): Policy {
    p.(keepHours := AtLeast(p.keepHours, 0), keepDaily := AtLeast(p.keepDaily, 0),
       keepWeekly := AtLeast(p.keepWeekly, 0), keepMonthly := AtLeast(p.keepMonthly, 0),
       keepYearly := AtLeast(p.keepYearly, 0), keepMin := AtLeast(p.keepMin, 1))
  }

  // ---------- slots and windows ----------

  datatype Tier = Daily | Weekly | Monthly | Yearly

  datatype Slot = DaySlot(year: int, month: int, day: int) | WeekSlot(year: int, week: int)
                | MonthSlot(year: int, month: int) | YearSlot(year: int)

  function SlotOf(tier: Tier, t: Instant): Slot {
    var d := Day(t);
    match tier
    case Daily => DaySlot(Year(d), Month(d), DayOfMonth(d))
    case Weekly => WeekSlot(IsoYear(d), IsoWeek(d))
    case Monthly => MonthSlot(Year(d), Month(d))
    case Yearly => YearSlot(Year(d))
  }

  /** Integer division of the source language, which truncates toward zero. */
  function TruncDiv(a: int, b: int): int
    requires b > 0
  {
    if a >= 0 then a / b else -((-a) / b)
  }

  function DaysBetween(past: Instant, now: Instant): int {
    Day(now) - Day(past)
  }

  function WeeksBetween(past: Instant, now: Instant): int {
    TruncDiv(DaysBetween(past, now), 7)
  }

  function MonthsBetween(past: Instant, now: Instant): int {
    (Year(Day(now)) - Year(Day(past))) * 12 + Month(Day(now)) - Month(Day(past))
  }

  function Distance(tier: Tier, past: Instant, now: Instant): int {
    match tier
    case Daily => DaysBetween(past, now)
    case Weekly => WeeksBetween(past, now)
    case Monthly => MonthsBetween(past, now)
    case Yearly => Year(Day(now)) - Year(Day(past))
  }

  function Window(tier: Tier, p: Policy): int {
    match tier
    case Daily => p.keepDaily
    case Weekly => p.keepWeekly
    case Monthly => p.keepMonthly
    case Yearly => p.keepYearly
  }

  predicate InWindow(tier: Tier, p: Policy, t: Instant, now: Instant) {
    Window(tier, p) > 0 && Distance(tier, t, now) < Window(tier, p)
  }

  predicate InHours(p: Policy, t: Instant, now: Instant) {
    t >= now - p.keepHours * NANOS_PER_HOUR
  }

  /** Later snapshots are never farther away; an ISO week may straddle the window edge. */
  lemma DistanceIsAntitone(tier: Tier, a: Instant, b: Instant, now: Instant)
    requires a <= b
    ensures Distance(tier, b, now) <= Distance(tier, a, now)
  {
    assert Day(a) <= Day(b);
    match tier
    case Daily =>
    case Weekly => TruncDivIsMonotone(DaysBetween(b, now), DaysBetween(a, now));
    case Monthly => MonthIndexIsMonotone(Day(a), Day(b));
    case Yearly => YearIsMonotone(Day(a), Day(b));
  }

  lemma TruncDivIsMonotone(a: int, b: int)
    requires a <= b
    ensures TruncDiv(a, 7) <= TruncDiv(b, 7)
  {
  }

  // ---------- the scan ----------

  /** The scan keeps snapshot `i` for `tier`: in the window, and its slot was not yet seen. */
  ghost predicate FirstInWindow(snaps: seq<SnapshotInfo>, p: Policy, now: Instant, tier: Tier, i: nat)
    requires i < |snaps|
  {
    && InWindow(tier, p, snaps[i].createdAt, now)
    && SlotOf(tier, snaps[i].createdAt) !in SeenSlots(snaps[..i], p, now, tier)
  }

  /** The slots of the windowed snapshots in a list. */
  function SeenSlots(snaps: seq<SnapshotInfo>, p: Policy, now: Instant, tier: Tier): set<Slot> {
    set k | 0 <= k < |snaps| && InWindow(tier, p, snaps[k].createdAt, now) :: SlotOf(tier, snaps[k].createdAt)
  }

  ghost predicate ScanKeeps(snaps: seq<SnapshotInfo>, p: Policy, now: Instant, i: nat)
    requires i < |snaps|
  {
    || i < p.keepMin
    || (p.enabled && (InHours(p, snaps[i].createdAt, now) || exists tier :: FirstInWindow(snaps, p, now, tier, i)))
  }

  ghost function ScanKept(snaps: seq<SnapshotInfo>, p: Policy, now: Instant): set<string> {
    set i | 0 <= i < |snaps| && ScanKeeps(snaps, p, now, i) :: snaps[i].id
  }

  lemma SeenSlotsGrow(snaps: seq<SnapshotInfo>, p: Policy, now: Instant, tier: Tier, i: nat)
    requires i < |snaps|
    ensures SeenSlots(snaps[..i + 1], p, now, tier) ==
            SeenSlots(snaps[..i], p, now, tier) +
            if InWindow(tier, p, snaps[i].createdAt, now) then {SlotOf(tier, snaps[i].createdAt)} else {}
  {
    hide InWindow;
    hide SlotOf;
    var a, b := snaps[..i], snaps[..i + 1];
    assert forall k :: 0 <= k < i ==> a[k] == b[k];
    assert b[i] == snaps[i];
  }

  /** `SelectSmartKeepIDs`, for any order of the input. */
  method SelectSmartKeepIDs(snaps: seq<SnapshotInfo>, policy: Policy, now: Instant) returns (keep: set<string>)
    ensures keep == ScanKept(snaps, Normalize(policy), now)
    ensures NewestFirst(snaps) && DistinctIds(snaps) ==>
              forall i :: 0 <= i < |snaps| ==> (snaps[i].id in keep <==> KeptByPolicy(snaps, policy, now, i))
  {
    if NewestFirst(snaps) && DistinctIds(snaps) {
      forall i | 0 <= i < |snaps|
        ensures snaps[i].id in ScanKept(snaps, Normalize(policy), now) <==> KeptByPolicy(snaps, policy, now, i)
      {
        KeptIff(snaps, policy, now, i);
      }
    }
    hide KeptByPolicy;
    hide InHours;
    var p := Normalize(policy);
    keep := {};
    var i := 0;
    while i < |snaps| && i < p.keepMin
      invariant 0 <= i <= |snaps| && i <= p.keepMin
      invariant keep == set k | 0 <= k < i :: snaps[k].id
    {
      keep := keep + {snaps[i].id};
      i := i + 1;
    }
    assert keep == set k | 0 <= k < |snaps| && k < p.keepMin :: snaps[k].id;
    if p.enabled {
      keep := KeepHours(snaps, p, now, keep);
      keep := KeepSlots(snaps, p, now, keep);
    }
  }

  method KeepHours(snaps: seq<SnapshotInfo>, p: Policy, now: Instant, before: set<string>) returns (keep: set<string>)
    requires before == set k | 0 <= k < |snaps| && k < p.keepMin :: snaps[k].id
    ensures keep == KeptUpTo(snaps, p, now, 0)
  {
    keep := before;
    for j := 0 to |snaps|
      invariant keep == set k | 0 <= k < |snaps| &&
                              (k < p.keepMin || (k < j && InHours(p, snaps[k].createdAt, now))) :: snaps[k].id
    {
      if InHours(p, snaps[j].createdAt, now) {
        keep := keep + {snaps[j].id};
      }
    }
  }

  method KeepSlots(snaps: seq<SnapshotInfo>, p: Policy, now: Instant, before: set<string>) returns (keep: set<string>)
    requires before == KeptUpTo(snaps, p, now, 0)
    ensures keep == KeptUpTo(snaps, p, now, |snaps|)
  {
    keep := before;
    var days, weeks, months, years: set<Slot> := {}, {}, {}, {};
    for j := 0 to |snaps|
      invariant days == SeenSlots(snaps[..j], p, now, Daily)
      invariant weeks == SeenSlots(snaps[..j], p, now, Weekly)
      invariant months == SeenSlots(snaps[..j], p, now, Monthly)
      invariant years == SeenSlots(snaps[..j], p, now, Yearly)
      invariant keep == KeptUpTo(snaps, p, now, j)
    {
      var day, week, month, year;
      day, days := Visit(snaps, p, now, Daily, j, days);
      week, weeks := Visit(snaps, p, now, Weekly, j, weeks);
      month, months := Visit(snaps, p, now, Monthly, j, months);
      year, years := Visit(snaps, p, now, Yearly, j, years);
      KeptUpToStep(snaps, p, now, j, day || week || month || year);
      if day || week || month || year {
        keep := keep + {snaps[j].id};
      }
    }
  }

  /** One tier's test of one snapshot, marking its slot as seen. */
  method Visit(snaps: seq<SnapshotInfo>, p: Policy, now: Instant, tier: Tier, j: nat, seen: set<Slot>)
    returns (hit: bool, after: set<Slot>)
    requires j < |snaps| && seen == SeenSlots(snaps[..j], p, now, tier)
    ensures hit <==> FirstInWindow(snaps, p, now, tier, j)
    ensures after == SeenSlots(snaps[..j + 1], p, now, tier)
  {
    SeenSlotsGrow(snaps, p, now, tier, j);
    var t := snaps[j].createdAt;
    hit := InWindow(tier, p, t, now) && SlotOf(tier, t) !in seen;
    after := if hit then seen + {SlotOf(tier, t)} else seen;
  }

  /** The keep set once the last loop has handled the first `j` snapshots. */
  ghost function KeptUpTo(snaps: seq<SnapshotInfo>, p: Policy, now: Instant, j: nat): set<string> {
    set i | 0 <= i < |snaps| &&
            (i < p.keepMin || InHours(p, snaps[i].createdAt, now) ||
             (i < j && exists tier :: FirstInWindow(snaps, p, now, tier, i))) :: snaps[i].id
  }

  lemma KeptUpToStep(snaps: seq<SnapshotInfo>, p: Policy, now: Instant, j: nat, hit: bool)
    requires j < |snaps|
    requires hit <==> exists tier :: FirstInWindow(snaps, p, now, tier, j)
    ensures KeptUpTo(snaps, p, now, j + 1) == KeptUpTo(snaps, p, now, j) + if hit then {snaps[j].id} else {}
  {
  }

  // ---------- the specification ----------

  /** Newest first; equal times in any order. */
  ghost predicate NewestFirst(snaps: seq<SnapshotInfo>) {
    forall i, j :: 0 <= i < j < |snaps| ==> snaps[i].createdAt >= snaps[j].createdAt
  }

  /** No snapshot of the same slot is newer; among equally new ones, `i` is listed first. */
  ghost predicate NewestOfSlot(snaps: seq<SnapshotInfo>, tier: Tier, i: nat)
    requires i < |snaps|
  {
    forall j :: 0 <= j < |snaps| && j != i && SlotOf(tier, snaps[j].createdAt) == SlotOf(tier, snaps[i].createdAt) ==>
      snaps[j].createdAt < snaps[i].createdAt || (snaps[j].createdAt == snaps[i].createdAt && i < j)
  }

  /** What Smart Recycle promises about snapshot `i`. */
  ghost predicate Promised(snaps: seq<SnapshotInfo>, p: Policy, now: Instant, i: nat)
    requires i < |snaps|
  {
    || i < p.keepMin
    || (p.enabled && InHours(p, snaps[i].createdAt, now))
    || (p.enabled && exists tier :: InWindow(tier, p, snaps[i].createdAt, now) && NewestOfSlot(snaps, tier, i))
  }

  lemma FirstInWindowIsNewest(snaps: seq<SnapshotInfo>, p: Policy, now: Instant, tier: Tier, i: nat)
    requires NewestFirst(snaps) && i < |snaps|
    ensures FirstInWindow(snaps, p, now, tier, i) <==>
            InWindow(tier, p, snaps[i].createdAt, now) && NewestOfSlot(snaps, tier, i)
  {
    var slot := SlotOf(tier, snaps[i].createdAt);
    if InWindow(tier, p, snaps[i].createdAt, now) {
      forall j | 0 <= j < i && SlotOf(tier, snaps[j].createdAt) == slot
        ensures slot in SeenSlots(snaps[..i], p, now, tier)
      {
        DistanceIsAntitone(tier, snaps[i].createdAt, snaps[j].createdAt, now);
        assert snaps[..i][j] == snaps[j];
      }
    }
  }

  /** On newest-first input the scan meets the promise exactly. */
  lemma ScanMeetsPromise(snaps: seq<SnapshotInfo>, p: Policy, now: Instant, i: nat)
    requires NewestFirst(snaps) && i < |snaps|
    ensures ScanKeeps(snaps, p, now, i) <==> Promised(snaps, p, now, i)
  {
    forall tier: Tier ensures FirstInWindow(snaps, p, now, tier, i) <==>
                        InWindow(tier, p, snaps[i].createdAt, now) && NewestOfSlot(snaps, tier, i)
    {
      FirstInWindowIsNewest(snaps, p, now, tier, i);
    }
  }

  // ---------- the promise, field by field ----------

  predicate SameDay(a: Instant, b: Instant) {
    Day(a) == Day(b)
  }

  /** The same Monday-to-Sunday week. */
  predicate SameWeek(a: Instant, b: Instant) {
    WeekIndex(Day(a)) == WeekIndex(Day(b))
  }

  predicate SameMonth(a: Instant, b: Instant) {
    Year(Day(a)) == Year(Day(b)) && Month(Day(a)) == Month(Day(b))
  }

  predicate SameYear(a: Instant, b: Instant) {
    Year(Day(a)) == Year(Day(b))
  }

  /** The newest of its kind; among equally new ones, the one listed first. */
  ghost predicate NewestOf(snaps: seq<SnapshotInfo>, i: nat, same: (Instant, Instant) -> bool)
    requires i < |snaps|
  {
    forall j :: 0 <= j < |snaps| && j != i && same(snaps[j].createdAt, snaps[i].createdAt) ==>
      snaps[j].createdAt < snaps[i].createdAt || (snaps[j].createdAt == snaps[i].createdAt && i < j)
  }

  /** What a policy keeps: the values are those of its fields, negative ones counting as none. */
  ghost predicate KeptByPolicy(snaps: seq<SnapshotInfo>, policy: Policy, now: Instant, i: nat)
    requires i < |snaps|
  {
    var t := snaps[i].createdAt;
    var days := Day(now) - Day(t);
    var years := Year(Day(now)) - Year(Day(t));
    var months := Month(Day(now)) - Month(Day(t));
    || i == 0 || i < policy.keepMin
    || (policy.enabled && t >= now - (if policy.keepHours < 0 then 0 else policy.keepHours) * NANOS_PER_HOUR)
    || (policy.enabled && NewestOf(snaps, i, SameDay) && 0 < policy.keepDaily && days < policy.keepDaily)
    || (policy.enabled && NewestOf(snaps, i, SameWeek) && 0 < policy.keepWeekly && days < 7 * policy.keepWeekly)
    || (policy.enabled && NewestOf(snaps, i, SameMonth) && 0 < policy.keepMonthly && 12 * years + months < policy.keepMonthly)
    || (policy.enabled && NewestOf(snaps, i, SameYear) && 0 < policy.keepYearly && years < policy.keepYearly)
  }

  lemma NewestOfTier(snaps: seq<SnapshotInfo>, tier: Tier, i: nat, same: (Instant, Instant) -> bool)
    requires i < |snaps| && forall a: Instant, b: Instant :: same(a, b) <==> SlotOf(tier, a) == SlotOf(tier, b)
    ensures NewestOfSlot(snaps, tier, i) <==> NewestOf(snaps, i, same)
  {
    hide SlotOf;
  }

  lemma TierMeansSame(a: Instant, b: Instant)
    ensures SlotOf(Daily, a) == SlotOf(Daily, b) <==> SameDay(a, b)
    ensures SlotOf(Weekly, a) == SlotOf(Weekly, b) <==> SameWeek(a, b)
    ensures SlotOf(Monthly, a) == SlotOf(Monthly, b) <==> SameMonth(a, b)
    ensures SlotOf(Yearly, a) == SlotOf(Yearly, b) <==> SameYear(a, b)
  {
    DateNamesDay(Day(a), Day(b));
    IsoWeekNamesWeek(Day(a), Day(b));
    hide Year;
    hide Month;
    hide IsoYear;
    hide IsoWeek;
    hide WeekIndex;
    hide DayOfMonth;
  }

  lemma TiersMeanSame(snaps: seq<SnapshotInfo>, i: nat)
    requires i < |snaps|
    ensures NewestOfSlot(snaps, Daily, i) <==> NewestOf(snaps, i, SameDay)
    ensures NewestOfSlot(snaps, Weekly, i) <==> NewestOf(snaps, i, SameWeek)
    ensures NewestOfSlot(snaps, Monthly, i) <==> NewestOf(snaps, i, SameMonth)
    ensures NewestOfSlot(snaps, Yearly, i) <==> NewestOf(snaps, i, SameYear)
  {
    forall a: Instant, b: Instant
      ensures SlotOf(Daily, a) == SlotOf(Daily, b) <==> SameDay(a, b)
      ensures SlotOf(Weekly, a) == SlotOf(Weekly, b) <==> SameWeek(a, b)
      ensures SlotOf(Monthly, a) == SlotOf(Monthly, b) <==> SameMonth(a, b)
      ensures SlotOf(Yearly, a) == SlotOf(Yearly, b) <==> SameYear(a, b)
    {
      TierMeansSame(a, b);
    }
    hide SlotOf;
    hide NewestOfSlot;
    hide NewestOf;
    NewestOfTier(snaps, Daily, i, SameDay);
    NewestOfTier(snaps, Weekly, i, SameWeek);
    NewestOfTier(snaps, Monthly, i, SameMonth);
    NewestOfTier(snaps, Yearly, i, SameYear);
  }

  /** Fewer whole weeks, cut toward zero, exactly if fewer than seven times as many days. */
  lemma WeeksAsDays(days: int, weeks: int)
    requires weeks > 0
    ensures TruncDiv(days, 7) < weeks <==> days < 7 * weeks
  {
  }

  lemma WindowsByField(policy: Policy, t: Instant, now: Instant)
    ensures var p, days := Normalize(policy), Day(now) - Day(t);
            var years, months := Year(Day(now)) - Year(Day(t)), Month(Day(now)) - Month(Day(t));
            && (InWindow(Daily, p, t, now) <==> 0 < policy.keepDaily && days < policy.keepDaily)
            && (InWindow(Weekly, p, t, now) <==> 0 < policy.keepWeekly && days < 7 * policy.keepWeekly)
            && (InWindow(Monthly, p, t, now) <==> 0 < policy.keepMonthly && 12 * years + months < policy.keepMonthly)
            && (InWindow(Yearly, p, t, now) <==> 0 < policy.keepYearly && years < policy.keepYearly)
  {
    hide Year;
    hide Month;
    if policy.keepWeekly > 0 {
      WeeksAsDays(Day(now) - Day(t), policy.keepWeekly);
    }
    hide TruncDiv;
    hide Day;
  }

  /** On newest-first input with distinct ids, exactly what the fields of the policy say is kept. */
  lemma KeptIff(snaps: seq<SnapshotInfo>, policy: Policy, now: Instant, i: nat)
    requires NewestFirst(snaps) && DistinctIds(snaps) && i < |snaps|
    ensures snaps[i].id in ScanKept(snaps, Normalize(policy), now) <==> KeptByPolicy(snaps, policy, now, i)
  {
    var p := Normalize(policy);
    ScanMeetsPromise(snaps, p, now, i);
    TiersMeanSame(snaps, i);
    WindowsByField(policy, snaps[i].createdAt, now);
    KeptById(snaps, p, now, i);
    HoursByField(policy, snaps[i].createdAt, now);
    PromisedByTier(snaps, p, now, i);
    hide ScanKept;
    hide ScanKeeps;
    hide Promised;
    hide NewestOf;
    hide NewestOfSlot;
    hide InWindow;
    hide InHours;
    hide Year;
    hide Month;
    hide Day;
  }

  lemma HoursByField(policy: Policy, t: Instant, now: Instant)
    ensures InHours(Normalize(policy), t, now) <==>
            t >= now - (if policy.keepHours < 0 then 0 else policy.keepHours) * NANOS_PER_HOUR
  {
  }

  lemma PromisedByTier(snaps: seq<SnapshotInfo>, p: Policy, now: Instant, i: nat)
    requires i < |snaps|
    ensures Promised(snaps, p, now, i) <==>
            || i < p.keepMin || (p.enabled && InHours(p, snaps[i].createdAt, now))
            || (p.enabled && InWindow(Daily, p, snaps[i].createdAt, now) && NewestOfSlot(snaps, Daily, i))
            || (p.enabled && InWindow(Weekly, p, snaps[i].createdAt, now) && NewestOfSlot(snaps, Weekly, i))
            || (p.enabled && InWindow(Monthly, p, snaps[i].createdAt, now) && NewestOfSlot(snaps, Monthly, i))
            || (p.enabled && InWindow(Yearly, p, snaps[i].createdAt, now) && NewestOfSlot(snaps, Yearly, i))
  {
    hide NewestOfSlot;
    hide InWindow;
    hide InHours;
    if exists tier :: InWindow(tier, p, snaps[i].createdAt, now) && NewestOfSlot(snaps, tier, i) {
      var tier: Tier :| InWindow(tier, p, snaps[i].createdAt, now) && NewestOfSlot(snaps, tier, i);
      assert tier == Daily || tier == Weekly || tier == Monthly || tier == Yearly;
    }
  }

  lemma KeptById(snaps: seq<SnapshotInfo>, p: Policy, now: Instant, i: nat)
    requires DistinctIds(snaps) && i < |snaps|
    ensures snaps[i].id in ScanKept(snaps, p, now) <==> ScanKeeps(snaps, p, now, i)
  {
    hide ScanKeeps;
  }

  /** Whatever the policy says, the newest snapshot is kept. */
  lemma NewestIsKept(snaps: seq<SnapshotInfo>, policy: Policy, now: Instant)
    requires snaps != []
    ensures snaps[0].id in ScanKept(snaps, Normalize(policy), now)
  {
    assert ScanKeeps(snaps, Normalize(policy), now, 0);
  }

  // ---------- monotone in the policy ----------

  ghost predicate Extends(p: Policy, q: Policy) {
    && (p.enabled ==> q.enabled)
    && p.keepHours <= q.keepHours && p.keepDaily <= q.keepDaily && p.keepWeekly <= q.keepWeekly
    && p.keepMonthly <= q.keepMonthly && p.keepYearly <= q.keepYearly && p.keepMin <= q.keepMin
  }

  /** Raising any keep value never drops a snapshot that was kept. */
  lemma KeepIsMonotone(snaps: seq<SnapshotInfo>, p: Policy, q: Policy, now: Instant)
    requires NewestFirst(snaps) && Extends(p, q)
    ensures ScanKept(snaps, Normalize(p), now) <= ScanKept(snaps, Normalize(q), now)
  {
    var a, b := Normalize(p), Normalize(q);
    assert Extends(a, b);
    forall i: nat | i < |snaps| && ScanKeeps(snaps, a, now, i) ensures ScanKeeps(snaps, b, now, i) {
      ScanMeetsPromise(snaps, a, now, i);
      ScanMeetsPromise(snaps, b, now, i);
      assert forall tier :: InWindow(tier, a, snaps[i].createdAt, now) ==> InWindow(tier, b, snaps[i].createdAt, now);
    }
  }

  // ---------- idempotent ----------

  ghost predicate DistinctIds(snaps: seq<SnapshotInfo>) {
    forall i, j :: 0 <= i < j < |snaps| ==> snaps[i].id != snaps[j].id
  }

  /** A newest-first list of exactly the kept snapshots, equally old ones in any order. */
  ghost predicate Relists(left: seq<SnapshotInfo>, snaps: seq<SnapshotInfo>, keep: set<string>) {
    NewestFirst(left) && DistinctIds(left) && forall x :: x in left <==> x in snaps && x.id in keep
  }

  ghost function Place(snaps: seq<SnapshotInfo>, x: SnapshotInfo): (i: nat)
    requires x in snaps
    ensures i < |snaps| && snaps[i] == x
  {
    var i :| 0 <= i < |snaps| && snaps[i] == x; i
  }

  lemma KeptPlace(snaps: seq<SnapshotInfo>, p: Policy, now: Instant, x: SnapshotInfo)
    requires DistinctIds(snaps) && x in snaps && x.id in ScanKept(snaps, p, now)
    ensures ScanKeeps(snaps, p, now, Place(snaps, x))
  {
    var i: nat :| i < |snaps| && snaps[i].id == x.id && ScanKeeps(snaps, p, now, i);
    assert i == Place(snaps, x);
  }

  /** Outside the hour window, two kept snapshots of the same age are both among the newest `keepMin`. */
  lemma KeptTie(snaps: seq<SnapshotInfo>, p: Policy, now: Instant, i: nat, j: nat)
    requires NewestFirst(snaps) && i < |snaps| && j < |snaps| && i != j
    requires snaps[i].createdAt == snaps[j].createdAt && !(p.enabled && InHours(p, snaps[i].createdAt, now))
    requires ScanKeeps(snaps, p, now, i) && ScanKeeps(snaps, p, now, j)
    ensures i < p.keepMin && j < p.keepMin
  {
    ScanMeetsPromise(snaps, p, now, i);
    ScanMeetsPromise(snaps, p, now, j);
    hide ScanKeeps;
    hide InWindow;
  }

  /** A survivor among the newest `keepMin` stays among them, however ties are listed. */
  lemma HeadStays(snaps: seq<SnapshotInfo>, left: seq<SnapshotInfo>, p: Policy, now: Instant, k: nat)
    requires NewestFirst(snaps) && DistinctIds(snaps) && Relists(left, snaps, ScanKept(snaps, p, now)) && k < |left|
    requires left[k] in snaps && Place(snaps, left[k]) < p.keepMin && !(p.enabled && InHours(p, left[k].createdAt, now))
    ensures k < p.keepMin
  {
    var at := (m: int) => if 0 <= m < |left| && left[m] in snaps then Place(snaps, left[m]) else -1;
    forall m | m in Range(k + 1) ensures 0 <= at(m) < p.keepMin {
      NewerIsHead(snaps, left, p, now, k, m);
    }
    forall m, n | m in Range(k + 1) && n in Range(k + 1) && m < n ensures at(m) != at(n) {
      assert left[m] in left && left[n] in left;
    }
    InjectionBound(Range(k + 1), at, p.keepMin);
  }

  lemma NewerIsHead(snaps: seq<SnapshotInfo>, left: seq<SnapshotInfo>, p: Policy, now: Instant, k: nat, m: nat)
    requires NewestFirst(snaps) && DistinctIds(snaps) && Relists(left, snaps, ScanKept(snaps, p, now)) && m <= k < |left|
    requires left[k] in snaps && Place(snaps, left[k]) < p.keepMin && !(p.enabled && InHours(p, left[k].createdAt, now))
    ensures left[m] in snaps && Place(snaps, left[m]) < p.keepMin
  {
    assert left[m] in left && left[k] in left;
    var i, j := Place(snaps, left[k]), Place(snaps, left[m]);
    KeptPlace(snaps, p, now, left[k]);
    KeptPlace(snaps, p, now, left[m]);
    if i != j && snaps[i].createdAt == snaps[j].createdAt {
      KeptTie(snaps, p, now, i, j);
    }
    hide ScanKept;
    hide ScanKeeps;
    hide InHours;
  }

  /** A survivor that only a slot keeps is alone of its age, so it stays the newest of that slot. */
  lemma SlotStays(snaps: seq<SnapshotInfo>, left: seq<SnapshotInfo>, p: Policy, now: Instant, k: nat, tier: Tier)
    requires NewestFirst(snaps) && DistinctIds(snaps) && Relists(left, snaps, ScanKept(snaps, p, now)) && k < |left|
    requires left[k] in snaps && Place(snaps, left[k]) >= p.keepMin && !(p.enabled && InHours(p, left[k].createdAt, now))
    requires NewestOfSlot(snaps, tier, Place(snaps, left[k]))
    ensures NewestOfSlot(left, tier, k)
  {
    var i := Place(snaps, left[k]);
    forall m | 0 <= m < |left| && m != k && SlotOf(tier, left[m].createdAt) == SlotOf(tier, left[k].createdAt)
      ensures left[m].createdAt < left[k].createdAt
    {
      assert left[m] in left && left[k] in left;
      var j := Place(snaps, left[m]);
      KeptPlace(snaps, p, now, left[k]);
      KeptPlace(snaps, p, now, left[m]);
      if snaps[i].createdAt == snaps[j].createdAt {
        KeptTie(snaps, p, now, i, j);
      }
    }
  }

  /** Running the same policy again at the same time on the survivors, in any newest-first order, removes nothing. */
  lemma KeepIsIdempotent(snaps: seq<SnapshotInfo>, left: seq<SnapshotInfo>, policy: Policy, now: Instant, k: nat)
    requires NewestFirst(snaps) && DistinctIds(snaps) && k < |left|
    requires Relists(left, snaps, ScanKept(snaps, Normalize(policy), now))
    ensures left[k].id in ScanKept(left, Normalize(policy), now)
  {
    var p := Normalize(policy);
    assert left[k] in left;
    var i := Place(snaps, left[k]);
    KeptPlace(snaps, p, now, left[k]);
    ScanMeetsPromise(snaps, p, now, i);
    ScanMeetsPromise(left, p, now, k);
    StaysKept(snaps, left, p, now, k);
    assert ScanKeeps(left, p, now, k);
  }

  lemma StaysKept(snaps: seq<SnapshotInfo>, left: seq<SnapshotInfo>, p: Policy, now: Instant, k: nat)
    requires NewestFirst(snaps) && DistinctIds(snaps) && k < |left| && left[k] in snaps
    requires Relists(left, snaps, ScanKept(snaps, p, now)) && Promised(snaps, p, now, Place(snaps, left[k]))
    ensures Promised(left, p, now, k)
  {
    var i := Place(snaps, left[k]);
    if p.enabled && InHours(p, left[k].createdAt, now) {
    } else if i < p.keepMin {
      HeadStays(snaps, left, p, now, k);
    } else {
      var tier: Tier :| InWindow(tier, p, snaps[i].createdAt, now) && NewestOfSlot(snaps, tier, i);
      SlotStays(snaps, left, p, now, k, tier);
    }
  }

  // ---------- size bound ----------

  /** Indices kept by one tier alone. */
  ghost function TierKept(snaps: seq<SnapshotInfo>, p: Policy, now: Instant, tier: Tier): set<int> {
    set i | 0 <= i < |snaps| && FirstInWindow(snaps, p, now, tier, i)
  }

  ghost function HourKept(snaps: seq<SnapshotInfo>, p: Policy, now: Instant): set<int> {
    set i | 0 <= i < |snaps| && InHours(p, snaps[i].createdAt, now)
  }

  /** The slot of a snapshot as a number, the present slot being 0. */
  function SlotsBack(tier: Tier, t: Instant, now: Instant): int {
    match tier
    case Daily => Day(now) - Day(t)
    case Weekly => WeekIndex(Day(now)) - WeekIndex(Day(t))
    case Monthly => MonthIndex(Day(now)) - MonthIndex(Day(t))
    case Yearly => Year(Day(now)) - Year(Day(t))
  }

  lemma SlotsBackNamesSlot(tier: Tier, a: Instant, b: Instant, now: Instant)
    ensures SlotOf(tier, a) == SlotOf(tier, b) <==> SlotsBack(tier, a, now) == SlotsBack(tier, b, now)
  {
    match tier
    case Daily => DateNamesDay(Day(a), Day(b));
    case Weekly => IsoWeekNamesWeek(Day(a), Day(b));
    case Monthly => MonthKeyIsIndex(Day(a), Day(b));
    case Yearly =>
  }

  /** How many slots of a tier can hold a kept snapshot; a week window may touch one week more. */
  function SlotLimit(tier: Tier, p: Policy): int {
    if Window(tier, p) <= 0 then 0 else if tier == Weekly then Window(tier, p) + 1 else Window(tier, p)
  }

  lemma SlotsBackRange(tier: Tier, p: Policy, t: Instant, now: Instant)
    requires t <= now && InWindow(tier, p, t, now)
    ensures 0 <= SlotsBack(tier, t, now) < SlotLimit(tier, p)
  {
    assert Day(t) <= Day(now);
    match tier
    case Daily =>
    case Weekly =>
    case Monthly => MonthIndexIsMonotone(Day(t), Day(now));
    case Yearly => YearIsMonotone(Day(t), Day(now));
  }

  lemma TierKeptBound(snaps: seq<SnapshotInfo>, p: Policy, now: Instant, tier: Tier)
    requires forall sn <- snaps :: sn.createdAt <= now
    ensures |TierKept(snaps, p, now, tier)| <= SlotLimit(tier, p)
  {
    var kept := TierKept(snaps, p, now, tier);
    var back := (i: int) => if 0 <= i < |snaps| then SlotsBack(tier, snaps[i].createdAt, now) else -1;
    forall i, j | i in kept && j in kept && i < j ensures back(i) != back(j) {
      SlotsBackNamesSlot(tier, snaps[i].createdAt, snaps[j].createdAt, now);
      assert snaps[..j][i] == snaps[i];
    }
    forall i | i in kept ensures 0 <= back(i) < SlotLimit(tier, p) {
      SlotsBackRange(tier, p, snaps[i].createdAt, now);
    }
    assert SlotLimit(tier, p) >= 0;
    InjectionBound(kept, back, SlotLimit(tier, p));
  }

  lemma {:induction false} InjectionBound(s: set<int>, f: int -> int, n: nat)
    requires forall i <- s :: 0 <= f(i) < n
    requires forall i, j :: i in s && j in s && i < j ==> f(i) != f(j)
    ensures |s| <= n
  {
    var image := set i | i in s :: f(i);
    ImageSize(s, f);
    SubsetSize(image, Range(n));
  }

  ghost function Pick<T>(s: set<T>): (x: T)
    requires s != {}
    ensures x in s
  {
    var x :| x in s; x
  }

  lemma {:induction false} ImageSize(s: set<int>, f: int -> int)
    requires forall i, j :: i in s && j in s && i < j ==> f(i) != f(j)
    ensures |set i | i in s :: f(i)| == |s|
    decreases s
  {
    var image := set i | i in s :: f(i);
    if s == {} {
      assert image == {};
    } else {
      var x := Pick(s);
      var rest := s - {x};
      ImageSize(rest, f);
      var restImage := set i | i in rest :: f(i);
      assert f(x) !in restImage;
      assert image == restImage + {f(x)};
    }
  }

  ghost function Range(n: nat): (r: set<int>)
    ensures forall k :: k in r <==> 0 <= k < n
    ensures |r| == n
  {
    if n == 0 then {} else Range(n - 1) + {n - 1}
  }

  lemma {:induction false} SubsetSize<T>(a: set<T>, b: set<T>)
    requires a <= b
    ensures |a| <= |b|
    decreases a
  {
    if a != {} {
      var x :| x in a;
      SubsetSize(a - {x}, b - {x});
    }
  }

  lemma UnionSize<T>(a: set<T>, b: set<T>)
    ensures |a + b| <= |a| + |b|
  {
    assert a + b == a + (b - a);
    SubsetSize(b - a, b);
  }

  lemma {:induction false} IdsOfIndices(snaps: seq<SnapshotInfo>, s: set<int>)
    requires forall i <- s :: 0 <= i < |snaps|
    ensures |set i | i in s :: snaps[i].id| <= |s|
    decreases s
  {
    var ids := set i | i in s :: snaps[i].id;
    if s == {} {
      assert ids == {};
    } else {
      var x := Pick(s);
      IdsOfIndices(snaps, s - {x});
      assert ids == (set i | i in s - {x} :: snaps[i].id) + {snaps[x].id};
    }
  }

  /** With an enabled policy and no snapshot from the future, the kept set stays small. */
  lemma KeptSizeBound(snaps: seq<SnapshotInfo>, p: Policy, now: Instant)
    requires p.enabled && p == Normalize(p)
    requires forall sn <- snaps :: sn.createdAt <= now
    ensures |ScanKept(snaps, p, now)| <= p.keepMin + |HourKept(snaps, p, now)| + p.keepDaily
            + (if p.keepWeekly > 0 then p.keepWeekly + 1 else 0) + p.keepMonthly + p.keepYearly
  {
    ReasonsCover(snaps, p, now);
    SubsetSize(Head(snaps, p), Range(p.keepMin));
    TierKeptBound(snaps, p, now, Daily);
    TierKeptBound(snaps, p, now, Weekly);
    TierKeptBound(snaps, p, now, Monthly);
    TierKeptBound(snaps, p, now, Yearly);
  }

  ghost function Head(snaps: seq<SnapshotInfo>, p: Policy): set<int> {
    set i | i in Range(|snaps|) && i < p.keepMin
  }

  lemma ReasonsCover(snaps: seq<SnapshotInfo>, p: Policy, now: Instant)
    ensures |ScanKept(snaps, p, now)| <= |Head(snaps, p)| + |HourKept(snaps, p, now)|
            + |TierKept(snaps, p, now, Daily)| + |TierKept(snaps, p, now, Weekly)|
            + |TierKept(snaps, p, now, Monthly)| + |TierKept(snaps, p, now, Yearly)|
  {
    forall i: nat | i < |snaps| && ScanKeeps(snaps, p, now, i)
      ensures || i in Head(snaps, p) || i in HourKept(snaps, p, now)
              || i in TierKept(snaps, p, now, Daily) || i in TierKept(snaps, p, now, Weekly)
              || i in TierKept(snaps, p, now, Monthly) || i in TierKept(snaps, p, now, Yearly)
    {
      KeptHasReason(snaps, p, now, i);
    }
    KeptWithinSix(snaps, p, now, Head(snaps, p), HourKept(snaps, p, now),
                  TierKept(snaps, p, now, Daily), TierKept(snaps, p, now, Weekly),
                  TierKept(snaps, p, now, Monthly), TierKept(snaps, p, now, Yearly));
  }

  lemma KeptWithinSix(snaps: seq<SnapshotInfo>, p: Policy, now: Instant,
                      a: set<int>, b: set<int>, c: set<int>, d: set<int>, e: set<int>, f: set<int>)
    requires forall i :: i in a || i in b || i in c || i in d || i in e || i in f ==> 0 <= i < |snaps|
    requires forall i: nat :: i < |snaps| && ScanKeeps(snaps, p, now, i) ==>
                                i in a || i in b || i in c || i in d || i in e || i in f
    ensures |ScanKept(snaps, p, now)| <= |a| + |b| + |c| + |d| + |e| + |f|
  {
    SixUnionSize(a, b, c, d, e, f);
    KeptWithin(snaps, p, now, a + b + c + d + e + f);
  }

  lemma KeptWithin(snaps: seq<SnapshotInfo>, p: Policy, now: Instant, all: set<int>)
    requires forall i <- all :: 0 <= i < |snaps|
    requires forall i: nat :: i < |snaps| && ScanKeeps(snaps, p, now, i) ==> i in all
    ensures |ScanKept(snaps, p, now)| <= |all|
  {
    IdsOfIndices(snaps, all);
    SubsetSize(ScanKept(snaps, p, now), set i | i in all :: snaps[i].id);
  }

  lemma KeptHasReason(snaps: seq<SnapshotInfo>, p: Policy, now: Instant, i: nat)
    requires i < |snaps| && ScanKeeps(snaps, p, now, i)
    ensures || i < p.keepMin || i in HourKept(snaps, p, now)
            || i in TierKept(snaps, p, now, Daily) || i in TierKept(snaps, p, now, Weekly)
            || i in TierKept(snaps, p, now, Monthly) || i in TierKept(snaps, p, now, Yearly)
  {
    if !(i < p.keepMin) && !InHours(p, snaps[i].createdAt, now) {
      var tier :| FirstInWindow(snaps, p, now, tier, i);
      match tier
      case Daily =>
      case Weekly =>
      case Monthly =>
      case Yearly =>
    }
  }

  lemma SixUnionSize(a: set<int>, b: set<int>, c: set<int>, d: set<int>, e: set<int>, f: set<int>)
    ensures |a + b + c + d + e + f| <= |a| + |b| + |c| + |d| + |e| + |f|
  {
    UnionSize(a, b);
    UnionSize(a + b, c);
    UnionSize(a + b + c, d);
    UnionSize(a + b + c + d, e);
    UnionSize(a + b + c + d + e, f);
  }

  /** A disabled policy keeps exactly the newest `keepMin`. */
  lemma DisabledKeepsNewest(snaps: seq<SnapshotInfo>, policy: Policy, now: Instant)
    requires !policy.enabled && DistinctIds(snaps)
    ensures var p := Normalize(policy);
            |ScanKept(snaps, p, now)| == if p.keepMin < |snaps| then p.keepMin else |snaps|
  {
    var p := Normalize(policy);
    var n := if p.keepMin < |snaps| then p.keepMin else |snaps|;
    assert ScanKept(snaps, p, now) == set i | 0 <= i < n :: snaps[i].id;
    PrefixIdCount(snaps, n);
  }

  lemma {:induction false} PrefixIdCount(snaps: seq<SnapshotInfo>, n: nat)
    requires n <= |snaps| && DistinctIds(snaps)
    ensures |set i | 0 <= i < n :: snaps[i].id| == n
  {
    var ids := set i | 0 <= i < n :: snaps[i].id;
    if n == 0 {
      assert ids == {};
    } else {
      var fewer := set i | 0 <= i < n - 1 :: snaps[i].id;
      PrefixIdCount(snaps, n - 1);
      assert snaps[n - 1].id !in fewer;
      hide DistinctIds;
      assert ids == fewer + {snaps[n - 1].id};
    }
  }
}
