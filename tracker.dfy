/**
 * pages/TrackerPage.tsx: the forensic health log (newest first, deletable
 * by id) and the period-day list (toggled per day), both mirrored in local
 * storage, and the calendar's day strings.
 */
module Tracker {
  import opened Strings
  import opened Types
  import opened Records

  /** `Array.prototype.filter`: the elements `keep` accepts, in their order. */
  function Filter<T(!new)>(s: seq<T>, keep: T -> bool): (r: seq<T>)
    ensures |r| <= |s|
    ensures forall x :: x in r <==> x in s && keep(x)
    ensures (forall i :: 0 <= i < |s| ==> keep(s[i])) ==> r == s
  {
    if s == [] then [] else (if keep(s[0]) then [s[0]] else []) + Filter(s[1..], keep)
  }

  /** Filtering is done element by element: it distributes over concatenation, so order is kept. */
  lemma {:induction false} FilterAppend<T(!new)>(a: seq<T>, b: seq<T>, keep: T -> bool)
    ensures Filter(a + b, keep) == Filter(a, keep) + Filter(b, keep)
  {
    if a == [] {
      assert a + b == b;
    } else {
      var head := if keep(a[0]) then [a[0]] else [];
      assert (a + b)[0] == a[0] && (a + b)[1..] == a[1..] + b;
      FilterAppend(a[1..], b, keep);
      assert head + (Filter(a[1..], keep) + Filter(b, keep)) == (head + Filter(a[1..], keep)) + Filter(b, keep);
    }
  }

  predicate NoDuplicates<T(==)>(s: seq<T>)
  {
    forall i, j :: 0 <= i < j < |s| ==> s[i] != s[j]
  }

  lemma {:induction false} FilterKeepsNoDuplicates<T(!new)>(s: seq<T>, keep: T -> bool)
    requires NoDuplicates(s)
    ensures NoDuplicates(Filter(s, keep))
  {
    if s != [] {
      FilterKeepsNoDuplicates(s[1..], keep);
      assert s[0] !in s[1..];
    }
  }

  /** The period days without `day`. */
  function DaysWithout(days: seq<string>, day: string): (r: seq<string>)
    ensures day !in r
    ensures forall x :: x != day ==> (x in r <==> x in days)
  {
    Filter(days, (x: string) => x != day)
  }

  /** `togglePeriodDay`'s new list: `day` is removed when present and appended when absent. */
  function ToggledDays(days: seq<string>, day: string): (r: seq<string>)
    ensures day in r <==> day !in days
    ensures forall x :: x != day ==> (x in r <==> x in days)
    ensures day !in days ==> r == days + [day]
  {
    if day in days then DaysWithout(days, day) else days + [day]
  }

  /** A toggle never introduces a duplicate day. */
  lemma ToggleKeepsNoDuplicates(days: seq<string>, day: string)
    requires NoDuplicates(days)
    ensures NoDuplicates(ToggledDays(days, day))
  {
    if day in days {
      FilterKeepsNoDuplicates(days, (x: string) => x != day);
    }
  }

  /** Toggling an absent day twice gives back the original list. */
  lemma ToggleAbsentTwice(days: seq<string>, day: string)
    requires day !in days
    ensures ToggledDays(ToggledDays(days, day), day) == days
  {
    var keep := (x: string) => x != day;
    FilterAppend(days, [day], keep);
    assert Filter([day], keep) == [] by { assert [day][1..] == []; }
    assert forall i :: 0 <= i < |days| ==> keep(days[i]);
  }

  /** From no days, one toggle of 2024-05-01 marks exactly that day and a second one clears it. */
  lemma ToggleDayScenario()
    ensures ToggledDays([], "2024-05-01") == ["2024-05-01"]
    ensures ToggledDays(ToggledDays([], "2024-05-01"), "2024-05-01") == []
  {
    ToggleAbsentTwice([], "2024-05-01");
  }

  /** The health log without the entries whose id is `id`. */
  function LogsWithout(logs: seq<HealthLog>, id: int): (r: seq<HealthLog>)
    ensures forall e :: e in r <==> e in logs && e.id != id
    ensures (forall e :: e in logs ==> e.id != id) ==> r == logs
  {
    Filter(logs, (e: HealthLog) => e.id != id)
  }

  /** Deleting by id is done entry by entry, so the survivors keep their order. */
  lemma LogsWithoutAppend(a: seq<HealthLog>, b: seq<HealthLog>, id: int)
    ensures LogsWithout(a + b, id) == LogsWithout(a, id) + LogsWithout(b, id)
  {
    FilterAppend(a, b, (e: HealthLog) => e.id != id);
  }

  /** The calendar's cell key `${year}-${pad2(month)}-${pad2(day)}`, with `month` counted from 1. */
  function DayString(year: nat, month: nat, day: nat): (r: string)
    requires 1 <= month <= 12 && 1 <= day <= 31
    ensures var y := |Decimal(year)|; |r| >= y + 6 && r[..y] == Decimal(year) && r[y] == '-'
  {
    Decimal(year) + "-" + PadTwo(Decimal(month)) + "-" + PadTwo(Decimal(day))
  }

  lemma TwoDigits(n: nat)
    requires 10 <= n < 100
    ensures |Decimal(n)| == 2
  {
    assert Decimal(n) == Decimal(n / 10) + [DigitChar(n % 10)];
  }

  lemma FourDigits(n: nat)
    requires 1000 <= n <= 9999
    ensures |Decimal(n)| == 4
  {
    assert Decimal(n) == Decimal(n / 10) + [DigitChar(n % 10)];
    assert Decimal(n / 10) == Decimal(n / 100) + [DigitChar(n / 10 % 10)];
    assert Decimal(n / 100) == Decimal(n / 1000) + [DigitChar(n / 100 % 10)];
  }

  /** The pieces of `a-b-c` with a two-character `b` sit where expected. */
  lemma DashedParts(a: string, b: string, c: string)
    requires |b| == 2
    ensures var s := a + "-" + b + "-" + c;
      && |s| == |a| + |c| + 4 && s[|a|] == '-' && s[|a| + 3] == '-'
      && s[..|a|] == a && s[|a| + 1..|a| + 3] == b && s[|a| + 4..] == c
  {
    var s := a + "-" + b + "-" + c;
    assert s == a + ("-" + b + "-" + c);
    assert s[..|a|] == a;
    assert s[|a|..] == "-" + b + "-" + c;
    assert s[|a| + 1..|a| + 3] == ("-" + b + "-" + c)[1..3];
    assert s[|a| + 4..] == ("-" + b + "-" + c)[4..];
  }

  /** Three digit fields joined by dashes, with two-digit middle and last fields, split back into the same fields. */
  lemma DashedFields(a: string, b: string, c: string, x: nat, y: nat, z: nat)
    requires |b| == 2 && |c| == 2 && AllDigits(a) && AllDigits(b) && AllDigits(c)
    requires ParseDecimal(a) == x && ParseDecimal(b) == y && ParseDecimal(c) == z
    ensures var s := a + "-" + b + "-" + c; var n := |a|;
      && |s| == n + 6 && s[n] == '-' && s[n + 3] == '-'
      && AllDigits(s[..n]) && AllDigits(s[n + 1..n + 3]) && AllDigits(s[n + 4..])
      && ParseDecimal(s[..n]) == x && ParseDecimal(s[n + 1..n + 3]) == y && ParseDecimal(s[n + 4..]) == z
  {
    DashedParts(a, b, c);
  }

  /** The fields of `year-MM-DD` written out from the three numbers. */
  lemma DayFields(year: nat, month: nat, day: nat, s: string)
    requires 1 <= month <= 12 && 1 <= day <= 31
    requires s == Decimal(year) + "-" + PadTwo(Decimal(month)) + "-" + PadTwo(Decimal(day))
    ensures var y := |Decimal(year)|;
      && |s| == y + 6 && s[y] == '-' && s[y + 3] == '-'
      && AllDigits(s[..y]) && AllDigits(s[y + 1..y + 3]) && AllDigits(s[y + 4..])
      && ParseDecimal(s[..y]) == year
      && ParseDecimal(s[y + 1..y + 3]) == month
      && ParseDecimal(s[y + 4..]) == day
  {
    DecimalRoundTrip(year);
    MonthDayField(month);
    MonthDayField(day);
    DashedFields(Decimal(year), PadTwo(Decimal(month)), PadTwo(Decimal(day)), year, month, day);
  }

  /**
   * A day string is three digit fields separated by dashes: the year as
   * written, then month and day in exactly two digits each, and each field
   * reads back as the number it came from. With a four-digit year it is
   * `YYYY-MM-DD`.
   */
  lemma DayStringFormat(year: nat, month: nat, day: nat)
    requires 1 <= month <= 12 && 1 <= day <= 31
    ensures var s := DayString(year, month, day); var y := |Decimal(year)|;
      && |s| == y + 6 && s[y] == '-' && s[y + 3] == '-'
      && AllDigits(s[..y]) && AllDigits(s[y + 1..y + 3]) && AllDigits(s[y + 4..])
      && ParseDecimal(s[..y]) == year
      && ParseDecimal(s[y + 1..y + 3]) == month
      && ParseDecimal(s[y + 4..]) == day
    ensures 1000 <= year <= 9999 ==> |DayString(year, month, day)| == 10
  {
    DayFields(year, month, day, DayString(year, month, day));
    if 1000 <= year <= 9999 { FourDigits(year); }
  }

  /** A month or day number pads to exactly two digits that read back as the number. */
  lemma MonthDayField(n: nat)
    requires 1 <= n <= 31
    ensures var b := PadTwo(Decimal(n)); |b| == 2 && AllDigits(b) && ParseDecimal(b) == n
  {
    PadTwoDecimal(n);
    if n >= 10 { TwoDigits(n); }
  }

  /** The health logs a tracker key holds, or the empty list when the key is absent or empty. */
  function StoredLogs(m: map<string, Doc>): (r: seq<HealthLog>)
    requires TrackerReadable(m)
    ensures HealthLogsKey in m && m[HealthLogsKey].LogListDoc? ==> r == m[HealthLogsKey].logs
    ensures HealthLogsKey !in m || m[HealthLogsKey] == TextDoc("") ==> r == []
  {
    if HealthLogsKey in m && m[HealthLogsKey].LogListDoc? then m[HealthLogsKey].logs else []
  }

  /** The period days a tracker key holds, or the empty list when the key is absent or empty. */
  function StoredDays(m: map<string, Doc>): (r: seq<string>)
    requires TrackerReadable(m)
    ensures PeriodsKey in m && m[PeriodsKey].DayListDoc? ==> r == m[PeriodsKey].days
    ensures PeriodsKey !in m || m[PeriodsKey] == TextDoc("") ==> r == []
  {
    if PeriodsKey in m && m[PeriodsKey].DayListDoc? then m[PeriodsKey].days else []
  }

  /** The tracker screen's state. */
  class TrackerScreen {
    var selectedDate: string
    var dischargeType: string
    var dischargeLoc: string
    var notes: string
    var healthLogs: seq<HealthLog>
    var periodDays: seq<string>
    const store: Store

    /** The two lists are what storage holds for them (storage has no key for a list never saved). */
    predicate Synced()
      reads this, store
    {
      && TrackerReadable(store.entries)
      && healthLogs == StoredLogs(store.entries)
      && periodDays == StoredDays(store.entries)
    }

    /** The first render: today selected, no observation, the lists loaded from storage. */
    constructor (store: Store, today: string)
      requires TrackerReadable(store.entries)
      ensures this.store == store && Synced()
      ensures selectedDate == today && dischargeType == "none" && dischargeLoc == "Vagina" && notes == ""
      ensures HealthLogsKey !in store.entries ==> healthLogs == []
      ensures PeriodsKey !in store.entries ==> periodDays == []
    {
      this.store := store;
      selectedDate := today;
      dischargeType := "none";
      dischargeLoc := "Vagina";
      notes := "";
      healthLogs := StoredLogs(store.entries);
      periodDays := StoredDays(store.entries);
    }

    method SelectDate(d: string)
      modifies this`selectedDate
      ensures selectedDate == d
    {
      selectedDate := d;
    }

    method DischargeTypeInput(v: string)
      modifies this`dischargeType
      ensures dischargeType == v
    {
      dischargeType := v;
    }

    method DischargeLocInput(v: string)
      modifies this`dischargeLoc
      ensures dischargeLoc == v
    {
      dischargeLoc := v;
    }

    method NotesInput(v: string)
      modifies this`notes
      ensures notes == v
    {
      notes := v;
    }

    /**
     * `handleSaveHealth`. With empty notes and no observation type nothing
     * happens; otherwise the new entry goes first, the earlier entries
     * follow in order, the list is stored and the notes are cleared.
     * `now`, `dateText` and `isoNow` are `Date.now()`, the selected day's
     * `toDateString` and the current `toISOString`.
     */
    method SaveHealth(now: int, dateText: string, isoNow: string)
      requires Synced()
      modifies this`healthLogs, this`notes, store
      ensures Synced()
      ensures old(notes) == "" && dischargeType == "none" ==>
        healthLogs == old(healthLogs) && notes == old(notes) && store.entries == old(store.entries)
      ensures !(old(notes) == "" && dischargeType == "none") ==>
        && healthLogs == [HealthLog(now, dateText, selectedDate, dischargeType, dischargeLoc, old(notes), isoNow)] + old(healthLogs)
        && store.entries == old(store.entries)[HealthLogsKey := LogListDoc(healthLogs)]
        && notes == ""
      ensures periodDays == old(periodDays)
    {
      if notes == "" && dischargeType == "none" {
        return;
      }
      var log := HealthLog(now, dateText, selectedDate, dischargeType, dischargeLoc, notes, isoNow);
      var updated := [log] + healthLogs;
      healthLogs := updated;
      store.SetItem(HealthLogsKey, LogListDoc(updated));
      notes := "";
    }

    /** `togglePeriodDay` for the selected day; the new list is stored. */
    method TogglePeriodDay()
      requires Synced()
      modifies this`periodDays, store
      ensures Synced()
      ensures periodDays == ToggledDays(old(periodDays), selectedDate)
      ensures store.entries == old(store.entries)[PeriodsKey := DayListDoc(periodDays)]
      ensures healthLogs == old(healthLogs)
    {
      var updated := ToggledDays(periodDays, selectedDate);
      periodDays := updated;
      store.SetItem(PeriodsKey, DayListDoc(updated));
    }

    /** `deleteLog(id)`: when confirmed the entries with that id go and the rest is stored; when declined nothing changes. */
    method DeleteLog(id: int, confirmed: bool)
      requires Synced()
      modifies this`healthLogs, store
      ensures Synced()
      ensures confirmed ==> healthLogs == LogsWithout(old(healthLogs), id) &&
                            store.entries == old(store.entries)[HealthLogsKey := LogListDoc(healthLogs)]
      ensures !confirmed ==> healthLogs == old(healthLogs) && store.entries == old(store.entries)
      ensures periodDays == old(periodDays)
    {
      if confirmed {
        var updated := LogsWithout(healthLogs, id);
        healthLogs := updated;
        store.SetItem(HealthLogsKey, LogListDoc(updated));
      }
    }
  }
}
