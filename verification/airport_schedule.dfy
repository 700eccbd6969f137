/** The connected-airport schedule: thirty half-hour slots from 07:00 to
    22:00, a per-airport capacity range found by substring match in a table,
    a peak/off-peak adjustment of each slot's drawn capacity, one row per
    airport and day, the airport-to-country grouping, and the month length
    read back from candidate files' last date label. */
module AirportSchedule {
  import opened Common
  import opened Text
  import Routes

  const FirstSlotStart: int := 420
  const LastSlotEnd: int := 1320
  const SlotMinutes: int := 30
  const SlotCount: int := 30

  /** A slot label `"HH:MM ~ HH:MM"` with its allocatable count. */
  datatype TimeSlot = TimeSlot(span: string, count: int)

  /** The label of the slot starting at minute `start`. */
  function SlotLabel(start: int): (s: string)
    requires 0 <= start && start + SlotMinutes < 1440
    ensures |s| == 13
    ensures s[..5] == FormatHHMM(start)
    ensures s[8..] == FormatHHMM(start + SlotMinutes)
  {
    FormatHHMM(start) + " ~ " + FormatHHMM(start + SlotMinutes)
  }

  function SlotStart(i: int): int {
    FirstSlotStart + SlotMinutes * i
  }

  /** Half-hour slots from 07:00 while the start is before 22:00, each with
      a count of 0. */
  method GenerateTimeSlots() returns (slots: seq<TimeSlot>)
    ensures |slots| == SlotCount
    ensures forall i :: 0 <= i < |slots| ==> slots[i] == TimeSlot(SlotLabel(SlotStart(i)), 0)
  {
    slots := [];
    var current := FirstSlotStart;
    while current < LastSlotEnd
      invariant |slots| <= SlotCount
      invariant current == SlotStart(|slots|)
      invariant forall i :: 0 <= i < |slots| ==> slots[i] == TimeSlot(SlotLabel(SlotStart(i)), 0)
      decreases LastSlotEnd - current
    {
      var next := current + SlotMinutes;
      slots := slots + [TimeSlot(SlotLabel(current), 0)];
      current := next;
    }
  }

  /** The slots run from 07:00 to 22:00 without gaps: each slot ends where
      the next one starts, the first starts at 07:00 and the last ends at 22:00. */
  lemma SlotsTileTheDay()
    ensures SlotLabel(SlotStart(0))[..5] == "07:00"
    ensures SlotLabel(SlotStart(SlotCount - 1))[8..] == "22:00"
    ensures forall i :: 0 <= i < SlotCount - 1 ==> SlotLabel(SlotStart(i))[8..] == SlotLabel(SlotStart(i + 1))[..5]
  {
    assert FormatHHMM(420) == "07:00";
    assert FormatHHMM(1320) == "22:00";
  }

  /** `int(label.split(":")[0])`: the hour a slot label starts in. */
  function SlotHour(span: string): Option<nat> {
    ParseNat(Split(span, ':')[0])
  }

  /** The hour parsed back from a slot label is the slot's starting hour. */
  lemma SlotHourOfLabel(start: int)
    requires 0 <= start && start + SlotMinutes < 1440
    ensures SlotHour(SlotLabel(start)) == Some(start / 60)
  {
    var h := Pad2(start / 60);
    var rest := Pad2(start % 60) + " ~ " + FormatHHMM(start + SlotMinutes);
    assert SlotLabel(start) == h + [':'] + rest;
    assert ':' !in h by {
      assert IsDigit(h[0]) && IsDigit(h[1]);
    }
    SplitNoSeparator(h, ':', rest);
    ParsePad2(start / 60);
  }

  predicate IsPeakHour(hour: int) {
    9 <= hour <= 11 || 17 <= hour <= 19
  }

  /** One slot's allocatable count from its drawn base capacity: one more
      (capped at max + 2) in the peak hours, one less (floored at 1) otherwise. */
  function SlotCapacity(hour: int, base: int, maxCapacity: int): (r: int)
    ensures IsPeakHour(hour) ==> r <= base + 1
    ensures !IsPeakHour(hour) ==> r >= 1 && r >= base - 1
    ensures 0 <= base <= maxCapacity ==> 1 <= r <= maxCapacity + 1
  {
    if IsPeakHour(hour) then
      if base + 1 < maxCapacity + 2 then base + 1 else maxCapacity + 2
    else
      if base - 1 > 1 then base - 1 else 1
  }

  /** For a base drawn from [min, max] the max + 2 cap never binds: peak
      slots get exactly base + 1, off-peak slots base - 1 unless that is 0. */
  lemma SlotCapacityForDrawnBase(hour: int, base: int, minCapacity: int, maxCapacity: int)
    requires 1 <= minCapacity <= base <= maxCapacity
    ensures IsPeakHour(hour) ==> SlotCapacity(hour, base, maxCapacity) == base + 1
    ensures !IsPeakHour(hour) && base >= 2 ==> SlotCapacity(hour, base, maxCapacity) == base - 1
    ensures !IsPeakHour(hour) && base == 1 ==> SlotCapacity(hour, base, maxCapacity) == 1
    ensures 1 <= SlotCapacity(hour, base, maxCapacity) <= maxCapacity + 1
  {
  }

  /** The capacity table in its insertion order: (name, min, max). */
  const CapacityTable: seq<(string, int, int)> := [
    ("간사이국제공항", 8, 12), ("関西", 8, 12), ("인천공항", 8, 12), ("仁川", 8, 12),
    ("도쿄국제공항", 8, 12), ("羽田", 8, 12), ("나리타국제공항", 8, 12), ("成田", 8, 12),
    ("후쿠오카공항", 5, 8), ("福岡", 5, 8), ("나고야공항", 5, 8), ("中部", 5, 8),
    ("삿포로공항", 5, 8), ("新千歳", 5, 8),
    ("나하공항", 3, 6), ("那覇", 3, 6), ("김해공항", 3, 6), ("金海", 3, 6),
    ("김포공항", 3, 6), ("金浦", 3, 6), ("제주공항", 3, 6), ("済州", 3, 6),
    ("白雲", 4, 7), ("虹橋", 4, 7), ("浦東", 4, 7), ("首都", 4, 7), ("北京大興", 4, 7),
    ("松山", 3, 6), ("桃園", 4, 7),
    ("赤鱲角", 4, 7), ("マカオ", 3, 6), ("スワンナプーム", 3, 6), ("チャンギ", 4, 7),
    ("クアラルンプール", 3, 6), ("タンソンニャット", 3, 6), ("ドンムアン", 3, 6), ("ノイバイ", 3, 6)
  ]

  const DefaultCapacity: (int, int) := (5, 8)

  /** `key in name or name in key`. */
  predicate NameMatches(key: string, name: string) {
    IsSubstring(key, name) || IsSubstring(name, key)
  }

  /** The index of the first entry at or after `from` whose key matches. */
  function FirstMatch(table: seq<(string, int, int)>, name: string, from: nat): (r: Option<nat>)
    requires from <= |table|
    decreases |table| - from
    ensures r.Some? ==> from <= r.value < |table| && NameMatches(table[r.value].0, name)
                         && forall j :: from <= j < r.value ==> !NameMatches(table[j].0, name)
    ensures r.None? ==> forall j :: from <= j < |table| ==> !NameMatches(table[j].0, name)
  {
    if from == |table| then None
    else if NameMatches(table[from].0, name) then Some(from)
    else FirstMatch(table, name, from + 1)
  }

  predicate WellOrderedRanges(table: seq<(string, int, int)>) {
    forall i :: 0 <= i < |table| ==> 1 <= table[i].1 <= table[i].2
  }

  /** The (min, max) capacity of an airport: the first table entry in
      insertion order whose key and the name contain one another, else the
      mid-size default (5, 8). */
  function GetAirportCapacity(name: string): (r: (int, int))
    ensures 1 <= r.0 <= r.1
    ensures FirstMatch(CapacityTable, name, 0).None? ==> r == DefaultCapacity
    ensures FirstMatch(CapacityTable, name, 0).Some? ==>
              var i := FirstMatch(CapacityTable, name, 0).value;
              r == (CapacityTable[i].1, CapacityTable[i].2)
  {
    assert WellOrderedRanges(CapacityTable);
    match FirstMatch(CapacityTable, name, 0)
    case None => DefaultCapacity
    case Some(i) => (CapacityTable[i].1, CapacityTable[i].2)
  }

  /** The empty name is contained in every key, so it takes the first entry. */
  lemma EmptyNameTakesFirstEntry()
    ensures GetAirportCapacity("") == (8, 12)
  {
    assert NameMatches(CapacityTable[0].0, "");
  }

  lemma {:induction false} FirstCharAbsent(t: string, s: string)
    requires |t| > 0 && t[0] !in s
    ensures !IsSubstring(t, s)
  {
    if |s| > 0 {
      assert s[0] != t[0];
      FirstCharAbsent(t, s[1..]);
    }
  }

  /** Neither of two non-empty names, each of whose first character is
      absent from the other, contains the other. */
  lemma DistinctNames(key: string, name: string)
    requires |key| > 0 && |name| > 0 && key[0] !in name && name[0] !in key
    ensures !NameMatches(key, name)
  {
    FirstCharAbsent(key, name);
    FirstCharAbsent(name, key);
  }

  /** Haneda is matched by its own key, the sixth entry: the five before it
      share no first character with it. */
  lemma HanedaCapacity()
    ensures GetAirportCapacity("羽田") == (8, 12)
  {
    var name := "羽田";
    assert NameMatches(CapacityTable[5].0, name);
    assert FirstMatch(CapacityTable, name, 5) == Some(5);
    assert FirstMatch(CapacityTable, name, 4) == Some(5) by {
      DistinctNames(CapacityTable[4].0, name);
    }
    assert FirstMatch(CapacityTable, name, 3) == Some(5) by {
      DistinctNames(CapacityTable[3].0, name);
    }
    assert FirstMatch(CapacityTable, name, 2) == Some(5) by {
      DistinctNames(CapacityTable[2].0, name);
    }
    assert FirstMatch(CapacityTable, name, 1) == Some(5) by {
      DistinctNames(CapacityTable[1].0, name);
    }
    assert FirstMatch(CapacityTable, name, 0) == Some(5) by {
      DistinctNames(CapacityTable[0].0, name);
    }
  }

  const JapanAirports: seq<string> := ["羽田", "成田", "関西", "中部", "福岡", "新千歳", "那覇"]
  const KoreaAirports: seq<string> := ["仁川", "金浦", "金海", "済州"]
  const ChinaAirports: seq<string> := ["白雲", "虹橋", "浦東", "首都", "北京大興", "松山", "桃園"]
  const HongKongMacauAirports: seq<string> := ["赤鱲角", "マカオ"]
  const SoutheastAsiaAirports: seq<string> :=
    ["スワンナプーム", "チャンギ", "クアラルンプール", "タンソンニャット", "ドンムアン", "ノイバイ"]

  /** The country group of an airport, as the schedule labels it; Taiwan's
      airports fall in the China group and unknown airports in "その他". */
  function GetCountryByAirport(airport: string): (c: string)
    ensures airport in JapanAirports <==> c == "日本"
    ensures airport in KoreaAirports <==> c == "韓国"
    ensures airport in ChinaAirports <==> c == "中国"
    ensures airport in HongKongMacauAirports <==> c == "香港・マカオ"
    ensures airport in SoutheastAsiaAirports <==> c == "東南アジア"
    ensures c == "その他" <==>
              airport !in JapanAirports + KoreaAirports + ChinaAirports + HongKongMacauAirports + SoutheastAsiaAirports
  {
    if airport in JapanAirports then "日本"
    else if airport in KoreaAirports then "韓国"
    else if airport in ChinaAirports then "中国"
    else if airport in HongKongMacauAirports then "香港・マカオ"
    else if airport in SoutheastAsiaAirports then "東南アジア"
    else "その他"
  }

  /** The schedule group of each country of the route generator's table. */
  function CountryGroup(country: string): string {
    if country == "台湾" then "中国"
    else if country == "香港" || country == "マカオ" then "香港・マカオ"
    else if country in ["タイ", "シンガポール", "マレーシア", "ベトナム"] then "東南アジア"
    else country
  }

  /** Every airport routes can be drawn from is classified into its
      country's group (Taiwan's into China's), never into "その他". */
  lemma ClassificationCoversRouteAirports(i: nat, k: nat)
    requires i < |Routes.AirportsByCountry| && k < |Routes.AirportsByCountry[i].1|
    ensures GetCountryByAirport(Routes.AirportsByCountry[i].1[k]) == CountryGroup(Routes.AirportsByCountry[i].0)
    ensures GetCountryByAirport(Routes.AirportsByCountry[i].1[k]) != "その他"
  {
  }

  /** One schedule row: an airport on one day with its thirty slots. */
  datatype ScheduleRow = ScheduleRow(country: string, airport: string, dateLabel: string, slots: seq<TimeSlot>)

  /** The date label `f"{day}日"`. */
  function DateLabel(day: nat): string {
    NatToString(day) + "日"
  }

  /** The day's thirty slots with counts from the drawn bases, the hour of
      each slot read back from its label. */
  function DaySlots(maxCapacity: int, bases: seq<int>, i: nat): (slots: seq<TimeSlot>)
    requires |bases| == SlotCount && i <= SlotCount
    decreases SlotCount - i
    ensures |slots| == SlotCount - i
    ensures forall k :: 0 <= k < |slots| ==>
              && slots[k].span == SlotLabel(SlotStart(i + k))
              && slots[k].count == SlotCapacity(SlotStart(i + k) / 60, bases[i + k], maxCapacity)
  {
    if i == SlotCount then []
    else
      var span := SlotLabel(SlotStart(i));
      SlotHourOfLabel(SlotStart(i));
      var hour := SlotHour(span).value;
      var rest := DaySlots(maxCapacity, bases, i + 1);
      var slots := [TimeSlot(span, SlotCapacity(hour, bases[i], maxCapacity))] + rest;
      assert forall k :: 1 <= k < |slots| ==> slots[k] == rest[k - 1];
      slots
  }

  /** Every count of a day whose bases were drawn from the airport's range
      lies in [1, max + 1]. */
  lemma DaySlotsBounded(minCapacity: int, maxCapacity: int, bases: seq<int>)
    requires |bases| == SlotCount && 1 <= minCapacity <= maxCapacity
    requires forall k :: 0 <= k < |bases| ==> minCapacity <= bases[k] <= maxCapacity
    ensures forall k :: 0 <= k < SlotCount ==> 1 <= DaySlots(maxCapacity, bases, 0)[k].count <= maxCapacity + 1
  {
    var slots := DaySlots(maxCapacity, bases, 0);
    forall k | 0 <= k < SlotCount
      ensures 1 <= slots[k].count <= maxCapacity + 1
    {
      assert slots[k].count == SlotCapacity(SlotStart(k) / 60, bases[k], maxCapacity);
    }
  }

  /** `draws(a, d, k)` is the random draw behind slot `k` of airport `a` on day `d`. */
  function Row(airport: string, day: nat, draws: (nat, nat, nat) -> nat, a: nat): ScheduleRow {
    var (lo, hi) := GetAirportCapacity(airport);
    var bases := seq(SlotCount, k requires 0 <= k < SlotCount => Draw(lo, hi, draws(a, day, k)));
    ScheduleRow(GetCountryByAirport(airport), airport, DateLabel(day), DaySlots(hi, bases, 0))
  }

  /** Where the row of the `b`-th airport on day `d` sits. */
  function RowIndex(b: nat, d: nat, monthDays: nat): int {
    b * monthDays + d - 1
  }

  /** Row `b * n + r` belongs to airport `b` and day `r + 1`. */
  lemma RowIndexDivMod(b: nat, r: nat, n: nat)
    requires r < n
    ensures (b * n + r) / n == b && (b * n + r) % n == r
  {
    var x := b * n + r;
    var q := x / n;
    assert x == q * n + x % n;
    if q > b {
      MulGrows(b + 1, q, n);
      assert false;
    } else if q < b {
      MulGrows(q + 1, b, n);
      assert false;
    }
  }

  lemma MulGrows(a: int, b: int, n: nat)
    requires a <= b
    ensures a * n <= b * n
  {
  }

  /** The row at position `k` of the schedule. */
  function RowAt(airports: seq<string>, monthDays: nat, draws: (nat, nat, nat) -> nat, k: nat): ScheduleRow
    requires k < |airports| * monthDays
  {
    RowIndexBound(k, |airports|, monthDays);
    Row(airports[k / monthDays], k % monthDays + 1, draws, k / monthDays)
  }

  lemma RowIndexBound(k: nat, n: nat, monthDays: nat)
    requires k < n * monthDays
    ensures monthDays > 0 && k / monthDays < n
  {
    if k / monthDays >= n {
      MulGrows(n, k / monthDays, monthDays);
    }
  }

  /** Position `RowIndex(b, d)` holds airport `b`'s row for day `d`. */
  lemma RowAtIndex(airports: seq<string>, monthDays: nat, draws: (nat, nat, nat) -> nat, b: nat, d: nat)
    requires b < |airports| && 1 <= d <= monthDays
    ensures 0 <= RowIndex(b, d, monthDays) < |airports| * monthDays
    ensures RowAt(airports, monthDays, draws, RowIndex(b, d, monthDays)) == Row(airports[b], d, draws, b)
  {
    var k := RowIndex(b, d, monthDays);
    var n := |airports|;
    assert k == b * monthDays + (d - 1);
    RowIndexDivMod(b, d - 1, monthDays);
    assert k < n * monthDays by {
      MulGrows(b + 1, n, monthDays);
      assert (b + 1) * monthDays == b * monthDays + monthDays;
    }
    assert k / monthDays == b && k % monthDays + 1 == d;
    RowAtOf(airports, monthDays, draws, k, b, d);
  }

  lemma RowAtOf(airports: seq<string>, monthDays: nat, draws: (nat, nat, nat) -> nat, k: nat, b: nat, d: nat)
    requires k < |airports| * monthDays && b < |airports|
    requires monthDays > 0 && k / monthDays == b && k % monthDays + 1 == d
    ensures RowAt(airports, monthDays, draws, k) == Row(airports[b], d, draws, b)
  {
  }

  /** The schedule: exactly one row per (airport, day) for days 1..monthDays,
      airport by airport, dated `"{day}日"`. */
  function GenerateSchedule(airports: seq<string>, monthDays: nat, draws: (nat, nat, nat) -> nat): (rows: seq<ScheduleRow>)
    ensures |rows| == |airports| * monthDays
    ensures forall b, d :: 0 <= b < |airports| && 1 <= d <= monthDays ==>
              0 <= RowIndex(b, d, monthDays) < |rows|
              && rows[RowIndex(b, d, monthDays)] == Row(airports[b], d, draws, b)
  {
    if monthDays == 0 then []
    else
      var rows := seq(|airports| * monthDays, k requires 0 <= k < |airports| * monthDays =>
                        RowAt(airports, monthDays, draws, k));
      forall b, d | 0 <= b < |airports| && 1 <= d <= monthDays
        ensures 0 <= RowIndex(b, d, monthDays) < |rows|
        ensures rows[RowIndex(b, d, monthDays)] == Row(airports[b], d, draws, b)
      {
        RowAtIndex(airports, monthDays, draws, b, d);
      }
      rows
  }

  /** Each row carries its airport, its date label and its airport's group. */
  lemma RowContents(airport: string, day: nat, draws: (nat, nat, nat) -> nat, a: nat)
    ensures Row(airport, day, draws, a).airport == airport
    ensures Row(airport, day, draws, a).dateLabel == DateLabel(day)
    ensures Row(airport, day, draws, a).country == GetCountryByAirport(airport)
    ensures |Row(airport, day, draws, a).slots| == SlotCount
  {
  }

  /** The day a candidate file's last date cell gives: a string containing
      `日` whose remainder after removing every `日` parses as an integer;
      a missing file, column or non-string cell is `None`. */
  function LabelDay(cell: Option<string>): (r: Option<nat>)
    ensures r.Some? ==> cell.Some? && IsSubstring("日", cell.value)
    ensures cell.Some? && IsSubstring("日", cell.value) ==>
              var rest := ReplaceAll(cell.value, "日", "");
              && (r.Some? <==> |rest| > 0 && AllDigits(rest))
              && (r.Some? ==> r.value == DigitsValue(rest))
  {
    match cell
    case None => None
    case Some(s) => if IsSubstring("日", s) then ParseNat(ReplaceAll(s, "日", "")) else None
  }

  /** The running maximum over the candidate files' last date cells. */
  function MonthDaysFold(acc: int, cells: seq<Option<string>>): (r: int)
    decreases |cells|
    ensures r >= acc
    ensures forall i :: 0 <= i < |cells| && LabelDay(cells[i]).Some? ==> r >= LabelDay(cells[i]).value
    ensures r == acc || exists i :: 0 <= i < |cells| && LabelDay(cells[i]) == Some(r)
  {
    if |cells| == 0 then acc
    else
      var acc' := match LabelDay(cells[0])
                  case Some(d) => if d > acc then d else acc
                  case None => acc;
      var r := MonthDaysFold(acc', cells[1..]);
      assert forall i :: 1 <= i < |cells| ==> cells[i] == cells[1..][i - 1];
      r
  }

  /** The month length: 28 unless a readable date label says more. It is
      the largest readable day, and never below 28. */
  function GetMonthDays(cells: seq<Option<string>>): (r: int)
    ensures r >= 28
    ensures forall i :: 0 <= i < |cells| && LabelDay(cells[i]).Some? ==> r >= LabelDay(cells[i]).value
    ensures r == 28 || exists i :: 0 <= i < |cells| && LabelDay(cells[i]) == Some(r)
  {
    MonthDaysFold(28, cells)
  }

  lemma {:induction false} SuffixIsSubstring(t: string, s: string)
    ensures IsSubstring(t, s + t)
  {
    if |s| > 0 {
      assert (s + t)[1..] == s[1..] + t;
      SuffixIsSubstring(t, s[1..]);
    } else {
      assert s + t == t;
    }
  }

  /** A date label written as `"{day}日"` reads back as that day. */
  lemma DateLabelReadsBack(day: nat)
    ensures LabelDay(Some(DateLabel(day))) == Some(day)
  {
    var digits := NatToString(day);
    assert '日' !in digits;
    SuffixIsSubstring("日", digits);
    StripSuffixChar(digits, '日');
    ParseNatToString(day);
  }

  /** A candidate month of `n` days, whose last row is dated `"{n}日"`, is
      read back as `n` days, whatever month of the calendar table it is. */
  lemma CandidateMonthReadsBack(draw: nat)
    ensures var (month, days) := Routes.RandomMonthAndDays(draw);
            GetMonthDays([Some(DateLabel(days))]) == days
  {
    var (month, days) := Routes.RandomMonthAndDays(draw);
    DateLabelReadsBack(days);
  }
}
