/** The rules of the reservation form: the option checkboxes, which
    calendar days may be picked, the time-slot table and the vehicle
    catalogue. */
module ReservationForm {
  import opened Common
  import opened Decimal

  // ---------------------------------------------------------------------
  // Option checkboxes

  /** The `options` state: hand truck, straps and blankets, damage waiver. */
  datatype OptionFlags = OptionFlags(diable: bool, sangles: bool, serenite: bool)

  /** The keys of `options`. */
  datatype OptionKey = Diable | Sangles | Serenite

  function Flag(o: OptionFlags, k: OptionKey): bool
  {
    match k
    case Diable => o.diable
    case Sangles => o.sangles
    case Serenite => o.serenite
  }

  /** `{ ...prev, [option]: !prev[option] }`: the chosen flag negated, the
      other two copied. */
  function Toggle(o: OptionFlags, k: OptionKey): (r: OptionFlags)
    ensures Flag(r, k) == !Flag(o, k)
    ensures forall j :: j != k ==> Flag(r, j) == Flag(o, j)
  {
    match k
    case Diable => o.(diable := !o.diable)
    case Sangles => o.(sangles := !o.sangles)
    case Serenite => o.(serenite := !o.serenite)
  }

  /** Two records that agree on every key are the same record. */
  lemma FlagsExtensional(o: OptionFlags, p: OptionFlags)
    requires forall k :: Flag(o, k) == Flag(p, k)
    ensures o == p
  {
    assert Flag(o, Diable) == Flag(p, Diable);
    assert Flag(o, Sangles) == Flag(p, Sangles);
    assert Flag(o, Serenite) == Flag(p, Serenite);
  }

  /** Toggling the same option twice restores the record. */
  lemma ToggleTwice(o: OptionFlags, k: OptionKey)
    ensures Toggle(Toggle(o, k), k) == o
  {
    var r := Toggle(Toggle(o, k), k);
    forall j ensures Flag(r, j) == Flag(o, j) {
    }
    FlagsExtensional(r, o);
  }

  /** Toggles of two options can be made in either order. */
  lemma ToggleCommutes(o: OptionFlags, j: OptionKey, k: OptionKey)
    ensures Toggle(Toggle(o, j), k) == Toggle(Toggle(o, k), j)
  {
    var a, b := Toggle(Toggle(o, j), k), Toggle(Toggle(o, k), j);
    forall i ensures Flag(a, i) == Flag(b, i) {
    }
    FlagsExtensional(a, b);
  }

  // ---------------------------------------------------------------------
  // The form state

  /** An instant, in milliseconds, as JavaScript `Date` values compare. */
  type Instant = int

  /** The page's state: two optional dates, two times, the vehicle id and
      the option flags. */
  datatype Form = Form(
    startDate: Option<Instant>,
    endDate: Option<Instant>,
    startTime: string,
    endTime: string,
    vehicle: string,
    options: OptionFlags)

  /** The values the page starts with. */
  const InitialForm: Form := Form(None, None, "", "", "", OptionFlags(false, false, false))

  /** Nothing is chosen at first: no date, no time, no vehicle, every
      option off. */
  lemma InitialFormIsBlank()
    ensures InitialForm.startDate.None? && InitialForm.endDate.None?
    ensures InitialForm.startTime == "" && InitialForm.endTime == "" && InitialForm.vehicle == ""
    ensures forall k :: !Flag(InitialForm.options, k)
  {
  }

  /** A checkbox change: only the chosen flag moves. */
  function HandleOptionChange(f: Form, k: OptionKey): (r: Form)
    ensures Flag(r.options, k) == !Flag(f.options, k)
    ensures forall j :: j != k ==> Flag(r.options, j) == Flag(f.options, j)
    ensures r.startDate == f.startDate && r.endDate == f.endDate
    ensures r.startTime == f.startTime && r.endTime == f.endTime && r.vehicle == f.vehicle
  {
    f.(options := Toggle(f.options, k))
  }

  // ---------------------------------------------------------------------
  // Calendars

  /** The start calendar's `disabled`: `date < new Date()`. */
  predicate StartDisabled(date: Instant, now: Instant)
  {
    date < now
  }

  /** The end calendar's `disabled`: `date < (startDate || new Date())`. */
  predicate EndDisabled(date: Instant, startDate: Option<Instant>, now: Instant)
  {
    date < (if startDate.Some? then startDate.value else now)
  }

  /** Once a start is chosen, an end is selectable exactly when it is not
      earlier than the start, whatever the time: the same day is allowed,
      an earlier one never. */
  lemma EndSelectableIffNotBeforeStart(date: Instant, start: Instant, now: Instant)
    ensures !EndDisabled(date, Some(start), now) <==> start <= date
  {
  }

  /** Without a start, the end calendar disables what the start calendar
      disables. */
  lemma EndWithoutStartLikeStart(date: Instant, now: Instant)
    ensures EndDisabled(date, None, now) <==> StartDisabled(date, now)
  {
  }

  const MsPerDay: int := 86400000

  /** The instant a calendar hands to `disabled` for day number `d`: that
      day's midnight. */
  function Midnight(d: int): Instant
  {
    d * MsPerDay
  }

  lemma MidnightMonotone(a: int, b: int)
    requires a < b
    ensures Midnight(a) + MsPerDay <= Midnight(b)
  {
    assert Midnight(b) - Midnight(a) == (b - a) * MsPerDay;
  }

  /** While it is later than midnight on day `today`, a calendar day can be
      picked as the start exactly when it comes after today: the current
      day itself is disabled. */
  lemma StartDaysSelectable(d: int, today: int, now: Instant)
    requires Midnight(today) < now < Midnight(today + 1)
    ensures StartDisabled(Midnight(d), now) <==> d <= today
  {
    if d <= today {
      if d < today {
        MidnightMonotone(d, today);
      }
    } else {
      if d > today + 1 {
        MidnightMonotone(today + 1, d);
      }
    }
  }

  /** Picking a start day: a disabled day is no pick. */
  function PickStart(f: Form, date: Instant, now: Instant): (r: Form)
    ensures r.startDate == (if StartDisabled(date, now) then f.startDate else Some(date))
    ensures r.(startDate := f.startDate) == f
  {
    if StartDisabled(date, now) then f else f.(startDate := Some(date))
  }

  /** Picking an end day against the current start. */
  function PickEnd(f: Form, date: Instant, now: Instant): (r: Form)
    ensures r.endDate == (if EndDisabled(date, f.startDate, now) then f.endDate else Some(date))
    ensures r.(endDate := f.endDate) == f
  {
    if EndDisabled(date, f.startDate, now) then f else f.(endDate := Some(date))
  }

  /** Both dates are chosen and the end is not earlier than the start. */
  predicate DatesOrdered(f: Form)
  {
    f.startDate.Some? && f.endDate.Some? ==> f.startDate.value <= f.endDate.value
  }

  /** An end picked after its start is never earlier than it. */
  lemma PickEndKeepsOrder(f: Form, date: Instant, now: Instant)
    requires DatesOrdered(f)
    ensures DatesOrdered(PickEnd(f, date, now))
  {
  }

  /** The start calendar does not look at the end date: picking a later
      start after the end leaves the end earlier than the start. */
  lemma PickStartCanBreakOrder(f: Form, start: Instant, now: Instant)
    requires f.endDate.Some? && now <= start && f.endDate.value < start
    ensures !DatesOrdered(PickStart(f, start, now))
  {
  }

  // ---------------------------------------------------------------------
  // Time slots

  const TimeSlots: seq<string> := [
    "08:00", "08:30", "09:00", "09:30", "10:00", "10:30",
    "11:00", "11:30", "12:00", "12:30", "13:00", "13:30",
    "14:00", "14:30", "15:00", "15:30", "16:00", "16:30",
    "17:00", "17:30", "18:00"
  ]

  /** `HH:MM` for a number of minutes after midnight. */
  function HourMinute(m: nat): string
  {
    PadStart(Show(m / 60), 2, '0') + ":" + PadStart(Show(m % 60), 2, '0')
  }

  /** Minutes after midnight of an `HH:MM` string. */
  function ClockMinutes(s: string): Option<nat>
  {
    if |s| == 5 && AllDigits(s[..2]) && s[2] == ':' && AllDigits(s[3..])
    then Some(60 * Value(s[..2]) + Value(s[3..]))
    else None
  }

  /** Reading back an `HH:MM` string gives its minutes, for every time
      below 100 hours. */
  lemma ClockMinutesOfHourMinute(m: nat)
    requires m < 6000
    ensures ClockMinutes(HourMinute(m)) == Some(m)
  {
    assert Pow10(2) == 100;
    PadRoundTrip(m / 60, 2);
    PadRoundTrip(m % 60, 2);
    var h, mm := PadStart(Show(m / 60), 2, '0'), PadStart(Show(m % 60), 2, '0');
    var s := HourMinute(m);
    assert s == h + ":" + mm;
    assert s[..2] == h && s[3..] == mm;
  }

  /** The slot table is every half hour from 08:00 to 18:00. */
  lemma TimeSlotsAreHalfHours()
    ensures |TimeSlots| == 21
    ensures forall i :: 0 <= i < 21 ==> TimeSlots[i] == HourMinute(480 + 30 * i)
  {
    forall i | 0 <= i < 21 ensures TimeSlots[i] == HourMinute(480 + 30 * i) {
      SlotIsHourMinute(i);
    }
  }

  lemma SlotIsHourMinute(i: nat)
    requires i < 21
    ensures TimeSlots[i] == HourMinute(480 + 30 * i)
  {
    var m := 480 + 30 * i;
    SlotDigits(i);
    HourMinuteChars(m);
  }

  /** The five characters `HourMinute` writes, digit by digit. */
  function HourMinuteDigits(m: nat): string
    requires m < 6000
  {
    ClockDigits(m / 60, m % 60)
  }

  function ClockDigits(h: nat, mm: nat): string
    requires h < 100 && mm < 100
  {
    [DigitChar(h / 10), DigitChar(h % 10), ':', DigitChar(mm / 10), DigitChar(mm % 10)]
  }

  lemma HourMinuteChars(m: nat)
    requires m < 6000
    ensures HourMinute(m) == HourMinuteDigits(m)
  {
    var h, mm := m / 60, m % 60;
    assert h < 100;
    assert HourMinute(m) == PadStart(Show(h), 2, '0') + ":" + PadStart(Show(mm), 2, '0');
    ClockChars(h, mm);
  }

  lemma ClockChars(h: nat, mm: nat)
    requires h < 100 && mm < 100
    ensures PadStart(Show(h), 2, '0') + ":" + PadStart(Show(mm), 2, '0') == ClockDigits(h, mm)
  {
    TwoDigits(h);
    TwoDigits(mm);
    var h1, h0, m1, m0 := DigitChar(h / 10), DigitChar(h % 10), DigitChar(mm / 10), DigitChar(mm % 10);
    FiveChars(h1, h0, m1, m0);
  }

  lemma FiveChars(h1: char, h0: char, m1: char, m0: char)
    ensures [h1, h0] + ":" + [m1, m0] == [h1, h0, ':', m1, m0]
  {
  }

  /** A number below 100 padded to two digits. */
  lemma TwoDigits(n: nat)
    requires n < 100
    ensures PadStart(Show(n), 2, '0') == [DigitChar(n / 10), DigitChar(n % 10)]
  {
    if n >= 10 {
      assert Show(n) == Show(n / 10) + [DigitChar(n % 10)];
    }
  }

  /** Each table entry, character by character. */
  lemma SlotDigits(i: nat)
    requires i < 21
    ensures TimeSlots[i] == HourMinuteDigits(480 + 30 * i)
  {
    if i < 5 {
      SlotsFrom0800(i);
    } else if i < 10 {
      SlotsFrom1030(i);
    } else if i < 15 {
      SlotsFrom1300(i);
    } else {
      SlotsFrom1530(i);
    }
  }

  /** The ten digit characters. */
  lemma DigitChars()
    ensures DigitChar(0) == '0' && DigitChar(1) == '1' && DigitChar(2) == '2' && DigitChar(3) == '3'
    ensures DigitChar(4) == '4' && DigitChar(5) == '5' && DigitChar(6) == '6' && DigitChar(7) == '7'
    ensures DigitChar(8) == '8' && DigitChar(9) == '9'
  {
  }

  lemma SlotsFrom0800(i: nat)
    requires 0 <= i < 5
    ensures TimeSlots[i] == HourMinuteDigits(480 + 30 * i)
  {
    DigitChars();
    if i == 0 {
      assert TimeSlots[i] == ClockDigits(8, 0);
    } else if i == 1 {
      assert TimeSlots[i] == ClockDigits(8, 30);
    } else if i == 2 {
      assert TimeSlots[i] == ClockDigits(9, 0);
    } else if i == 3 {
      assert TimeSlots[i] == ClockDigits(9, 30);
    } else {
      assert TimeSlots[i] == ClockDigits(10, 0);
    }
  }

  lemma SlotsFrom1030(i: nat)
    requires 5 <= i < 10
    ensures TimeSlots[i] == HourMinuteDigits(480 + 30 * i)
  {
    DigitChars();
    if i == 5 {
      assert TimeSlots[i] == ClockDigits(10, 30);
    } else if i == 6 {
      assert TimeSlots[i] == ClockDigits(11, 0);
    } else if i == 7 {
      assert TimeSlots[i] == ClockDigits(11, 30);
    } else if i == 8 {
      assert TimeSlots[i] == ClockDigits(12, 0);
    } else {
      assert TimeSlots[i] == ClockDigits(12, 30);
    }
  }

  lemma SlotsFrom1300(i: nat)
    requires 10 <= i < 15
    ensures TimeSlots[i] == HourMinuteDigits(480 + 30 * i)
  {
    DigitChars();
    if i == 10 {
      assert TimeSlots[i] == ClockDigits(13, 0);
    } else if i == 11 {
      assert TimeSlots[i] == ClockDigits(13, 30);
    } else if i == 12 {
      assert TimeSlots[i] == ClockDigits(14, 0);
    } else if i == 13 {
      assert TimeSlots[i] == ClockDigits(14, 30);
    } else {
      assert TimeSlots[i] == ClockDigits(15, 0);
    }
  }

  lemma SlotsFrom1530(i: nat)
    requires 15 <= i < 21
    ensures TimeSlots[i] == HourMinuteDigits(480 + 30 * i)
  {
    DigitChars();
    if i == 15 {
      assert TimeSlots[i] == ClockDigits(15, 30);
    } else if i == 16 {
      assert TimeSlots[i] == ClockDigits(16, 0);
    } else if i == 17 {
      assert TimeSlots[i] == ClockDigits(16, 30);
    } else if i == 18 {
      assert TimeSlots[i] == ClockDigits(17, 0);
    } else if i == 19 {
      assert TimeSlots[i] == ClockDigits(17, 30);
    } else {
      assert TimeSlots[i] == ClockDigits(18, 0);
    }
  }

  /** The slots rise by exactly thirty minutes from 08:00 to 18:00, so no
      two are equal. */
  lemma TimeSlotsAscending()
    ensures forall i :: 0 <= i < 21 ==> ClockMinutes(TimeSlots[i]) == Some(480 + 30 * i)
    ensures forall i, j :: 0 <= i < j < 21 ==> TimeSlots[i] != TimeSlots[j]
  {
    forall i | 0 <= i < 21 ensures ClockMinutes(TimeSlots[i]) == Some(480 + 30 * i) {
      SlotMinutes(i);
    }
    forall i, j | 0 <= i < j < 21 ensures TimeSlots[i] != TimeSlots[j] {
      SlotMinutes(i);
      SlotMinutes(j);
    }
  }

  lemma SlotMinutes(i: nat)
    requires i < 21
    ensures ClockMinutes(TimeSlots[i]) == Some(480 + 30 * i)
  {
    SlotIsHourMinute(i);
    ClockMinutesOfHourMinute(480 + 30 * i);
  }

  /** Choosing a start or end time: the select offers only the table's
      entries. */
  function PickStartTime(f: Form, slot: nat): (r: Form)
    requires slot < |TimeSlots|
    ensures r.startTime in TimeSlots && ClockMinutes(r.startTime) == Some(480 + 30 * slot)
    ensures r.(startTime := f.startTime) == f
  {
    TimeSlotsAscending();
    f.(startTime := TimeSlots[slot])
  }

  function PickEndTime(f: Form, slot: nat): (r: Form)
    requires slot < |TimeSlots|
    ensures r.endTime in TimeSlots && ClockMinutes(r.endTime) == Some(480 + 30 * slot)
    ensures r.(endTime := f.endTime) == f
  {
    TimeSlotsAscending();
    f.(endTime := TimeSlots[slot])
  }

  // ---------------------------------------------------------------------
  // Vehicles

  datatype Vehicle = Vehicle(id: string, name: string, description: string)

  const Vehicles: seq<Vehicle> := [
    Vehicle("sprinter", "Mercedes Sprinter", "12m³ - Idéal déménagement"),
    Vehicle("crafter", "VW Crafter", "14m³ - Grande capacité"),
    Vehicle("transit", "Ford Transit", "10m³ - Compact et maniable")
  ]

  predicate DistinctIds(vs: seq<Vehicle>)
  {
    forall i, j :: 0 <= i < j < |vs| ==> vs[i].id != vs[j].id
  }

  /** The catalogue holds three vehicles with pairwise distinct ids, none of
      them empty. */
  lemma CatalogueIds()
    ensures |Vehicles| == 3 && DistinctIds(Vehicles)
    ensures forall v :: v in Vehicles ==> v.id != ""
  {
  }

  /** The first vehicle with the given id. */
  function FindVehicle(vs: seq<Vehicle>, id: string): (r: Option<Vehicle>)
    ensures r.Some? ==> r.value in vs && r.value.id == id
    ensures r.None? ==> forall v :: v in vs ==> v.id != id
  {
    if vs == [] then None
    else if vs[0].id == id then Some(vs[0])
    else FindVehicle(vs[1..], id)
  }

  /** With distinct ids, a vehicle is found again by its id. */
  lemma FindById(vs: seq<Vehicle>, v: Vehicle)
    requires DistinctIds(vs) && v in vs
    ensures FindVehicle(vs, v.id) == Some(v)
  {
  }

  /** A click on a vehicle card stores its id and nothing else. */
  function SelectVehicle(f: Form, v: Vehicle): (r: Form)
    ensures r.vehicle == v.id
    ensures r.(vehicle := f.vehicle) == f
  {
    f.(vehicle := v.id)
  }

  /** After choosing a catalogue vehicle, the stored id leads back to it
      and exactly its card is highlighted (`vehicle === v.id`). */
  lemma SelectedVehicleHighlighted(f: Form, v: Vehicle)
    requires v in Vehicles
    ensures FindVehicle(Vehicles, SelectVehicle(f, v).vehicle) == Some(v)
    ensures forall w :: w in Vehicles ==> (SelectVehicle(f, v).vehicle == w.id <==> w == v)
  {
    CatalogueIds();
    FindById(Vehicles, v);
  }

  /** At first no card is highlighted. */
  lemma NoVehicleInitially()
    ensures FindVehicle(Vehicles, InitialForm.vehicle).None?
  {
    CatalogueIds();
  }
}
