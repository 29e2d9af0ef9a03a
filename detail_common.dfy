/** The availability table both detail pages draw: a day-by-period grid
    built from the volunteer's schedule entries. */
module Schedule {
  import opened Js

  /** A schedule entry as the profile carries it: an English day name and
      one value per period (any JavaScript value; only truthiness counts). */
  datatype ScheduleEntry = ScheduleEntry(
    dayOfWeek: string,
    periodTime: JsValue,
    periodTime2: JsValue,
    periodTime3: JsValue)

  /** One row of the grid: morning, afternoon and evening ticked or not. */
  datatype Slots = Slots(periodTime: bool, periodTime2: bool, periodTime3: bool)

  /** `dayMap`: English day name to the Spanish row label. */
  function DayMap(): map<string, string>
  {
    map["MONDAY" := "Lunes", "TUESDAY" := "Martes", "WEDNESDAY" := "Miércoles",
        "THURSDAY" := "Jueves", "FRIDAY" := "Viernes", "SATURDAY" := "Sabado",
        "SUNDAY" := "Domingo"]
  }

  /** `days`: the rows of the grid, in order. */
  function Days(): seq<string>
  {
    ["Lunes", "Martes", "Miércoles", "Jueves", "Viernes", "Sabado", "Domingo"]
  }

  /** Every English day has a row and every row has exactly one English day. */
  lemma DayMapCoversDays()
    ensures DayMap().Values == set d | d in Days()
    ensures forall a, b :: a in DayMap() && b in DayMap() && DayMap()[a] == DayMap()[b] ==> a == b
  {
    assert DayMap()["MONDAY"] == "Lunes";
    assert DayMap()["TUESDAY"] == "Martes";
    assert DayMap()["WEDNESDAY"] == "Miércoles";
    assert DayMap()["THURSDAY"] == "Jueves";
    assert DayMap()["FRIDAY"] == "Viernes";
    assert DayMap()["SATURDAY"] == "Sabado";
    assert DayMap()["SUNDAY"] == "Domingo";
  }

  /** The row an entry writes: each flag is the truthiness of its period. */
  function SlotsOf(e: ScheduleEntry): Slots
  {
    Slots(Truthy(e.periodTime), Truthy(e.periodTime2), Truthy(e.periodTime3))
  }

  /** The entry names a day `dayMap` knows. */
  predicate KnownDay(e: ScheduleEntry)
  {
    e.dayOfWeek in DayMap()
  }

  /** The grid after visiting `entries` in order: an entry with an unknown
      day is skipped, any other one replaces the row of its day. */
  function ScheduleOf(entries: seq<ScheduleEntry>): (grid: map<string, Slots>)
    ensures forall day :: day in grid ==> day in Days()
  {
    if entries == [] then map[]
    else
      var m := ScheduleOf(entries[..|entries| - 1]);
      var e := entries[|entries| - 1];
      if KnownDay(e) then m[DayMap()[e.dayOfWeek] := SlotsOf(e)] else m
  }

  /** `ScheduleTable`'s `forEach` over the entries, writing into
      `scheduleMap`. */
  method BuildScheduleMap(schedules: seq<ScheduleEntry>) returns (scheduleMap: map<string, Slots>)
    ensures scheduleMap == ScheduleOf(schedules)
  {
    scheduleMap := map[];
    for i := 0 to |schedules|
      invariant scheduleMap == ScheduleOf(schedules[..i])
    {
      assert schedules[..i + 1][..i] == schedules[..i];
      var s := schedules[i];
      if s.dayOfWeek in DayMap() {
        var dayEs := DayMap()[s.dayOfWeek];
        scheduleMap := scheduleMap[dayEs := SlotsOf(s)];
      }
    }
    assert schedules[..|schedules|] == schedules;
  }

  /** A row is filled exactly when some entry names a known day that
      translates to it; unknown days add nothing. */
  lemma {:induction false} ScheduleRows(entries: seq<ScheduleEntry>, day: string)
    ensures day in ScheduleOf(entries) <==>
            exists i :: 0 <= i < |entries| && KnownDay(entries[i]) && DayMap()[entries[i].dayOfWeek] == day
  {
    if entries != [] {
      var init := entries[..|entries| - 1];
      ScheduleRows(init, day);
      assert forall i :: 0 <= i < |init| ==> init[i] == entries[i];
    }
  }

  /** The row of a day holds the slots of the last entry for that day. */
  lemma {:induction false} ScheduleLastEntryWins(entries: seq<ScheduleEntry>, i: nat)
    requires i < |entries| && KnownDay(entries[i])
    requires forall j :: i < j < |entries| && KnownDay(entries[j]) ==>
               DayMap()[entries[j].dayOfWeek] != DayMap()[entries[i].dayOfWeek]
    ensures var day := DayMap()[entries[i].dayOfWeek];
            day in ScheduleOf(entries) && ScheduleOf(entries)[day] == SlotsOf(entries[i])
  {
    if i < |entries| - 1 {
      var init := entries[..|entries| - 1];
      assert init[i] == entries[i];
      forall j | i < j < |init| && KnownDay(init[j])
        ensures DayMap()[init[j].dayOfWeek] != DayMap()[init[i].dayOfWeek]
      {
        assert init[j] == entries[j];
      }
      ScheduleLastEntryWins(init, i);
    }
  }
}

/** The status tag both detail pages show. */
module StatusLabels {
  /** `statusMap`: the label of each known status. */
  function StatusTable(): map<string, string>
  {
    map["PENDING" := "PENDIENTE", "APPROVED" := "APROBADO", "REJECTED" := "RECHAZADO"]
  }

  /** `statusMap[status]?.label || status`: the known label, otherwise the
      raw status. */
  function StatusLabel(status: string): (tag: string)
    ensures status in StatusTable() ==> tag == StatusTable()[status]
    ensures status !in StatusTable() ==> tag == status
  {
    if status in StatusTable() && StatusTable()[status] != "" then StatusTable()[status] else status
  }

  /** A status shows as itself exactly when it has no label of its own. */
  lemma StatusLabelFallback(status: string)
    ensures StatusLabel(status) == status <==> status !in StatusTable()
  {
    if status in StatusTable() {
      assert StatusTable()[status] != status;
    }
  }
}
