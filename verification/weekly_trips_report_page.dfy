/** The weekly trips page: the week offset it navigates, the report it last
    loaded, the export it asks for, and its label helpers. Requests carry
    the offset as decimal text in the query string; the server's answers
    are inputs. */
module WeeklyTripsReportPage {
  import opened Common
  import opened ReportsWeek

  /** Previous week: always one further back. */
  function PreviousOffset(offset: int): (o: int)
    ensures o == offset - 1
  {
    offset - 1
  }

  /** Next week: one step forward, never past the current week. */
  function NextOffset(offset: int): (o: int)
    ensures offset < 0 ==> o == offset + 1
    ensures offset >= 0 ==> o == offset
    ensures offset <= 0 ==> o <= 0
  {
    if offset < 0 then offset + 1 else offset
  }

  /** Next undoes Previous. */
  lemma NextUndoesPrevious(offset: int)
    requires offset <= 0
    ensures NextOffset(PreviousOffset(offset)) == offset
  {
  }

  /** The label in the export's file name. */
  function WeekLabel(offset: int): (text: string)
    ensures offset == 0 ==> text == "actual"
    ensures offset != 0 ==> text == "semana_" + NatToString(if offset < 0 then -offset else offset)
  {
    if offset == 0 then "actual" else "semana_" + NatToString(if offset < 0 then -offset else offset)
  }

  /** Past weeks get different labels, and none is the current week's. */
  lemma WeekLabelsDistinct(a: int, b: int)
    requires a <= 0 && b <= 0 && a != b
    ensures WeekLabel(a) != WeekLabel(b)
  {
    if a != 0 && b != 0 {
      var pa, pb := NatToString(-a), NatToString(-b);
      if WeekLabel(a) == WeekLabel(b) {
        assert ("semana_" + pa)[7..] == pa;
        assert ("semana_" + pb)[7..] == pb;
        NatToStringInjective(-a, -b);
      }
    } else if a == 0 {
      assert WeekLabel(b)[0] == 's';
    } else {
      assert WeekLabel(a)[0] == 's';
    }
  }

  function ExportFileName(offset: int): string {
    "reporte_viajes_" + WeekLabel(offset) + ".xlsx"
  }

  /** What an export click does. */
  datatype ExportOutcome = NothingLoaded | OpenWeekRefused | Download(offset: int, fileName: string)

  /** The page's state: the offset and the flags of the report last
      loaded. */
  class ReportPage {
    var weekOffset: int
    var report: Option<WeekFlags>

    /** The offset never points at a future week. */
    predicate Valid()
      reads this
    {
      weekOffset <= 0
    }

    constructor ()
      ensures Valid() && weekOffset == 0 && report == None
    {
      weekOffset := 0;
      report := None;
    }

    method PreviousWeek()
      requires Valid()
      modifies this
      ensures Valid() && weekOffset == PreviousOffset(old(weekOffset)) && report == old(report)
    {
      weekOffset := weekOffset - 1;
    }

    method NextWeek()
      requires Valid()
      modifies this
      ensures Valid() && weekOffset == NextOffset(old(weekOffset)) && report == old(report)
    {
      if weekOffset < 0 {
        weekOffset := weekOffset + 1;
      }
    }

    /** loadWeeklyReport, with the server's answer for the Lima day: on a
        failure the previous report stays. */
    method LoadReport(limaDay: int, succeeds: bool)
      requires Valid()
      modifies this
      ensures Valid() && weekOffset == old(weekOffset)
      ensures succeeds ==> report == Some(Flags(limaDay, ParseOffset(Some(IntToString(weekOffset)))))
      ensures !succeeds ==> report == old(report)
    {
      if succeeds {
        report := Some(Flags(limaDay, ParseOffset(Some(IntToString(weekOffset)))));
      }
    }

    /** handleExportToExcel: refused while the loaded report is the current
        week's; otherwise a download of the page's offset. */
    method ExportToExcel() returns (outcome: ExportOutcome)
      ensures report.None? ==> outcome == NothingLoaded
      ensures report.Some? && report.value.isCurrentWeek ==> outcome == OpenWeekRefused
      ensures report.Some? && !report.value.isCurrentWeek ==>
                outcome == Download(weekOffset, ExportFileName(weekOffset))
    {
      if report.None? {
        return NothingLoaded;
      }
      if report.value.isCurrentWeek {
        return OpenWeekRefused;
      }
      outcome := Download(weekOffset, ExportFileName(weekOffset));
    }
  }

  /** The server reads back the offset the page sends, so a report loaded
      for the page's offset lets the page export exactly when the server's
      export would accept that offset. */
  lemma PageGateMatchesServer(limaDay: int, offset: int)
    ensures Flags(limaDay, ParseOffset(Some(IntToString(offset)))) == Flags(limaDay, offset)
    ensures !Flags(limaDay, offset).isCurrentWeek <==> ExportGateFor(limaDay, Some(IntToString(offset))).ExportWindow?
  {
    ParseOffsetOfNumber(offset);
    ExportMatchesFlag(limaDay, Some(IntToString(offset)));
  }

  /** The server refuses the export of offset 0 on every day. */
  lemma StaleReportStillRefused(limaDay: int)
    ensures ExportGateFor(limaDay, Some(IntToString(0))).RejectOpenWeek?
  {
    ParseOffsetOfNumber(0);
  }

  /** The stale page: the user loads last week, moves forward to the current
      week and that load fails. The page still holds last week's flags, so a
      click asks for the download of offset 0, which the server refuses. */
  method StaleExport(limaDay: int) returns (outcome: ExportOutcome)
    ensures outcome == Download(0, ExportFileName(0))
    ensures ExportGateFor(limaDay, Some(IntToString(outcome.offset))).RejectOpenWeek?
  {
    var page := new ReportPage();
    page.PreviousWeek();
    page.LoadReport(limaDay, true);
    PageGateMatchesServer(limaDay, -1);
    page.NextWeek();
    page.LoadReport(limaDay, false);
    outcome := page.ExportToExcel();
    StaleReportStillRefused(limaDay);
  }

  /** getRoleName: the Spanish name of a known role, the role itself
      otherwise; an absent role is "". */
  function RoleName(role: Option<string>): (name: string)
    ensures role.None? ==> name == ""
    ensures role.Some? && role.value !in RoleNames ==> name == role.value
    ensures role.Some? && role.value in RoleNames ==> name == RoleNames[role.value]
  {
    var r := if role.None? then "" else role.value;
    if r in RoleNames && RoleNames[r] != "" then RoleNames[r] else r
  }

  const RoleNames: map<string, string> := map[
    "admin" := "Administrador", "dispatcher" := "Despachador", "driver" := "Conductor",
    "general_manager" := "Gerente General", "operations_manager" := "Gerente de Operaciones",
    "sales" := "Ventas"]
}
