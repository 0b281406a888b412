/** Grouping of the weekly report's flat rows into one record per service: a
    principal row (re)creates the service's entry, an additional-driver row is
    appended to the entry of its service when there is one. The Map the report
    fills keeps its keys in first-insertion order; it is a sequence of entries
    with distinct service ids here. */
module ReportsGrouping {
  import opened Common
  import opened ReportsDuration

  datatype DriverLine = DriverLine(driverName: string, assignmentNote: string, isPrincipal: bool)

  /** One row of the master-detail query. Principal rows carry the service's
      fields; additional-driver rows carry only the driver and the note. */
  datatype TripRow = TripRow(serviceId: int, isPrincipal: bool, driverName: string, assignmentReason: string,
                             code: string, clientName: string, origin: string, destination: string,
                             serviceType: string, startDate: int, endDate: int,
                             totalMinutes: Option<string>, price: Option<real>, currencyCode: string)

  datatype ServiceWithDrivers = ServiceWithDrivers(
    serviceId: int, code: string, clientName: string, origin: string, destination: string,
    serviceType: string, startDate: int, endDate: int, duration: string, price: Option<real>,
    currencyCode: string, principalDriver: DriverLine, additionalDrivers: seq<DriverLine>)

  /** parseInt(row.total_minutes) || 0: a missing or unreadable total counts
      as zero minutes. */
  function TotalMinutesOf(row: TripRow): (minutes: int)
    ensures row.totalMinutes.None? ==> minutes == 0
    ensures row.totalMinutes.Some? && ParseInt(row.totalMinutes.value).None? ==> minutes == 0
    ensures row.totalMinutes.Some? && ParseInt(row.totalMinutes.value).Some? ==> minutes == ParseInt(row.totalMinutes.value).value
  {
    match row.totalMinutes
    case None => 0
    case Some(text) =>
      match ParseInt(text)
      case None => 0
      case Some(m) => m
  }

  /** The duration of a principal row whose total the database sent as a
      whole number of minutes. */
  lemma DurationOfWholeMinutes(row: TripRow, minutes: int)
    requires minutes >= 0 && row.totalMinutes == Some(IntToString(minutes))
    ensures ParseDuration(NewEntry(row, false).duration) == Some(minutes)
  {
    ParseIntOfIntToString(minutes);
    DurationRoundTrip(minutes);
  }

  /** The entry a principal row creates; dispatchers never see the price. */
  function NewEntry(row: TripRow, isDispatcher: bool): (e: ServiceWithDrivers)
    ensures e.serviceId == row.serviceId && e.additionalDrivers == []
    ensures isDispatcher ==> e.price.None?
  {
    ServiceWithDrivers(row.serviceId, row.code, row.clientName, row.origin, row.destination,
                       row.serviceType, row.startDate, row.endDate, DurationText(TotalMinutesOf(row)),
                       if isDispatcher then None else row.price, row.currencyCode,
                       DriverLine(row.driverName, row.assignmentReason, true), [])
  }

  function AdditionalLine(row: TripRow): DriverLine {
    DriverLine(row.driverName, row.assignmentReason, false)
  }

  // ---------------------------------------------------------------------
  // The Map from service id to entry

  function Keys(m: seq<ServiceWithDrivers>): seq<int> {
    if m == [] then [] else Keys(m[..|m| - 1]) + [m[|m| - 1].serviceId]
  }

  lemma {:induction false} KeysIndex(m: seq<ServiceWithDrivers>)
    ensures |Keys(m)| == |m|
    ensures forall i :: 0 <= i < |m| ==> Keys(m)[i] == m[i].serviceId
  {
    if m != [] {
      KeysIndex(m[..|m| - 1]);
    }
  }

  predicate UniqueKeys(m: seq<ServiceWithDrivers>) {
    forall i, j :: 0 <= i < j < |m| ==> m[i].serviceId != m[j].serviceId
  }

  /** Map.get: the position of the entry with key k. */
  function KeyIndex(m: seq<ServiceWithDrivers>, k: int): (r: Option<nat>)
    ensures r.None? <==> forall i :: 0 <= i < |m| ==> m[i].serviceId != k
    ensures r.Some? ==> r.value < |m| && m[r.value].serviceId == k
  {
    if m == [] then None
    else if m[|m| - 1].serviceId == k then Some(|m| - 1)
    else KeyIndex(m[..|m| - 1], k)
  }

  lemma KeyIndexUnique(m: seq<ServiceWithDrivers>, k: int, i: nat)
    requires UniqueKeys(m) && i < |m| && m[i].serviceId == k
    ensures KeyIndex(m, k) == Some(i)
  {
  }

  /** Map.set: replaces the value in place when the key is present, appends it
      otherwise. */
  function MapSet(m: seq<ServiceWithDrivers>, v: ServiceWithDrivers): (r: seq<ServiceWithDrivers>)
    requires UniqueKeys(m)
    ensures UniqueKeys(r)
    ensures KeyIndex(r, v.serviceId).Some? && r[KeyIndex(r, v.serviceId).value] == v
    ensures forall k :: k != v.serviceId ==> KeyIndex(r, k) == KeyIndex(m, k)
    ensures |m| <= |r|
    ensures forall i :: 0 <= i < |m| && m[i].serviceId != v.serviceId ==> r[i] == m[i]
  {
    match KeyIndex(m, v.serviceId)
    case Some(i) =>
      var r := m[i := v];
      KeyIndexUnique(r, v.serviceId, i);
      forall k | k != v.serviceId
        ensures KeyIndex(r, k) == KeyIndex(m, k)
      {
        if KeyIndex(m, k).Some? {
          KeyIndexUnique(r, k, KeyIndex(m, k).value);
        }
      }
      r
    case None =>
      var r := m + [v];
      KeyIndexUnique(r, v.serviceId, |m|);
      forall k | k != v.serviceId
        ensures KeyIndex(r, k) == KeyIndex(m, k)
      {
        assert r[..|r| - 1] == m;
      }
      r
  }

  /** service.additional_drivers.push(line) on the entry at position i. */
  function AppendDriver(m: seq<ServiceWithDrivers>, i: nat, line: DriverLine): (r: seq<ServiceWithDrivers>)
    requires UniqueKeys(m) && i < |m|
    ensures UniqueKeys(r) && |r| == |m|
    ensures forall k :: KeyIndex(r, k) == KeyIndex(m, k)
    ensures r[i] == m[i].(additionalDrivers := m[i].additionalDrivers + [line])
    ensures forall j :: 0 <= j < |m| && j != i ==> r[j] == m[j]
  {
    var r := m[i := m[i].(additionalDrivers := m[i].additionalDrivers + [line])];
    forall k
      ensures KeyIndex(r, k) == KeyIndex(m, k)
    {
      if KeyIndex(m, k).Some? {
        KeyIndexUnique(r, k, KeyIndex(m, k).value);
      }
    }
    r
  }

  /** What one row does to the Map. */
  function Step(m: seq<ServiceWithDrivers>, row: TripRow, isDispatcher: bool): (r: seq<ServiceWithDrivers>)
    requires UniqueKeys(m)
    ensures UniqueKeys(r)
  {
    if row.isPrincipal then MapSet(m, NewEntry(row, isDispatcher))
    else
      match KeyIndex(m, row.serviceId)
      case None => m
      case Some(i) => AppendDriver(m, i, AdditionalLine(row))
  }

  /** The Map after the rows in order. */
  function Group(rows: seq<TripRow>, isDispatcher: bool): (m: seq<ServiceWithDrivers>)
    ensures UniqueKeys(m)
  {
    if rows == [] then [] else Step(Group(rows[..|rows| - 1], isDispatcher), rows[|rows| - 1], isDispatcher)
  }

  /** The grouping loop of the report, proved against Group; the result is
      Array.from(servicesMap.values()). */
  method GroupRows(rows: seq<TripRow>, userRole: Option<string>) returns (services: seq<ServiceWithDrivers>)
    ensures services == Group(rows, userRole == Some("dispatcher"))
  {
    var isDispatcher := userRole == Some("dispatcher");
    var servicesMap: seq<ServiceWithDrivers> := [];
    for n := 0 to |rows|
      invariant servicesMap == Group(rows[..n], isDispatcher)
    {
      var row := rows[n];
      assert rows[..n + 1][..n] == rows[..n];
      if row.isPrincipal {
        servicesMap := MapSet(servicesMap, NewEntry(row, isDispatcher));
      } else {
        var service := KeyIndex(servicesMap, row.serviceId);
        if service.Some? {
          servicesMap := AppendDriver(servicesMap, service.value, AdditionalLine(row));
        }
      }
    }
    assert rows[..|rows|] == rows;
    services := servicesMap;
  }

  // ---------------------------------------------------------------------
  // What the grouping yields

  /** Principal service ids in order of first appearance. */
  function FirstKeys(rows: seq<TripRow>): seq<int> {
    if rows == [] then []
    else
      var prefix := FirstKeys(rows[..|rows| - 1]);
      var row := rows[|rows| - 1];
      if row.isPrincipal && row.serviceId !in prefix then prefix + [row.serviceId] else prefix
  }

  lemma KeysOfMapSet(m: seq<ServiceWithDrivers>, v: ServiceWithDrivers)
    requires UniqueKeys(m)
    ensures Keys(MapSet(m, v)) == if v.serviceId in Keys(m) then Keys(m) else Keys(m) + [v.serviceId]
  {
    var r := MapSet(m, v);
    KeysIndex(m);
    KeysIndex(r);
    if v.serviceId in Keys(m) {
      var i :| 0 <= i < |m| && Keys(m)[i] == v.serviceId;
      assert KeyIndex(m, v.serviceId).Some?;
    } else {
      assert KeyIndex(m, v.serviceId).None?;
    }
  }

  lemma KeysOfAppendDriver(m: seq<ServiceWithDrivers>, i: nat, line: DriverLine)
    requires UniqueKeys(m) && i < |m|
    ensures Keys(AppendDriver(m, i, line)) == Keys(m)
  {
    KeysIndex(m);
    KeysIndex(AppendDriver(m, i, line));
  }

  /** The entries come in the order their services' principal rows first
      appear, one per service. */
  lemma {:induction false} GroupOrder(rows: seq<TripRow>, isDispatcher: bool)
    ensures Keys(Group(rows, isDispatcher)) == FirstKeys(rows)
  {
    if rows != [] {
      var prefix := rows[..|rows| - 1];
      var row := rows[|rows| - 1];
      var m := Group(prefix, isDispatcher);
      GroupOrder(prefix, isDispatcher);
      if row.isPrincipal {
        KeysOfMapSet(m, NewEntry(row, isDispatcher));
      } else if KeyIndex(m, row.serviceId).Some? {
        KeysOfAppendDriver(m, KeyIndex(m, row.serviceId).value, AdditionalLine(row));
      }
    }
  }

  lemma {:induction false} FirstKeysMembers(rows: seq<TripRow>, k: int)
    ensures k in FirstKeys(rows) <==> exists j :: 0 <= j < |rows| && rows[j].isPrincipal && rows[j].serviceId == k
  {
    if rows != [] {
      var prefix := rows[..|rows| - 1];
      FirstKeysMembers(prefix, k);
      assert forall j :: 0 <= j < |prefix| ==> prefix[j] == rows[j];
      if exists j :: 0 <= j < |rows| && rows[j].isPrincipal && rows[j].serviceId == k {
        var j :| 0 <= j < |rows| && rows[j].isPrincipal && rows[j].serviceId == k;
        if j < |prefix| {
          assert prefix[j].isPrincipal && prefix[j].serviceId == k;
        }
      }
    }
  }

  /** A service has an entry exactly when one of its principal rows came in. */
  lemma EntryIffPrincipal(rows: seq<TripRow>, isDispatcher: bool, k: int)
    ensures KeyIndex(Group(rows, isDispatcher), k).Some?
            <==> exists j :: 0 <= j < |rows| && rows[j].isPrincipal && rows[j].serviceId == k
  {
    var m := Group(rows, isDispatcher);
    GroupOrder(rows, isDispatcher);
    FirstKeysMembers(rows, k);
    KeysIndex(m);
    if KeyIndex(m, k).Some? {
      assert Keys(m)[KeyIndex(m, k).value] == k;
    }
    if k in Keys(m) {
      var i :| 0 <= i < |Keys(m)| && Keys(m)[i] == k;
      assert m[i].serviceId == k;
    }
  }

  /** The additional-driver lines of service k among the rows, in order. */
  function LinesFor(rows: seq<TripRow>, k: int): seq<DriverLine> {
    if rows == [] then []
    else
      var row := rows[|rows| - 1];
      LinesFor(rows[..|rows| - 1], k) + (if !row.isPrincipal && row.serviceId == k then [AdditionalLine(row)] else [])
  }

  /** The position of the last principal row of service k. */
  function LastPrincipal(rows: seq<TripRow>, k: int): (r: Option<nat>)
    ensures r.Some? ==> r.value < |rows| && rows[r.value].isPrincipal && rows[r.value].serviceId == k
    ensures r.Some? ==> forall j :: r.value < j < |rows| ==> !(rows[j].isPrincipal && rows[j].serviceId == k)
    ensures r.None? ==> forall j :: 0 <= j < |rows| ==> !(rows[j].isPrincipal && rows[j].serviceId == k)
  {
    if rows == [] then None
    else if rows[|rows| - 1].isPrincipal && rows[|rows| - 1].serviceId == k then Some(|rows| - 1)
    else LastPrincipal(rows[..|rows| - 1], k)
  }

  /** The additional lines of service k after its last principal row. */
  function LinesAfterLast(rows: seq<TripRow>, k: int): seq<DriverLine> {
    if rows == [] then []
    else
      var row := rows[|rows| - 1];
      if row.isPrincipal && row.serviceId == k then []
      else LinesAfterLast(rows[..|rows| - 1], k) + (if !row.isPrincipal && row.serviceId == k then [AdditionalLine(row)] else [])
  }

  lemma {:induction false} LinesAfterLastIsSuffix(rows: seq<TripRow>, k: int)
    requires LastPrincipal(rows, k).Some?
    ensures LinesAfterLast(rows, k) == LinesFor(rows[LastPrincipal(rows, k).value + 1..], k)
  {
    var j := LastPrincipal(rows, k).value;
    if j == |rows| - 1 {
      assert rows[j + 1..] == [];
    } else {
      var prefix, row := rows[..|rows| - 1], rows[|rows| - 1];
      var tail := if !row.isPrincipal && row.serviceId == k then [AdditionalLine(row)] else [];
      assert !(row.isPrincipal && row.serviceId == k);
      assert LastPrincipal(prefix, k) == Some(j);
      assert LinesAfterLast(rows, k) == LinesAfterLast(prefix, k) + tail;
      LinesAfterLastIsSuffix(prefix, k);
      LinesForPush(rows, j + 1, k);
    }
  }

  function EntryFor(m: seq<ServiceWithDrivers>, k: int): Option<ServiceWithDrivers> {
    match KeyIndex(m, k)
    case None => None
    case Some(i) => Some(m[i])
  }

  lemma LinesForPush(rows: seq<TripRow>, j: nat, k: int)
    requires j < |rows|
    ensures LinesFor(rows[j..], k)
            == LinesFor(rows[..|rows| - 1][j..], k)
               + (if !rows[|rows| - 1].isPrincipal && rows[|rows| - 1].serviceId == k then [AdditionalLine(rows[|rows| - 1])] else [])
  {
    assert rows[j..][..|rows[j..]| - 1] == rows[..|rows| - 1][j..];
  }

  /** How one row changes the entry of service k. */
  lemma StepEntry(m: seq<ServiceWithDrivers>, row: TripRow, isDispatcher: bool, k: int)
    requires UniqueKeys(m)
    ensures EntryFor(Step(m, row, isDispatcher), k)
            == if row.serviceId != k then EntryFor(m, k)
               else if row.isPrincipal then Some(NewEntry(row, isDispatcher))
               else if EntryFor(m, k).None? then None
               else Some(EntryFor(m, k).value.(additionalDrivers := EntryFor(m, k).value.additionalDrivers + [AdditionalLine(row)]))
  {
    if !row.isPrincipal && KeyIndex(m, row.serviceId).Some? && row.serviceId != k && KeyIndex(m, k).Some? {
      assert KeyIndex(m, k) != KeyIndex(m, row.serviceId);
    }
  }

  /** Each service's entry is built from its last principal row and holds, in
      order, the additional-driver rows of that service that follow it
      (LinesAfterLastIsSuffix); rows of services without a principal row are
      dropped. */
  lemma {:induction false} GroupEntries(rows: seq<TripRow>, isDispatcher: bool, k: int)
    ensures LastPrincipal(rows, k).None? ==> EntryFor(Group(rows, isDispatcher), k).None?
    ensures LastPrincipal(rows, k).Some? ==>
              EntryFor(Group(rows, isDispatcher), k)
              == Some(NewEntry(rows[LastPrincipal(rows, k).value], isDispatcher).(additionalDrivers := LinesAfterLast(rows, k)))
  {
    if rows != [] {
      var prefix, row := rows[..|rows| - 1], rows[|rows| - 1];
      GroupEntries(prefix, isDispatcher, k);
      var m := Group(prefix, isDispatcher);
      assert Group(rows, isDispatcher) == Step(m, row, isDispatcher);
      StepEntry(m, row, isDispatcher, k);
      if row.isPrincipal && row.serviceId == k {
        assert LastPrincipal(rows, k) == Some(|rows| - 1);
        assert LinesAfterLast(rows, k) == [];
      } else if LastPrincipal(prefix, k).Some? {
        KeepLast(rows, isDispatcher, k, m);
      }
    }
  }

  lemma KeepLast(rows: seq<TripRow>, isDispatcher: bool, k: int, m: seq<ServiceWithDrivers>)
    requires rows != [] && UniqueKeys(m)
    requires !(rows[|rows| - 1].isPrincipal && rows[|rows| - 1].serviceId == k)
    requires LastPrincipal(rows[..|rows| - 1], k).Some?
    requires EntryFor(m, k)
             == Some(NewEntry(rows[LastPrincipal(rows[..|rows| - 1], k).value], isDispatcher)
                       .(additionalDrivers := LinesAfterLast(rows[..|rows| - 1], k)))
    ensures LastPrincipal(rows, k).Some?
    ensures EntryFor(Step(m, rows[|rows| - 1], isDispatcher), k)
            == Some(NewEntry(rows[LastPrincipal(rows, k).value], isDispatcher).(additionalDrivers := LinesAfterLast(rows, k)))
  {
    var prefix, row := rows[..|rows| - 1], rows[|rows| - 1];
    StepEntry(m, row, isDispatcher, k);
    var j := LastPrincipal(prefix, k).value;
    assert LastPrincipal(rows, k) == Some(j);
    var e := NewEntry(rows[j], isDispatcher);
    var lines := LinesAfterLast(prefix, k);
    if row.serviceId == k {
      assert LinesAfterLast(rows, k) == lines + [AdditionalLine(row)];
    } else {
      assert LinesAfterLast(rows, k) == lines;
    }
  }

  /** Under the query's ORDER BY service_id, assignment_order a service's one
      principal row precedes its additional rows, so its entry lists all of
      them. */
  lemma PrincipalFirstKeepsAllLines(rows: seq<TripRow>, isDispatcher: bool, k: int, j: nat)
    requires j < |rows| && rows[j].isPrincipal && rows[j].serviceId == k
    requires forall i :: 0 <= i < |rows| && i != j && rows[i].serviceId == k ==> !rows[i].isPrincipal && i > j
    ensures EntryFor(Group(rows, isDispatcher), k)
            == Some(NewEntry(rows[j], isDispatcher).(additionalDrivers := LinesFor(rows, k)))
  {
    LastPrincipalIs(rows, k, j);
    assert LinesAfterLast(rows, k) == LinesFor(rows, k) by {
      LinesAfterLastIsSuffix(rows, k);
      LinesForSkip(rows, j, k);
    }
    GroupEntries(rows, isDispatcher, k);
  }

  lemma LastPrincipalIs(rows: seq<TripRow>, k: int, j: nat)
    requires j < |rows| && rows[j].isPrincipal && rows[j].serviceId == k
    requires forall i :: j < i < |rows| && rows[i].serviceId == k ==> !rows[i].isPrincipal
    ensures LastPrincipal(rows, k) == Some(j)
  {
  }

  /** Dropping a prefix in which service k has no additional lines keeps its lines. */
  lemma {:induction false} LinesForSkip(rows: seq<TripRow>, j: nat, k: int)
    requires j < |rows|
    requires forall i :: 0 <= i <= j && rows[i].serviceId == k ==> rows[i].isPrincipal
    ensures LinesFor(rows[j + 1..], k) == LinesFor(rows, k)
  {
    if |rows| == j + 1 {
      assert rows[j + 1..] == [];
      LinesForNone(rows, k);
    } else {
      var prefix := rows[..|rows| - 1];
      assert forall i :: 0 <= i < |prefix| ==> prefix[i] == rows[i];
      LinesForSkip(prefix, j, k);
      LinesForPush(rows, j + 1, k);
    }
  }

  lemma {:induction false} LinesForNone(rows: seq<TripRow>, k: int)
    requires forall i :: 0 <= i < |rows| && rows[i].serviceId == k ==> rows[i].isPrincipal
    ensures LinesFor(rows, k) == []
  {
    if rows != [] {
      var prefix := rows[..|rows| - 1];
      assert forall i :: 0 <= i < |prefix| ==> prefix[i] == rows[i];
      LinesForNone(prefix, k);
    }
  }

  /** For a dispatcher no entry carries a price. */
  lemma {:induction false} DispatcherSeesNoPrice(rows: seq<TripRow>)
    ensures forall e :: e in Group(rows, true) ==> e.price.None?
  {
    if rows != [] {
      var m := Group(rows[..|rows| - 1], true);
      DispatcherSeesNoPrice(rows[..|rows| - 1]);
      var row := rows[|rows| - 1];
      var r := Group(rows, true);
      forall e | e in r
        ensures e.price.None?
      {
        var i :| 0 <= i < |r| && r[i] == e;
        if row.isPrincipal {
          if e.serviceId != row.serviceId {
            var p := KeyIndex(m, e.serviceId);
            assert KeyIndex(r, e.serviceId) == p;
            KeyIndexUnique(r, e.serviceId, i);
            assert m[p.value] == e;
          }
        } else if KeyIndex(m, row.serviceId).Some? {
          assert i == KeyIndex(m, row.serviceId).value || r[i] == m[i];
        }
      }
    }
  }
}
