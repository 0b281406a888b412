/** The resource-booking ledger: whether a tractor, trailer or driver is
    already held by another active service (a conflict), and whether a
    candidate resource is already attached to the same service (a duplicate).
    The two tables the scans read are kept in memory. */
module ServiceAssignments {
  import opened Common

  /** The three kinds of bookable resource, in the order every check visits them. */
  datatype Kind = Tractor | Trailer | Driver

  function Rank(k: Kind): nat {
    match k
    case Tractor => 0
    case Trailer => 1
    case Driver => 2
  }

  /** Status ids of pending_start and in_progress: the only statuses in which a
      service holds its resources. */
  const PendingStartStatus: int := 2
  const InProgressStatus: int := 3

  predicate IsActiveStatus(statusId: int) {
    statusId == PendingStartStatus || statusId == InProgressStatus
  }

  /** A row of the services table: the primary assignment. */
  datatype ServiceRow = ServiceRow(id: int, statusId: int,
                                   tractorId: Option<int>, trailerId: Option<int>, driverId: Option<int>)
  {
    function Holds(k: Kind): Option<int> {
      match k
      case Tractor => tractorId
      case Trailer => trailerId
      case Driver => driverId
    }

    function Held(): Resources {
      Resources(tractorId, trailerId, driverId)
    }
  }

  /** A row of the service_assignments table: a supplemental assignment. */
  datatype SupplementalRow = SupplementalRow(serviceId: int,
                                             truckId: Option<int>, trailerId: Option<int>, driverId: Option<int>)
  {
    function Holds(k: Kind): Option<int> {
      match k
      case Tractor => truckId
      case Trailer => trailerId
      case Driver => driverId
    }

    function Held(): Resources {
      Resources(truckId, trailerId, driverId)
    }
  }

  /** The resources a request names. */
  type Candidate = Resources

  datatype Tables = Tables(services: seq<ServiceRow>, supplemental: seq<SupplementalRow>)

  /** A tractor, trailer and driver id, each possibly absent: what a request
      names, and what one row of either table holds. */
  datatype Resources = Resources(truckId: Option<int>, trailerId: Option<int>, driverId: Option<int>)
  {
    function Get(k: Kind): Option<int> {
      match k
      case Tractor => truckId
      case Trailer => trailerId
      case Driver => driverId
    }
  }

  /** JavaScript truthiness of an optional numeric id: absent and 0 are falsy. */
  predicate Requested(id: Option<int>) {
    id.Some? && id.value != 0
  }

  // ---------------------------------------------------------------------
  // The ledger: who holds what

  /** Service s holds resource r of kind k, as a primary column or through one
      of its supplemental rows. */
  predicate HeldBy(t: Tables, s: ServiceRow, k: Kind, r: int) {
    s.Holds(k) == Some(r)
    || exists a :: a in t.supplemental && a.serviceId == s.id && a.Holds(k) == Some(r)
  }

  /** r is busy for service `current`: some other active service holds it. */
  predicate Busy(t: Tables, k: Kind, r: int, current: int) {
    exists s :: s in t.services && s.id != current && IsActiveStatus(s.statusId) && HeldBy(t, s, k, r)
  }

  /** What a conflict scan reports: the holder's id and its status. */
  datatype Conflict = Conflict(serviceId: int, statusId: int)

  /** c names an active service other than `current` that holds r. */
  predicate IsConflict(t: Tables, k: Kind, r: int, current: int, c: Conflict) {
    exists s :: s in t.services && s.id == c.serviceId && s.statusId == c.statusId
      && s.id != current && IsActiveStatus(s.statusId) && HeldBy(t, s, k, r)
  }

  predicate PrimaryMatch(s: ServiceRow, k: Kind, r: int, current: int) {
    s.Holds(k) == Some(r) && IsActiveStatus(s.statusId) && s.id != current
  }

  /** First branch of the union: the primary columns of the services table. */
  function PrimaryHit(services: seq<ServiceRow>, k: Kind, r: int, current: int): (c: Option<Conflict>)
    ensures c.None? <==> forall i :: 0 <= i < |services| ==> !PrimaryMatch(services[i], k, r, current)
    ensures c.Some? ==> exists i :: 0 <= i < |services| && PrimaryMatch(services[i], k, r, current)
                                     && c.value == Conflict(services[i].id, services[i].statusId)
  {
    if services == [] then None
    else if PrimaryMatch(services[0], k, r, current) then Some(Conflict(services[0].id, services[0].statusId))
    else
      var c := PrimaryHit(services[1..], k, r, current);
      assert forall i :: 1 <= i < |services| ==> services[i] == services[1..][i - 1];
      c
  }

  /** The first active service with the given id (the join of a supplemental
      row with its owner). */
  function ActiveOwner(services: seq<ServiceRow>, id: int): (s: Option<ServiceRow>)
    ensures s.None? <==> forall i :: 0 <= i < |services| ==> !(services[i].id == id && IsActiveStatus(services[i].statusId))
    ensures s.Some? ==> s.value in services && s.value.id == id && IsActiveStatus(s.value.statusId)
  {
    if services == [] then None
    else if services[0].id == id && IsActiveStatus(services[0].statusId) then Some(services[0])
    else
      var s := ActiveOwner(services[1..], id);
      assert forall i :: 1 <= i < |services| ==> services[i] == services[1..][i - 1];
      s
  }

  predicate SupplementalMatch(t: Tables, a: SupplementalRow, k: Kind, r: int, current: int) {
    a.Holds(k) == Some(r) && a.serviceId != current && ActiveOwner(t.services, a.serviceId).Some?
  }

  /** Second branch of the union: supplemental rows joined with their owner. */
  function SupplementalHit(t: Tables, rows: seq<SupplementalRow>, k: Kind, r: int, current: int): (c: Option<Conflict>)
    ensures c.None? <==> forall i :: 0 <= i < |rows| ==> !SupplementalMatch(t, rows[i], k, r, current)
    ensures c.Some? ==> exists i :: 0 <= i < |rows| && SupplementalMatch(t, rows[i], k, r, current)
                          && var s := ActiveOwner(t.services, rows[i].serviceId).value;
                             c.value == Conflict(s.id, s.statusId)
  {
    if rows == [] then None
    else if SupplementalMatch(t, rows[0], k, r, current) then
      var s := ActiveOwner(t.services, rows[0].serviceId).value;
      Some(Conflict(s.id, s.statusId))
    else
      var c := SupplementalHit(t, rows[1..], k, r, current);
      assert forall i :: 1 <= i < |rows| ==> rows[i] == rows[1..][i - 1];
      c
  }

  /** checkTruckConflict, checkTrailerConflict and checkDriverConflict: at most
      one holder, and None exactly when the resource is free. */
  function CheckConflict(t: Tables, k: Kind, r: int, current: int): (c: Option<Conflict>)
    ensures c.None? <==> !Busy(t, k, r, current)
    ensures c.Some? ==> IsConflict(t, k, r, current, c.value)
    ensures c.Some? ==> c.value.serviceId != current && IsActiveStatus(c.value.statusId)
  {
    var p := PrimaryHit(t.services, k, r, current);
    var q := SupplementalHit(t, t.supplemental, k, r, current);
    if p.Some? then
      ghost var i :| 0 <= i < |t.services| && PrimaryMatch(t.services[i], k, r, current)
                     && p.value == Conflict(t.services[i].id, t.services[i].statusId);
      assert HeldBy(t, t.services[i], k, r);
      p
    else
      if q.Some? then
        ghost var i :| 0 <= i < |t.supplemental| && SupplementalMatch(t, t.supplemental[i], k, r, current)
                       && var s := ActiveOwner(t.services, t.supplemental[i].serviceId).value;
                          q.value == Conflict(s.id, s.statusId);
        var s := ActiveOwner(t.services, t.supplemental[i].serviceId).value;
        assert HeldBy(t, s, k, r);
        q
      else
        FreeWhenNoHit(t, k, r, current);
        q
  }

  lemma FreeWhenNoHit(t: Tables, k: Kind, r: int, current: int)
    requires PrimaryHit(t.services, k, r, current).None?
    requires SupplementalHit(t, t.supplemental, k, r, current).None?
    ensures !Busy(t, k, r, current)
  {
    forall s | s in t.services && s.id != current && IsActiveStatus(s.statusId)
      ensures !HeldBy(t, s, k, r)
    {
      var i :| 0 <= i < |t.services| && t.services[i] == s;
      assert !PrimaryMatch(t.services[i], k, r, current);
      forall a | a in t.supplemental && a.serviceId == s.id
        ensures a.Holds(k) != Some(r)
      {
        var j :| 0 <= j < |t.supplemental| && t.supplemental[j] == a;
        assert ActiveOwner(t.services, a.serviceId).Some?;
        assert !SupplementalMatch(t, t.supplemental[j], k, r, current);
      }
    }
  }

  /** Services in any status other than pending_start and in_progress never make
      a resource busy: adding one, with any supplemental rows of its own, changes
      no answer. */
  lemma {:induction false} InactiveServiceNeverConflicts(t: Tables, s: ServiceRow, extra: seq<SupplementalRow>,
                                                         k: Kind, r: int, current: int)
    requires !IsActiveStatus(s.statusId)
    requires forall x :: x in t.services ==> x.id != s.id
    requires forall a :: a in extra ==> a.serviceId == s.id
    ensures Busy(Tables(t.services + [s], t.supplemental + extra), k, r, current) <==> Busy(t, k, r, current)
  {
    var t' := Tables(t.services + [s], t.supplemental + extra);
    if Busy(t', k, r, current) {
      var h :| h in t'.services && h.id != current && IsActiveStatus(h.statusId) && HeldBy(t', h, k, r);
      assert h in t.services;
      if h.Holds(k) != Some(r) {
        var a :| a in t'.supplemental && a.serviceId == h.id && a.Holds(k) == Some(r);
        assert a in t.supplemental;
      }
      assert HeldBy(t, h, k, r);
    }
    if Busy(t, k, r, current) {
      var h :| h in t.services && h.id != current && IsActiveStatus(h.statusId) && HeldBy(t, h, k, r);
      assert h in t'.services;
      if h.Holds(k) != Some(r) {
        var a :| a in t.supplemental && a.serviceId == h.id && a.Holds(k) == Some(r);
        assert a in t'.supplemental;
      }
      assert HeldBy(t', h, k, r);
    }
  }

  // ---------------------------------------------------------------------
  // checkAllConflicts

  datatype ConflictMessage = ConflictMessage(kind: Kind, serviceId: int, statusId: int)

  /** The request names a resource of kind k and another active service holds it. */
  predicate Clashes(t: Tables, cand: Candidate, serviceId: int, k: Kind) {
    Requested(cand.Get(k)) && Busy(t, k, cand.Get(k).value, serviceId)
  }

  /** The message names a genuine holder of the requested resource of its kind. */
  predicate Genuine(t: Tables, cand: Candidate, serviceId: int, m: ConflictMessage) {
    Requested(cand.Get(m.kind))
    && IsConflict(t, m.kind, cand.Get(m.kind).value, serviceId, Conflict(m.serviceId, m.statusId))
  }

  function KindsOf(conflicts: seq<ConflictMessage>): set<Kind> {
    set i | 0 <= i < |conflicts| :: conflicts[i].kind
  }

  /** What the scan for kind k contributes to the list: a message when the
      request names a resource of that kind and the scan finds a holder. */
  function Outcome(t: Tables, cand: Candidate, serviceId: int, k: Kind): (m: Option<ConflictMessage>)
    ensures m.None? <==> !Clashes(t, cand, serviceId, k)
    ensures m.Some? ==> m.value.kind == k && Genuine(t, cand, serviceId, m.value)
  {
    if Requested(cand.Get(k)) then
      match CheckConflict(t, k, cand.Get(k).value, serviceId)
      case None => None
      case Some(c) => Some(ConflictMessage(k, c.serviceId, c.statusId))
    else None
  }

  function AsSeq(m: Option<ConflictMessage>): seq<ConflictMessage> {
    match m
    case None => []
    case Some(x) => [x]
  }

  /** The list the three scans build, tractor first, driver last. */
  function AllConflicts(t: Tables, cand: Candidate, serviceId: int): seq<ConflictMessage> {
    AsSeq(Outcome(t, cand, serviceId, Tractor)) + AsSeq(Outcome(t, cand, serviceId, Trailer))
    + AsSeq(Outcome(t, cand, serviceId, Driver))
  }

  lemma AsSeqKinds(t: Tables, cand: Candidate, serviceId: int, k: Kind)
    ensures forall x :: x in AsSeq(Outcome(t, cand, serviceId, k)) ==> x.kind == k && Genuine(t, cand, serviceId, x)
    ensures Clashes(t, cand, serviceId, k) <==> |AsSeq(Outcome(t, cand, serviceId, k))| == 1
    ensures |AsSeq(Outcome(t, cand, serviceId, k))| <= 1
  {
  }

  /** A list put together from at most one tractor message, then at most one
      trailer message, then at most one driver message. */
  predicate Slotted(a: seq<ConflictMessage>, b: seq<ConflictMessage>, d: seq<ConflictMessage>) {
    && |a| <= 1 && |b| <= 1 && |d| <= 1
    && (forall x :: x in a ==> x.kind == Tractor)
    && (forall x :: x in b ==> x.kind == Trailer)
    && (forall x :: x in d ==> x.kind == Driver)
  }

  /** The kind at each position is fixed by the slot it falls in. */
  lemma SlotKind(a: seq<ConflictMessage>, b: seq<ConflictMessage>, d: seq<ConflictMessage>, i: nat)
    requires Slotted(a, b, d) && i < |a + b + d|
    ensures (a + b + d)[i].kind == if i < |a| then Tractor else if i < |a| + |b| then Trailer else Driver
  {
    var c := a + b + d;
    if i < |a| {
      assert c[i] == a[i] && a[i] in a;
    } else if i < |a| + |b| {
      assert c[i] == b[i - |a|] && b[i - |a|] in b;
    } else {
      assert c[i] == d[i - |a| - |b|] && d[i - |a| - |b|] in d;
    }
  }

  lemma {:induction false} SlottedOrder(a: seq<ConflictMessage>, b: seq<ConflictMessage>, d: seq<ConflictMessage>)
    requires Slotted(a, b, d)
    ensures forall i, j :: 0 <= i < j < |a + b + d| ==> Rank((a + b + d)[i].kind) < Rank((a + b + d)[j].kind)
  {
    forall i, j | 0 <= i < j < |a + b + d|
      ensures Rank((a + b + d)[i].kind) < Rank((a + b + d)[j].kind)
    {
      SlotKind(a, b, d, i);
      SlotKind(a, b, d, j);
    }
  }

  lemma {:induction false} SlottedKinds(a: seq<ConflictMessage>, b: seq<ConflictMessage>, d: seq<ConflictMessage>, k: Kind)
    requires Slotted(a, b, d)
    ensures k in KindsOf(a + b + d) <==> (k == Tractor && a != []) || (k == Trailer && b != []) || (k == Driver && d != [])
  {
    var c := a + b + d;
    if k in KindsOf(c) {
      var i :| 0 <= i < |c| && c[i].kind == k;
      SlotKind(a, b, d, i);
    }
    if k == Tractor && a != [] {
      SlotKind(a, b, d, 0);
      assert c[0].kind in KindsOf(c);
    } else if k == Trailer && b != [] {
      SlotKind(a, b, d, |a|);
      assert c[|a|].kind in KindsOf(c);
    } else if k == Driver && d != [] {
      SlotKind(a, b, d, |a| + |b|);
      assert c[|a| + |b|].kind in KindsOf(c);
    }
  }

  /** At most one message per kind, in the fixed order, each naming a genuine
      holder, and a kind appears exactly when its resource clashes. */
  lemma {:induction false} AllConflictsMeaning(t: Tables, cand: Candidate, serviceId: int)
    ensures var c := AllConflicts(t, cand, serviceId);
            && |c| <= 3
            && (forall i, j :: 0 <= i < j < |c| ==> Rank(c[i].kind) < Rank(c[j].kind))
            && (forall k :: k in KindsOf(c) <==> Clashes(t, cand, serviceId, k))
            && (forall i :: 0 <= i < |c| ==> Genuine(t, cand, serviceId, c[i]))
  {
    var a := AsSeq(Outcome(t, cand, serviceId, Tractor));
    var b := AsSeq(Outcome(t, cand, serviceId, Trailer));
    var d := AsSeq(Outcome(t, cand, serviceId, Driver));
    AsSeqKinds(t, cand, serviceId, Tractor);
    AsSeqKinds(t, cand, serviceId, Trailer);
    AsSeqKinds(t, cand, serviceId, Driver);
    assert Slotted(a, b, d);
    SlottedOrder(a, b, d);
    forall k
      ensures k in KindsOf(a + b + d) <==> Clashes(t, cand, serviceId, k)
    {
      SlottedKinds(a, b, d, k);
    }
    forall i | 0 <= i < |a + b + d|
      ensures Genuine(t, cand, serviceId, (a + b + d)[i])
    {
      assert (a + b + d)[i] in a + b + d;
    }
  }

  /** One message per requested kind whose resource is busy elsewhere, in the
      fixed order tractor, trailer, driver. */
  method CheckAllConflicts(t: Tables, cand: Candidate, serviceId: int) returns (conflicts: seq<ConflictMessage>)
    ensures |conflicts| <= 3
    ensures forall i, j :: 0 <= i < j < |conflicts| ==> Rank(conflicts[i].kind) < Rank(conflicts[j].kind)
    ensures forall k :: k in KindsOf(conflicts) <==> Clashes(t, cand, serviceId, k)
    ensures forall i :: 0 <= i < |conflicts| ==> Genuine(t, cand, serviceId, conflicts[i])
  {
    ghost var a := AsSeq(Outcome(t, cand, serviceId, Tractor));
    ghost var b := AsSeq(Outcome(t, cand, serviceId, Trailer));
    ghost var d := AsSeq(Outcome(t, cand, serviceId, Driver));
    conflicts := [];
    if Requested(cand.truckId) {
      var c := CheckConflict(t, Tractor, cand.truckId.value, serviceId);
      if c.Some? {
        conflicts := conflicts + [ConflictMessage(Tractor, c.value.serviceId, c.value.statusId)];
      }
    }
    assert conflicts == a;
    if Requested(cand.trailerId) {
      var c := CheckConflict(t, Trailer, cand.trailerId.value, serviceId);
      if c.Some? {
        conflicts := conflicts + [ConflictMessage(Trailer, c.value.serviceId, c.value.statusId)];
      }
    }
    assert conflicts == a + b;
    if Requested(cand.driverId) {
      var c := CheckConflict(t, Driver, cand.driverId.value, serviceId);
      if c.Some? {
        conflicts := conflicts + [ConflictMessage(Driver, c.value.serviceId, c.value.statusId)];
      }
    }
    assert conflicts == a + b + d;
    AllConflictsMeaning(t, cand, serviceId);
  }

  // ---------------------------------------------------------------------
  // checkDuplicateInSameService

  /** Where the duplicate was found: the primary assignment, or a supplemental
      row added earlier. */
  datatype Source = InitialAssignment | AddedEarlier

  datatype Duplicate = Duplicate(kind: Kind, source: Source)

  /** The service's own row (`WHERE s.id = $1`, first row). */
  function FindService(services: seq<ServiceRow>, id: int): (s: Option<ServiceRow>)
    ensures s.Some? ==> s.value in services && s.value.id == id
    ensures s.None? ==> forall x :: x in services ==> x.id != id
  {
    if services == [] then None
    else if services[0].id == id then Some(services[0])
    else FindService(services[1..], id)
  }

  /** The service's supplemental rows (`WHERE sa.service_id = $1`), in table order. */
  function RowsOf(rows: seq<SupplementalRow>, id: int): (r: seq<SupplementalRow>)
    ensures forall a :: a in r <==> a in rows && a.serviceId == id
  {
    if rows == [] then []
    else (if rows[0].serviceId == id then [rows[0]] else []) + RowsOf(rows[1..], id)
  }

  /** The messages one attached row yields: one per requested kind it repeats,
      tractor, trailer, driver. */
  function MatchesIn(cand: Candidate, held: Resources, src: Source): seq<Duplicate>
  {
    Piece(Requested(cand.truckId) && held.truckId == cand.truckId, Tractor, src)
    + Piece(Requested(cand.trailerId) && held.trailerId == cand.trailerId, Trailer, src)
    + Piece(Requested(cand.driverId) && held.driverId == cand.driverId, Driver, src)
  }

  /** The message for one comparison, when it matched. */
  function Piece(matched: bool, k: Kind, src: Source): seq<Duplicate> {
    if matched then [Duplicate(k, src)] else []
  }

  function InitialDuplicates(t: Tables, cand: Candidate, serviceId: int): seq<Duplicate> {
    match FindService(t.services, serviceId)
    case None => []
    case Some(s) => MatchesIn(cand, s.Held(), InitialAssignment)
  }

  function EarlierDuplicates(rows: seq<SupplementalRow>, cand: Candidate): seq<Duplicate> {
    if rows == [] then []
    else EarlierDuplicates(rows[..|rows| - 1], cand) + MatchesIn(cand, rows[|rows| - 1].Held(), AddedEarlier)
  }

  /** The duplicate messages for a candidate: primary-assignment matches first,
      then the matches of each earlier supplemental row in order. */
  function Duplicates(t: Tables, cand: Candidate, serviceId: int): seq<Duplicate> {
    InitialDuplicates(t, cand, serviceId) + EarlierDuplicates(RowsOf(t.supplemental, serviceId), cand)
  }

  /** The comparisons made against one attached row, pushing one message per
      requested kind the row repeats. */
  method MatchRow(cand: Candidate, held: Resources, src: Source) returns (found: seq<Duplicate>)
    ensures found == MatchesIn(cand, held, src)
  {
    found := [];
    if Requested(cand.truckId) && held.truckId == cand.truckId {
      found := found + [Duplicate(Tractor, src)];
    }
    if Requested(cand.trailerId) && held.trailerId == cand.trailerId {
      found := found + [Duplicate(Trailer, src)];
    }
    if Requested(cand.driverId) && held.driverId == cand.driverId {
      found := found + [Duplicate(Driver, src)];
    }
  }

  lemma EarlierDuplicatesStep(rows: seq<SupplementalRow>, cand: Candidate, i: nat)
    requires i < |rows|
    ensures EarlierDuplicates(rows[..i + 1], cand)
            == EarlierDuplicates(rows[..i], cand) + MatchesIn(cand, rows[i].Held(), AddedEarlier)
  {
    assert rows[..i + 1][..i] == rows[..i];
  }

  method CheckDuplicateInSameService(t: Tables, cand: Candidate, serviceId: int) returns (duplicates: seq<Duplicate>)
    ensures duplicates == Duplicates(t, cand, serviceId)
  {
    duplicates := [];
    var initial := FindService(t.services, serviceId);
    if initial.Some? {
      duplicates := MatchRow(cand, initial.value.Held(), InitialAssignment);
    }
    var rows := RowsOf(t.supplemental, serviceId);
    duplicates := ScanEarlierRows(duplicates, rows, cand);
  }

  /** The loop over the service's supplemental rows, appending each row's
      messages to those found so far. */
  method ScanEarlierRows(found: seq<Duplicate>, rows: seq<SupplementalRow>, cand: Candidate)
    returns (duplicates: seq<Duplicate>)
    ensures duplicates == found + EarlierDuplicates(rows, cand)
  {
    duplicates := found;
    for i := 0 to |rows|
      invariant duplicates == found + EarlierDuplicates(rows[..i], cand)
    {
      var more := MatchRow(cand, rows[i].Held(), AddedEarlier);
      EarlierDuplicatesStep(rows, cand, i);
      AppendGrouping(found, EarlierDuplicates(rows[..i], cand), more);
      duplicates := duplicates + more;
    }
    assert rows[..|rows|] == rows;
  }

  // ---------------------------------------------------------------------
  // What the duplicate messages mean

  /** r of kind k is already attached to service `id`: on its primary row or on
      one of its supplemental rows. */
  predicate AttachedTo(t: Tables, id: int, k: Kind, r: int) {
    (FindService(t.services, id).Some? && FindService(t.services, id).value.Holds(k) == Some(r))
    || exists a :: a in t.supplemental && a.serviceId == id && a.Holds(k) == Some(r)
  }

  lemma MatchesInKinds(cand: Candidate, held: Resources, src: Source, k: Kind)
    ensures (exists m :: m in MatchesIn(cand, held, src) && m.kind == k)
            <==> Requested(cand.Get(k)) && held.Get(k) == cand.Get(k)
    ensures forall m :: m in MatchesIn(cand, held, src) ==> m.source == src
  {
  }

  lemma {:induction false} EarlierDuplicatesKinds(rows: seq<SupplementalRow>, cand: Candidate, k: Kind)
    ensures (exists m :: m in EarlierDuplicates(rows, cand) && m.kind == k)
            <==> Requested(cand.Get(k)) && exists i :: 0 <= i < |rows| && rows[i].Holds(k) == cand.Get(k)
    ensures forall m :: m in EarlierDuplicates(rows, cand) ==> m.source == AddedEarlier
  {
    if rows != [] {
      var init := rows[..|rows| - 1];
      var last := rows[|rows| - 1];
      EarlierDuplicatesKinds(init, cand, k);
      MatchesInKinds(cand, last.Held(), AddedEarlier, k);
      assert forall i :: 0 <= i < |init| ==> init[i] == rows[i];
      if Requested(cand.Get(k)) && (exists i :: 0 <= i < |rows| && rows[i].Holds(k) == cand.Get(k)) {
        var i :| 0 <= i < |rows| && rows[i].Holds(k) == cand.Get(k);
        if i < |rows| - 1 {
          assert init[i].Holds(k) == cand.Get(k);
        }
      }
    }
  }

  /** A kind is reported as a duplicate exactly when it was requested and that
      resource is already attached to the same service. */
  lemma DuplicateIffAttached(t: Tables, cand: Candidate, serviceId: int, k: Kind)
    ensures (exists m :: m in Duplicates(t, cand, serviceId) && m.kind == k)
            <==> Requested(cand.Get(k)) && AttachedTo(t, serviceId, k, cand.Get(k).value)
  {
    var rows := RowsOf(t.supplemental, serviceId);
    EarlierDuplicatesKinds(rows, cand, k);
    var s := FindService(t.services, serviceId);
    if s.Some? {
      MatchesInKinds(cand, s.value.Held(), InitialAssignment, k);
    }
    if Requested(cand.Get(k)) {
      var r := cand.Get(k).value;
      if exists a :: a in t.supplemental && a.serviceId == serviceId && a.Holds(k) == Some(r) {
        var a :| a in t.supplemental && a.serviceId == serviceId && a.Holds(k) == Some(r);
        assert a in rows;
        var i :| 0 <= i < |rows| && rows[i] == a;
      }
      if exists i :: 0 <= i < |rows| && rows[i].Holds(k) == cand.Get(k) {
        var i :| 0 <= i < |rows| && rows[i].Holds(k) == cand.Get(k);
        assert rows[i] in rows;
      }
    }
  }

  /** Every primary-assignment message comes before every supplemental one. */
  lemma InitialBeforeEarlier(t: Tables, cand: Candidate, serviceId: int)
    ensures var d := Duplicates(t, cand, serviceId);
            forall i, j :: 0 <= i < j < |d| && d[j].source == InitialAssignment ==> d[i].source == InitialAssignment
  {
    var init := InitialDuplicates(t, cand, serviceId);
    var rest := EarlierDuplicates(RowsOf(t.supplemental, serviceId), cand);
    EarlierDuplicatesKinds(RowsOf(t.supplemental, serviceId), cand, Tractor);
    var s := FindService(t.services, serviceId);
    if s.Some? {
      MatchesInKinds(cand, s.value.Held(), InitialAssignment, Tractor);
    }
    var d := init + rest;
    forall j | |init| <= j < |d|
      ensures d[j].source == AddedEarlier
    {
      assert d[j] == rest[j - |init|];
    }
    forall i, j | 0 <= i < j < |d| && d[j].source == InitialAssignment
      ensures d[i].source == InitialAssignment
    {
      assert d[i] == init[i];
    }
  }

  /** Number of messages of a kind from a source. */
  function CountOf(d: seq<Duplicate>, k: Kind, src: Source): nat {
    if d == [] then 0
    else CountOf(d[..|d| - 1], k, src) + (if d[|d| - 1] == Duplicate(k, src) then 1 else 0)
  }

  lemma {:induction false} CountOfAppend(a: seq<Duplicate>, b: seq<Duplicate>, k: Kind, src: Source)
    ensures CountOf(a + b, k, src) == CountOf(a, k, src) + CountOf(b, k, src)
  {
    if b != [] {
      assert (a + b)[..|a + b| - 1] == a + b[..|b| - 1];
      CountOfAppend(a, b[..|b| - 1], k, src);
    } else {
      assert a + b == a;
    }
  }

  /** Number of rows that hold r as kind k. */
  function RowsHolding(rows: seq<SupplementalRow>, k: Kind, r: int): nat {
    if rows == [] then 0
    else RowsHolding(rows[..|rows| - 1], k, r) + (if rows[|rows| - 1].Holds(k) == Some(r) then 1 else 0)
  }

  /** One attached row yields at most one message per kind: exactly one when
      the kind was requested and the row holds that resource. */
  lemma MatchesInCount(cand: Candidate, held: Resources, src: Source, k: Kind)
    ensures CountOf(MatchesIn(cand, held, src), k, src)
            == if Requested(cand.Get(k)) && held.Get(k) == cand.Get(k) then 1 else 0
  {
    var p1 := Requested(cand.truckId) && held.truckId == cand.truckId;
    var p2 := Requested(cand.trailerId) && held.trailerId == cand.trailerId;
    var p3 := Requested(cand.driverId) && held.driverId == cand.driverId;
    PiecesCount(p1, p2, p3, k, src);
  }

  /** The three pieces hold one message of kind k when k's comparison
      matched, none otherwise. */
  lemma PiecesCount(p1: bool, p2: bool, p3: bool, k: Kind, src: Source)
    ensures CountOf(Piece(p1, Tractor, src) + Piece(p2, Trailer, src) + Piece(p3, Driver, src), k, src)
            == if (k == Tractor && p1) || (k == Trailer && p2) || (k == Driver && p3) then 1 else 0
  {
    var a, b, c := Piece(p1, Tractor, src), Piece(p2, Trailer, src), Piece(p3, Driver, src);
    CountOfThree(a, b, c, k, src);
    PieceCount(p1, Tractor, k, src);
    PieceCount(p2, Trailer, k, src);
    PieceCount(p3, Driver, k, src);
  }

  lemma CountOfThree(a: seq<Duplicate>, b: seq<Duplicate>, c: seq<Duplicate>, k: Kind, src: Source)
    ensures CountOf(a + b + c, k, src) == CountOf(a, k, src) + CountOf(b, k, src) + CountOf(c, k, src)
  {
    CountOfAppend(a + b, c, k, src);
    CountOfAppend(a, b, k, src);
  }

  lemma PieceCount(matched: bool, kind: Kind, k: Kind, src: Source)
    ensures CountOf(Piece(matched, kind, src), k, src) == if matched && kind == k then 1 else 0
  {
    if matched {
      assert Piece(matched, kind, src)[..0] == [];
    }
  }

  /** One resource can yield several messages: one more for every earlier
      supplemental row of the service that repeats it. */
  lemma {:induction false} EarlierCount(rows: seq<SupplementalRow>, cand: Candidate, k: Kind)
    requires Requested(cand.Get(k))
    ensures CountOf(EarlierDuplicates(rows, cand), k, AddedEarlier) == RowsHolding(rows, k, cand.Get(k).value)
  {
    if rows != [] {
      var init := rows[..|rows| - 1];
      EarlierCount(init, cand, k);
      CountOfAppend(EarlierDuplicates(init, cand), MatchesIn(cand, rows[|rows| - 1].Held(), AddedEarlier), k, AddedEarlier);
      MatchesInCount(cand, rows[|rows| - 1].Held(), AddedEarlier, k);
    }
  }

  /** When the service row does not exist, only supplemental rows can yield
      messages; with neither, the answer is empty. */
  lemma MissingServiceHasNoInitialDuplicates(t: Tables, cand: Candidate, serviceId: int)
    requires forall s :: s in t.services ==> s.id != serviceId
    ensures Duplicates(t, cand, serviceId) == EarlierDuplicates(RowsOf(t.supplemental, serviceId), cand)
  {
    assert FindService(t.services, serviceId).None?;
  }
}
