/**
 * The bookings table with its database-level guards: the checks of a row, the exclusion of
 * overlapping active periods of one station, and the trigger that bumps `version` on every
 * update. Times are instants in microseconds; a row's id is its place in the table, which
 * nothing ever deletes from.
 */
module Bookings {
  import opened Options

  datatype Status = Pending | Confirmed | Cancelled

  datatype Source = Miniapp | Staff

  datatype Booking = Booking(
    clubId: int, stationId: int, source: Source, customerId: Option<int>, guestName: Option<string>,
    guestPhone: Option<string>, status: Status, lo: int, hi: int, hours: int, rateSnapshot: int, prepaid: int,
    createdAt: int, cancelledBy: Option<int>, cancelReason: Option<string>, closedAt: Option<int>,
    version: int)

  type Rows = seq<Booking>

  const HOUR := 3600 * 1000000
  const MAX_TOTAL_HOURS := 12

  datatype DbError =
    | CheckViolation
    | SlotTaken                // 23P01, answered as 409 SLOT_TAKEN
    | NotFound
    | BookingNotPending
    | BookingNotConfirmed
    | BillAlreadyClosed
    | ExtendRangeInvalid
    | TotalHoursExceeded
    | VersionConflict

  datatype Outcome = Done(rows: Rows) | Refused(error: DbError)

  predicate IsActive(b: Booking) {
    b.status == Pending || b.status == Confirmed
  }

  /** The column checks of one row. */
  predicate RowOk(b: Booking) {
    && 0 < b.hours <= MAX_TOTAL_HOURS
    && 0 < b.rateSnapshot && 0 <= b.prepaid && b.lo <= b.hi
    && (b.source == Staff ==> b.customerId.None? && b.guestName.Some?)
    && (b.source == Miniapp ==> b.customerId.Some? && b.guestName.None? && b.guestPhone.None?)
  }

  /** Two half-open periods share an instant. */
  predicate PeriodsMeet(a: Booking, b: Booking) {
    a.lo < b.hi && b.lo < a.hi && a.lo < a.hi && b.lo < b.hi
  }

  predicate Clash(a: Booking, b: Booking) {
    IsActive(a) && IsActive(b) && a.stationId == b.stationId && PeriodsMeet(a, b)
  }

  predicate ClashesWithOther(rows: Rows, at: nat, b: Booking) {
    exists j :: 0 <= j < |rows| && j != at && Clash(rows[j], b)
  }

  /** An INSERT or UPDATE of one row as the database judges it. */
  function Insert(rows: Rows, b: Booking): Outcome {
    if !RowOk(b) then Refused(CheckViolation)
    else if ClashesWithOther(rows, |rows|, b) then Refused(SlotTaken)
    else Done(rows + [b.(version := 1)])
  }

  function Update(rows: Rows, i: nat, b: Booking): Outcome {
    if i >= |rows| then Refused(NotFound)
    else
      var bumped := b.(version := rows[i].version + 1);
      if !RowOk(bumped) then Refused(CheckViolation)
      else if ClashesWithOther(rows, i, bumped) then Refused(SlotTaken)
      else Done(rows[i := bumped])
  }

  function After(rows: Rows, o: Outcome): Rows {
    if o.Done? then o.rows else rows
  }

  // ── Staff decisions ──────────────────────────────────────────────────────

  /** What a clerk asks for; `expected` is the optional version of a prolongation. Closing a bill
      is here what it does to the booking's row. */
  datatype Ask =
    | Confirm(i: nat)
    | Reject(i: nat, staff: int, reason: Option<string>)
    | Cancel(i: nat, staff: int, reason: Option<string>)
    | Extend(i: nat, extra: int, clubMax: int, expected: Option<int>)
    | CloseBill(i: nat, now: int)

  predicate DecidesStatus(ask: Ask) {
    ask.Confirm? || ask.Reject? || ask.Cancel?
  }

  /** A decision past its checks, with the row as they read it. */
  datatype Decision = Decision(ask: Ask, seen: Booking)

  predicate Belongs(rows: Rows, i: nat, clubId: int) {
    i < |rows| && rows[i].clubId == clubId
  }

  /** The checks, on a row read without a lock. */
  function CheckError(rows: Rows, clubId: int, ask: Ask): Option<DbError> {
    if !Belongs(rows, ask.i, clubId) then Some(NotFound)
    else
      var b := rows[ask.i];
      match ask
      case Confirm(_) => if b.status != Pending then Some(BookingNotPending) else None
      case Reject(_, _, _) => if b.status != Pending then Some(BookingNotPending) else None
      case Cancel(_, _, _) =>
        if b.status != Confirmed then Some(BookingNotConfirmed)
        else if b.closedAt.Some? then Some(BillAlreadyClosed)
        else None
      case CloseBill(_, _) =>
        if b.status != Confirmed then Some(BookingNotConfirmed)
        else if b.closedAt.Some? then Some(BillAlreadyClosed)
        else None
      case Extend(_, extra, clubMax, _) =>
        if !(1 <= extra <= clubMax) then Some(ExtendRangeInvalid)
        else if b.status != Confirmed then Some(BookingNotConfirmed)
        else if b.closedAt.Some? then Some(BillAlreadyClosed)
        else if b.hours + extra > MAX_TOTAL_HOURS then Some(TotalHoursExceeded)
        else None
  }

  /** What the UPDATE makes of the row it finds: a prolongation adds to the period that is there
      then, and sets the hours it worked out from the row it read. */
  function Written(b: Booking, d: Decision): Booking {
    match d.ask
    case Confirm(_) => b.(status := Confirmed)
    case Reject(_, staff, reason) => b.(status := Cancelled, cancelledBy := Some(staff), cancelReason := reason)
    case Cancel(_, staff, reason) => b.(status := Cancelled, cancelledBy := Some(staff), cancelReason := reason)
    case CloseBill(_, now) => b.(closedAt := Some(now))
    case Extend(_, extra, _, _) => b.(hours := d.seen.hours + extra, hi := b.hi + extra * HOUR)
  }

  /** UPDATE … WHERE id, and for a prolongation with a version, AND version. */
  function Land(rows: Rows, d: Decision): Outcome {
    if d.ask.i >= |rows| then Refused(NotFound)
    else if d.ask.Extend? && d.ask.expected.Some? && rows[d.ask.i].version != d.ask.expected.value
        then Refused(VersionConflict)
    else Update(rows, d.ask.i, Written(rows[d.ask.i], d))
  }

  datatype Checked = Passed(decision: Decision) | Denied(error: DbError)

  class BookingTable {
    var rows: Rows

    ghost predicate Valid() reads this { NoOverlap(rows) && AllRowsOk(rows) }

    constructor ()
      ensures Valid() && rows == []
    {
      rows := [];
    }

    method InsertRow(b: Booking) returns (error: Option<DbError>)
      requires Valid()
      modifies this
      ensures Valid()
      ensures rows == After(old(rows), Insert(old(rows), b))
      ensures error.None? <==> MeetsChecks(b) && OneAtATime(old(rows) + [b])
    {
      InsertKeepsOrder(rows, b);
      DisjointIffOneAtATime(rows);
      RefusedOnlyIfTaken(rows, b);
      if !RowOk(b) { return Some(CheckViolation); }
      if ClashesWithOther(rows, |rows|, b) { return Some(SlotTaken); }
      rows := rows + [b.(version := 1)];
      return None;
    }

    method UpdateRow(i: nat, b: Booking) returns (error: Option<DbError>)
      requires Valid() && i < |rows|
      modifies this
      ensures Valid()
      ensures rows == After(old(rows), Update(old(rows), i, b))
      ensures error.None? <==>
              MeetsChecks(b) && OneAtATime(old(rows)[i := b.(version := old(rows)[i].version + 1)])
      ensures error.None? <==> Update(old(rows), i, b).Done?
      ensures error.Some? ==> Update(old(rows), i, b) == Refused(error.value)
    {
      UpdateKeepsOrder(rows, i, b);
      DisjointIffOneAtATime(rows);
      UpdateRefusedOnlyIfTaken(rows, i, b, rows[i := b.(version := rows[i].version + 1)]);
      var bumped := b.(version := rows[i].version + 1);
      if !RowOk(bumped) { return Some(CheckViolation); }
      if ClashesWithOther(rows, i, bumped) { return Some(SlotTaken); }
      rows := rows[i := bumped];
      return None;
    }

    method CheckDecision(clubId: int, ask: Ask) returns (checked: Checked)
      ensures checked == match CheckError(rows, clubId, ask)
                         case Some(error) => Denied(error)
                         case None => Passed(Decision(ask, rows[ask.i]))
    {
      if ask.i >= |rows| || rows[ask.i].clubId != clubId { return Denied(NotFound); }
      var b := rows[ask.i];
      match ask {
        case Cancel(_, _, _) =>
          if b.status != Confirmed { return Denied(BookingNotConfirmed); }
          if b.closedAt.Some? { return Denied(BillAlreadyClosed); }
        case CloseBill(_, _) =>
          if b.status != Confirmed { return Denied(BookingNotConfirmed); }
          if b.closedAt.Some? { return Denied(BillAlreadyClosed); }
        case Extend(_, extra, clubMax, _) =>
          if !(1 <= extra <= clubMax) { return Denied(ExtendRangeInvalid); }
          if b.status != Confirmed { return Denied(BookingNotConfirmed); }
          if b.closedAt.Some? { return Denied(BillAlreadyClosed); }
          if b.hours + extra > MAX_TOTAL_HOURS { return Denied(TotalHoursExceeded); }
        case _ =>
          if b.status != Pending { return Denied(BookingNotPending); }
      }
      return Passed(Decision(ask, b));
    }

    /** Writes a decision over whatever the row has become since it was checked. */
    method WriteDecision(d: Decision) returns (error: Option<DbError>)
      requires Valid()
      modifies this
      ensures Valid()
      ensures rows == After(old(rows), Land(old(rows), d))
      ensures error == if Land(old(rows), d).Done? then None else Some(Land(old(rows), d).error)
    {
      var i := d.ask.i;
      if i >= |rows| { return Some(NotFound); }
      if d.ask.Extend? && d.ask.expected.Some? && rows[i].version != d.ask.expected.value {
        return Some(VersionConflict);
      }
      error := UpdateRow(i, Written(rows[i], d));
    }
  }

  // ── No overlap, over every history of statements ─────────────────────────

  ghost predicate NoOverlap(rows: Rows) {
    forall i, j :: 0 <= i < j < |rows| ==> !Clash(rows[i], rows[j])
  }

  ghost predicate AllRowsOk(rows: Rows) {
    forall i :: 0 <= i < |rows| ==> RowOk(rows[i])
  }

  lemma InsertKeepsOrder(rows: Rows, b: Booking)
    requires NoOverlap(rows) && AllRowsOk(rows)
    ensures NoOverlap(After(rows, Insert(rows, b))) && AllRowsOk(After(rows, Insert(rows, b)))
  {
  }

  lemma UpdateKeepsOrder(rows: Rows, i: nat, b: Booking)
    requires NoOverlap(rows) && AllRowsOk(rows)
    ensures NoOverlap(After(rows, Update(rows, i, b))) && AllRowsOk(After(rows, Update(rows, i, b)))
  {
  }

  /** Any statement anyone may send; one that is refused changes nothing. */
  datatype Statement = InsertStmt(row: Booking) | UpdateStmt(i: nat, row: Booking)

  function Apply(rows: Rows, s: Statement): Rows {
    match s
    case InsertStmt(b) => After(rows, Insert(rows, b))
    case UpdateStmt(i, b) => After(rows, Update(rows, i, b))
  }

  function Replay(history: seq<Statement>): Rows {
    if history == [] then []
    else Apply(Replay(history[..|history| - 1]), history[|history| - 1])
  }

  lemma {:induction false} HistoryKeepsOrder(history: seq<Statement>)
    ensures NoOverlap(Replay(history)) && AllRowsOk(Replay(history))
  {
    if history != [] {
      var before := Replay(history[..|history| - 1]);
      HistoryKeepsOrder(history[..|history| - 1]);
      match history[|history| - 1] {
        case InsertStmt(b) => InsertKeepsOrder(before, b);
        case UpdateStmt(i, b) => UpdateKeepsOrder(before, i, b);
      }
    }
  }

  // ── Capacity of a station ────────────────────────────────────────────────

  function Covers(b: Booking, station: int, t: int): nat {
    if b.status != Cancelled && b.stationId == station && b.lo <= t < b.hi then 1 else 0
  }

  /** How much of [from, from + len) an active booking of the station occupies. */
  function Occupied(b: Booking, station: int, from: int, len: nat): nat {
    if b.status == Cancelled || b.stationId != station then 0
    else
      var lo, hi := if b.lo < from then from else b.lo, if b.hi < from + len then b.hi else from + len;
      if hi <= lo then 0 else hi - lo
  }

  function TotalOccupied(rows: Rows, station: int, from: int, len: nat): nat {
    if rows == [] then 0
    else TotalOccupied(rows[..|rows| - 1], station, from, len) + Occupied(rows[|rows| - 1], station, from, len)
  }

  function CountCovering(rows: Rows, station: int, t: int): nat {
    if rows == [] then 0
    else CountCovering(rows[..|rows| - 1], station, t) + Covers(rows[|rows| - 1], station, t)
  }

  lemma {:induction false} AtMostOneCovers(rows: Rows, station: int, t: int)
    requires NoOverlap(rows)
    ensures CountCovering(rows, station, t) <= 1
    ensures CountCovering(rows, station, t) == 1 ==> exists i :: 0 <= i < |rows| && Covers(rows[i], station, t) == 1
  {
    if rows != [] {
      var last := |rows| - 1;
      AtMostOneCovers(rows[..last], station, t);
      if CountCovering(rows[..last], station, t) == 1 {
        var i :| 0 <= i < last && Covers(rows[..last][i], station, t) == 1;
        assert Covers(rows[i], station, t) == 1;
        assert !Clash(rows[i], rows[last]);
      }
    }
  }

  lemma {:induction false} OneInstantMore(rows: Rows, station: int, from: int, len: nat)
    ensures TotalOccupied(rows, station, from, len + 1)
         == TotalOccupied(rows, station, from, len) + CountCovering(rows, station, from + len)
  {
    if rows != [] {
      OneInstantMore(rows[..|rows| - 1], station, from, len);
    }
  }

  lemma {:induction false} OccupiedFits(rows: Rows, station: int, from: int, len: nat)
    requires NoOverlap(rows)
    ensures TotalOccupied(rows, station, from, len) <= len
  {
    if len == 0 {
      NothingOccupied(rows, station, from);
    } else {
      OccupiedFits(rows, station, from, len - 1);
      OneInstantMore(rows, station, from, len - 1);
      AtMostOneCovers(rows, station, from + len - 1);
    }
  }

  lemma {:induction false} NothingOccupied(rows: Rows, station: int, from: int)
    ensures TotalOccupied(rows, station, from, 0) == 0
  {
    if rows != [] {
      NothingOccupied(rows[..|rows| - 1], station, from);
    }
  }

  /**
   * After any history of inserts, confirmations, prolongations and cancellations, accepted or
   * refused, no station is booked beyond its time: its active bookings occupy at most the
   * length of any interval.
   */
  lemma StationNeverOverbooked(history: seq<Statement>, station: int, from: int, len: nat)
    ensures TotalOccupied(Replay(history), station, from, len) <= len
  {
    HistoryKeepsOrder(history);
    OccupiedFits(Replay(history), station, from, len);
  }

  /** No instant of any station is covered twice. */
  ghost predicate OneAtATime(rows: Rows) {
    forall station, t :: CountCovering(rows, station, t) <= 1
  }

  lemma {:induction false} CoversCount(rows: Rows, i: nat, station: int, t: int)
    requires i < |rows| && Covers(rows[i], station, t) == 1
    ensures CountCovering(rows, station, t) >= 1
  {
    if i < |rows| - 1 { CoversCount(rows[..|rows| - 1], i, station, t); }
  }

  lemma {:induction false} TwoCover(rows: Rows, i: nat, j: nat, station: int, t: int)
    requires i < j < |rows| && Covers(rows[i], station, t) == 1 && Covers(rows[j], station, t) == 1
    ensures CountCovering(rows, station, t) >= 2
  {
    if j < |rows| - 1 {
      TwoCover(rows[..|rows| - 1], i, j, station, t);
    } else {
      CoversCount(rows[..j], i, station, t);
    }
  }

  /** The exclusion is about instants: active periods of a station are disjoint, back to back or
      apart, exactly when none is covered twice. */
  lemma DisjointIffOneAtATime(rows: Rows)
    ensures NoOverlap(rows) <==> OneAtATime(rows)
  {
    if NoOverlap(rows) {
      forall station, t ensures CountCovering(rows, station, t) <= 1 { AtMostOneCovers(rows, station, t); }
    } else {
      var i, j :| 0 <= i < j < |rows| && Clash(rows[i], rows[j]);
      var t := if rows[i].lo < rows[j].lo then rows[j].lo else rows[i].lo;
      TwoCover(rows, i, j, rows[i].stationId, t);
    }
  }

  /** The column checks, and with them the ways a booking is made: a guest's by the staff, a
      customer's own through the mini app. */
  predicate MeetsChecks(b: Booking) {
    && 1 <= b.hours <= 12 && 1 <= b.rateSnapshot && 0 <= b.prepaid && b.lo <= b.hi
    && match b.source
       case Staff => b.customerId == None && b.guestName != None
       case Miniapp => b.customerId != None && b.guestName == None && b.guestPhone == None
  }

  lemma ClashWithLast(rows: Rows, b: Booking)
    requires NoOverlap(rows)
    ensures ClashesWithOther(rows, |rows|, b) <==> !NoOverlap(rows + [b])
  {
    var forced := rows + [b];
    if ClashesWithOther(rows, |rows|, b) {
      var j :| 0 <= j < |rows| && Clash(rows[j], b);
      assert Clash(forced[j], forced[|rows|]);
    } else {
      forall i, j | 0 <= i < j < |forced| ensures !Clash(forced[i], forced[j]) {
        if j < |rows| { assert !Clash(rows[i], rows[j]); } else { assert !Clash(rows[i], b); }
      }
    }
  }

  lemma ClashWithReplaced(rows: Rows, i: nat, b: Booking)
    requires NoOverlap(rows) && i < |rows|
    ensures ClashesWithOther(rows, i, b) <==> !NoOverlap(rows[i := b])
  {
    var forced := rows[i := b];
    if ClashesWithOther(rows, i, b) {
      var j: nat :| j < |rows| && j != i && Clash(rows[j], b);
      assert Clash(forced[j], forced[i]) && Clash(forced[i], forced[j]);
    } else {
      forall j, k | 0 <= j < k < |forced| ensures !Clash(forced[j], forced[k]) {
        if j == i { assert !Clash(rows[k], b); } else if k == i { assert !Clash(rows[j], b); }
      }
    }
  }

  /** The exclusion refuses no more than it must: a row that meets the checks is accepted if and
      only if with it no instant of a station is covered twice, and is then added as version 1. */
  lemma RefusedOnlyIfTaken(rows: Rows, b: Booking)
    requires OneAtATime(rows)
    ensures Insert(rows, b)
         == if !MeetsChecks(b) then Refused(CheckViolation)
            else if !OneAtATime(rows + [b]) then Refused(SlotTaken)
            else Done(rows + [b.(version := 1)])
  {
    DisjointIffOneAtATime(rows);
    DisjointIffOneAtATime(rows + [b]);
    ClashWithLast(rows, b);
  }

  /** The same of an update, with the row replaced and its version one up. */
  lemma UpdateRefusedOnlyIfTaken(rows: Rows, i: nat, b: Booking, next: Rows)
    requires OneAtATime(rows) && (i < |rows| ==> next == rows[i := b.(version := rows[i].version + 1)])
    ensures Update(rows, i, b)
         == if |rows| <= i then Refused(NotFound)
            else if !MeetsChecks(b) then Refused(CheckViolation)
            else if !OneAtATime(next) then Refused(SlotTaken)
            else Done(next)
  {
    if i < |rows| {
      var bumped := b.(version := rows[i].version + 1);
      DisjointIffOneAtATime(rows);
      DisjointIffOneAtATime(next);
      ClashWithReplaced(rows, i, bumped);
    }
  }

  // ── Decisions that nothing comes between ─────────────────────────────────

  /** When a decision may be made, in the columns of the row. */
  predicate MayDecide(b: Booking, ask: Ask) {
    match ask
    case Confirm(_) => b.status == Pending
    case Reject(_, _, _) => b.status == Pending
    case Cancel(_, _, _) => b.status == Confirmed && b.closedAt == None
    case CloseBill(_, _) => b.status == Confirmed && b.closedAt == None
    case Extend(_, extra, clubMax, _) =>
      b.status == Confirmed && b.closedAt == None && 1 <= extra <= clubMax && b.hours + extra <= 12
  }

  /** What a clerk is told who may not decide. */
  function WhyNot(b: Booking, ask: Ask): DbError {
    if ask.Confirm? || ask.Reject? then BookingNotPending
    else if ask.Extend? && (ask.extra < 1 || ask.clubMax < ask.extra) then ExtendRangeInvalid
    else if b.status != Confirmed then BookingNotConfirmed
    else if b.closedAt != None then BillAlreadyClosed
    else TotalHoursExceeded
  }

  /** What it makes of the row. */
  function Decided(b: Booking, ask: Ask): Booking {
    match ask
    case Confirm(_) => b.(status := Confirmed, version := b.version + 1)
    case Reject(_, staff, reason) =>
      b.(status := Cancelled, cancelledBy := Some(staff), cancelReason := reason, version := b.version + 1)
    case Cancel(_, staff, reason) =>
      b.(status := Cancelled, cancelledBy := Some(staff), cancelReason := reason, version := b.version + 1)
    case CloseBill(_, now) => b.(closedAt := Some(now), version := b.version + 1)
    case Extend(_, extra, _, _) =>
      b.(hours := b.hours + extra, hi := b.hi + extra * 3600_000_000, version := b.version + 1)
  }

  /**
   * A decision that is checked and written with nothing in between goes through if and only if the
   * row is the club's and is in the state that the decision asks for. Confirming, rejecting,
   * cancelling and closing then always succeed; a prolongation succeeds unless its version is an
   * old one or the station is taken in the hours added.
   */
  lemma UndisturbedDecision(rows: Rows, clubId: int, ask: Ask)
    requires OneAtATime(rows) && AllRowsOk(rows)
    ensures CheckError(rows, clubId, ask).None? <==>
            ask.i < |rows| && rows[ask.i].clubId == clubId && MayDecide(rows[ask.i], ask)
    ensures |rows| <= ask.i ==> forall seen :: Land(rows, Decision(ask, seen)) == Refused(NotFound)
    ensures CheckError(rows, clubId, ask).Some? ==>
              CheckError(rows, clubId, ask).value
              == if !(ask.i < |rows| && rows[ask.i].clubId == clubId) then NotFound
                 else WhyNot(rows[ask.i], ask)
    ensures CheckError(rows, clubId, ask).None? ==>
              Land(rows, Decision(ask, rows[ask.i]))
              == if ask.Extend? && ask.expected.Some? && ask.expected.value != rows[ask.i].version
                 then Refused(VersionConflict)
                 else if ask.Extend? && !OneAtATime(rows[ask.i := Decided(rows[ask.i], ask)])
                 then Refused(SlotTaken)
                 else Done(rows[ask.i := Decided(rows[ask.i], ask)])
  {
    hide OneAtATime;
    if CheckError(rows, clubId, ask).None? {
      var i := ask.i;
      var b := Written(rows[i], Decision(ask, rows[i]));
      var next := rows[i := Decided(rows[i], ask)];
      assert next == rows[i := b.(version := rows[i].version + 1)];
      UpdateRefusedOnlyIfTaken(rows, i, b, next);
      DisjointIffOneAtATime(rows);
      DisjointIffOneAtATime(next);
      assert RowOk(rows[i]);
      if !ask.Extend? { StillDisjoint(rows, i, next[i]); }
    }
  }

  /** Changing a row in no more than its status to a lesser one, its notes and its version makes it
      meet no other. */
  lemma StillDisjoint(rows: Rows, i: nat, b: Booking)
    requires NoOverlap(rows) && i < |rows|
    requires b.stationId == rows[i].stationId && b.lo == rows[i].lo && b.hi == rows[i].hi
    requires IsActive(b) ==> IsActive(rows[i])
    ensures NoOverlap(rows[i := b])
  {
    var next := rows[i := b];
    forall j, k | 0 <= j < k < |next| ensures !Clash(next[j], next[k]) {
      assert !Clash(rows[j], rows[k]);
    }
  }

  // ── Versions ─────────────────────────────────────────────────────────────

  lemma {:induction false} VersionsGrow(history: seq<Statement>, n: nat, i: nat)
    requires n <= |history| && i < |Replay(history[..n])|
    ensures i < |Replay(history)| && Replay(history[..n])[i].version <= Replay(history)[i].version
    ensures Replay(history[..n])[i].version == Replay(history)[i].version ==>
        Replay(history[..n])[i] == Replay(history)[i]
    decreases |history| - n
  {
    if n < |history| {
      assert history[..n + 1][..n] == history[..n];
      VersionsGrow(history, n + 1, i);
    } else {
      assert history[..n] == history;
    }
  }

  /**
   * Optimistic locking: if a prolongation is given the version that was read earlier and is
   * accepted, then nothing at all has changed in the row since that read.
   */
  lemma AcceptedVersionMeansUntouched(history: seq<Statement>, n: nat, i: nat, extra: int, clubMax: int, seen: Booking)
    requires n <= |history| && i < |Replay(history[..n])|
    requires Land(Replay(history),
        Decision(Extend(i, extra, clubMax, Some(Replay(history[..n])[i].version)), seen)).Done?
    ensures forall m :: n <= m <= |history| ==>
              i < |Replay(history[..m])| && Replay(history[..m])[i] == Replay(history[..n])[i]
  {
    forall m | n <= m <= |history|
      ensures i < |Replay(history[..m])| && Replay(history[..m])[i] == Replay(history[..n])[i]
    {
      assert history[..m][..n] == history[..n];
      VersionsGrow(history[..m], n, i);
      VersionsGrow(history, m, i);
    }
  }
}
