/**
 * What happens to the status, the period, the hours and the closing of bookings, with staff
 * decisions that overlap: a request reads and checks a row, takes no lock, and writes it later,
 * over whatever the row has become.
 */
module BookingDesk {
  import opened Options
  import opened Bookings

  const PAYMENT_WINDOW_MIN := 10
  const MINUTE := 60 * 1000000
  const REASON := "PAYMENT_WINDOW_EXPIRED"

  // ── The expiry UPDATE ────────────────────────────────────────────────────

  predicate Due(b: Booking, club: int, now: int) {
    b.clubId == club && b.status == Pending && b.createdAt < now - PAYMENT_WINDOW_MIN * MINUTE && b.prepaid == 0
  }

  function Lapsed(b: Booking): Booking {
    b.(status := Cancelled, cancelReason := Some(REASON), version := b.version + 1)
  }

  /** UPDATE … RETURNING id over the club's overdue rows. */
  function Expired(rows: Rows, club: int, now: int): (r: Rows)
    ensures |r| == |rows|
    ensures forall i :: 0 <= i < |rows| ==> r[i] == if Due(rows[i], club, now) then Lapsed(rows[i]) else rows[i]
  {
    if rows == [] then []
    else
      var b := rows[|rows| - 1];
      Expired(rows[..|rows| - 1], club, now) + [if Due(b, club, now) then Lapsed(b) else b]
  }

  /** The expiry UPDATE is never refused by the table's own guards, so its rows change all
      together. */
  lemma ExpiryKeepsOrder(rows: Rows, club: int, now: int)
    requires NoOverlap(rows) && AllRowsOk(rows)
    ensures NoOverlap(Expired(rows, club, now)) && AllRowsOk(Expired(rows, club, now))
    ensures forall i: nat :: i < |rows| && Due(rows[i], club, now) ==> Update(rows, i, Lapsed(rows[i])).Done?
  {
    var after := Expired(rows, club, now);
    forall i, j | 0 <= i < j < |after| ensures !Clash(after[i], after[j]) {
      assert !Clash(rows[i], rows[j]);
    }
  }

  /** The expiry in columns: it changes exactly the club's pending bookings without a prepayment
      that are more than ten minutes old, and of these the status, the reason and the version. */
  lemma ExpiryInColumns(rows: Rows, club: int, now: int, i: nat)
    requires i < |rows|
    ensures var b, after := rows[i], Expired(rows, club, now)[i];
            if b.clubId == club && b.status == Pending && b.prepaid == 0 && now - b.createdAt > 600_000_000
            then after == b.(status := Cancelled, cancelReason := Some("PAYMENT_WINDOW_EXPIRED"),
                             version := b.version + 1)
            else after == b
  {
  }

  // ── Moves ────────────────────────────────────────────────────────────────

  datatype Desk = Desk(rows: Rows, flying: map<nat, Decision>)

  datatype Move =
    | Create(row: Booking)
    | Check(t: nat, clubId: int, ask: Ask)
    | Write(t: nat)
    | Drop(t: nat)
    | Lapse(club: int, now: int)
    | Touch(i: nat)   // an UPDATE of other columns: the payment proof, the reminder mark

  const EMPTY := Desk([], map[])

  function Span(b: Booking): int {
    b.hi - b.lo
  }

  /** The period is as long as the hours say. */
  predicate HoursFit(b: Booking) {
    Span(b) == b.hours * HOUR
  }

  /** A booking as it is made. */
  predicate IsNew(b: Booking) {
    b.status != Cancelled && b.cancelledBy.None? && b.cancelReason.None? && b.closedAt.None? && HoursFit(b)
  }

  predicate Fits(s: Desk, m: Move) {
    match m
    case Create(b) => IsNew(b)
    case Check(t, clubId, ask) => t !in s.flying && CheckError(s.rows, clubId, ask).None?
    case Write(t) => t in s.flying
    case Drop(t) => t in s.flying
    case Lapse(_, _) => true
    case Touch(i) => i < |s.rows|
  }

  function Next(s: Desk, m: Move): Desk
    requires Fits(s, m)
  {
    match m
    case Create(b) => s.(rows := After(s.rows, Insert(s.rows, b)))
    case Check(t, _, ask) => s.(flying := s.flying[t := Decision(ask, s.rows[ask.i])])
    case Write(t) => Desk(After(s.rows, Land(s.rows, s.flying[t])), s.flying - {t})
    case Drop(t) => s.(flying := s.flying - {t})
    case Lapse(club, now) => s.(rows := Expired(s.rows, club, now))
    case Touch(i) => s.(rows := After(s.rows, Update(s.rows, i, s.rows[i])))
  }

  predicate IsHistory(history: seq<Move>)
    decreases |history|, 0
  {
    history == [] ||
    (var before := history[..|history| - 1];
     IsHistory(before) && Fits(Replay(before), history[|history| - 1]))
  }

  function Replay(history: seq<Move>): Desk
    requires IsHistory(history)
    decreases |history|, 1
  {
    if history == [] then EMPTY else Next(Replay(history[..|history| - 1]), history[|history| - 1])
  }

  // ── What every move keeps ────────────────────────────────────────────────

  /** How a row may have changed since it was read. */
  predicate RowGrew(seen: Booking, b: Booking) {
    && seen.lo == b.lo && seen.hi <= b.hi && seen.version <= b.version
    && (seen.version == b.version ==> seen == b)
  }

  /** A row's hours never exceed its period. */
  predicate HoursWithin(b: Booking) {
    b.hours * HOUR <= Span(b)
  }

  ghost predicate FlyingOk(rows: Rows, d: Decision) {
    && d.ask.i < |rows| && RowGrew(d.seen, rows[d.ask.i]) && HoursWithin(d.seen)
    && (d.ask.Extend? ==> d.ask.extra >= 1 && d.seen.status == Confirmed && d.seen.closedAt.None?)
  }

  ghost predicate Inv(s: Desk) {
    && (forall i :: 0 <= i < |s.rows| ==> HoursWithin(s.rows[i]))
    && (forall t :: t in s.flying ==> FlyingOk(s.rows, s.flying[t]))
    && NoOverlap(s.rows) && AllRowsOk(s.rows)
  }

  /** The rows as a move finds and leaves them. */
  lemma RowsGrow(s: Desk, m: Move)
    requires Inv(s) && Fits(s, m)
    ensures |s.rows| <= |Next(s, m).rows|
    ensures forall i :: 0 <= i < |s.rows| ==> RowGrew(s.rows[i], Next(s, m).rows[i])
    ensures forall i :: 0 <= i < |Next(s, m).rows| ==> HoursWithin(Next(s, m).rows[i])
  {
    hide NoOverlap, AllRowsOk, ClashesWithOther;
    if m.Write? {
      var d := s.flying[m.t];
      assert FlyingOk(s.rows, d);
    }
  }

  lemma NextKeepsInv(s: Desk, m: Move)
    requires Inv(s) && Fits(s, m)
    ensures Inv(Next(s, m))
  {
    hide NoOverlap, AllRowsOk, ClashesWithOther, Land, Insert, Update, Expired;
    RowsGrow(s, m);
    TableStaysInOrder(s, m);
    var s' := Next(s, m);
    forall t | t in s'.flying ensures FlyingOk(s'.rows, s'.flying[t]) {
      if t in s.flying && s'.flying[t] == s.flying[t] {
        var i := s.flying[t].ask.i;
        assert FlyingOk(s.rows, s.flying[t]) && RowGrew(s.rows[i], s'.rows[i]);
      }
    }
  }

  lemma TableStaysInOrder(s: Desk, m: Move)
    requires Inv(s) && Fits(s, m)
    ensures NoOverlap(Next(s, m).rows) && AllRowsOk(Next(s, m).rows)
  {
    hide NoOverlap, AllRowsOk, ClashesWithOther, Insert, Update, Expired;
    match m {
      case Create(b) => InsertKeepsOrder(s.rows, b);
      case Write(t) =>
        var d := s.flying[t];
        if d.ask.i < |s.rows| { UpdateKeepsOrder(s.rows, d.ask.i, Written(s.rows[d.ask.i], d)); }
      case Lapse(club, now) => ExpiryKeepsOrder(s.rows, club, now);
      case Touch(i) => UpdateKeepsOrder(s.rows, i, s.rows[i]);
      case _ =>
    }
  }

  lemma {:induction false} HistoryKeepsInv(history: seq<Move>)
    requires IsHistory(history)
    ensures Inv(Replay(history))
  {
    if history != [] {
      HistoryKeepsInv(history[..|history| - 1]);
      NextKeepsInv(Replay(history[..|history| - 1]), history[|history| - 1]);
    }
  }

  /** What a landing decision makes of the row it finds, in columns; only the hours of a prolongation
      come from the row as it was read. */
  function LandedOn(b: Booking, d: Decision): Booking {
    match d.ask
    case Extend(_, extra, _, _) =>
      b.(hours := d.seen.hours + extra, hi := b.hi + extra * 3600_000_000, version := b.version + 1)
    case _ => Decided(b, d.ask)
  }

  /**
   * Every move in the columns of every row: a decision lands on its own row and no other, unless its
   * version is old or the row would break a check or meet another booking; the expiry changes the
   * overdue rows; any other UPDATE bumps the version.
   */
  lemma MoveInColumns(s: Desk, m: Move, i: nat)
    requires Inv(s) && Fits(s, m) && i < |s.rows|
    ensures i < |Next(s, m).rows|
    ensures var b, after := s.rows[i], Next(s, m).rows[i];
            match m
            case Write(t) =>
              var d := s.flying[t];
              var next := s.rows[i := LandedOn(b, d)];
              after == if d.ask.i == i && MeetsChecks(next[i]) && OneAtATime(next)
                          && (d.ask.Extend? && d.ask.expected.Some? ==> d.ask.expected.value == b.version)
                       then next[i] else b
            case Lapse(club, now) =>
              after == if b.clubId == club && b.status == Pending && b.prepaid == 0 && now - b.createdAt > 600_000_000
                       then b.(status := Cancelled, cancelReason := Some("PAYMENT_WINDOW_EXPIRED"),
                               version := b.version + 1)
                       else b
            case Touch(j) => after == if i == j then b.(version := b.version + 1) else b
            case _ => after == b
  {
    hide OneAtATime, NoOverlap, AllRowsOk, ClashesWithOther, Update;
    DisjointIffOneAtATime(s.rows);
    match m {
      case Write(t) =>
        var d := s.flying[t];
        assert FlyingOk(s.rows, d);
        var j := d.ask.i;
        var b := Written(s.rows[j], d);
        UpdateRefusedOnlyIfTaken(s.rows, j, b, s.rows[j := b.(version := s.rows[j].version + 1)]);
        assert LandedOn(s.rows[j], d) == b.(version := s.rows[j].version + 1);
      case Touch(j) => TouchLands(s, j);
      case _ =>
    }
  }

  /** A booking is made pending or confirmed, untouched by any decision, and as long as its hours; it
      comes in as version 1 unless it breaks a check or its station is taken. */
  lemma CreationInColumns(s: Desk, b: Booking)
    requires Inv(s)
    ensures Fits(s, Create(b)) <==>
            && (b.status == Pending || b.status == Confirmed)
            && b.cancelledBy == None && b.cancelReason == None && b.closedAt == None
            && b.hi - b.lo == b.hours * 3600_000_000
    ensures Fits(s, Create(b)) ==>
              Next(s, Create(b))
              == if MeetsChecks(b) && OneAtATime(s.rows + [b]) then s.(rows := s.rows + [b.(version := 1)]) else s
  {
    hide OneAtATime, NoOverlap, AllRowsOk, ClashesWithOther, Insert;
    DisjointIffOneAtATime(s.rows);
    RefusedOnlyIfTaken(s.rows, b);
  }

  lemma TouchLands(s: Desk, j: nat)
    requires Inv(s) && j < |s.rows|
    ensures Update(s.rows, j, s.rows[j]) == Done(s.rows[j := s.rows[j].(version := s.rows[j].version + 1)])
  {
    var b := s.rows[j].(version := s.rows[j].version + 1);
    StillDisjoint(s.rows, j, b);
    ClashWithReplaced(s.rows, j, b);
  }

  /** A request that is rolled back leaves no trace, and what a request carries is the row it read. */
  lemma RequestsCarryTheirRow(s: Desk, t: nat, clubId: int, ask: Ask)
    requires Fits(s, Check(t, clubId, ask))
    ensures var read := Next(s, Check(t, clubId, ask));
            && read == s.(flying := s.flying[t := Decision(ask, s.rows[ask.i])])
            && Next(read, Drop(t)) == s && Next(read, Write(t)).flying == s.flying
  {
    assert Next(s, Check(t, clubId, ask)).flying - {t} == s.flying;
  }

  // ── Hours and period ─────────────────────────────────────────────────────

  /** A prolongation of row i that is written although another one has been written since it
      read the row. */
  predicate IsStale(s: Desk, m: Move, i: nat) {
    && m.Write? && m.t in s.flying && i < |s.rows|
    && s.flying[m.t].ask.Extend? && s.flying[m.t].ask.i == i && Land(s.rows, s.flying[m.t]).Done?
    && s.rows[i].hi != s.flying[m.t].seen.hi
  }

  predicate EverStale(history: seq<Move>, i: nat)
    requires IsHistory(history)
  {
    history != [] &&
    (var before, m := history[..|history| - 1], history[|history| - 1];
     EverStale(before, i) || IsStale(Replay(before), m, i))
  }

  /** Once stale, a row's period is longer than its hours say, and than any hours read so far. */
  ghost predicate HoursTold(s: Desk, i: nat, stale: bool) {
    && (stale ==> i < |s.rows|)
    && (i < |s.rows| ==> (HoursFit(s.rows[i]) <==> !stale))
    && forall t :: t in s.flying && s.flying[t].ask.i == i && i < |s.rows| ==>
         if stale then s.flying[t].seen.hours * HOUR < Span(s.rows[i]) else HoursFit(s.flying[t].seen)
  }

  lemma NextTellsHours(s: Desk, m: Move, i: nat, stale: bool)
    requires Inv(s) && Fits(s, m) && HoursTold(s, i, stale)
    ensures HoursTold(Next(s, m), i, stale || IsStale(s, m, i))
  {
    hide Inv, HoursTold, Next, Fits;
    if m.Write? { WriteTellsHours(s, m.t, i, stale); } else { QuietTellsHours(s, m, i, stale); }
  }

  lemma WriteTellsHours(s: Desk, t: nat, i: nat, stale: bool)
    requires Inv(s) && Fits(s, Write(t)) && HoursTold(s, i, stale)
    ensures HoursTold(Next(s, Write(t)), i, stale || IsStale(s, Write(t), i))
  {
    hide NoOverlap, AllRowsOk, ClashesWithOther, RowOk;
    RowsGrow(s, Write(t));
    NextKeepsInv(s, Write(t));
    var s' := Next(s, Write(t));
    forall u | u in s'.flying ensures FlyingOk(s'.rows, s'.flying[u]) {}
    assert FlyingOk(s.rows, s.flying[t]);
  }

  lemma QuietTellsHours(s: Desk, m: Move, i: nat, stale: bool)
    requires Inv(s) && Fits(s, m) && HoursTold(s, i, stale) && !m.Write?
    ensures HoursTold(Next(s, m), i, stale)
  {
    hide NoOverlap, AllRowsOk, ClashesWithOther, RowOk, Land, Due;
    RowsGrow(s, m);
  }

  lemma {:induction false} HistoryTellsHours(history: seq<Move>, i: nat)
    requires IsHistory(history)
    ensures HoursTold(Replay(history), i, EverStale(history, i))
  {
    if history != [] {
      var before, m := history[..|history| - 1], history[|history| - 1];
      HistoryTellsHours(before, i);
      HistoryKeepsInv(before);
      NextTellsHours(Replay(before), m, i, EverStale(before, i));
    }
  }

  /**
   * A booking's hours match its period if and only if none of its prolongations was written after
   * another one had been written since its read: over every history of overlapping decisions,
   * cancellations and expiry runs. A mismatch is for ever, and always a period too long.
   */
  lemma {:induction false} HoursMatchIff(history: seq<Move>, i: nat)
    requires IsHistory(history) && i < |Replay(history).rows|
    ensures var b := Replay(history).rows[i];
            && (b.hi - b.lo == b.hours * 3600_000_000 <==> !EverStale(history, i))
            && b.hours * 3600_000_000 <= b.hi - b.lo
  {
    HistoryTellsHours(history, i);
    HistoryKeepsInv(history);
  }

  // ── The limit of twelve hours ────────────────────────────────────────────

  /** A prolongation that is written although the period it finds leaves no room for it. */
  predicate Overruns(s: Desk, m: Move, i: nat) {
    && m.Write? && m.t in s.flying && i < |s.rows|
    && s.flying[m.t].ask.Extend? && s.flying[m.t].ask.i == i && Land(s.rows, s.flying[m.t]).Done?
    && Span(s.rows[i]) + s.flying[m.t].ask.extra * HOUR > MAX_TOTAL_HOURS * HOUR
  }

  predicate EverOverrun(history: seq<Move>, i: nat)
    requires IsHistory(history)
  {
    history != [] &&
    (var before, m := history[..|history| - 1], history[|history| - 1];
     EverOverrun(before, i) || Overruns(Replay(before), m, i))
  }

  predicate LimitTold(rows: Rows, i: nat, overrun: bool) {
    && (overrun ==> i < |rows|)
    && (i < |rows| ==> (Span(rows[i]) <= MAX_TOTAL_HOURS * HOUR <==> !overrun))
  }

  lemma NextTellsLimit(s: Desk, m: Move, i: nat, overrun: bool)
    requires Inv(s) && Fits(s, m) && LimitTold(s.rows, i, overrun)
    ensures LimitTold(Next(s, m).rows, i, overrun || Overruns(s, m, i))
  {
    hide NoOverlap, AllRowsOk, ClashesWithOther;
    RowsGrow(s, m);
    if m.Write? { assert FlyingOk(s.rows, s.flying[m.t]); }
  }

  /**
   * A booking's period keeps within the twelve hours of the limit if and only if no prolongation
   * was written over a period that, as it was then, left no room for it: the check was made on
   * the hours as they had been read.
   */
  lemma {:induction false} LimitHoldsIff(history: seq<Move>, i: nat)
    requires IsHistory(history) && i < |Replay(history).rows|
    ensures Replay(history).rows[i].hi - Replay(history).rows[i].lo <= 12 * 3600_000_000 <==> !EverOverrun(history, i)
  {
    HistoryTellsLimit(history, i);
  }

  lemma {:induction false} HistoryTellsLimit(history: seq<Move>, i: nat)
    requires IsHistory(history)
    ensures LimitTold(Replay(history).rows, i, EverOverrun(history, i))
  {
    if history != [] {
      var before, m := history[..|history| - 1], history[|history| - 1];
      HistoryTellsLimit(before, i);
      HistoryKeepsInv(before);
      NextTellsLimit(Replay(before), m, i, EverOverrun(before, i));
    }
  }

  // ── Status and closing ───────────────────────────────────────────────────

  predicate LandsOn(s: Desk, m: Move, i: nat) {
    m.Write? && m.t in s.flying && s.flying[m.t].ask.i == i && Land(s.rows, s.flying[m.t]).Done?
  }

  /** The last decision about the status that was written to row i from move n on. */
  function LastDecision(history: seq<Move>, n: nat, i: nat): Option<Ask>
    requires IsHistory(history)
  {
    if |history| <= n then None
    else
      var before, m := history[..|history| - 1], history[|history| - 1];
      var s := Replay(before);
      if LandsOn(s, m, i) && DecidesStatus(s.flying[m.t].ask) then Some(s.flying[m.t].ask)
      else LastDecision(before, n, i)
  }

  /** The bill of row i was closed from move n on. */
  predicate ClosedSince(history: seq<Move>, n: nat, i: nat)
    requires IsHistory(history)
  {
    |history| > n &&
    (var before, m := history[..|history| - 1], history[|history| - 1];
     var s := Replay(before);
     (LandsOn(s, m, i) && s.flying[m.t].ask.CloseBill?) || ClosedSince(before, n, i))
  }

  function StatusAfter(status: Status, last: Option<Ask>): Status {
    if last.None? then status else if last.value.Confirm? then Confirmed else Cancelled
  }

  lemma NextTellsStatus(s: Desk, m: Move, i: nat)
    requires Fits(s, m) && i < |s.rows| && s.rows[i].status != Pending
    ensures i < |Next(s, m).rows|
    ensures Next(s, m).rows[i].status
         == if LandsOn(s, m, i) && DecidesStatus(s.flying[m.t].ask)
            then StatusAfter(s.rows[i].status, Some(s.flying[m.t].ask)) else s.rows[i].status
    ensures Next(s, m).rows[i].closedAt.Some? <==>
            s.rows[i].closedAt.Some? || (LandsOn(s, m, i) && s.flying[m.t].ask.CloseBill?)
  {
    hide ClashesWithOther, RowOk;
  }

  lemma {:induction false} PrefixIsHistory(history: seq<Move>, n: nat)
    requires IsHistory(history) && n <= |history|
    ensures IsHistory(history[..n])
    decreases |history|
  {
    if n == |history| {
      assert history[..n] == history;
    } else {
      var before := history[..|history| - 1];
      PrefixIsHistory(before, n);
      assert before[..n] == history[..n];
    }
  }

  /**
   * Once a booking has left the pending state, its status is what the last decision written to it
   * says, whatever had been checked when; and its bill is closed once any closing is written.
   */
  lemma {:induction false} StatusIsLastDecision(history: seq<Move>, n: nat, i: nat, earlier: Desk)
    requires IsHistory(history) && n <= |history| && IsHistory(history[..n]) && earlier == Replay(history[..n])
    requires i < |earlier.rows| && earlier.rows[i].status != Pending
    ensures i < |Replay(history).rows|
    ensures Replay(history).rows[i].status == StatusAfter(earlier.rows[i].status, LastDecision(history, n, i))
    ensures Replay(history).rows[i].closedAt.Some? <==> earlier.rows[i].closedAt.Some? || ClosedSince(history, n, i)
    decreases |history|
  {
    if n == |history| {
      assert history[..n] == history;
    } else {
      var before, m := history[..|history| - 1], history[|history| - 1];
      assert before[..n] == history[..n];
      StatusIsLastDecision(before, n, i, earlier);
      NextTellsStatus(Replay(before), m, i);
    }
  }

  /** The request t reads its row at move n, and is still to be written at the end. */
  predicate IsOpenSince(history: seq<Move>, n: nat, t: nat) {
    && n < |history| && history[n].Check? && history[n].t == t
    && forall k :: n < k < |history| ==>
         !(history[k].Write? && history[k].t == t) && !(history[k].Drop? && history[k].t == t)
  }

  lemma {:induction false} StillFlying(history: seq<Move>, n: nat, t: nat)
    requires IsHistory(history) && IsOpenSince(history, n, t)
    ensures IsHistory(history[..n]) && IsHistory(history[..n + 1])
    ensures CheckError(Replay(history[..n]).rows, history[n].clubId, history[n].ask).None?
    ensures t in Replay(history).flying
    ensures Replay(history).flying[t] == Decision(history[n].ask, Replay(history[..n]).rows[history[n].ask.i])
    ensures Replay(history[..n + 1]).rows == Replay(history[..n]).rows
    decreases |history|
  {
    PrefixIsHistory(history, n);
    PrefixIsHistory(history, n + 1);
    assert history[..n + 1][..n] == history[..n];
    if n + 1 == |history| {
      assert history[..n + 1] == history;
    } else {
      var before := history[..|history| - 1];
      assert before[..n] == history[..n] && before[..n + 1] == history[..n + 1];
      StillFlying(before, n, t);
    }
  }

  /**
   * What the status protects a prolongation from, exactly: in every history, one that is accepted
   * leaves a confirmed booking if and only if the last decision about the status that was written
   * since its read, if there was any, is a confirmation; and an open one if and only if no
   * closing was written since.
   */
  lemma {:induction false} ProlongsConfirmedIff(history: seq<Move>, n: nat, t: nat, after: Rows)
    requires IsHistory(history) && IsOpenSince(history, n, t) && history[n].ask.Extend?
    requires t in Replay(history).flying && Land(Replay(history).rows, Replay(history).flying[t]) == Done(after)
    ensures var i := history[n].ask.i;
            && i < |after|
            && (after[i].status == Confirmed <==>
                var last := LastDecision(history, n + 1, i); last.None? || last.value.Confirm?)
            && (after[i].closedAt.None? <==> !ClosedSince(history, n + 1, i))
  {
    StillFlying(history, n, t);
    StatusIsLastDecision(history, n + 1, history[n].ask.i, Replay(history[..n + 1]));
  }

  /** A cancelled booking stays cancelled if and only if the last decision written to it since, if
      there was any, is not a confirmation: one that had read the booking as pending. */
  lemma {:induction false} CancelledStaysIff(history: seq<Move>, n: nat, i: nat)
    requires IsHistory(history) && n <= |history| && IsHistory(history[..n])
    requires i < |Replay(history[..n]).rows| && Replay(history[..n]).rows[i].status == Cancelled
    ensures i < |Replay(history).rows|
    ensures Replay(history).rows[i].status == Cancelled <==>
            var last := LastDecision(history, n, i); last.None? || !last.value.Confirm?
  {
    StatusIsLastDecision(history, n, i, Replay(history[..n]));
  }

  /** With the version of an earlier answer, a prolongation that is accepted finds the very row it
      checked: it is never stale, and prolongs a confirmed and open booking. */
  lemma VersionedExtensionIsSafe(history: seq<Move>, t: nat)
    requires IsHistory(history) && t in Replay(history).flying
    requires var d := Replay(history).flying[t];
             && d.ask.Extend? && d.ask.expected.Some? && d.ask.expected.value <= d.seen.version
             && Land(Replay(history).rows, d).Done?
    ensures var s := Replay(history);
            var d := s.flying[t];
            && d.ask.i < |s.rows| && s.rows[d.ask.i] == d.seen
            && d.seen.status == Confirmed && d.seen.closedAt.None?
            && !IsStale(s, Write(t), d.ask.i)
  {
    HistoryKeepsInv(history);
    assert FlyingOk(Replay(history).rows, Replay(history).flying[t]);
  }

  lemma Follow(history: seq<Move>, m: Move, s': Desk)
    requires IsHistory(history) && Fits(Replay(history), m) && s' == Next(Replay(history), m)
    ensures IsHistory(history + [m]) && Replay(history + [m]) == s'
  {
    assert (history + [m])[..|history|] == history;
  }

  /** A new booking, and two decisions about it that both read it as it was made. */
  lemma TwoReads(b: Booking, club: int, a0: Ask, a1: Ask)
    requires IsNew(b) && RowOk(b) && b.clubId == club && a0.i == 0 && a1.i == 0
    requires CheckError([b.(version := 1)], club, a0).None? && CheckError([b.(version := 1)], club, a1).None?
    ensures var history, made := [Create(b), Check(0, club, a0), Check(1, club, a1)], b.(version := 1);
            && IsHistory(history)
            && Replay(history) == Desk([made], map[0 := Decision(a0, made), 1 := Decision(a1, made)])
  {
    var made := b.(version := 1);
    assert IsHistory([]) && Replay([]) == EMPTY;
    Follow([], Create(b), Desk([made], map[]));
    assert [] + [Create(b)] == [Create(b)];
    Follow([Create(b)], Check(0, club, a0), Desk([made], map[0 := Decision(a0, made)]));
    assert [Create(b)] + [Check(0, club, a0)] == [Create(b), Check(0, club, a0)];
    Follow([Create(b), Check(0, club, a0)], Check(1, club, a1),
           Desk([made], map[0 := Decision(a0, made), 1 := Decision(a1, made)]));
    assert [Create(b), Check(0, club, a0)] + [Check(1, club, a1)]
        == [Create(b), Check(0, club, a0), Check(1, club, a1)];
  }

  /** Two prolongations of six hours that both read a booking of six leave one of eighteen hours
      that says twelve. */
  lemma TwoExtensionsOverrun(b: Booking, club: int)
    requires IsNew(b) && RowOk(b) && b.clubId == club && b.status == Confirmed && b.hours == 6
    ensures var ask := Extend(0, 6, 6, None);
            var history := [Create(b), Check(0, club, ask), Check(1, club, ask)] + [Write(0)] + [Write(1)];
            && IsHistory(history) && |Replay(history).rows| == 1
            && Replay(history).rows[0].hours == 12 && Replay(history).rows[0].hi - b.lo == 18 * 3600_000_000
  {
    var ask := Extend(0, 6, 6, None);
    var start := [Create(b), Check(0, club, ask), Check(1, club, ask)];
    var made := b.(version := 1);
    var d := Decision(ask, made);
    TwoReads(b, club, ask, ask);
    var once := Written(made, d).(version := 2);
    Follow(start, Write(0), Desk([once], map[1 := d]));
    Follow(start + [Write(0)], Write(1), Desk([Written(once, d).(version := 3)], map[]));
  }

  /** The status does not protect a prolongation from a cancellation in between: without a version
      it prolongs the cancelled booking. */
  lemma CancelledIsProlonged(b: Booking, club: int, staff: int)
    requires IsNew(b) && RowOk(b) && b.clubId == club && b.status == Confirmed && b.hours == 6
    ensures var extend, cancel := Extend(0, 1, 6, None), Cancel(0, staff, None);
            var history := [Create(b), Check(0, club, extend), Check(1, club, cancel)] + [Write(1)] + [Write(0)];
            && IsHistory(history) && |Replay(history).rows| == 1
            && Replay(history).rows[0].status == Cancelled && Replay(history).rows[0].hours == 7
  {
    var extend, cancel := Extend(0, 1, 6, None), Cancel(0, staff, None);
    var start := [Create(b), Check(0, club, extend), Check(1, club, cancel)];
    var made := b.(version := 1);
    var e, c := Decision(extend, made), Decision(cancel, made);
    TwoReads(b, club, extend, cancel);
    var gone := Written(made, c).(version := 2);
    Follow(start, Write(1), Desk([gone], map[0 := e]));
    Follow(start + [Write(1)], Write(0), Desk([Written(gone, e).(version := 3)], map[]));
  }

  /** A confirmation that read the booking as pending revives one that another clerk rejected. */
  lemma RejectedIsRevived(b: Booking, club: int, staff: int)
    requires IsNew(b) && RowOk(b) && b.clubId == club && b.status == Pending
    ensures var history := [Create(b), Check(0, club, Confirm(0)), Check(1, club, Reject(0, staff, None))] + [Write(1)]
        + [Write(0)];
            && IsHistory(history) && |Replay(history).rows| == 1
            && Replay(history).rows[0].status == Confirmed && Replay(history).rows[0].cancelledBy == Some(staff)
  {
    var start := [Create(b), Check(0, club, Confirm(0)), Check(1, club, Reject(0, staff, None))];
    var made := b.(version := 1);
    var c, r := Decision(Confirm(0), made), Decision(Reject(0, staff, None), made);
    TwoReads(b, club, Confirm(0), Reject(0, staff, None));
    var gone := Written(made, r).(version := 2);
    Follow(start, Write(1), Desk([gone], map[0 := c]));
    Follow(start + [Write(1)], Write(0), Desk([Written(gone, c).(version := 3)], map[]));
  }
}
