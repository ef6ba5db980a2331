/**
 * Automatic cancellation of unpaid bookings: the worker's cron job over the bookings table, run
 * club by club, with the identifiers it cancelled left in the journal, while staff decisions
 * are read and written in between. Times are instants in microseconds.
 */
module Expiry {
  import opened Options
  import opened Bookings
  import opened BookingDesk
  import Worker

  const KIND := "expire_unpaid_bookings"

  type Trail = seq<nat>

  /** The system's own cancellations: a clerk's carries the clerk, whatever its reason says. */
  predicate AutoCancelled(b: Booking) {
    b.status == Cancelled && b.cancelReason == Some("PAYMENT_WINDOW_EXPIRED") && b.cancelledBy.None?
  }

  function ExpiredIds(rows: Rows, club: int, now: int): seq<nat> {
    if rows == [] then []
    else
      ExpiredIds(rows[..|rows| - 1], club, now) + if Due(rows[|rows| - 1], club, now) then [|rows| - 1] else []
  }

  /** The job's handler: each club's transaction has its own clock, and may raise or be cut off. */
  function ExpireHandler(clock: int -> int, trouble: int -> Worker.Fault): Worker.Handler<Rows, Trail> {
    (rows: Rows, club: int) =>
      match trouble(club)
      case Fails(message) => Worker.Raises(message)
      case CutOff => Worker.Interrupted
      case Fine =>
        var ids := ExpiredIds(rows, club, clock(club));
        Worker.Commits(Expired(rows, club, clock(club)), if ids == [] then None else Some(ids))
  }

  // ── Turns of the job and decisions of the staff, in any order ────────────

  datatype State = State(desk: Desk, jobs: seq<Worker.Job<Trail>>)

  /** One club's turn of a run, or any other move at the desk. */
  datatype Event =
    | Turn(club: int, clock: int -> int, trouble: int -> Worker.Fault, faults: Worker.Faults)
    | Moved(move: Move)

  predicate Fits(s: State, e: Event) {
    e.Moved? ==> !e.move.Lapse? && BookingDesk.Fits(s.desk, e.move)
  }

  function Next(s: State, e: Event): State
    requires Fits(s, e)
  {
    match e
    case Moved(m) => s.(desk := BookingDesk.Next(s.desk, m))
    case Turn(club, clock, trouble, f) =>
      var h := ExpireHandler(clock, trouble);
      State(s.desk.(rows := Worker.ClubDb(s.desk.rows, club, h, f)),
          s.jobs + Worker.ClubJob(KIND, s.desk.rows, club, h, f))
  }

  predicate IsHistory(history: seq<Event>)
    decreases |history|, 0
  {
    history == [] ||
    (var before := history[..|history| - 1];
     IsHistory(before) && Fits(Replay(before), history[|history| - 1]))
  }

  function Replay(history: seq<Event>): State
    requires IsHistory(history)
    decreases |history|, 1
  {
    if history == [] then State(BookingDesk.EMPTY, [])
    else Next(Replay(history[..|history| - 1]), history[|history| - 1])
  }

  // ── Counting ─────────────────────────────────────────────────────────────

  function Count(ids: seq<nat>, id: nat): nat {
    if ids == [] then 0 else Count(ids[..|ids| - 1], id) + if ids[|ids| - 1] == id then 1 else 0
  }

  /** A row of this job that was finished with a list of what it cancelled. */
  predicate IsFinishedRow(job: Worker.Job<Trail>) {
    job.kind == "expire_unpaid_bookings" && job.status == Worker.Done && job.trail.Some?
  }

  /** How often the finished rows of the journal name a booking. */
  function Listed(jobs: seq<Worker.Job<Trail>>, id: nat): nat {
    if jobs == [] then 0
    else
      var job := jobs[|jobs| - 1];
      Listed(jobs[..|jobs| - 1], id)
      + if IsFinishedRow(job) then Count(job.trail.value, id) else 0
  }

  /** The booking was cancelled by this turn, which committed. */
  predicate CancelledIn(rows: Rows, e: Event, id: nat)
    requires e.Turn?
  {
    && Worker.CommitsAt(rows, e.club, ExpireHandler(e.clock, e.trouble), e.faults)
    && id < |rows| && Due(rows[id], e.club, e.clock(e.club))
  }

  /** How often the job has cancelled the booking. */
  function Cancellations(history: seq<Event>, id: nat): nat
    requires IsHistory(history)
  {
    if history == [] then 0
    else
      var before, e := history[..|history| - 1], history[|history| - 1];
      Cancellations(before, id) + if e.Turn? && CancelledIn(Replay(before).desk.rows, e, id) then 1 else 0
  }

  /** How often it did so in a turn whose journal row was not completed after the commit. */
  function Lost(history: seq<Event>, id: nat): nat
    requires IsHistory(history)
  {
    if history == [] then 0
    else
      var before, e := history[..|history| - 1], history[|history| - 1];
      Lost(before, id)
      + if e.Turn? && CancelledIn(Replay(before).desk.rows, e, id) && !e.faults.finish.Fine? then 1 else 0
  }

  /** A clerk's decision about the status, past its check, is written over the job's
      cancellation. */
  predicate Overwrites(s: State, e: Event, id: nat) {
    && e.Moved? && e.move.Write? && e.move.t in s.desk.flying
    && id < |s.desk.rows| && AutoCancelled(s.desk.rows[id])
    && var d := s.desk.flying[e.move.t];
       d.ask.i == id && DecidesStatus(d.ask) && Land(s.desk.rows, d).Done?
  }

  predicate Overwritten(history: seq<Event>, id: nat)
    requires IsHistory(history)
  {
    history != [] &&
    (var before, e := history[..|history| - 1], history[|history| - 1];
     Overwritten(before, id) || Overwrites(Replay(before), e, id))
  }

  lemma {:induction false} IdsAreTheDueRows(rows: Rows, club: int, now: int, id: nat)
    ensures Count(ExpiredIds(rows, club, now), id) == if id < |rows| && Due(rows[id], club, now) then 1 else 0
  {
    if rows != [] {
      var last := |rows| - 1;
      IdsAreTheDueRows(rows[..last], club, now, id);
      var ids := ExpiredIds(rows[..last], club, now);
      assert (ids + [last])[..|ids|] == ids && ids + [] == ids;
    }
  }

  lemma ListedAppend(jobs: seq<Worker.Job<Trail>>, job: Worker.Job<Trail>, id: nat)
    ensures Listed(jobs + [job], id)
         == Listed(jobs, id) + if IsFinishedRow(job) then Count(job.trail.value, id) else 0
  {
    assert (jobs + [job])[..|jobs|] == jobs;
  }

  // ── The account of every booking ─────────────────────────────────────────

  function AutoCount(rows: Rows, id: nat): nat {
    if id < |rows| && AutoCancelled(rows[id]) then 1 else 0
  }

  /** A row still pending names no clerk who cancelled it. */
  ghost predicate PendingClean(rows: Rows) {
    forall i :: 0 <= i < |rows| ==> (rows[i].status == Pending ==> rows[i].cancelledBy.None?)
  }

  /** What the table says of a booking that the job has cancelled so many times. */
  ghost predicate TableTells(rows: Rows, cancellations: nat, overwritten: bool, id: nat) {
    && PendingClean(rows)
    && cancellations <= 1
    && (overwritten ==> cancellations == 1)
    && (cancellations == 1 ==> id < |rows| && rows[id].status != Pending)
    && AutoCount(rows, id) == if overwritten then 0 else cancellations
  }

  lemma MoveTells(s: State, e: Event, cancellations: nat, overwritten: bool, id: nat)
    requires e.Moved? && Fits(s, e) && TableTells(s.desk.rows, cancellations, overwritten, id)
    ensures TableTells(Next(s, e).desk.rows, cancellations, overwritten || Overwrites(s, e, id), id)
  {
    hide ClashesWithOther, RowOk;
  }

  lemma TurnTells(s: State, e: Event, cancellations: nat, overwritten: bool, id: nat)
    requires e.Turn? && TableTells(s.desk.rows, cancellations, overwritten, id)
    ensures var more := if CancelledIn(s.desk.rows, e, id) then 1 else 0;
            TableTells(Next(s, e).desk.rows, cancellations + more, overwritten, id)
  {
    RowsAfterTurn(s, e);
  }

  lemma RowsAfterTurn(s: State, e: Event)
    requires e.Turn?
    ensures Next(s, e).desk.flying == s.desk.flying
    ensures Next(s, e).desk.rows
         == if Worker.CommitsAt(s.desk.rows, e.club, ExpireHandler(e.clock, e.trouble), e.faults)
            then Expired(s.desk.rows, e.club, e.clock(e.club)) else s.desk.rows
  {
  }

  /** What a turn adds to the list: the ids it cancelled, if its journal row was completed. */
  lemma TurnIsListed(s: State, e: Event, id: nat)
    requires e.Turn?
    ensures Listed(Next(s, e).jobs, id)
         == Listed(s.jobs, id) + if CancelledIn(s.desk.rows, e, id) && e.faults.finish.Fine? then 1 else 0
  {
    hide Listed, ExpiredIds;
    var rows := s.desk.rows;
    var job := Worker.ClubJob(KIND, rows, e.club, ExpireHandler(e.clock, e.trouble), e.faults);
    IdsAreTheDueRows(rows, e.club, e.clock(e.club), id);
    if e.faults.start.Fine? {
      ListedAppend(s.jobs, job[0], id);
      EmptyNamesNone(id);
    } else {
      assert s.jobs + job == s.jobs;
    }
  }

  lemma EmptyNamesNone(id: nat)
    ensures Count([], id) == 0
  {
  }

  lemma {:induction false} HistoryTells(history: seq<Event>, id: nat)
    requires IsHistory(history)
    ensures TableTells(Replay(history).desk.rows, Cancellations(history, id), Overwritten(history, id), id)
    ensures Listed(Replay(history).jobs, id) + Lost(history, id) == Cancellations(history, id)
  {
    if history != [] {
      var before, e := history[..|history| - 1], history[|history| - 1];
      HistoryTells(before, id);
      if e.Turn? {
        TurnTells(Replay(before), e, Cancellations(before, id), Overwritten(before, id), id);
        TurnIsListed(Replay(before), e, id);
      } else {
        MoveTells(Replay(before), e, Cancellations(before, id), Overwritten(before, id), id);
      }
    }
  }

  /**
   * The audit of automatic cancellations, over every interleaving of the job's turns, whatever
   * fails in them, with overlapping staff decisions: the job cancels a booking at most once, and
   * each of its cancellations is named exactly once, by the finished journal rows or by a turn
   * whose row could not be completed after the commit; nothing else is ever named.
   */
  lemma EveryAutoCancellationNamedOnce(history: seq<Event>, id: nat)
    requires IsHistory(history)
    ensures Listed(Replay(history).jobs, id) + Lost(history, id) == Cancellations(history, id) <= 1
  {
    HistoryTells(history, id);
  }

  /**
   * The table agrees with that account, a booking reading as cancelled by the system exactly if
   * it is named, if and only if no decision past its check was written over the cancellation:
   * a clerk who read the booking as pending confirms or rejects it after the job cancelled it.
   */
  lemma {:induction false} TableAgreesIff(history: seq<Event>, id: nat)
    requires IsHistory(history)
    ensures AutoCount(Replay(history).desk.rows, id) == Listed(Replay(history).jobs, id) + Lost(history, id)
            <==> !Overwritten(history, id)
  {
    HistoryTells(history, id);
  }

  /** The finished rows alone tell which bookings read as cancelled by the system exactly when a
      cancellation was overwritten if and only if its row was lost; so in particular when neither
      happens. */
  lemma {:induction false} JournalAuditsIff(history: seq<Event>, id: nat)
    requires IsHistory(history)
    ensures Listed(Replay(history).jobs, id) == AutoCount(Replay(history).desk.rows, id)
            <==> (Lost(history, id) > 0 <==> Overwritten(history, id))
  {
    HistoryTells(history, id);
  }

  /** Nothing is lost when completing the rows never fails. */
  lemma {:induction false} NothingLost(history: seq<Event>, id: nat)
    requires IsHistory(history)
    requires forall k :: 0 <= k < |history| && history[k].Turn? ==> history[k].faults.finish.Fine?
    ensures Lost(history, id) == 0
  {
    if history != [] { NothingLost(history[..|history| - 1], id); }
  }

  // ── The run that breaks the account ──────────────────────────────────────

  lemma Follow(history: seq<Event>, e: Event, s': State)
    requires IsHistory(history) && Fits(Replay(history), e) && s' == Next(Replay(history), e)
    ensures IsHistory(history + [e]) && Replay(history + [e]) == s'
  {
    assert (history + [e])[..|history|] == history;
  }

  function AllFine(): int -> Worker.Fault {
    _ => Worker.Fine
  }

  function At(now: int): int -> int {
    _ => now
  }

  /** A clerk reads a booking as pending, the job cancels it and lists it without any fault, and
      the clerk's confirmation or rejection is written: the journal names a booking that is
      confirmed, or cancelled by the clerk. */
  lemma StaleDecisionBreaksAccount(b: Booking, now: int, ask: Ask)
    requires IsNew(b) && RowOk(b) && Due(b, b.clubId, now) && (ask.Confirm? || ask.Reject?) && ask.i == 0
    ensures var history := StaleHistory(b, now, ask);
            && IsHistory(history)
            && Listed(Replay(history).jobs, 0) == 1 && Lost(history, 0) == 0
            && |Replay(history).desk.rows| == 1 && !AutoCancelled(Replay(history).desk.rows[0])
            && Replay(history).desk.rows[0].status == (if ask.Confirm? then Confirmed else Cancelled)
  {
    hide IsNew, Listed, Lost, Replay, IsHistory, Next, Fits;
    var made := b.(version := 1);
    var d := Decision(ask, made);
    var turn := CleanTurnOf(b, now);
    StaleRead(b, ask);
    var h2 := [Moved(Create(b))] + [Moved(Check(0, b.clubId, ask))];
    var s2 := State(Desk([made], map[0 := d]), []);
    CleanTurn(s2, turn, made);
    Follow(h2, turn, Next(s2, turn));
    LateWrite(Next(s2, turn), made, d);
    Follow(h2 + [turn], Moved(Write(0)), Next(Next(s2, turn), Moved(Write(0))));
    NothingLost(StaleHistory(b, now, ask), 0);
  }

  function CleanTurnOf(b: Booking, now: int): Event {
    Turn(b.clubId, At(now), AllFine(), Worker.NO_FAULTS)
  }

  function StaleHistory(b: Booking, now: int, ask: Ask): seq<Event> {
    [Moved(Create(b))] + [Moved(Check(0, b.clubId, ask))] + [CleanTurnOf(b, now)] + [Moved(Write(0))]
  }

  /** The booking is made, and read by a clerk as pending. */
  lemma StaleRead(b: Booking, ask: Ask)
    requires IsNew(b) && RowOk(b) && b.status == Pending && (ask.Confirm? || ask.Reject?) && ask.i == 0
    ensures var history, made := [Moved(Create(b))] + [Moved(Check(0, b.clubId, ask))], b.(version := 1);
            IsHistory(history) && Replay(history) == State(Desk([made], map[0 := Decision(ask, made)]), [])
  {
    var made := b.(version := 1);
    assert IsHistory([]) && [] + [Moved(Create(b))] == [Moved(Create(b))];
    Follow([], Moved(Create(b)), State(Desk([made], map[]), []));
    Follow([Moved(Create(b))], Moved(Check(0, b.clubId, ask)), State(Desk([made], map[0 := Decision(ask, made)]), []));
  }

  /** A turn without faults on a table of one overdue booking. */
  lemma CleanTurn(s: State, turn: Event, made: Booking)
    requires s.desk.rows == [made] && s.jobs == []
    requires turn.Turn? && turn.trouble == AllFine() && turn.faults == Worker.NO_FAULTS
    requires Due(made, turn.club, turn.clock(turn.club))
    ensures Fits(s, turn) && Next(s, turn).desk == Desk([Lapsed(made)], s.desk.flying)
    ensures Listed(Next(s, turn).jobs, 0) == 1
  {
    hide Listed, ExpiredIds;
    RowsAfterTurn(s, turn);
    TurnIsListed(s, turn, 0);
    assert CancelledIn(s.desk.rows, turn, 0);
    NothingListed(0);
    assert Expired([made], turn.club, turn.clock(turn.club)) == [Lapsed(made)];
  }

  lemma NothingListed(id: nat)
    ensures Listed([], id) == 0
  {
  }

  lemma LateWrite(s: State, made: Booking, d: Decision)
    requires s.desk == Desk([Lapsed(made)], map[0 := d]) && d.ask.i == 0 && (d.ask.Confirm? || d.ask.Reject?)
    requires RowOk(made) && made.version == 1
    ensures Fits(s, Moved(Write(0)))
    ensures Next(s, Moved(Write(0))) == State(Desk([Written(Lapsed(made), d).(version := 3)], map[]), s.jobs)
  {
    assert Land(s.desk.rows, d) == Done([Written(Lapsed(made), d).(version := 3)]);
  }

  // ── A run of the job is its turns ────────────────────────────────────────

  function TurnOf(clubs: seq<int>, clock: int -> int, trouble: int -> Worker.Fault, faults: seq<Worker.Faults>,
                  k: nat): Event
    requires |clubs| == |faults| && k < |clubs|
  {
    Turn(clubs[k], clock, trouble, faults[k])
  }

  /** The runner's loop over the clubs leaves the tables and the journal of its turns, up to the
      one that leaves the loop. */
  lemma {:induction false} RunIsItsTurns(s: State, clubs: seq<int>, clock: int -> int, trouble: int -> Worker.Fault,
                                         faults: seq<Worker.Faults>, totals: Worker.Totals)
    requires |clubs| == |faults|
    ensures var h := ExpireHandler(clock, trouble);
            var run := Worker.PerClub(KIND, Worker.State(s.desk.rows, s.jobs), clubs, h, faults, totals);
            exists n :: 0 <= n <= |clubs| && (run.1.Some? ==> n == |clubs|)
                        && run.0 == Worker.State(AfterTurns(s, clubs, clock, trouble, faults, n).desk.rows,
                                                 AfterTurns(s, clubs, clock, trouble, faults, n).jobs)
    decreases |clubs|
  {
    var h := ExpireHandler(clock, trouble);
    if clubs == [] {
      assert AfterTurns(s, clubs, clock, trouble, faults, 0) == s;
    } else {
      var next := Next(s, TurnOf(clubs, clock, trouble, faults, 0));
      var verdict := Worker.ClubVerdict(s.desk.rows, clubs[0], h, faults[0]);
      if verdict.Escaped? {
        assert AfterTurns(next, clubs[1..], clock, trouble, faults[1..], 0) == next;
        assert AfterTurns(s, clubs, clock, trouble, faults, 1) == next;
      } else {
        var totals' := if verdict.Counted? then totals.(clubs := totals.clubs + 1)
            else totals.(failed := totals.failed + 1);
        RunIsItsTurns(next, clubs[1..], clock, trouble, faults[1..], totals');
        var run := Worker.PerClub(KIND, Worker.State(next.desk.rows, next.jobs), clubs[1..], h, faults[1..], totals');
        var n :| 0 <= n <= |clubs[1..]| && (run.1.Some? ==> n == |clubs[1..]|)
                 && run.0 == Worker.State(AfterTurns(next, clubs[1..], clock, trouble, faults[1..], n).desk.rows,
                                          AfterTurns(next, clubs[1..], clock, trouble, faults[1..], n).jobs);
        assert AfterTurns(s, clubs, clock, trouble, faults, n + 1)
            == AfterTurns(next, clubs[1..], clock, trouble, faults[1..], n);
      }
    }
  }

  function AfterTurns(s: State, clubs: seq<int>, clock: int -> int, trouble: int -> Worker.Fault,
                      faults: seq<Worker.Faults>, n: nat): State
    requires |clubs| == |faults| && n <= |clubs|
    decreases n
  {
    if n == 0 then s
    else AfterTurns(Next(s, TurnOf(clubs, clock, trouble, faults, 0)), clubs[1..], clock, trouble, faults[1..], n - 1)
  }

  // ── A second run finds nothing ───────────────────────────────────────────

  ghost predicate NoneDue(rows: Rows, club: int, now: int) {
    forall i :: 0 <= i < |rows| ==> !Due(rows[i], club, now)
  }

  lemma ExpiryLeavesNoneDue(rows: Rows, club: int, now: int, other: int, at: int)
    ensures NoneDue(Expired(rows, club, now), club, now)
    ensures NoneDue(rows, other, at) ==> NoneDue(Expired(rows, club, now), other, at)
  {
  }

  lemma {:induction false} RunKeepsNoneDue(s: Worker.State<Rows, Trail>, clubs: seq<int>, clock: int -> int,
                                           trouble: int -> Worker.Fault, faults: seq<Worker.Faults>,
                                           totals: Worker.Totals, club: int)
    requires |clubs| == |faults| && NoneDue(s.db, club, clock(club))
    ensures NoneDue(Worker.PerClub(KIND, s, clubs, ExpireHandler(clock, trouble), faults, totals).0.db, club,
        clock(club))
    decreases |clubs|
  {
    if clubs != [] {
      var h := ExpireHandler(clock, trouble);
      ExpiryLeavesNoneDue(s.db, clubs[0], clock(clubs[0]), club, clock(club));
      var s' := Worker.State(Worker.ClubDb(s.db, clubs[0], h, faults[0]),
          s.jobs + Worker.ClubJob(KIND, s.db, clubs[0], h, faults[0]));
      RunKeepsNoneDue(s', clubs[1..], clock, trouble, faults[1..], totals.(clubs := totals.clubs + 1), club);
      RunKeepsNoneDue(s', clubs[1..], clock, trouble, faults[1..], totals.(failed := totals.failed + 1), club);
    }
  }

  lemma {:induction false} CommittedClubsAreClear(s: Worker.State<Rows, Trail>, clubs: seq<int>, clock: int -> int,
                                                  trouble: int -> Worker.Fault, faults: seq<Worker.Faults>,
                                                  totals: Worker.Totals, club: int)
    requires |clubs| == |faults|
    requires Worker.PerClub(KIND, s, clubs, ExpireHandler(clock, trouble), faults, totals).1.Some?
    requires club in Worker.Committed(s.db, clubs, ExpireHandler(clock, trouble), faults)
    ensures NoneDue(Worker.PerClub(KIND, s, clubs, ExpireHandler(clock, trouble), faults, totals).0.db, club,
        clock(club))
    decreases |clubs|
  {
    var h := ExpireHandler(clock, trouble);
    var s' := Worker.State(Worker.ClubDb(s.db, clubs[0], h, faults[0]),
        s.jobs + Worker.ClubJob(KIND, s.db, clubs[0], h, faults[0]));
    var next := if Worker.ClubVerdict(s.db, clubs[0], h, faults[0]).Counted? then totals.(clubs := totals.clubs + 1)
                else totals.(failed := totals.failed + 1);
    if club == clubs[0] && Worker.CommitsAt(s.db, club, h, faults[0]) {
      ExpiryLeavesNoneDue(s.db, club, clock(club), club, clock(club));
      RunKeepsNoneDue(s', clubs[1..], clock, trouble, faults[1..], next, club);
    } else {
      CommittedClubsAreClear(s', clubs[1..], clock, trouble, faults[1..], next, club);
    }
  }

  lemma {:induction false} IdleRun(s: Worker.State<Rows, Trail>, clubs: seq<int>, clock: int -> int,
                                   trouble: int -> Worker.Fault, faults: seq<Worker.Faults>, totals: Worker.Totals)
    requires |clubs| == |faults|
    requires forall k :: 0 <= k < |clubs| ==> NoneDue(s.db, clubs[k], clock(clubs[k]))
    ensures Worker.PerClub(KIND, s, clubs, ExpireHandler(clock, trouble), faults, totals).0.db == s.db
    decreases |clubs|
  {
    if clubs != [] {
      var h := ExpireHandler(clock, trouble);
      assert NoneDue(s.db, clubs[0], clock(clubs[0]));
      assert Expired(s.db, clubs[0], clock(clubs[0])) == s.db;
      var s' := Worker.State(s.db, s.jobs + Worker.ClubJob(KIND, s.db, clubs[0], h, faults[0]));
      IdleRun(s', clubs[1..], clock, trouble, faults[1..], totals.(clubs := totals.clubs + 1));
      IdleRun(s', clubs[1..], clock, trouble, faults[1..], totals.(failed := totals.failed + 1));
    }
  }

  function Run(s: Worker.State<Rows, Trail>, clubs: seq<int>, clock: int -> int, trouble: int -> Worker.Fault,
               faults: seq<Worker.Faults>): Worker.State<Rows, Trail>
    requires |clubs| == |faults|
  {
    Worker.PerClub(KIND, s, clubs, ExpireHandler(clock, trouble), faults, Worker.Totals(0, 0)).0
  }

  /** Idempotence: a second run at the same instant over clubs whose turn committed in the first
      cancels nothing, even where the first could not complete its journal. */
  lemma SecondRunCancelsNothing(s: Worker.State<Rows, Trail>, clubs: seq<int>, clock: int -> int,
                                trouble: int -> Worker.Fault, faults: seq<Worker.Faults>,
                                again: seq<int>, troubleAgain: int -> Worker.Fault, faultsAgain: seq<Worker.Faults>)
    requires |clubs| == |faults| && |again| == |faultsAgain|
    requires Worker.PerClub(KIND, s, clubs, ExpireHandler(clock, trouble), faults, Worker.Totals(0, 0)).1.Some?
    requires forall k :: 0 <= k < |again| ==>
        again[k] in Worker.Committed(s.db, clubs, ExpireHandler(clock, trouble), faults)
    ensures var once := Run(s, clubs, clock, trouble, faults);
            Run(once, again, clock, troubleAgain, faultsAgain).db == once.db
  {
    var once := Run(s, clubs, clock, trouble, faults);
    forall k | 0 <= k < |again| ensures NoneDue(once.db, again[k], clock(again[k])) {
      CommittedClubsAreClear(s, clubs, clock, trouble, faults, Worker.Totals(0, 0), again[k]);
    }
    IdleRun(once, again, clock, troubleAgain, faultsAgain, Worker.Totals(0, 0));
  }
}
