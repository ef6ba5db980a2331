/**
 * The background worker's per-club runner and its journal.
 *
 * A handler runs in a transaction of its own: it either changes the tables or, when it
 * raises, leaves them as they were. Each of the runner's own statements may fail too, and the
 * whole run may be cut off at any of them. An error is known to the journal by its text, which
 * may be empty.
 */
module Worker {
  import opened Options

  datatype JobStatus = Running | Done | Error

  datatype Job<Trail> = Job(
    kind: string, clubId: int, status: JobStatus, trail: Option<Trail>, lastError: Option<string>, attempts: nat)

  /** What happens at one of the runner's statements: nothing, an exception with its text, or a
      cancellation of the run, which the loop does not catch. */
  datatype Fault = Fine | Fails(message: string) | CutOff

  datatype HandlerResult<DB, Trail> = Commits(db: DB, trail: Option<Trail>) | Raises(message: string) | Interrupted

  type Handler<!DB, !Trail> = (DB, int) -> HandlerResult<DB, Trail>

  /** The faults of a club's turn: at opening its row, at completing it, at recording an error. */
  datatype Faults = Faults(start: Fault, finish: Fault, errorFinish: Fault)

  datatype Totals = Totals(clubs: nat, failed: nat)

  datatype Verdict = Counted | Failed | Escaped

  datatype State<DB, Trail> = State(db: DB, jobs: seq<Job<Trail>>)

  const MAX_ERROR := 500

  function Shortened(message: string): string {
    if |message| <= MAX_ERROR then message else message[..MAX_ERROR]
  }

  /** A row as `journal_finish` closes it: it is the truth value of the text that tells an error
      from a success, so an error without a text closes the row as done. */
  function Closed<Trail>(job: Job<Trail>, error: Option<string>, trail: Option<Trail>): Job<Trail> {
    var failed := error.Some? && error.value != "";
    job.(status := if failed then Error else Done, trail := trail, lastError := error,
         attempts := job.attempts + if failed then 1 else 0)
  }

  /** The exception that the loop body catches in a club's turn, if any. */
  function CaughtError<DB, Trail>(db: DB, club: int, handler: Handler<DB, Trail>, f: Faults): Option<string> {
    match f.start
    case Fails(m) => Some(m)
    case CutOff => None
    case Fine =>
      match handler(db, club)
      case Raises(m) => Some(m)
      case Interrupted => None
      case Commits(_, _) => if f.finish.Fails? then Some(f.finish.message) else None
  }

  /** How one club's turn ends: counted as done, counted as failed, or with an exception that
      leaves the loop. */
  function ClubVerdict<DB, Trail>(db: DB, club: int, handler: Handler<DB, Trail>, f: Faults): Verdict {
    if CaughtError(db, club, handler, f).Some? then (if f.start.Fine? && !f.errorFinish.Fine? then Escaped else Failed)
    else if CommitsAt(db, club, handler, f) && f.finish.Fine? then Counted
    else Escaped
  }

  predicate CommitsAt<DB, Trail>(db: DB, club: int, handler: Handler<DB, Trail>, f: Faults) {
    f.start.Fine? && handler(db, club).Commits?
  }

  function ClubDb<DB, Trail>(db: DB, club: int, handler: Handler<DB, Trail>, f: Faults): DB {
    if CommitsAt(db, club, handler, f) then handler(db, club).db else db
  }

  function Opened<Trail>(kind: string, club: int): Job<Trail> {
    Job(kind, club, Running, None, None, 0)
  }

  /** The club's journal row, if it was opened. */
  function ClubJob<DB, Trail>(kind: string, db: DB, club: int, handler: Handler<DB, Trail>,
                              f: Faults): seq<Job<Trail>> {
    if !f.start.Fine? then []
    else match ClubVerdict(db, club, handler, f)
      case Counted => [Closed(Opened(kind, club), None, handler(db, club).trail)]
      case Failed => [Closed(Opened(kind, club), Some(Shortened(CaughtError(db, club, handler, f).value)), None)]
      case Escaped => [Opened(kind, club)]
  }

  class Runner<DB, Trail> {
    var db: DB
    var jobs: seq<Job<Trail>>

    constructor (db: DB)
      ensures this.db == db && jobs == []
    {
      this.db, jobs := db, [];
    }

    /** Opens a `running` row; its number is its place in the journal. */
    method JournalStart(kind: string, club: int) returns (id: nat)
      modifies this`jobs
      ensures id == |old(jobs)| && jobs == old(jobs) + [Opened(kind, club)]
    {
      id := |jobs|;
      jobs := jobs + [Job(kind, club, Running, None, None, 0)];
    }

    method JournalFinish(id: nat, error: Option<string>, trail: Option<Trail>)
      requires id < |jobs|
      modifies this`jobs
      ensures jobs == old(jobs)[id := Closed(old(jobs)[id], error, trail)]
    {
      var status, inc: nat := Done, 0;
      if error.Some? && error.value != "" {
        status, inc := Error, 1;
      }
      jobs := jobs[id := jobs[id].(status := status, trail := trail, lastError := error,
          attempts := jobs[id].attempts + inc)];
    }

    /** One club's turn, with the exceptions the loop body catches. */
    method RunClub(kind: string, club: int, handler: Handler<DB, Trail>, f: Faults) returns (verdict: Verdict)
      modifies this
      ensures verdict == ClubVerdict(old(db), club, handler, f)
      ensures db == ClubDb(old(db), club, handler, f)
      ensures jobs == old(jobs) + ClubJob(kind, old(db), club, handler, f)
    {
      if f.start.CutOff? {
        return Escaped;
      }
      if f.start.Fails? {
        return Failed;
      }
      var job := JournalStart(kind, club);
      var text;
      match handler(db, club) {
        case Interrupted => return Escaped;
        case Raises(message) => text := message;
        case Commits(after, trail) =>
          db := after;
          match f.finish {
            case Fine =>
              JournalFinish(job, None, trail);
              return Counted;
            case CutOff => return Escaped;
            case Fails(message) => text := message;
          }
      }
      if !f.errorFinish.Fine? {
        return Escaped;
      }
      JournalFinish(job, Some(Shortened(text)), None);
      return Failed;
    }

    /** None when an exception left the loop. */
    method RunPerClub(kind: string, clubs: seq<int>, handler: Handler<DB, Trail>, faults: seq<Faults>)
      returns (totals: Option<Totals>)
      requires |faults| == |clubs|
      modifies this
      ensures (State(db, jobs), totals)
          == PerClub(kind, State(old(db), old(jobs)), clubs, handler, faults, Totals(0, 0))
    {
      var done, failed := 0, 0;
      var i := 0;
      while i < |clubs|
        invariant 0 <= i <= |clubs|
        invariant PerClub(kind, State(old(db), old(jobs)), clubs, handler, faults, Totals(0, 0))
               == PerClub(kind, State(db, jobs), clubs[i..], handler, faults[i..], Totals(done, failed))
      {
        assert clubs[i..][0] == clubs[i] && clubs[i..][1..] == clubs[i + 1..];
        assert faults[i..][0] == faults[i] && faults[i..][1..] == faults[i + 1..];
        var verdict := RunClub(kind, clubs[i], handler, faults[i]);
        match verdict {
          case Counted => done := done + 1;
          case Failed => failed := failed + 1;
          case Escaped => return None;
        }
        i := i + 1;
      }
      return Some(Totals(done, failed));
    }
  }

  /** The loop as a function of the state it starts from. */
  function PerClub<DB, Trail>(kind: string, s: State<DB, Trail>, clubs: seq<int>, handler: Handler<DB, Trail>,
                              faults: seq<Faults>, totals: Totals)
    : (State<DB, Trail>, Option<Totals>)
    requires |faults| == |clubs|
    decreases |clubs|
  {
    if clubs == [] then (s, Some(totals))
    else
      var s' := State(ClubDb(s.db, clubs[0], handler, faults[0]),
          s.jobs + ClubJob(kind, s.db, clubs[0], handler, faults[0]));
      match ClubVerdict(s.db, clubs[0], handler, faults[0])
      case Counted => PerClub(kind, s', clubs[1..], handler, faults[1..], totals.(clubs := totals.clubs + 1))
      case Failed => PerClub(kind, s', clubs[1..], handler, faults[1..], totals.(failed := totals.failed + 1))
      case Escaped => (s', None)
  }

  /** A row closed after an error: an error with one failed attempt and the first 500 characters of
      its text, or done when it has none. */
  function RowOfError<Trail>(kind: string, club: int, text: string): Job<Trail> {
    if text == "" then Job(kind, club, Done, None, Some(""), 0)
    else Job(kind, club, Error, None, Some(if |text| > 500 then text[..500] else text), 1)
  }

  /**
   * One turn in full: what it counts as, what becomes of the tables, and the row it leaves, for
   * every result of the handler and every fault of the runner's own statements. The tables change
   * exactly when the handler's transaction commits, whatever happens to the row.
   */
  lemma OneTurn<DB, Trail>(kind: string, db: DB, club: int, handler: Handler<DB, Trail>, f: Faults)
    ensures var turn := (ClubVerdict(db, club, handler, f), ClubDb(db, club, handler, f),
                         ClubJob(kind, db, club, handler, f));
            var open := Job(kind, club, Running, None, None, 0);
            match f.start
            case CutOff => turn == (Escaped, db, [])
            case Fails(_) => turn == (Failed, db, [])
            case Fine =>
              match handler(db, club)
              case Interrupted => turn == (Escaped, db, [open])
              case Raises(m) =>
                turn == (if f.errorFinish == Fine then (Failed, db, [RowOfError(kind, club, m)])
                         else (Escaped, db, [open]))
              case Commits(after, trail) =>
                match f.finish
                case Fine => turn == (Counted, after, [Job(kind, club, Done, trail, None, 0)])
                case CutOff => turn == (Escaped, after, [open])
                case Fails(m) =>
                  turn == (if f.errorFinish == Fine then (Failed, after, [RowOfError(kind, club, m)])
                           else (Escaped, after, [open]))
  {
  }

  // ── Isolation ────────────────────────────────────────────────────────────

  /** The tables just before the turn of club i. */
  function DbBefore<DB, Trail>(db: DB, clubs: seq<int>, handler: Handler<DB, Trail>, faults: seq<Faults>, i: nat): DB
    requires |faults| == |clubs| && i <= |clubs|
  {
    if i == 0 then db
    else ClubDb(DbBefore(db, clubs, handler, faults, i - 1), clubs[i - 1], handler, faults[i - 1])
  }

  /** The clubs whose handler committed. */
  function Committed<DB, Trail>(db: DB, clubs: seq<int>, handler: Handler<DB, Trail>, faults: seq<Faults>): seq<int>
    requires |faults| == |clubs|
    decreases |clubs|
  {
    if clubs == [] then []
    else
      (if CommitsAt(db, clubs[0], handler, faults[0]) then [clubs[0]] else [])
      + Committed(ClubDb(db, clubs[0], handler, faults[0]), clubs[1..], handler, faults[1..])
  }

  const NO_FAULTS := Faults(Fine, Fine, Fine)

  function NoFaults(n: nat): seq<Faults> {
    seq(n, _ => NO_FAULTS)
  }

  /** Nothing cuts a club's turn off, and its error, if it has one after its row was opened, can
      be written to the journal. */
  predicate Contained<DB, Trail>(db: DB, club: int, handler: Handler<DB, Trail>, f: Faults) {
    && !f.start.CutOff?
    && (f.start.Fine? ==>
          match handler(db, club)
          case Interrupted => false
          case Raises(_) => f.errorFinish.Fine?
          case Commits(_, _) => f.finish.Fine? || (f.finish.Fails? && f.errorFinish.Fine?))
  }

  ghost predicate AllContained<DB, Trail>(db: DB, clubs: seq<int>, handler: Handler<DB, Trail>, faults: seq<Faults>)
    requires |faults| == |clubs|
  {
    forall i :: 0 <= i < |clubs| ==> Contained(DbBefore(db, clubs, handler, faults, i), clubs[i], handler, faults[i])
  }

  lemma {:induction false} DbBeforeTail<DB, Trail>(db: DB, clubs: seq<int>, handler: Handler<DB, Trail>,
                                                   faults: seq<Faults>, i: nat)
    requires |faults| == |clubs| && i < |clubs|
    ensures DbBefore(db, clubs, handler, faults, i + 1)
         == DbBefore(ClubDb(db, clubs[0], handler, faults[0]), clubs[1..], handler, faults[1..], i)
  {
    if i > 0 {
      DbBeforeTail(db, clubs, handler, faults, i - 1);
    }
  }

  lemma {:induction false} ContainedTail<DB, Trail>(db: DB, clubs: seq<int>, handler: Handler<DB, Trail>,
                                                    faults: seq<Faults>)
    requires |faults| == |clubs| > 0
    ensures AllContained(db, clubs, handler, faults) <==>
            Contained(db, clubs[0], handler, faults[0])
            && AllContained(ClubDb(db, clubs[0], handler, faults[0]), clubs[1..], handler, faults[1..])
  {
    var db' := ClubDb(db, clubs[0], handler, faults[0]);
    assert DbBefore(db, clubs, handler, faults, 0) == db;
    forall i | 0 <= i < |clubs| - 1
      ensures DbBefore(db, clubs, handler, faults, i + 1) == DbBefore(db', clubs[1..], handler, faults[1..], i)
    {
      DbBeforeTail(db, clubs, handler, faults, i);
    }
    if AllContained(db, clubs, handler, faults) {
      forall i | 0 <= i < |clubs[1..]|
        ensures Contained(DbBefore(db', clubs[1..], handler, faults[1..], i), clubs[1..][i], handler, faults[1..][i])
      {
        assert Contained(DbBefore(db, clubs, handler, faults, i + 1), clubs[i + 1], handler, faults[i + 1]);
      }
    }
    if Contained(db, clubs[0], handler, faults[0]) && AllContained(db', clubs[1..], handler, faults[1..]) {
      forall i | 0 <= i < |clubs|
        ensures Contained(DbBefore(db, clubs, handler, faults, i), clubs[i], handler, faults[i])
      {
        if i > 0 {
          assert Contained(DbBefore(db', clubs[1..], handler, faults[1..], i - 1), clubs[1..][i - 1], handler,
              faults[1..][i - 1]);
        }
      }
    }
  }

  /**
   * One club's failure stops no other club, exactly as long as no turn is cut off and each error
   * can be written to the journal.
   */
  lemma {:induction false} RunsToEndIff<DB, Trail>(kind: string, s: State<DB, Trail>, clubs: seq<int>,
                                                   handler: Handler<DB, Trail>, faults: seq<Faults>, totals: Totals)
    requires |faults| == |clubs|
    ensures PerClub(kind, s, clubs, handler, faults, totals).1.Some? <==> AllContained(s.db, clubs, handler, faults)
    decreases |clubs|
  {
    if clubs != [] {
      var s' := State(ClubDb(s.db, clubs[0], handler, faults[0]),
          s.jobs + ClubJob(kind, s.db, clubs[0], handler, faults[0]));
      ContainedTail(s.db, clubs, handler, faults);
      RunsToEndIff(kind, s', clubs[1..], handler, faults[1..], totals.(clubs := totals.clubs + 1));
      RunsToEndIff(kind, s', clubs[1..], handler, faults[1..], totals.(failed := totals.failed + 1));
    }
  }

  /**
   * Partial-failure isolation: a run that reaches its end leaves the tables exactly as running
   * only the clubs whose handlers committed, without a fault, and with no other club at all.
   */
  lemma {:induction false} FailuresAreIsolated<DB, Trail>(kind: string, s: State<DB, Trail>, clubs: seq<int>,
                                                          handler: Handler<DB, Trail>, faults: seq<Faults>,
                                                          totals: Totals, jobs: seq<Job<Trail>>, totals': Totals)
    requires |faults| == |clubs| && PerClub(kind, s, clubs, handler, faults, totals).1.Some?
    ensures var only := Committed(s.db, clubs, handler, faults);
            var alone := PerClub(kind, State(s.db, jobs), only, handler, NoFaults(|only|), totals');
            && alone.0.db == PerClub(kind, s, clubs, handler, faults, totals).0.db
            && alone.1 == Some(totals'.(clubs := totals'.clubs + |only|))
    decreases |clubs|
  {
    hide ClubJob, PerClub;
    if clubs == [] {
      NoClubs(kind, s, handler, totals);
      NoClubs(kind, State(s.db, jobs), handler, totals');
      assert faults == [] && NoFaults(0) == [];
    } else {
      var db' := ClubDb(s.db, clubs[0], handler, faults[0]);
      var s' := State(db', s.jobs + ClubJob(kind, s.db, clubs[0], handler, faults[0]));
      var next := NextTotals(totals, ClubVerdict(s.db, clubs[0], handler, faults[0]));
      var rest := Committed(db', clubs[1..], handler, faults[1..]);
      FirstTurn(kind, s, clubs, handler, faults, totals);
      if CommitsAt(s.db, clubs[0], handler, faults[0]) {
        var only := [clubs[0]] + rest;
        assert only[1..] == rest && NoFaults(|only|)[1..] == NoFaults(|rest|);
        FirstTurn(kind, State(s.db, jobs), only, handler, NoFaults(|only|), totals');
        FailuresAreIsolated(kind, s', clubs[1..], handler, faults[1..], next,
                            jobs + ClubJob(kind, s.db, clubs[0], handler, NO_FAULTS),
                            totals'.(clubs := totals'.clubs + 1));
      } else {
        assert [] + rest == rest;
        FailuresAreIsolated(kind, s', clubs[1..], handler, faults[1..], next, jobs, totals');
      }
    }
  }

  function NextTotals(totals: Totals, v: Verdict): Totals {
    if v.Counted? then totals.(clubs := totals.clubs + 1) else totals.(failed := totals.failed + 1)
  }

  lemma {:induction false} FirstTurn<DB, Trail>(kind: string, s: State<DB, Trail>, clubs: seq<int>,
                                                handler: Handler<DB, Trail>, faults: seq<Faults>, totals: Totals)
    requires |faults| == |clubs| > 0
    ensures var v := ClubVerdict(s.db, clubs[0], handler, faults[0]);
            var s' := State(ClubDb(s.db, clubs[0], handler, faults[0]),
                s.jobs + ClubJob(kind, s.db, clubs[0], handler, faults[0]));
            PerClub(kind, s, clubs, handler, faults, totals)
            == if v.Escaped? then (s', None)
                else PerClub(kind, s', clubs[1..], handler, faults[1..], NextTotals(totals, v))
  {
  }

  lemma {:induction false} NoClubs<DB, Trail>(kind: string, s: State<DB, Trail>, handler: Handler<DB, Trail>,
                                              totals: Totals)
    ensures PerClub(kind, s, [], handler, [], totals) == (s, Some(totals))
  {
  }

  // ── Journal ──────────────────────────────────────────────────────────────

  /** The row of club i: closed, and `done` exactly when the club's writes were committed or its
      handler's error had no text. */
  ghost predicate RowFits<DB, Trail>(db: DB, clubs: seq<int>, handler: Handler<DB, Trail>, i: nat, job: Job<Trail>)
    requires i < |clubs|
  {
    var result := handler(DbBefore(db, clubs, handler, NoFaults(|clubs|), i), clubs[i]);
    && job.clubId == clubs[i] && job.status != Running
    && (job.status == Done <==> result.Commits? || result == Raises(""))
    && job.attempts == (if job.status == Error then 1 else 0)
    && (job.lastError.None? <==> result.Commits?)
  }

  /** No handler of the run is cut off. */
  ghost predicate NoneInterrupted<DB, Trail>(db: DB, clubs: seq<int>, handler: Handler<DB, Trail>) {
    AllContained(db, clubs, handler, NoFaults(|clubs|))
  }

  /** With a journal that never fails there is one row per club, in order and closed, `done`
      exactly for the clubs whose writes were committed and those whose error had no text; the
      two counters add up to all clubs. */
  lemma {:induction false} JournalIsComplete<DB, Trail>(kind: string, s: State<DB, Trail>, clubs: seq<int>,
                                                        handler: Handler<DB, Trail>, totals: Totals)
    requires NoneInterrupted(s.db, clubs, handler)
    ensures var (after, result) := PerClub(kind, s, clubs, handler, NoFaults(|clubs|), totals);
            && |after.jobs| == |s.jobs| + |clubs| && s.jobs <= after.jobs
            && result.Some? && result.value.clubs + result.value.failed == totals.clubs + totals.failed + |clubs|
            && forall j :: |s.jobs| <= j < |after.jobs| ==> RowFits(s.db, clubs, handler, j - |s.jobs|, after.jobs[j])
    decreases |clubs|
  {
    if clubs != [] {
      var f := NoFaults(|clubs|);
      var db' := ClubDb(s.db, clubs[0], handler, NO_FAULTS);
      var s' := State(db', s.jobs + ClubJob(kind, s.db, clubs[0], handler, NO_FAULTS));
      var next := if ClubVerdict(s.db, clubs[0], handler, NO_FAULTS).Counted? then totals.(clubs := totals.clubs + 1)
                  else totals.(failed := totals.failed + 1);
      assert f[0] == NO_FAULTS && f[1..] == NoFaults(|clubs[1..]|);
      ContainedTail(s.db, clubs, handler, f);
      JournalIsComplete(kind, s', clubs[1..], handler, next);
      var (after, result) := PerClub(kind, s, clubs, handler, f, totals);
      assert (after, result) == PerClub(kind, s', clubs[1..], handler, f[1..], next);
      forall j | |s.jobs| <= j < |after.jobs|
        ensures RowFits(s.db, clubs, handler, j - |s.jobs|, after.jobs[j])
      {
        if j == |s.jobs| {
          assert after.jobs[j] == s'.jobs[j];
          assert DbBefore(s.db, clubs, handler, f, 0) == s.db;
        } else {
          DbBeforeTail(s.db, clubs, handler, f, j - |s.jobs| - 1);
          assert RowFits(db', clubs[1..], handler, j - |s'.jobs|, after.jobs[j]);
        }
      }
    }
  }

  /**
   * What the journal can be trusted for, whatever fails: a club's row reads `done` exactly for
   * committed writes if and only if, after a commit, completing the row succeeded or failed with
   * an empty text that could be recorded, and otherwise the handler's error was not recorded with
   * an empty text.
   */
  lemma JournalTellsTruthIff<DB, Trail>(kind: string, db: DB, club: int, handler: Handler<DB, Trail>, f: Faults)
    requires f.start.Fine?
    ensures (ClubJob(kind, db, club, handler, f)[0].status == Done <==> CommitsAt(db, club, handler, f))
            <==> match handler(db, club)
                 case Commits(_, _) => f.finish.Fine? || (f.finish == Fails("") && f.errorFinish.Fine?)
                 case Raises(m) => !(m == "" && f.errorFinish.Fine?)
                 case Interrupted => true
  {
  }

  ghost predicate IsTruthful<DB, Trail>(db: DB, clubs: seq<int>, handler: Handler<DB, Trail>, i: nat, job: Job<Trail>)
    requires i < |clubs|
  {
    job.status == Done <==> handler(DbBefore(db, clubs, handler, NoFaults(|clubs|), i), clubs[i]).Commits?
  }

  ghost predicate HasTextlessError<DB, Trail>(db: DB, clubs: seq<int>, handler: Handler<DB, Trail>, i: nat)
    requires i < |clubs|
  {
    handler(DbBefore(db, clubs, handler, NoFaults(|clubs|), i), clubs[i]) == Raises("")
  }

  /** Without any fault the journal of a run tells the truth if and only if no handler raises an
      exception without a text. */
  lemma JournalIsTruthfulIff<DB, Trail>(kind: string, s: State<DB, Trail>, clubs: seq<int>,
                                        handler: Handler<DB, Trail>, totals: Totals, after: State<DB, Trail>)
    requires NoneInterrupted(s.db, clubs, handler)
    requires after == PerClub(kind, s, clubs, handler, NoFaults(|clubs|), totals).0
    ensures |after.jobs| == |s.jobs| + |clubs|
    ensures (forall j :: |s.jobs| <= j < |after.jobs| ==> IsTruthful(s.db, clubs, handler, j - |s.jobs|, after.jobs[j]))
            <==> forall i :: 0 <= i < |clubs| ==> !HasTextlessError(s.db, clubs, handler, i)
  {
    JournalIsComplete(kind, s, clubs, handler, totals);
    forall j | |s.jobs| <= j < |after.jobs|
      ensures IsTruthful(s.db, clubs, handler, j - |s.jobs|, after.jobs[j])
              <==> !HasTextlessError(s.db, clubs, handler, j - |s.jobs|)
    {
      assert RowFits(s.db, clubs, handler, j - |s.jobs|, after.jobs[j]);
    }
    if forall j :: |s.jobs| <= j < |after.jobs| ==> IsTruthful(s.db, clubs, handler, j - |s.jobs|, after.jobs[j]) {
      forall i | 0 <= i < |clubs| ensures !HasTextlessError(s.db, clubs, handler, i) {
        var j := |s.jobs| + i;
        assert IsTruthful(s.db, clubs, handler, j - |s.jobs|, after.jobs[j]);
      }
    }
  }

  function TextlessRaiser<DB, Trail>(): Handler<DB, Trail> {
    (_: DB, _: int) => Raises("")
  }

  /** So a club whose handler raises without a text is counted as failed, changes nothing, and is
      journalled as done with no failed attempt. */
  lemma TextlessErrorReadsDone<DB, Trail>(kind: string, db: DB, club: int)
    ensures PerClub(kind, State(db, []), [club], TextlessRaiser<DB, Trail>(), [NO_FAULTS], Totals(0, 0))
         == (State(db, [Job(kind, club, Done, None, Some(""), 0)]), Some(Totals(0, 1)))
  {
    var handler := TextlessRaiser<DB, Trail>();
    var row := ClubJob(kind, db, club, handler, NO_FAULTS);
    assert ClubVerdict(db, club, handler, NO_FAULTS) == Failed && ClubDb(db, club, handler, NO_FAULTS) == db;
    assert [] + row == [Job(kind, club, Done, None, Some(""), 0)];
    assert [club][1..] == [] && [NO_FAULTS][1..] == [];
  }
}
