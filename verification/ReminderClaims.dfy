/**
 * Concurrent claims of due booking reminders: any number of workers call the claiming function
 * in transactions of their own, which lock rows one by one, skip rows that others hold, and
 * commit or roll back in any interleaving with each other and with ordinary writers.
 */
module ReminderClaims {
  import opened Options

  const MINUTE := 60 * 1000000

  datatype Row = Row(confirmed: bool, startsAt: int, customer: Option<int>, sentAt: Option<int>)

  /** A running claim. `snapshot` is the table when its statement began; `seen` holds the version
      of each row it has judged, `skipped` the rows it found locked. */
  datatype Claim = Claim(now: int, lead: nat, snapshot: seq<Row>, seen: map<nat, Row>, skipped: set<nat>)

  /** A committed claim: the bookings it returned, and how many messages were sent for them. */
  datatype Call = Call(claim: Claim, returned: seq<nat>, sent: nat)

  /** `held` are the rows some other writer has locked. */
  datatype State = State(rows: seq<Row>, held: set<nat>, claims: map<nat, Claim>, calls: seq<Call>)

  predicate Due(r: Row, now: int, lead: nat) {
    && r.confirmed && r.sentAt.None? && r.customer.Some?
    && now < r.startsAt <= now + lead * MINUTE
  }

  predicate Takes(c: Claim, i: nat) {
    i in c.seen && i !in c.skipped && Due(c.seen[i], c.now, c.lead)
  }

  predicate Locked(s: State, i: nat) {
    i in s.held || exists t :: t in s.claims && Takes(s.claims[t], i)
  }

  /** What the claiming statement answers: the taken bookings whose customer can be written to. */
  ghost predicate IsAnswer(c: Claim, reachable: set<int>, returned: seq<nat>) {
    && (forall p, q :: 0 <= p < q < |returned| ==> returned[p] != returned[q])
    && forall i: nat :: i in returned <==> Takes(c, i) && c.seen[i].customer.value in reachable
  }

  datatype Step =
    | Begin(t: nat, now: int, lead: nat)
    | Take(t: nat, i: nat)
    | Skip(t: nat, i: nat)                 // SKIP LOCKED
    | Pass(t: nat, i: nat)                 // not due, in the snapshot or any more
    | Commit(t: nat, reachable: set<int>, returned: seq<nat>)
    | Rollback(t: nat)
    | SendNext(k: nat)                     // after the commit, one booking after the other
    | Insert(row: Row)
    | Hold(i: nat)
    | Write(i: nat, row: Row)              // an ordinary writer: it never touches the mark
    | Release(i: nat)

  predicate Visits(s: State, t: nat, i: nat) {
    t in s.claims && i < |s.claims[t].snapshot| <= |s.rows| && i !in s.claims[t].seen
  }

  /** Due as the statement's snapshot has it, which decides whether it asks for the lock. */
  predicate WasDue(c: Claim, i: nat)
    requires i < |c.snapshot|
  {
    Due(c.snapshot[i], c.now, c.lead)
  }

  ghost predicate Enabled(s: State, a: Step) {
    match a
    case Begin(t, _, _) => t !in s.claims
    case Take(t, i) =>
      && Visits(s, t, i) && WasDue(s.claims[t], i) && !Locked(s, i)
      && Due(s.rows[i], s.claims[t].now, s.claims[t].lead)
    case Skip(t, i) => Visits(s, t, i) && WasDue(s.claims[t], i) && Locked(s, i)
    case Pass(t, i) =>
      && Visits(s, t, i)
      && (!WasDue(s.claims[t], i) || (!Locked(s, i) && !Due(s.rows[i], s.claims[t].now, s.claims[t].lead)))
    case Commit(t, reachable, returned) =>
      && t in s.claims && IsAnswer(s.claims[t], reachable, returned)
      && forall i: nat :: i < |s.claims[t].snapshot| ==> i in s.claims[t].seen
    case Rollback(t) => t in s.claims
    case SendNext(k) => k < |s.calls| && s.calls[k].sent < |s.calls[k].returned|
    case Insert(row) => row.sentAt.None?
    case Hold(i) => i < |s.rows| && !Locked(s, i)
    case Write(i, row) => i < |s.rows| && i in s.held && row.sentAt == s.rows[i].sentAt
    case Release(i) => i in s.held
  }

  function See(c: Claim, i: nat, row: Row, locked: bool): Claim {
    c.(seen := c.seen[i := row], skipped := if locked then c.skipped + {i} else c.skipped)
  }

  ghost function Next(s: State, a: Step): State
    requires Enabled(s, a)
  {
    match a
    case Begin(t, now, lead) => s.(claims := s.claims[t := Claim(now, lead, s.rows, map[], {})])
    case Take(t, i) => s.(claims := s.claims[t := See(s.claims[t], i, s.rows[i], false)])
    case Skip(t, i) => s.(claims := s.claims[t := See(s.claims[t], i, s.rows[i], true)])
    case Pass(t, i) =>
      var c := s.claims[t];
      s.(claims := s.claims[t := See(c, i, if WasDue(c, i) then s.rows[i] else c.snapshot[i], false)])
    case Commit(t, reachable, returned) =>
      var c := s.claims[t];
      State(Marked(s.rows, c), s.held, s.claims - {t}, s.calls + [Call(c, returned, 0)])
    case Rollback(t) => s.(claims := s.claims - {t})
    case SendNext(k) => s.(calls := s.calls[k := s.calls[k].(sent := s.calls[k].sent + 1)])
    case Insert(row) => s.(rows := s.rows + [row])
    case Hold(i) => s.(held := s.held + {i})
    case Write(i, row) => s.(rows := s.rows[i := row], held := s.held - {i})
    case Release(i) => s.(held := s.held - {i})
  }

  /** The claim's UPDATE, visible to others from its commit on. */
  function Marked(rows: seq<Row>, c: Claim): seq<Row> {
    seq(|rows|, i requires 0 <= i < |rows| => if Takes(c, i) then rows[i].(sentAt := Some(c.now)) else rows[i])
  }

  ghost predicate IsRun(run: seq<State>) {
    && |run| > 0 && run[0] == State([], {}, map[], [])
    && forall k :: 0 <= k < |run| - 1 ==> Connected(run[k], run[k + 1])
  }

  ghost predicate Connected(s: State, s': State) {
    exists a :: Enabled(s, a) && s' == Next(s, a)
  }

  // ── Invariant ────────────────────────────────────────────────────────────

  /** A taken row is locked: it stays as it was seen, and nobody else takes or holds it. */
  ghost predicate ClaimsLock(s: State) {
    && (forall t: nat, i: nat {:trigger Takes(s.claims[t], i)} :: t in s.claims && Takes(s.claims[t], i) ==>
          i < |s.rows| && s.rows[i] == s.claims[t].seen[i] && i !in s.held)
    && forall t: nat, u: nat, i: nat ::
         t in s.claims && u in s.claims && Takes(s.claims[t], i) && Takes(s.claims[u], i) ==> t == u
  }

  /** The marks in the table are exactly the bookings of the committed claims, each of one. */
  ghost predicate MarksMatch(s: State) {
    && (forall k, i: nat {:trigger Takes(s.calls[k].claim, i)} :: 0 <= k < |s.calls| && Takes(s.calls[k].claim, i) ==>
          i < |s.rows| && s.rows[i].sentAt == Some(s.calls[k].claim.now))
    && (forall k, m, i: nat :: 0 <= k < m < |s.calls| && Takes(s.calls[k].claim, i) ==> !Takes(s.calls[m].claim, i))
    && forall i: nat :: i < |s.rows| && s.rows[i].sentAt.Some? ==>
         exists k :: 0 <= k < |s.calls| && Takes(s.calls[k].claim, i)
  }

  ghost predicate AnswersFit(s: State) {
    forall k :: 0 <= k < |s.calls| ==>
      && s.calls[k].sent <= |s.calls[k].returned|
      && exists reachable :: IsAnswer(s.calls[k].claim, reachable, s.calls[k].returned)
  }

  ghost predicate Inv(s: State) {
    ClaimsLock(s) && MarksMatch(s) && AnswersFit(s)
  }

  /** A claim's own progress changes neither the table nor the committed calls. */
  lemma TableKept(s: State, s': State)
    requires Inv(s) && s'.rows == s.rows && s'.calls == s.calls && ClaimsLock(s')
    ensures Inv(s')
  {
  }

  lemma LookKeepsInv(s: State, a: Step)
    requires Inv(s) && Enabled(s, a) && (a.Skip? || a.Pass?)
    ensures Inv(Next(s, a))
  {
    var s' := Next(s, a);
    forall i: nat ensures Takes(s'.claims[a.t], i) <==> Takes(s.claims[a.t], i) {}
    TableKept(s, s');
  }

  lemma TakeKeepsInv(s: State, t: nat, i: nat)
    requires Inv(s) && Enabled(s, Take(t, i))
    ensures Inv(Next(s, Take(t, i)))
  {
    var s' := Next(s, Take(t, i));
    forall j: nat | j != i ensures Takes(s'.claims[t], j) <==> Takes(s.claims[t], j) {}
    TableKept(s, s');
  }

  lemma EndsKeepInv(s: State, a: Step)
    requires Inv(s) && Enabled(s, a) && (a.Begin? || a.Rollback?)
    ensures Inv(Next(s, a))
  {
    TableKept(s, Next(s, a));
  }

  lemma CommitKeepsInv(s: State, t: nat, reachable: set<int>, returned: seq<nat>)
    requires Inv(s) && Enabled(s, Commit(t, reachable, returned))
    ensures Inv(Next(s, Commit(t, reachable, returned)))
  {
    hide IsAnswer;
    var c := s.claims[t];
    var s' := Next(s, Commit(t, reachable, returned));
    forall i: nat | i < |s'.rows| && s'.rows[i].sentAt.Some?
      ensures exists k :: 0 <= k < |s'.calls| && Takes(s'.calls[k].claim, i)
    {
      if Takes(c, i) {
        assert Takes(s'.calls[|s.calls|].claim, i);
      } else {
        var k :| 0 <= k < |s.calls| && Takes(s.calls[k].claim, i);
        assert Takes(s'.calls[k].claim, i);
      }
    }
    CallFits(s, Call(c, returned, 0), reachable);
  }

  lemma CallFits(s: State, call: Call, reachable: set<int>)
    requires AnswersFit(s) && IsAnswer(call.claim, reachable, call.returned) && call.sent == 0
    ensures AnswersFit(s.(calls := s.calls + [call]))
  {
    var calls := s.calls + [call];
    forall k | 0 <= k < |calls|
      ensures calls[k].sent <= |calls[k].returned|
      ensures exists r :: IsAnswer(calls[k].claim, r, calls[k].returned)
    {
      if k == |s.calls| {
        assert IsAnswer(calls[k].claim, reachable, calls[k].returned);
      } else {
        assert calls[k] == s.calls[k];
      }
    }
  }

  lemma SendKeepsInv(s: State, k: nat)
    requires Inv(s) && Enabled(s, SendNext(k))
    ensures Inv(Next(s, SendNext(k)))
  {
    var s' := Next(s, SendNext(k));
    forall m | 0 <= m < |s.calls|
      ensures s'.calls[m].claim == s.calls[m].claim && s'.calls[m].returned == s.calls[m].returned {}
    forall i: nat | i < |s'.rows| && s'.rows[i].sentAt.Some?
      ensures exists m :: 0 <= m < |s'.calls| && Takes(s'.calls[m].claim, i)
    {
      var m :| 0 <= m < |s.calls| && Takes(s.calls[m].claim, i);
      assert Takes(s'.calls[m].claim, i);
    }
  }

  lemma WriterKeepsInv(s: State, a: Step)
    requires Inv(s) && Enabled(s, a) && (a.Insert? || a.Hold? || a.Write? || a.Release?)
    ensures Inv(Next(s, a))
  {
    var s' := Next(s, a);
    assert s'.claims == s.claims && s'.calls == s.calls;
  }

  lemma StepKeepsInv(s: State, a: Step)
    requires Inv(s) && Enabled(s, a)
    ensures Inv(Next(s, a))
  {
    match a {
      case Commit(t, reachable, returned) => CommitKeepsInv(s, t, reachable, returned);
      case SendNext(k) => SendKeepsInv(s, k);
      case Insert(_) => WriterKeepsInv(s, a);
      case Hold(_) => WriterKeepsInv(s, a);
      case Write(_, _) => WriterKeepsInv(s, a);
      case Release(_) => WriterKeepsInv(s, a);
      case Take(t, i) => TakeKeepsInv(s, t, i);
      case Skip(_, _) => LookKeepsInv(s, a);
      case Pass(_, _) => LookKeepsInv(s, a);
      case _ => EndsKeepInv(s, a);
    }
  }

  lemma {:induction false} RunKeepsInv(run: seq<State>, k: nat)
    requires IsRun(run) && k < |run|
    ensures Inv(run[k])
  {
    if k > 0 {
      RunKeepsInv(run, k - 1);
      assert Connected(run[k - 1], run[k - 1 + 1]);
      var a :| Enabled(run[k - 1], a) && run[k] == Next(run[k - 1], a);
      StepKeepsInv(run[k - 1], a);
    }
  }

  // ── Main results ─────────────────────────────────────────────────────────

  /** In every reachable state a booking was returned by at most one committed call, and at most
      once by it. */
  lemma EachBookingReturnedOnce(run: seq<State>, n: nat, k: nat, p: nat, m: nat, q: nat)
    requires IsRun(run) && n < |run|
    requires k < |run[n].calls| && p < |run[n].calls[k].returned|
    requires m < |run[n].calls| && q < |run[n].calls[m].returned|
    requires run[n].calls[k].returned[p] == run[n].calls[m].returned[q]
    ensures k == m && p == q
  {
    RunKeepsInv(run, n);
    var s := run[n];
    var rk :| IsAnswer(s.calls[k].claim, rk, s.calls[k].returned);
    var rm :| IsAnswer(s.calls[m].claim, rm, s.calls[m].returned);
    var i := s.calls[k].returned[p];
    assert i in s.calls[k].returned && i in s.calls[m].returned;
    assert Takes(s.calls[k].claim, i) && Takes(s.calls[m].claim, i);
  }

  function Count(ids: seq<nat>, i: nat): nat {
    if ids == [] then 0 else Count(ids[..|ids| - 1], i) + if ids[|ids| - 1] == i then 1 else 0
  }

  /** The messages sent for a booking: each call sends for its returned bookings in order. */
  function Messages(calls: seq<Call>, i: nat): nat
    requires forall k :: 0 <= k < |calls| ==> calls[k].sent <= |calls[k].returned|
  {
    if calls == [] then 0
    else
      var last := calls[|calls| - 1];
      Messages(calls[..|calls| - 1], i) + Count(last.returned[..last.sent], i)
  }

  lemma {:induction false} CountDistinct(ids: seq<nat>, i: nat)
    requires forall p, q :: 0 <= p < q < |ids| ==> ids[p] != ids[q]
    ensures Count(ids, i) == if i in ids then 1 else 0
  {
    if ids != [] {
      var last := |ids| - 1;
      CountDistinct(ids[..last], i);
      assert ids == ids[..last] + [ids[last]];
    }
  }

  ghost predicate ReturnedOnce(calls: seq<Call>) {
    && (forall k :: 0 <= k < |calls| ==> calls[k].sent <= |calls[k].returned|)
    && (forall k, p, q :: 0 <= k < |calls| && 0 <= p < q < |calls[k].returned| ==>
        calls[k].returned[p] != calls[k].returned[q])
    && forall k, m, i :: 0 <= k < m < |calls| && i in calls[k].returned ==> i !in calls[m].returned
  }

  lemma {:induction false} CallsSendOnce(calls: seq<Call>, i: nat)
    requires ReturnedOnce(calls)
    ensures Messages(calls, i) <= 1
    ensures Messages(calls, i) == 1 ==> exists k :: 0 <= k < |calls| && i in calls[k].returned
  {
    if calls != [] {
      var last := |calls| - 1;
      CallsSendOnce(calls[..last], i);
      CountDistinct(calls[last].returned[..calls[last].sent], i);
      if k :| 0 <= k < last && i in calls[..last][k].returned {
        assert i in calls[k].returned && i !in calls[last].returned;
      }
    }
  }

  /** At most one message was sent for a booking, however many workers and whatever crashed. */
  lemma AtMostOneMessage(run: seq<State>, n: nat, i: nat)
    requires IsRun(run) && n < |run|
    ensures forall k :: 0 <= k < |run[n].calls| ==> run[n].calls[k].sent <= |run[n].calls[k].returned|
    ensures Messages(run[n].calls, i) <= 1
  {
    RunKeepsInv(run, n);
    var calls := run[n].calls;
    forall k, p, q | 0 <= k < |calls| && 0 <= p < q < |calls[k].returned|
      ensures calls[k].returned[p] != calls[k].returned[q]
    {
      var r :| IsAnswer(calls[k].claim, r, calls[k].returned);
    }
    forall k, m, j | 0 <= k < m < |calls| && j in calls[k].returned ensures j !in calls[m].returned {
      var rk :| IsAnswer(calls[k].claim, rk, calls[k].returned);
      var rm :| IsAnswer(calls[m].claim, rm, calls[m].returned);
      assert Takes(calls[k].claim, j) && !Takes(calls[m].claim, j);
    }
    CallsSendOnce(calls, i);
  }

  /** A booking carries the mark if and only if exactly one committed call took it, and the mark
      is that call's time: a rolled-back call leaves no trace. */
  lemma MarkedIffClaimedOnce(run: seq<State>, n: nat, i: nat)
    requires IsRun(run) && n < |run| && i < |run[n].rows|
    ensures run[n].rows[i].sentAt.Some? <==>
            exists k :: 0 <= k < |run[n].calls| && Takes(run[n].calls[k].claim, i)
    ensures forall k, m :: 0 <= k < m < |run[n].calls| && Takes(run[n].calls[k].claim, i) ==>
              !Takes(run[n].calls[m].claim, i)
    ensures forall k :: 0 <= k < |run[n].calls| && Takes(run[n].calls[k].claim, i) ==>
              run[n].rows[i].sentAt == Some(run[n].calls[k].claim.now)
  {
    RunKeepsInv(run, n);
  }

  /** In the columns: confirmed, not reminded of yet, with a customer, and starting within the lead
      of so many minutes. */
  predicate AsksForReminder(r: Row, now: int, lead: nat) {
    && r.confirmed && r.sentAt == None && r.customer != None
    && 0 < r.startsAt - now <= lead * 60_000_000
  }

  /** Every booking a call returns is confirmed, unclaimed and within the call's lead window, not
      only when it was taken but until the call commits. */
  lemma ReturnedBookingsAreDue(run: seq<State>, n: nat, t: nat, reachable: set<int>, returned: seq<nat>, i: nat)
    requires IsRun(run) && n < |run| && Enabled(run[n], Commit(t, reachable, returned)) && i in returned
    ensures i < |run[n].rows|
    ensures var r, c := run[n].rows[i], run[n].claims[t];
            && r.confirmed && r.sentAt.None? && r.customer.Some? && r.customer.value in reachable
            && c.now < r.startsAt <= c.now + c.lead * 60_000_000
  {
    RunKeepsInv(run, n);
    assert Takes(run[n].claims[t], i);
  }

  /** Where a call was committed. */
  lemma {:induction false} CommittedAt(run: seq<State>, n: nat, k: nat) returns (m: nat, t: nat, reachable: set<int>)
    requires IsRun(run) && n < |run| && k < |run[n].calls|
    ensures m < n && t in run[m].claims && run[m].claims[t] == run[n].calls[k].claim
    ensures Enabled(run[m], Commit(t, reachable, run[n].calls[k].returned))
  {
    hide IsAnswer, Marked, Locked, WasDue, Due;
    assert n > 0;
    assert Connected(run[n - 1], run[n - 1 + 1]);
    var a :| Enabled(run[n - 1], a) && run[n] == Next(run[n - 1], a);
    if a.Commit? && k == |run[n - 1].calls| {
      m, t, reachable := n - 1, a.t, a.reachable;
    } else {
      m, t, reachable := CommittedAt(run, n - 1, k);
    }
  }

  /** A booking that did not ask for the reminder when a call committed is not among those that
      the call returned. */
  lemma OnlyAskedForReturned(run: seq<State>, n: nat, k: nat, i: nat)
    requires IsRun(run) && n < |run| && k < |run[n].calls|
    requires forall m :: 0 <= m < n && i < |run[m].rows| ==>
               !AsksForReminder(run[m].rows[i], run[n].calls[k].claim.now, run[n].calls[k].claim.lead)
    ensures i !in run[n].calls[k].returned
  {
    var m, t, reachable := CommittedAt(run, n, k);
    if i in run[n].calls[k].returned {
      ReturnedBookingsAreDue(run, m, t, reachable, run[n].calls[k].returned, i);
    }
  }

  // ── A claim that runs alone ──────────────────────────────────────────────

  /** Steps one after the other, with nobody else's in between. */
  ghost predicate Leads(s: State, steps: seq<Step>, s': State)
    decreases |steps|
  {
    if steps == [] then s == s' else Enabled(s, steps[0]) && Leads(Next(s, steps[0]), steps[1..], s')
  }

  lemma {:induction false} LeadsOn(s: State, steps: seq<Step>, mid: State, a: Step, s': State)
    requires Leads(s, steps, mid) && Enabled(mid, a) && s' == Next(mid, a)
    ensures Leads(s, steps + [a], s')
    decreases |steps|
  {
    hide Enabled, Next;
    if steps == [] {
      assert [] + [a] == [a] && [a][1..] == [];
    } else {
      LeadsOn(Next(s, steps[0]), steps[1..], mid, a, s');
      assert (steps + [a])[1..] == steps[1..] + [a];
    }
  }

  /** The claim of worker t has judged the first n rows, as it finds them with nobody else moving. */
  ghost predicate JudgedAlone(s: State, t: nat, n: nat, c: Claim) {
    && c.snapshot == s.rows && n <= |s.rows| && (forall i: nat :: i in c.seen <==> i < n)
    && c.skipped <= c.seen.Keys
    && forall i: nat :: i < n ==> c.seen[i] == s.rows[i] && (i in c.skipped <==> MustSkip(s, t, c, i))
  }

  /** Due, and locked by somebody else. */
  ghost predicate MustSkip(s: State, t: nat, c: Claim, i: nat)
    requires i < |s.rows|
  {
    Due(s.rows[i], c.now, c.lead) && LockedByOther(s, t, i)
  }

  lemma SeenIsJudged(s: State, t: nat, n: nat, c: Claim, s': State)
    requires JudgedAlone(s, t, n, c) && n < |s.rows|
    requires s' == s.(claims := s'.claims) && t in s'.claims && s'.claims.Keys == s.claims.Keys + {t}
    requires forall u :: u in s.claims && u != t ==> s'.claims[u] == s.claims[u]
    requires s'.claims[t] == See(c, n, s.rows[n], MustSkip(s, t, c, n))
    ensures JudgedAlone(s', t, n + 1, s'.claims[t])
  {
    hide Due, LockedByOther;
    forall i: nat | i < n + 1 ensures LockedByOther(s', t, i) <==> LockedByOther(s, t, i) {
      SameLocks(s, s', t, i);
    }
  }

  /** Every row is judged in one way: taken, skipped or passed over. */
  lemma JudgesNext(s: State, t: nat, n: nat) returns (a: Step)
    requires Inv(s) && t in s.claims && JudgedAlone(s, t, n, s.claims[t]) && n < |s.rows|
    ensures Enabled(s, a)
    ensures var s', c := Next(s, a), s.claims[t];
            && s' == s.(claims := s'.claims) && s'.claims.Keys == s.claims.Keys
            && (forall u :: u in s.claims && u != t ==> s'.claims[u] == s.claims[u])
            && s'.claims[t].now == c.now && s'.claims[t].lead == c.lead && JudgedAlone(s', t, n + 1, s'.claims[t])
  {
    hide Due, Inv;
    var c := s.claims[t];
    assert !Takes(c, n) && n !in c.seen;
    assert Locked(s, n) <==> LockedByOther(s, t, n);
    a := if !WasDue(c, n) then Pass(t, n) else if Locked(s, n) then Skip(t, n) else Take(t, n);
    hide Locked, LockedByOther, JudgedAlone;
    var s' := Next(s, a);
    assert s'.claims == s.claims[t := See(c, n, s.rows[n], MustSkip(s, t, c, n))];
    SeenIsJudged(s, t, n, c, s');
  }

  lemma {:induction false} JudgesAll(s: State, t: nat, n: nat) returns (steps: seq<Step>, s': State)
    requires Inv(s) && t in s.claims && JudgedAlone(s, t, n, s.claims[t])
    ensures Leads(s, steps, s') && Inv(s') && s' == s.(claims := s'.claims) && s'.claims.Keys == s.claims.Keys
    ensures forall u :: u in s.claims && u != t ==> s'.claims[u] == s.claims[u]
    ensures s'.claims[t].now == s.claims[t].now && s'.claims[t].lead == s.claims[t].lead
    ensures JudgedAlone(s', t, |s.rows|, s'.claims[t])
    decreases |s.rows| - n
  {
    hide Inv, JudgedAlone, Enabled, Next;
    assert n <= |s.rows| by { JudgedSoFar(s, t, n); }
    if n == |s.rows| {
      steps, s' := [], s;
    } else {
      var a := JudgesNext(s, t, n);
      StepKeepsInv(s, a);
      var rest;
      rest, s' := JudgesAll(Next(s, a), t, n + 1);
      steps := [a] + rest;
      assert steps[1..] == rest;
    }
  }

  lemma JudgedSoFar(s: State, t: nat, n: nat)
    requires t in s.claims && JudgedAlone(s, t, n, s.claims[t])
    ensures n <= |s.rows|
  {
  }

  lemma {:induction false} AnswerExists(c: Claim, reachable: set<int>, n: nat) returns (returned: seq<nat>)
    requires forall i: nat :: i in c.seen && Due(c.seen[i], c.now, c.lead) ==> c.seen[i].customer.Some?
    ensures forall p, q :: 0 <= p < q < |returned| ==> returned[p] != returned[q]
    ensures forall i: nat :: i in returned <==> i < n && Takes(c, i) && c.seen[i].customer.value in reachable
  {
    if n == 0 {
      returned := [];
    } else {
      returned := AnswerExists(c, reachable, n - 1);
      if Takes(c, n - 1) && c.seen[n - 1].customer.value in reachable {
        returned := returned + [n - 1];
      }
    }
  }

  /**
   * What a call does when nobody else moves meanwhile, in full. It marks with its time exactly the
   * bookings that ask for the reminder and that nobody has locked, returns those of them whose
   * customer can be written to, each once, and touches nothing else.
   */
  lemma ClaimAlone(s: State, t: nat, now: int, lead: nat, reachable: set<int>)
    returns (steps: seq<Step>, s': State, returned: seq<nat>)
    requires Inv(s) && t !in s.claims
    ensures Leads(s, steps, s')
    ensures s'.held == s.held && s'.claims == s.claims && |s'.rows| == |s.rows|
    ensures forall i: nat :: i < |s.rows| ==>
              s'.rows[i] == if AsksForReminder(s.rows[i], now, lead) && !LockedByOther(s, t, i)
                            then s.rows[i].(sentAt := Some(now)) else s.rows[i]
    ensures |s'.calls| == |s.calls| + 1 && s.calls <= s'.calls
    ensures s'.calls[|s.calls|].returned == returned && s'.calls[|s.calls|].sent == 0
    ensures forall p, q :: 0 <= p < q < |returned| ==> returned[p] != returned[q]
    ensures forall i: nat :: i in returned <==>
              i < |s.rows| && AsksForReminder(s.rows[i], now, lead) && !LockedByOther(s, t, i)
              && s.rows[i].customer.value in reachable
  {
    hide Inv, Leads, Locked;
    var s1 := Next(s, Begin(t, now, lead));
    StepKeepsInv(s, Begin(t, now, lead));
    assert JudgedAlone(s1, t, 0, s1.claims[t]);
    var judging, s2 := JudgesAll(s1, t, 0);
    var c := s2.claims[t];
    forall i: nat | i < |s.rows| ensures LockedByOther(s2, t, i) <==> LockedByOther(s, t, i) {
      SameLocks(s, s2, t, i);
    }
    returned := AnswerExists(c, reachable, |s.rows|);
    var a := Commit(t, reachable, returned);
    assert IsAnswer(c, reachable, returned);
    s' := Next(s2, a);
    LeadsOn(s1, judging, s2, a, s');
    steps := [Begin(t, now, lead)] + (judging + [a]);
    assert steps[1..] == judging + [a];
    assert Leads(s, steps, s') by { LeadsFirst(s, Begin(t, now, lead), judging + [a], s'); }
    assert s'.claims == s.claims;
  }

  lemma LeadsFirst(s: State, a: Step, rest: seq<Step>, s': State)
    requires Enabled(s, a) && Leads(Next(s, a), rest, s')
    ensures Leads(s, [a] + rest, s')
  {
    hide Enabled, Next;
    assert ([a] + rest)[1..] == rest;
  }

  lemma SameLocks(s: State, s': State, t: nat, i: nat)
    requires s'.held == s.held && s'.claims.Keys == s.claims.Keys + {t}
    requires forall u :: u in s.claims && u != t ==> s'.claims[u] == s.claims[u]
    ensures LockedByOther(s', t, i) <==> LockedByOther(s, t, i)
  {
    hide Takes;
    if u :| u in s.claims && u != t && Takes(s.claims[u], i) { assert Takes(s'.claims[u], i); }
    if u :| u in s'.claims && u != t && Takes(s'.claims[u], i) { assert Takes(s.claims[u], i); }
  }

  /** A claim rolled back, and a lock released, leave no trace; a writer's lock keeps claims away
      until it is given up, and its write is the row it leaves. */
  lemma WritersAndClaims(s: State, t: nat, now: int, lead: nat, i: nat, row: Row)
    requires Inv(s) && t !in s.claims && i < |s.rows| && !Locked(s, i) && row.sentAt == s.rows[i].sentAt
    ensures Next(Next(s, Begin(t, now, lead)), Rollback(t)) == s
    ensures Enabled(s, Hold(i)) && Locked(Next(s, Hold(i)), i)
    ensures Enabled(Next(s, Hold(i)), Release(i)) && Next(Next(s, Hold(i)), Release(i)) == s
    ensures Enabled(Next(s, Hold(i)), Write(i, row))
            && Next(Next(s, Hold(i)), Write(i, row)) == s.(rows := s.rows[i := row])
    ensures row.sentAt.None? ==> Next(s, Insert(row)) == s.(rows := s.rows + [row])
  {
    assert Next(Next(s, Begin(t, now, lead)), Rollback(t)).claims == s.claims;
    assert Next(Next(s, Hold(i)), Release(i)).held == s.held;
    assert Next(Next(s, Hold(i)), Write(i, row)).held == s.held;
  }

  /** Sending goes through the returned bookings in order, one message each. */
  lemma {:induction false} SendsOneMore(calls: seq<Call>, k: nat, i: nat)
    requires k < |calls| && calls[k].sent < |calls[k].returned|
    requires forall m :: 0 <= m < |calls| ==> calls[m].sent <= |calls[m].returned|
    ensures var after := calls[k := calls[k].(sent := calls[k].sent + 1)];
            && (forall m :: 0 <= m < |after| ==> after[m].sent <= |after[m].returned|)
            && Messages(after, i) == Messages(calls, i) + if calls[k].returned[calls[k].sent] == i then 1 else 0
  {
    var last := |calls| - 1;
    var after := calls[k := calls[k].(sent := calls[k].sent + 1)];
    if k < last {
      assert after[..last] == calls[..last][k := after[k]];
      SendsOneMore(calls[..last], k, i);
    } else {
      assert after[..last] == calls[..last];
      var returned, sent := calls[k].returned, calls[k].sent;
      assert returned[..sent + 1][..sent] == returned[..sent];
    }
  }

  /** So each step of sending is one message more, to the next booking that the call returned. */
  lemma SendIsAMessage(s: State, k: nat, i: nat)
    requires Inv(s) && Enabled(s, SendNext(k))
    ensures var s' := Next(s, SendNext(k));
            && s' == s.(calls := s'.calls)
            && (forall m :: 0 <= m < |s.calls| ==> s.calls[m].sent <= |s.calls[m].returned|)
            && (forall m :: 0 <= m < |s'.calls| ==> s'.calls[m].sent <= |s'.calls[m].returned|)
            && Messages(s'.calls, i)
               == Messages(s.calls, i) + if s.calls[k].returned[s.calls[k].sent] == i then 1 else 0
  {
    SendsOneMore(s.calls, k, i);
  }

  // ── Every due booking gets its turn ──────────────────────────────────────

  /** One tick of the loop: worker t's claim runs from its first state to its commit. */
  datatype Tick = Tick(t: nat, now: int, begins: nat, ends: nat)

  ghost predicate Commits(s: State, t: nat, s': State) {
    exists reachable, returned ::
      Enabled(s, Commit(t, reachable, returned)) && s' == Next(s, Commit(t, reachable, returned))
  }

  ghost predicate IsTick(run: seq<State>, k: Tick, lead: nat) {
    && k.begins <= k.ends < |run| - 1
    && (forall j :: k.begins <= j <= k.ends ==> k.t in run[j].claims)
    && run[k.begins].claims[k.t] == Claim(k.now, lead, run[k.begins].rows, map[], {})
    && Commits(run[k.ends], k.t, run[k.ends + 1])
  }

  /** Somebody else has the row locked: an ordinary writer, or another claim. */
  ghost predicate LockedByOther(s: State, t: nat, i: nat) {
    i in s.held || exists u :: u in s.claims && u != t && Takes(s.claims[u], i)
  }

  ghost predicate FoundLocked(run: seq<State>, k: Tick, i: nat) {
    exists j :: k.begins <= j <= k.ends && j < |run| && LockedByOther(run[j], k.t, i)
  }

  /** Between two states worker t's claim stays open, and row i stays r. */
  ghost predicate Undisturbed(run: seq<State>, t: nat, b: nat, n: nat, i: nat, r: Row) {
    forall j :: b <= j <= n < |run| ==> t in run[j].claims && i < |run[j].rows| && run[j].rows[i] == r
  }

  /** What the claim knows of that row: nothing yet, or r itself, skipped only if it was locked. */
  ghost predicate Judged(run: seq<State>, t: nat, b: nat, n: nat, i: nat, r: Row)
    requires b <= n < |run| && t in run[n].claims && t in run[b].claims
  {
    var c, start := run[n].claims[t], run[b].claims[t];
    && c.now == start.now && c.lead == start.lead && c.snapshot == start.snapshot
    && (i in c.seen ==> c.seen[i] == r)
    && (i in c.skipped ==> i in c.seen && exists j :: b <= j <= n && LockedByOther(run[j], t, i))
  }

  lemma StepJudges(s: State, s': State, t: nat, i: nat, r: Row)
    requires Connected(s, s') && t in s.claims && t in s'.claims
    requires i < |s.rows| && s.rows[i] == r && i < |s.claims[t].snapshot| && s.claims[t].snapshot[i] == r
    requires i in s.claims[t].skipped ==> i in s.claims[t].seen
    ensures var c, c' := s.claims[t], s'.claims[t];
            && c'.now == c.now && c'.lead == c.lead && c'.snapshot == c.snapshot
            && (i in c.seen ==> i in c'.seen && c'.seen[i] == c.seen[i])
            && (i in c'.seen && i !in c.seen ==> c'.seen[i] == r)
            && (i in c'.skipped && i !in c.skipped ==> i in c'.seen && LockedByOther(s, t, i))
  {
    hide Due;
    var a :| Enabled(s, a) && s' == Next(s, a);
  }

  lemma {:induction false} ClaimJudges(run: seq<State>, t: nat, b: nat, n: nat, i: nat, r: Row)
    requires IsRun(run) && b <= n < |run| && Undisturbed(run, t, b, n, i, r)
    requires run[b].claims[t].seen == map[] && run[b].claims[t].skipped == {}
    requires run[b].claims[t].snapshot == run[b].rows
    ensures t in run[n].claims && Judged(run, t, b, n, i, r)
    decreases n
  {
    hide Connected, LockedByOther, Takes;
    assert t in run[b].claims && i < |run[b].rows| && run[b].rows[i] == r;
    if b < n {
      assert Undisturbed(run, t, b, n - 1, i, r);
      ClaimJudges(run, t, b, n - 1, i, r);
      assert Connected(run[n - 1], run[n - 1 + 1]);
      assert t in run[n].claims && run[n - 1].rows[i] == r;
      StepJudges(run[n - 1], run[n], t, i, r);
    }
  }

  /** A booking that stays as it is while a tick runs is marked by it if and only if it asks for
      the reminder, unless another had it locked at some moment of the tick. */
  lemma TickClaims(run: seq<State>, k: Tick, lead: nat, i: nat, r: Row)
    requires IsRun(run) && IsTick(run, k, lead) && Undisturbed(run, k.t, k.begins, k.ends, i, r)
    ensures i < |run[k.ends + 1].rows|
    ensures !AsksForReminder(r, k.now, lead) ==> run[k.ends + 1].rows[i] == r
    ensures AsksForReminder(r, k.now, lead) ==>
              run[k.ends + 1].rows[i] == r.(sentAt := Some(k.now)) || FoundLocked(run, k, i)
  {
    hide LockedByOther;
    ClaimJudges(run, k.t, k.begins, k.ends, i, r);
    var s, c := run[k.ends], run[k.ends].claims[k.t];
    assert i < |s.rows| && s.rows[i] == r;
    var reachable, returned :| Enabled(s, Commit(k.t, reachable, returned))
                               && run[k.ends + 1] == Next(s, Commit(k.t, reachable, returned));
    assert i in c.seen by { assert run[k.begins].rows[i] == r; }
    assert Due(r, k.now, lead) <==> AsksForReminder(r, k.now, lead);
  }

  /** From the n-th state on nobody but the claims changes this booking. */
  ghost predicate OnlyMarked(run: seq<State>, n: nat, i: nat, r: Row) {
    forall j :: n <= j < |run| ==> i < |run[j].rows| && run[j].rows[i] == r.(sentAt := run[j].rows[i].sentAt)
  }

  ghost predicate InWindow(now: int, lead: nat, startsAt: int) {
    now < startsAt <= now + lead * 60_000_000
  }

  /**
   * No booking's window is stepped over. Let the ticks be no further apart than the lead window,
   * the first before a confirmed booking's start and the last not. Then one of them falls inside
   * its window, and each that does leaves it marked, unless another had it locked at some moment
   * of that tick.
   */
  lemma EveryWindowIsServed(run: seq<State>, ticks: seq<Tick>, lead: nat, i: nat, r: Row)
    requires IsRun(run) && |ticks| > 0 && forall k :: 0 <= k < |ticks| ==> IsTick(run, ticks[k], lead)
    requires forall k, m :: 0 <= k < m < |ticks| && m == k + 1 ==>
               ticks[k].now < ticks[m].now <= ticks[k].now + lead * MINUTE
    requires ticks[0].now < r.startsAt <= ticks[|ticks| - 1].now
    requires r.confirmed && r.customer.Some? && r.sentAt.None?
    requires forall k :: 0 <= k < |ticks| ==> OnlyMarked(run, ticks[k].begins, i, r)
    ensures exists k :: 0 <= k < |ticks| && InWindow(ticks[k].now, lead, r.startsAt)
    ensures forall k :: 0 <= k < |ticks| && InWindow(ticks[k].now, lead, r.startsAt) ==> Served(run, ticks[k], i)
  {
    hide IsRun, Served, OnlyMarked;
    var times := seq(|ticks|, k requires 0 <= k < |ticks| => ticks[k].now);
    NoWindowIsSteppedOver(times, lead, r.startsAt);
    var hit :| 0 <= hit < |times| && times[hit] < r.startsAt <= times[hit] + lead * MINUTE;
    assert InWindow(ticks[hit].now, lead, r.startsAt);
    forall k | 0 <= k < |ticks| && InWindow(ticks[k].now, lead, r.startsAt)
      ensures Served(run, ticks[k], i)
    {
      TickServes(run, ticks[k], lead, i, r);
    }
  }

  /** The booking carries its mark at some state between these two. */
  ghost predicate MarkedIn(run: seq<State>, b: nat, n: nat, i: nat) {
    exists j :: b <= j <= n && j < |run| && i < |run[j].rows| && run[j].rows[i].sentAt.Some?
  }

  ghost predicate Served(run: seq<State>, k: Tick, i: nat) {
    MarkedIn(run, k.begins, k.ends + 1, i) || FoundLocked(run, k, i)
  }

  lemma TickServes(run: seq<State>, k: Tick, lead: nat, i: nat, r: Row)
    requires IsRun(run) && IsTick(run, k, lead) && OnlyMarked(run, k.begins, i, r)
    requires r.confirmed && r.customer.Some? && r.sentAt.None? && InWindow(k.now, lead, r.startsAt)
    ensures Served(run, k, i)
  {
    hide IsRun, LockedByOther;
    if !MarkedIn(run, k.begins, k.ends + 1, i) {
      forall j | k.begins <= j <= k.ends ensures i < |run[j].rows| && run[j].rows[i] == r {
        assert run[j].rows[i].sentAt.None?;
      }
      TickClaims(run, k, lead, i, r);
      assert run[k.ends + 1].rows[i].sentAt.None?;
    }
  }

  /** Ticks no further apart than the lead window never step over it. */
  lemma {:induction false} NoWindowIsSteppedOver(ticks: seq<int>, lead: nat, startsAt: int)
    requires |ticks| > 0 && ticks[0] < startsAt <= ticks[|ticks| - 1]
    requires forall k :: 0 <= k < |ticks| - 1 ==> ticks[k] < ticks[k + 1] <= ticks[k] + lead * MINUTE
    ensures exists k :: 0 <= k < |ticks| && ticks[k] < startsAt <= ticks[k] + lead * MINUTE
  {
    if startsAt > ticks[0] + lead * MINUTE {
      assert ticks[0] < ticks[0 + 1] <= ticks[0] + lead * MINUTE;
      NoWindowIsSteppedOver(ticks[1..], lead, startsAt);
      var k :| 0 <= k < |ticks[1..]| && ticks[1..][k] < startsAt <= ticks[1..][k] + lead * MINUTE;
      assert ticks[k + 1] == ticks[1..][k];
    }
  }
}
