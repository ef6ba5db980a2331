/**
 * The cash of a staff shift: its payments, cash movements and cash expenses, the trigger that
 * refuses entries of a closed shift, and the expected cash that every reading recomputes. The
 * three tables are one sequence here; a shift's id is its place in its table.
 */
module ShiftLedger {
  import opened Options

  datatype Method = Cash | Transfer

  datatype Entry =
    | Payment(clubId: int, shiftId: Option<nat>, refund: bool, paidBy: Method, amount: int)
    | Movement(clubId: int, shiftId: Option<nat>, isIn: bool, amount: int)
    | Expense(clubId: int, shiftId: Option<nat>, spentBy: Option<Method>, amount: int, active: bool)

  datatype Shift = Shift(clubId: int, staffId: int, openingCash: int, counted: Option<int>, closed: bool)

  datatype LedgerError =
    | ShiftNotFound
    | ShiftClosed
    | ShiftAlreadyOpen
    | OpeningCashInvalid
    | CountedCashInvalid
    | AmountInvalid
    | ExpenseNotFound

  // ── Expected cash ────────────────────────────────────────────────────────

  /** What an entry does to the drawer of shift k. */
  function Weight(e: Entry, k: nat, clubId: int): int {
    if e.shiftId != Some(k) then 0
    else match e
      case Payment(club, _, refund, paidBy, amount) =>
        if club != clubId || paidBy != Cash then 0 else if refund then -amount else amount
      case Movement(_, _, isIn, amount) => if isIn then amount else -amount
      case Expense(club, _, spentBy, amount, active) =>
        if club != clubId || spentBy != Some(Cash) || !active then 0 else -amount
  }

  function Total(entries: seq<Entry>, k: nat, clubId: int): int {
    if entries == [] then 0
    else Total(entries[..|entries| - 1], k, clubId) + Weight(entries[|entries| - 1], k, clubId)
  }

  function ExpectedCash(shifts: seq<Shift>, entries: seq<Entry>, k: nat): int
    requires k < |shifts|
  {
    shifts[k].openingCash + Total(entries, k, shifts[k].clubId)
  }

  /** Counted minus expected; none while the shift is not counted. */
  function Variance(shifts: seq<Shift>, entries: seq<Entry>, k: nat): Option<int>
    requires k < |shifts|
  {
    if shifts[k].counted.None? then None else Some(shifts[k].counted.value - ExpectedCash(shifts, entries, k))
  }

  function AmountOf(entries: seq<Entry>, counts: Entry -> bool): int {
    if entries == [] then 0
    else
      var e := entries[|entries| - 1];
      AmountOf(entries[..|entries| - 1], counts) + if counts(e) then e.amount else 0
  }

  /** What the drawer should hold, account by account: what it was opened with, and cash paid less
      cash given back, put in less taken out, less the cash spent. Transfers, archived expenses and
      the entries of other shifts are no part of it. */
  lemma {:induction false} DrawerInFigures(shifts: seq<Shift>, entries: seq<Entry>, k: nat)
    requires k < |shifts|
    ensures ExpectedCash(shifts, entries, k)
         == shifts[k].openingCash
            + AmountOf(entries, (e: Entry) => e.Payment? && e.shiftId == Some(k) && e.clubId == shifts[k].clubId
                                              && e.paidBy == Cash && !e.refund)
            - AmountOf(entries, (e: Entry) => e.Payment? && e.shiftId == Some(k) && e.clubId == shifts[k].clubId
                                              && e.paidBy == Cash && e.refund)
            + AmountOf(entries, (e: Entry) => e.Movement? && e.shiftId == Some(k) && e.isIn)
            - AmountOf(entries, (e: Entry) => e.Movement? && e.shiftId == Some(k) && !e.isIn)
            - AmountOf(entries, (e: Entry) => e.Expense? && e.shiftId == Some(k) && e.clubId == shifts[k].clubId
                                              && e.spentBy == Some(Cash) && e.active)
  {
    if entries != [] { DrawerInFigures(shifts, entries[..|entries| - 1], k); }
  }

  lemma TotalAppend(entries: seq<Entry>, e: Entry, k: nat, clubId: int)
    ensures Total(entries + [e], k, clubId) == Total(entries, k, clubId) + Weight(e, k, clubId)
  {
    assert (entries + [e])[..|entries|] == entries;
  }

  lemma {:induction false} TotalUpdate(entries: seq<Entry>, i: nat, e: Entry, k: nat, clubId: int)
    requires i < |entries|
    ensures Total(entries[i := e], k, clubId) == Total(entries, k, clubId) - Weight(entries[i], k, clubId)
        + Weight(e, k, clubId)
  {
    var last := |entries| - 1;
    if i < last {
      assert entries[i := e][..last] == entries[..last][i := e];
      TotalUpdate(entries[..last], i, e, k, clubId);
    } else {
      assert entries[i := e][..last] == entries[..last];
    }
  }

  // ── Guards ───────────────────────────────────────────────────────────────

  /** The BEFORE INSERT trigger. */
  function InsertGuard(shifts: seq<Shift>, e: Entry): Option<LedgerError> {
    if e.shiftId.None? then None
    else if e.shiftId.value >= |shifts| || shifts[e.shiftId.value].clubId != e.clubId then Some(ShiftNotFound)
    else if shifts[e.shiftId.value].closed then Some(ShiftClosed)
    else None
  }

  /** The service's checks before it updates an expense; the database itself has none. */
  function ChangeGuard(shifts: seq<Shift>, entries: seq<Entry>, clubId: int, i: nat, amount: int): Option<LedgerError> {
    if amount <= 0 then Some(AmountInvalid)
    else if !IsExpenseOf(entries, clubId, i) then Some(ExpenseNotFound)
    else if entries[i].shiftId.Some? && entries[i].shiftId.value < |shifts| && shifts[entries[i].shiftId.value].closed
        then Some(ShiftClosed)
    else None
  }

  predicate IsExpenseOf(entries: seq<Entry>, clubId: int, i: nat) {
    i < |entries| && entries[i].Expense? && entries[i].clubId == clubId
  }

  predicate HasOpenShift(shifts: seq<Shift>, clubId: int, staffId: int) {
    exists k :: 0 <= k < |shifts| && shifts[k].clubId == clubId && shifts[k].staffId == staffId && !shifts[k].closed
  }

  function OpenGuard(shifts: seq<Shift>, clubId: int, staffId: int, cash: int): Option<LedgerError> {
    if cash < 0 then Some(OpeningCashInvalid)
    else if HasOpenShift(shifts, clubId, staffId) then Some(ShiftAlreadyOpen)
    else None
  }

  function CloseGuard(shifts: seq<Shift>, clubId: int, k: nat, counted: int): Option<LedgerError> {
    if counted < 0 then Some(CountedCashInvalid)
    else if k >= |shifts| || shifts[k].clubId != clubId then Some(ShiftNotFound)
    else if shifts[k].closed then Some(ShiftClosed)
    else None
  }

  /** The books as the API sees them when its requests run one after the other. */
  class Ledger {
    var shifts: seq<Shift>
    var entries: seq<Entry>

    /** Nothing that a closed shift's figures are made of has changed. */
    twostate predicate ClosedFrozen()
      reads this
    {
      |old(shifts)| <= |shifts|
      && forall k :: 0 <= k < |old(shifts)| && old(shifts)[k].closed ==>
           && shifts[k] == old(shifts)[k]
           && ExpectedCash(shifts, entries, k) == ExpectedCash(old(shifts), old(entries), k)
    }

    constructor ()
      ensures shifts == [] && entries == []
    {
      shifts, entries := [], [];
    }

    method OpenShift(clubId: int, staffId: int, cash: int) returns (error: Option<LedgerError>)
      modifies this`shifts
      ensures error == OpenGuard(old(shifts), clubId, staffId, cash)
      ensures cash < 0 <==> error == Some(OpeningCashInvalid)
      ensures error.None? ==>
                forall k ::
                  0 <= k < |old(shifts)| && old(shifts)[k].clubId == clubId && old(shifts)[k].staffId == staffId ==>
                    old(shifts)[k].closed
      ensures error.Some? && cash >= 0 ==>
                error == Some(ShiftAlreadyOpen)
                && exists k :: 0 <= k < |old(shifts)| && old(shifts)[k].clubId == clubId
                               && old(shifts)[k].staffId == staffId && !old(shifts)[k].closed
      ensures shifts == old(shifts) + if error.None? then [Shift(clubId, staffId, cash, None, false)] else []
      ensures ClosedFrozen()
    {
      if cash < 0 { return Some(OpeningCashInvalid); }
      if exists k :: 0 <= k < |shifts| && shifts[k].clubId == clubId && shifts[k].staffId == staffId
          && !shifts[k].closed {
        return Some(ShiftAlreadyOpen);
      }
      shifts := shifts + [Shift(clubId, staffId, cash, None, false)];
      return None;
    }

    method InsertEntry(e: Entry) returns (error: Option<LedgerError>)
      modifies this`entries
      ensures error == InsertGuard(shifts, e)
      ensures error.None? <==>
              (e.shiftId.Some? ==> e.shiftId.value < |shifts| && shifts[e.shiftId.value].clubId == e.clubId
                                   && !shifts[e.shiftId.value].closed)
      ensures error == Some(ShiftClosed) <==>
              e.shiftId.Some? && e.shiftId.value < |shifts| && shifts[e.shiftId.value].clubId == e.clubId
              && shifts[e.shiftId.value].closed
      ensures error.Some? ==> error.value in {ShiftNotFound, ShiftClosed}
      ensures entries == old(entries) + if error.None? then [e] else []
      ensures ClosedFrozen()
    {
      if e.shiftId.Some? {
        var k := e.shiftId.value;
        if k >= |shifts| || shifts[k].clubId != e.clubId { return Some(ShiftNotFound); }
        if shifts[k].closed { return Some(ShiftClosed); }
      }
      entries := entries + [e];
      forall k | 0 <= k < |shifts| && shifts[k].closed
        ensures ExpectedCash(shifts, entries, k) == ExpectedCash(shifts, old(entries), k)
      {
        TotalAppend(old(entries), e, k, shifts[k].clubId);
      }
      return None;
    }

    method UpdateExpense(clubId: int, i: nat, amount: int, active: bool) returns (error: Option<LedgerError>)
      modifies this`entries
      ensures error == ChangeGuard(shifts, old(entries), clubId, i, amount)
      ensures error == Some(AmountInvalid) <==> amount < 1
      ensures error == Some(ExpenseNotFound) <==>
              amount >= 1 && !(i < |old(entries)| && old(entries)[i].Expense? && old(entries)[i].clubId == clubId)
      ensures error == Some(ShiftClosed) <==>
              && amount >= 1 && i < |old(entries)| && old(entries)[i].Expense? && old(entries)[i].clubId == clubId
              && exists k :: 0 <= k < |shifts| && old(entries)[i].shiftId == Some(k) && shifts[k].closed
      ensures error.Some? ==> error.value in {AmountInvalid, ExpenseNotFound, ShiftClosed}
      ensures error.None? ==>
                i < |old(entries)|
                && entries == old(entries)[i := old(entries)[i].(amount := amount, active := active)]
      ensures entries == if error.None? then old(entries)[i := Changed(old(entries)[i], amount, active)]
          else old(entries)
      ensures ClosedFrozen()
    {
      if amount <= 0 { return Some(AmountInvalid); }
      if i >= |entries| || !entries[i].Expense? || entries[i].clubId != clubId { return Some(ExpenseNotFound); }
      var link := entries[i].shiftId;
      if link.Some? && link.value < |shifts| && shifts[link.value].closed { return Some(ShiftClosed); }
      entries := entries[i := entries[i].(amount := amount, active := active)];
      forall k | 0 <= k < |shifts| && shifts[k].closed
        ensures ExpectedCash(shifts, entries, k) == ExpectedCash(shifts, old(entries), k)
      {
        TotalUpdate(old(entries), i, entries[i], k, shifts[k].clubId);
      }
      return None;
    }

    method CloseShift(clubId: int, k: nat, counted: int) returns (error: Option<LedgerError>)
      modifies this`shifts
      ensures error == CloseGuard(old(shifts), clubId, k, counted)
      ensures error == Some(CountedCashInvalid) <==> counted < 0
      ensures error == Some(ShiftNotFound) <==>
              counted >= 0 && !(k < |old(shifts)| && old(shifts)[k].clubId == clubId)
      ensures error == Some(ShiftClosed) <==>
              counted >= 0 && k < |old(shifts)| && old(shifts)[k].clubId == clubId && old(shifts)[k].closed
      ensures error.Some? ==> error.value in {CountedCashInvalid, ShiftNotFound, ShiftClosed}
      ensures shifts == if error.None? then old(shifts)[k := old(shifts)[k].(closed := true, counted := Some(counted))]
          else old(shifts)
      ensures error.None? ==> Variance(shifts, entries, k) == Some(counted - ExpectedCash(old(shifts), entries, k))
      ensures ClosedFrozen()
    {
      if counted < 0 { return Some(CountedCashInvalid); }
      if k >= |shifts| || shifts[k].clubId != clubId { return Some(ShiftNotFound); }
      if shifts[k].closed { return Some(ShiftClosed); }
      shifts := shifts[k := shifts[k].(closed := true, counted := Some(counted))];
      return None;
    }
  }

  function Changed(e: Entry, amount: int, active: bool): Entry
    requires e.Expense?
  {
    e.(amount := amount, active := active)
  }

  // ── Requests that overlap ────────────────────────────────────────────────

  /** A write that has passed its check and is not committed yet. */
  datatype Write =
    | Insert(entry: Entry)
    | Change(i: nat, amount: int, active: bool)
    | Closing(k: nat, counted: int)

  datatype State = State(shifts: seq<Shift>, entries: seq<Entry>, flying: map<nat, Write>)

  datatype Step =
    | Check(t: nat, clubId: int, write: Write)
    | Land(t: nat)       // commit
    | Drop(t: nat)       // rollback
    | Open(clubId: int, staffId: int, cash: int)

  function GuardOf(s: State, clubId: int, w: Write): Option<LedgerError> {
    match w
    case Insert(e) => InsertGuard(s.shifts, e)
    case Change(i, amount, _) => ChangeGuard(s.shifts, s.entries, clubId, i, amount)
    case Closing(k, counted) => CloseGuard(s.shifts, clubId, k, counted)
  }

  predicate Enabled(s: State, a: Step) {
    match a
    case Check(t, clubId, w) => t !in s.flying && GuardOf(s, clubId, w).None?
    case Land(t) => t in s.flying && WriteFits(s, s.flying[t])
    case Drop(t) => t in s.flying
    case Open(club, staff, cash) => OpenGuard(s.shifts, club, staff, cash).None?
  }

  predicate WriteFits(s: State, w: Write) {
    && (w.Change? ==> w.i < |s.entries| && s.entries[w.i].Expense?)
    && (w.Closing? ==> w.k < |s.shifts|)
  }

  /** An UPDATE or INSERT by id: what was checked is not checked again. */
  function Landed(s: State, w: Write): State
    requires WriteFits(s, w)
  {
    match w
    case Insert(e) => s.(entries := s.entries + [e])
    case Change(i, amount, active) => s.(entries := s.entries[i := Changed(s.entries[i], amount, active)])
    case Closing(k, counted) => s.(shifts := s.shifts[k := s.shifts[k].(closed := true, counted := Some(counted))])
  }

  function Next(s: State, a: Step): State
    requires Enabled(s, a)
  {
    match a
    case Check(t, _, w) => s.(flying := s.flying[t := w])
    case Land(t) => Landed(s, s.flying[t]).(flying := s.flying - {t})
    case Drop(t) => s.(flying := s.flying - {t})
    case Open(club, staff, cash) => s.(shifts := s.shifts + [Shift(club, staff, cash, None, false)])
  }

  predicate CanRun(s: State, steps: seq<Step>)
    decreases |steps|
  {
    steps == [] || (Enabled(s, steps[0]) && CanRun(Next(s, steps[0]), steps[1..]))
  }

  function After(s: State, steps: seq<Step>): State
    requires CanRun(s, steps)
    decreases |steps|
  {
    if steps == [] then s else After(Next(s, steps[0]), steps[1..])
  }

  predicate IsClosed(s: State, k: nat) {
    k < |s.shifts| && s.shifts[k].closed
  }

  /** What a write in flight would do to the drawer of shift k if it were committed now. */
  function Delta(s: State, w: Write, k: nat): int
    requires k < |s.shifts| && WriteFits(s, w)
  {
    match w
    case Insert(e) => Weight(e, k, s.shifts[k].clubId)
    case Change(i, amount, active) =>
      Weight(Changed(s.entries[i], amount, active), k, s.shifts[k].clubId) - Weight(s.entries[i], k, s.shifts[k].clubId)
    case Closing(_, _) => 0
  }

  ghost predicate FlyingFit(s: State) {
    forall t :: t in s.flying ==> WriteFits(s, s.flying[t])
  }

  /** A second closing of shift k, with another count. */
  predicate Recounts(s: State, w: Write, k: nat)
    requires k < |s.shifts|
  {
    w.Closing? && w.k == k && s.shifts[k].counted != Some(w.counted)
  }

  /** No write in flight would change the drawer of shift k or what was counted in it. */
  ghost predicate Quiet(s: State, k: nat)
    requires k < |s.shifts| && FlyingFit(s)
  {
    forall t :: t in s.flying ==> Delta(s, s.flying[t], k) == 0 && !Recounts(s, s.flying[t], k)
  }

  lemma LandingAddsDelta(s: State, t: nat, k: nat)
    requires Enabled(s, Land(t)) && k < |s.shifts|
    ensures k < |Next(s, Land(t)).shifts|
    ensures ExpectedCash(Next(s, Land(t)).shifts, Next(s, Land(t)).entries, k)
         == ExpectedCash(s.shifts, s.entries, k) + Delta(s, s.flying[t], k)
  {
    match s.flying[t] {
      case Insert(e) => TotalAppend(s.entries, e, k, s.shifts[k].clubId);
      case Change(i, amount, active) =>
        TotalUpdate(s.entries, i, Changed(s.entries[i], amount, active), k, s.shifts[k].clubId);
      case Closing(_, _) =>
    }
  }

  lemma StepStaysQuiet(s: State, a: Step, k: nat)
    requires FlyingFit(s) && IsClosed(s, k) && Quiet(s, k) && Enabled(s, a)
    ensures FlyingFit(Next(s, a)) && IsClosed(Next(s, a), k) && Quiet(Next(s, a), k)
    ensures Next(s, a).shifts[k] == s.shifts[k]
    ensures ExpectedCash(Next(s, a).shifts, Next(s, a).entries, k) == ExpectedCash(s.shifts, s.entries, k)
  {
    hide HasOpenShift;
    if a.Land? {
      LandingAddsDelta(s, a.t, k);
      LandingStaysQuiet(s, a.t, k);
    }
  }

  lemma LandingStaysQuiet(s: State, t: nat, k: nat)
    requires FlyingFit(s) && IsClosed(s, k) && Quiet(s, k) && Enabled(s, Land(t))
    ensures var s' := Next(s, Land(t));
            && FlyingFit(s') && k < |s'.shifts| && s'.shifts[k] == s.shifts[k] && Quiet(s', k)
  {
    var s' := Next(s, Land(t));
    forall u | u in s'.flying
      ensures WriteFits(s', s'.flying[u]) && Delta(s', s'.flying[u], k) == 0 && !Recounts(s', s'.flying[u], k)
    {
      assert Delta(s, s.flying[u], k) == 0;
    }
  }

  /** The two figures of a shift. */
  function Figures(s: State, k: nat): (int, Option<int>)
    requires k < |s.shifts|
  {
    (ExpectedCash(s.shifts, s.entries, k), Variance(s.shifts, s.entries, k))
  }

  lemma {:induction false} QuietStaysFrozen(s: State, steps: seq<Step>, k: nat)
    requires FlyingFit(s) && IsClosed(s, k) && Quiet(s, k) && CanRun(s, steps)
    ensures IsClosed(After(s, steps), k) && Figures(After(s, steps), k) == Figures(s, k)
    decreases |steps|
  {
    if steps != [] {
      StepStaysQuiet(s, steps[0], k);
      QuietStaysFrozen(Next(s, steps[0]), steps[1..], k);
    }
  }

  ghost predicate FrozenIn(s: State, steps: seq<Step>, k: nat)
    requires k < |s.shifts|
  {
    CanRun(s, steps) ==> k < |After(s, steps).shifts| && Figures(After(s, steps), k) == Figures(s, k)
  }

  /**
   * The expected cash and the variance of a closed shift stand still through every further run of
   * requests, overlapping or not, if and only if no write in flight would change them: an entry
   * or a change past its check when the shift was closed, or a second closing with another count.
   * Neither the trigger nor the service takes a lock on the shift.
   */
  lemma FrozenIffQuiet(s: State, k: nat)
    requires FlyingFit(s) && IsClosed(s, k)
    ensures (forall steps :: FrozenIn(s, steps, k)) <==> Quiet(s, k)
  {
    if Quiet(s, k) {
      forall steps ensures FrozenIn(s, steps, k) {
        if CanRun(s, steps) { QuietStaysFrozen(s, steps, k); }
      }
    } else {
      var t :| t in s.flying && (Delta(s, s.flying[t], k) != 0 || Recounts(s, s.flying[t], k));
      LandingAddsDelta(s, t, k);
      OneStep(s, Land(t));
      assert !FrozenIn(s, [Land(t)], k);
    }
  }

  lemma OneStep(s: State, a: Step)
    requires Enabled(s, a)
    ensures CanRun(s, [a]) && After(s, [a]) == Next(s, a)
  {
    assert [a][1..] == [];
    assert CanRun(Next(s, a), []);
  }

  lemma Then(s: State, a: Step, rest: seq<Step>)
    requires Enabled(s, a) && CanRun(Next(s, a), rest)
    ensures CanRun(s, [a] + rest) && After(s, [a] + rest) == After(Next(s, a), rest)
  {
    assert ([a] + rest)[1..] == rest;
  }

  /** A request that nothing comes between: what it has checked is written as it is asked for, and a
      request that is rolled back leaves no trace. Opening a shift adds it with its drawer's cash. */
  lemma RequestAlone(s: State, t: nat, clubId: int, w: Write)
    requires Enabled(s, Check(t, clubId, w))
    ensures CanRun(s, [Check(t, clubId, w)] + [Land(t)])
    ensures After(s, [Check(t, clubId, w)] + [Land(t)])
         == match w
            case Insert(e) => s.(entries := s.entries + [e])
            case Change(i, amount, active) =>
              s.(entries := s.entries[i := s.entries[i].(amount := amount, active := active)])
            case Closing(k, counted) =>
              s.(shifts := s.shifts[k := s.shifts[k].(closed := true, counted := Some(counted))])
    ensures CanRun(s, [Check(t, clubId, w)] + [Drop(t)]) && After(s, [Check(t, clubId, w)] + [Drop(t)]) == s
  {
    var s' := Next(s, Check(t, clubId, w));
    OneStep(s', Land(t));
    Then(s, Check(t, clubId, w), [Land(t)]);
    OneStep(s', Drop(t));
    Then(s, Check(t, clubId, w), [Drop(t)]);
    assert s'.flying - {t} == s.flying;
  }

  lemma OpeningAlone(s: State, clubId: int, staffId: int, cash: int)
    requires cash >= 0
    requires forall k :: 0 <= k < |s.shifts| && s.shifts[k].clubId == clubId && s.shifts[k].staffId == staffId ==>
               s.shifts[k].closed
    ensures CanRun(s, [Open(clubId, staffId, cash)])
    ensures After(s, [Open(clubId, staffId, cash)])
         == s.(shifts := s.shifts + [Shift(clubId, staffId, cash, None, false)])
  {
    OneStep(s, Open(clubId, staffId, cash));
  }

  /** An entry that passes the trigger while the shift is open lands after the closing: the
      closed shift's expected cash moves by the entry's share. */
  lemma LateEntryMovesCash(shift: Shift, e: Entry, counted: int)
    requires !shift.closed && counted >= 0 && e.clubId == shift.clubId && e.shiftId == Some(0)
    ensures var steps := [Check(0, shift.clubId, Insert(e))] + ([Check(1, shift.clubId, Closing(0, counted))]
                         + ([Land(1)] + [Land(0)]));
            var s := State([shift], [], map[]);
            && CanRun(s, steps) && IsClosed(After(s, steps), 0)
            && ExpectedCash(After(s, steps).shifts, After(s, steps).entries, 0) == shift.openingCash
                + Weight(e, 0, shift.clubId)
            && Variance(After(s, steps).shifts, After(s, steps).entries, 0)
               == Some(counted - shift.openingCash - Weight(e, 0, shift.clubId))
  {
    var w, c := Insert(e), Closing(0, counted);
    var shut := shift.(closed := true, counted := Some(counted));
    var s1 := State([shift], [], map[0 := w]);
    var s2 := State([shift], [], map[0 := w, 1 := c]);
    var s3 := State([shut], [], map[0 := w]);
    assert Next(s2, Land(1)) == s3;
    OneStep(s3, Land(0));
    Then(s2, Land(1), [Land(0)]);
    Then(s1, Check(1, shift.clubId, c), [Land(1)] + [Land(0)]);
    Then(State([shift], [], map[]), Check(0, shift.clubId, w), [Check(1, shift.clubId, c)] + ([Land(1)] + [Land(0)]));
    TotalAppend([], e, 0, shift.clubId);
    assert [] + [e] == [e];
  }

  /** Two closings that both find the shift open: the later one overwrites what was counted. */
  lemma SecondClosingRecounts(shift: Shift, first: int, second: int)
    requires !shift.closed && first >= 0 && second >= 0
    ensures var steps := [Check(0, shift.clubId, Closing(0, first))] + ([Check(1, shift.clubId, Closing(0, second))]
                         + ([Land(0)] + [Land(1)]));
            var s := State([shift], [], map[]);
            CanRun(s, steps) && After(s, steps).shifts == [shift.(closed := true, counted := Some(second))]
  {
    var a, b := Closing(0, first), Closing(0, second);
    var s1 := State([shift], [], map[0 := a]);
    var s2 := State([shift], [], map[0 := a, 1 := b]);
    var s3 := State([shift.(closed := true, counted := Some(first))], [], map[1 := b]);
    assert Next(s2, Land(0)) == s3;
    OneStep(s3, Land(1));
    Then(s2, Land(0), [Land(1)]);
    Then(s1, Check(1, shift.clubId, b), [Land(0)] + [Land(1)]);
    Then(State([shift], [], map[]), Check(0, shift.clubId, a), [Check(1, shift.clubId, b)] + ([Land(0)] + [Land(1)]));
  }

  /** One request at a time: with nothing in flight a closed shift is frozen for good. */
  lemma SerialRequestsFreeze(s: State, steps: seq<Step>, k: nat)
    requires s.flying == map[] && IsClosed(s, k) && CanRun(s, steps)
    ensures k < |After(s, steps).shifts| && Figures(After(s, steps), k) == Figures(s, k)
  {
    QuietStaysFrozen(s, steps, k);
  }

  /** The database alone does not protect an expense: an UPDATE without the service's check moves
      the expected cash of a closed shift by exactly the change in the expense's own share. */
  lemma UncheckedUpdateMovesCash(shifts: seq<Shift>, entries: seq<Entry>, i: nat, amount: int, active: bool, k: nat)
    requires k < |shifts| && i < |entries| && entries[i].Expense?
    ensures var changed := Changed(entries[i], amount, active);
            ExpectedCash(shifts, entries[i := changed], k) == ExpectedCash(shifts, entries, k)
            <==> Weight(changed, k, shifts[k].clubId) == Weight(entries[i], k, shifts[k].clubId)
  {
    TotalUpdate(entries, i, Changed(entries[i], amount, active), k, shifts[k].clubId);
  }
}
