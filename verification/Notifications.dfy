/**
 * The notification queue and its sender. Rows are deduplicated by a unique key, sent in
 * batches of fifty in the order they were queued, and tried at most three times. A row's id is
 * its place in the table.
 */
module Notifications {
  import opened Options

  const MAX_SEND_ATTEMPTS := 3
  const SEND_BATCH := 50

  datatype Status = Pending | Sent | Error

  /** The columns of the unique index. */
  datatype Key = Key(clubId: int, template: string, entityId: int, chatId: int)

  datatype Notice = Notice(key: Key, createdAt: int, status: Status, attempts: nat)

  type Rows = seq<Notice>

  /** How one try ends. A template that cannot be rendered counts as a failed try like a silent
      Telegram or a missing token, and is tried again like them. */
  datatype Outcome = Delivered | NoReply | NoToken | Unrenderable

  /** One try of a row; a run that dies between the try and its UPDATE leaves it unrecorded. */
  datatype Try = Try(id: nat, recorded: bool)

  datatype State = State(rows: Rows, log: seq<Try>)

  predicate HasKey(rows: Rows, key: Key) {
    exists i :: 0 <= i < |rows| && rows[i].key == key
  }

  function Fresh(key: Key, now: int): Notice {
    Notice(key, now, Pending, 0)
  }

  /** INSERT … ON CONFLICT DO NOTHING. */
  function Enqueue(rows: Rows, key: Key, now: int): Rows {
    if HasKey(rows, key) then rows else rows + [Fresh(key, now)]
  }

  function Tried(n: Notice, o: Outcome): Notice {
    if o.Delivered? then n.(status := Sent)
    else n.(attempts := n.attempts + 1, status := if n.attempts + 1 >= MAX_SEND_ATTEMPTS then Error else Pending)
  }

  /** The answers the database may give to the sender's SELECT: pending rows, oldest first, at
      most fifty, none skipped for a newer one. Rows of the same instant come in any order. */
  ghost predicate IsBatch(rows: Rows, batch: seq<nat>) {
    && |batch| <= SEND_BATCH
    && (forall k :: 0 <= k < |batch| ==> batch[k] < |rows| && rows[batch[k]].status.Pending?)
    && (forall k, m :: 0 <= k < m < |batch| ==> batch[k] != batch[m])
    && (forall k, m :: 0 <= k < m < |batch| ==> rows[batch[k]].createdAt <= rows[batch[m]].createdAt)
    && forall j: nat :: j < |rows| && rows[j].status.Pending? && j !in batch ==>
         && |batch| == SEND_BATCH
         && forall k :: 0 <= k < |batch| ==> rows[batch[k]].createdAt <= rows[j].createdAt
  }

  /** An oldest-first selection that may still be continued. */
  ghost predicate IsOldest(rows: Rows, ids: seq<nat>) {
    && (forall k :: 0 <= k < |ids| ==> ids[k] < |rows| && rows[ids[k]].status.Pending?)
    && (forall k, m :: 0 <= k < m < |ids| ==> ids[k] != ids[m])
    && (forall k, m :: 0 <= k < m < |ids| ==> rows[ids[k]].createdAt <= rows[ids[m]].createdAt)
    && forall j: nat :: j < |rows| && rows[j].status.Pending? && j !in ids ==>
         forall k :: 0 <= k < |ids| ==> rows[ids[k]].createdAt <= rows[j].createdAt
  }

  lemma {:induction false} OldestLeft(rows: Rows, ids: seq<nat>, n: nat) returns (best: Option<nat>)
    requires n <= |rows|
    ensures best.None? ==> forall j: nat :: j < n && rows[j].status.Pending? ==> j in ids
    ensures best.Some? ==> best.value < n && rows[best.value].status.Pending? && best.value !in ids
    ensures best.Some? ==> forall j: nat :: j < n && rows[j].status.Pending? && j !in ids ==>
                             rows[best.value].createdAt <= rows[j].createdAt
  {
    if n == 0 {
      return None;
    }
    best := OldestLeft(rows, ids, n - 1);
    if rows[n - 1].status.Pending? && n - 1 !in ids
       && (best.None? || rows[n - 1].createdAt < rows[best.value].createdAt) {
      best := Some(n - 1);
    }
  }

  lemma OldestExtends(rows: Rows, ids: seq<nat>, next: nat)
    requires IsOldest(rows, ids) && next < |rows| && rows[next].status.Pending? && next !in ids
    requires forall j: nat :: j < |rows| && rows[j].status.Pending? && j !in ids ==>
        rows[next].createdAt <= rows[j].createdAt
    ensures IsOldest(rows, ids + [next])
  {
  }

  /** Every table has a batch to send. */
  lemma {:induction false} BatchExists(rows: Rows, ids: seq<nat>) returns (batch: seq<nat>)
    requires IsOldest(rows, ids) && |ids| <= SEND_BATCH
    ensures IsBatch(rows, batch) && ids <= batch
    decreases SEND_BATCH - |ids|
  {
    var next := OldestLeft(rows, ids, |rows|);
    if |ids| == SEND_BATCH || next.None? {
      batch := ids;
    } else {
      OldestExtends(rows, ids, next.value);
      batch := BatchExists(rows, ids + [next.value]);
    }
  }

  function RecordOne(s: State, id: nat, o: Outcome): State
    requires id < |s.rows|
  {
    State(s.rows[id := Tried(s.rows[id], o)], s.log + [Try(id, true)])
  }

  function RecordAll(s: State, ids: seq<nat>, outcomes: seq<Outcome>): State
    requires |ids| == |outcomes| && forall k :: 0 <= k < |ids| ==> ids[k] < |s.rows|
    decreases |ids|
  {
    if ids == [] then s else RecordAll(RecordOne(s, ids[0], outcomes[0]), ids[1..], outcomes[1..])
  }

  function Deliveries(outcomes: seq<Outcome>): nat {
    if outcomes == [] then 0
    else Deliveries(outcomes[..|outcomes| - 1]) + if outcomes[|outcomes| - 1].Delivered? then 1 else 0
  }

  lemma RecordNone(s: State)
    ensures RecordAll(s, [], []) == s
  {
  }

  lemma {:induction false} RecordFrom(s: State, ids: seq<nat>, outcomes: seq<Outcome>, i: nat)
    requires |ids| == |outcomes| && i < |ids| && forall k :: 0 <= k < |ids| ==> ids[k] < |s.rows|
    ensures RecordAll(s, ids[i..], outcomes[i..])
         == RecordAll(RecordOne(s, ids[i], outcomes[i]), ids[i + 1..], outcomes[i + 1..])
  {
    assert ids[i..][1..] == ids[i + 1..] && outcomes[i..][1..] == outcomes[i + 1..];
  }

  lemma NoDeliveries(outcomes: seq<Outcome>)
    ensures Deliveries(outcomes[..0]) == 0
  {
  }

  lemma {:induction false} OneMoreDelivery(outcomes: seq<Outcome>, i: nat)
    requires i < |outcomes|
    ensures Deliveries(outcomes[..i + 1]) == Deliveries(outcomes[..i]) + if outcomes[i].Delivered? then 1 else 0
  {
    assert outcomes[..i + 1][..i] == outcomes[..i];
  }

  class Desk {
    var rows: Rows
    var log: seq<Try>

    constructor ()
      ensures rows == [] && log == []
    {
      rows, log := [], [];
    }

    /** None when the same notice was queued before, whatever became of it. */
    method QueueNotification(key: Key, now: int) returns (id: Option<nat>)
      modifies this`rows
      ensures rows == Enqueue(old(rows), key, now)
      ensures id == if HasKey(old(rows), key) then None else Some(|old(rows)|)
    {
      if exists i :: 0 <= i < |rows| && rows[i].key == key {
        return None;
      }
      id := Some(|rows|);
      rows := rows + [Fresh(key, now)];
    }

    /** One run over the batch the database returned. It records the first `recorded` tries;
        `torn` says that it died with one more try made. A full run records them all. */
    method SendPending(batch: seq<nat>, outcomes: seq<Outcome>, recorded: nat, torn: bool) returns (sent: nat)
      requires IsBatch(rows, batch) && |outcomes| == |batch| && recorded + (if torn then 1 else 0) <= |batch|
      modifies this
      ensures State(rows, log) == AfterRun(old(State(rows, log)), batch, outcomes, recorded, torn)
      ensures sent == Deliveries(outcomes[..recorded])
    {
      hide RecordAll, Deliveries;
      sent := 0;
      var i := 0;
      ghost var start := State(rows, log);
      ghost var ids, outs := batch[..recorded], outcomes[..recorded];
      assert ids[0..] == ids && outs[0..] == outs;
      NoDeliveries(outcomes);
      while i < recorded
        invariant 0 <= i <= recorded
        invariant |rows| == |start.rows|
        invariant RecordAll(start, ids, outs) == RecordAll(State(rows, log), ids[i..], outs[i..])
        invariant sent == Deliveries(outcomes[..i])
      {
        RecordFrom(State(rows, log), ids, outs, i);
        OneMoreDelivery(outcomes, i);
        var id := batch[i];
        log := log + [Try(id, true)];
        if outcomes[i].Delivered? {
          rows := rows[id := rows[id].(status := Sent)];
          sent := sent + 1;
        } else {
          var attempts := rows[id].attempts + 1;
          var status := if attempts >= MAX_SEND_ATTEMPTS then Error else Pending;
          rows := rows[id := rows[id].(attempts := attempts, status := status)];
        }
        i := i + 1;
      }
      assert ids[recorded..] == [] && outs[recorded..] == [];
      RecordNone(State(rows, log));
      if torn {
        log := log + [Try(batch[recorded], false)];
      }
    }
  }

  function AfterRun(s: State, batch: seq<nat>, outcomes: seq<Outcome>, recorded: nat, torn: bool): State
    requires |outcomes| == |batch| && recorded + (if torn then 1 else 0) <= |batch|
    requires forall k :: 0 <= k < |batch| ==> batch[k] < |s.rows|
  {
    var s' := RecordAll(s, batch[..recorded], outcomes[..recorded]);
    if torn then s'.(log := s'.log + [Try(batch[recorded], false)]) else s'
  }

  // ── Histories ────────────────────────────────────────────────────────────

  datatype Event =
    | Queued(key: Key, now: int)
    | Run(batch: seq<nat>, outcomes: seq<Outcome>, recorded: nat, torn: bool)

  /** Runs do not overlap: each is one event, whose batch fits the table it starts from. */
  ghost predicate Fits(s: State, e: Event) {
    match e
    case Queued(_, _) => true
    case Run(batch, outcomes, recorded, torn) =>
      IsBatch(s.rows, batch) && |outcomes| == |batch| && recorded + (if torn then 1 else 0) <= |batch|
  }

  ghost function Step(s: State, e: Event): State
    requires Fits(s, e)
  {
    match e
    case Queued(key, now) => s.(rows := Enqueue(s.rows, key, now))
    case Run(batch, outcomes, recorded, torn) => AfterRun(s, batch, outcomes, recorded, torn)
  }

  ghost predicate IsHistory(s: State, events: seq<Event>)
    decreases |events|
  {
    events == [] || (Fits(s, events[0]) && IsHistory(Step(s, events[0]), events[1..]))
  }

  ghost function Replay(s: State, events: seq<Event>): State
    requires IsHistory(s, events)
    decreases |events|
  {
    if events == [] then s else Replay(Step(s, events[0]), events[1..])
  }

  const EMPTY := State([], [])

  // ── What every history keeps ─────────────────────────────────────────────

  function Tries(log: seq<Try>, id: nat, recorded: bool): nat {
    if log == [] then 0
    else Tries(log[..|log| - 1], id, recorded) + if log[|log| - 1] == Try(id, recorded) then 1 else 0
  }

  predicate RowOk(n: Notice) {
    if n.status.Error? then n.attempts == MAX_SEND_ATTEMPTS else n.attempts < MAX_SEND_ATTEMPTS
  }

  /** Recorded tries of a row: its failed ones and the one that was delivered. */
  function Used(n: Notice): nat {
    n.attempts + if n.status.Sent? then 1 else 0
  }

  ghost predicate RowsOk(s: State) {
    && (forall i :: 0 <= i < |s.rows| ==> RowOk(s.rows[i]))
    && (forall i :: 0 <= i < |s.rows| ==> Tries(s.log, i, true) == Used(s.rows[i]))
    && forall k :: 0 <= k < |s.log| ==> s.log[k].id < |s.rows|
  }

  ghost predicate KeysUnique(rows: Rows) {
    forall i, j :: 0 <= i < j < |rows| ==> rows[i].key != rows[j].key
  }

  ghost predicate Inv(s: State) {
    RowsOk(s) && KeysUnique(s.rows)
  }

  lemma {:induction false} NoTryOfUnknown(log: seq<Try>, id: nat, recorded: bool)
    requires forall k :: 0 <= k < |log| ==> log[k].id < id
    ensures Tries(log, id, recorded) == 0
  {
    if log != [] { NoTryOfUnknown(log[..|log| - 1], id, recorded); }
  }

  lemma TriesGrow(log: seq<Try>, t: Try, id: nat, recorded: bool)
    ensures Tries(log + [t], id, recorded) == Tries(log, id, recorded) + if t == Try(id, recorded) then 1 else 0
  {
    assert (log + [t])[..|log|] == log;
  }

  lemma QueueKeepsInv(s: State, key: Key, now: int)
    requires Inv(s)
    ensures Inv(s.(rows := Enqueue(s.rows, key, now)))
  {
    if !HasKey(s.rows, key) {
      NoTryOfUnknown(s.log, |s.rows|, true);
    }
  }

  lemma RecordKeepsInv(s: State, id: nat, o: Outcome)
    requires Inv(s) && id < |s.rows| && s.rows[id].status.Pending?
    ensures Inv(RecordOne(s, id, o))
  {
    var s' := RecordOne(s, id, o);
    forall i: nat | i < |s'.rows| ensures Tries(s'.log, i, true) == Used(s'.rows[i]) {
      TriesGrow(s.log, Try(id, true), i, true);
    }
  }

  /** The batch's rows are tried one by one: their keys and times stay, other rows stay as they
      are, and each of them is still waiting when its turn comes. */
  lemma {:induction false} RecordAllKeepsInv(s: State, ids: seq<nat>, outcomes: seq<Outcome>)
    requires Inv(s) && |ids| == |outcomes|
    requires forall k :: 0 <= k < |ids| ==> ids[k] < |s.rows| && s.rows[ids[k]].status.Pending?
    requires forall k, m :: 0 <= k < m < |ids| ==> ids[k] != ids[m]
    ensures Inv(RecordAll(s, ids, outcomes))
    ensures |RecordAll(s, ids, outcomes).rows| == |s.rows|
    ensures forall j :: 0 <= j < |s.rows| && j !in ids ==> RecordAll(s, ids, outcomes).rows[j] == s.rows[j]
    decreases |ids|
  {
    if ids != [] {
      RecordKeepsInv(s, ids[0], outcomes[0]);
      RecordAllKeepsInv(RecordOne(s, ids[0], outcomes[0]), ids[1..], outcomes[1..]);
    }
  }

  lemma TornKeepsInv(s: State, id: nat)
    requires Inv(s) && id < |s.rows|
    ensures Inv(s.(log := s.log + [Try(id, false)]))
  {
    forall i: nat | i < |s.rows| ensures Tries(s.log + [Try(id, false)], i, true) == Used(s.rows[i]) {
      TriesGrow(s.log, Try(id, false), i, true);
    }
  }

  lemma StepKeepsInv(s: State, e: Event)
    requires Inv(s) && Fits(s, e)
    ensures Inv(Step(s, e))
  {
    match e {
      case Queued(key, now) => QueueKeepsInv(s, key, now);
      case Run(batch, outcomes, recorded, torn) =>
        RecordAllKeepsInv(s, batch[..recorded], outcomes[..recorded]);
        if torn {
          TornKeepsInv(RecordAll(s, batch[..recorded], outcomes[..recorded]), batch[recorded]);
        }
    }
  }

  lemma {:induction false} HistoryKeepsInv(s: State, events: seq<Event>)
    requires Inv(s) && IsHistory(s, events)
    ensures Inv(Replay(s, events))
    decreases |events|
  {
    if events != [] {
      StepKeepsInv(s, events[0]);
      HistoryKeepsInv(Step(s, events[0]), events[1..]);
    }
  }

  /** The runs that died just after a try of this row, before recording it. */
  function TornOn(events: seq<Event>, id: nat): nat
    decreases |events|
  {
    if events == [] then 0
    else (if DiesOn(events[0], id) then 1 else 0) + TornOn(events[1..], id)
  }

  predicate DiesOn(e: Event, id: nat) {
    e.Run? && e.torn && e.recorded < |e.batch| && e.batch[e.recorded] == id
  }

  lemma {:induction false} RecordingTearsNone(s: State, ids: seq<nat>, outcomes: seq<Outcome>, id: nat)
    requires |ids| == |outcomes| && forall k :: 0 <= k < |ids| ==> ids[k] < |s.rows|
    ensures Tries(RecordAll(s, ids, outcomes).log, id, false) == Tries(s.log, id, false)
    decreases |ids|
  {
    if ids != [] {
      TriesGrow(s.log, Try(ids[0], true), id, false);
      RecordingTearsNone(RecordOne(s, ids[0], outcomes[0]), ids[1..], outcomes[1..], id);
    }
  }

  lemma {:induction false} TornAreLogged(s: State, events: seq<Event>, id: nat)
    requires IsHistory(s, events)
    ensures Tries(Replay(s, events).log, id, false) == Tries(s.log, id, false) + TornOn(events, id)
    decreases |events|
  {
    if events != [] {
      var e := events[0];
      TornAreLogged(Step(s, e), events[1..], id);
      if e.Run? {
        RecordingTearsNone(s, e.batch[..e.recorded], e.outcomes[..e.recorded], id);
        if e.torn {
          TriesGrow(RecordAll(s, e.batch[..e.recorded], e.outcomes[..e.recorded]).log, Try(e.batch[e.recorded], false),
              id, false);
        }
      }
    }
  }

  function AllTries(s: State, id: nat): nat {
    Tries(s.log, id, true) + Tries(s.log, id, false)
  }

  /**
   * Bounded retry and exact accounting, over every history: the recorded tries of a row are at
   * most three, exactly three and all failed when it was given up on, and at most two failures
   * while it waits or before it was sent. All its tries are these and one for each run that died
   * on it; so it is tried more than three times if and only if more runs died on it than it had
   * recorded tries left.
   */
  lemma {:induction false} TriesAreBounded(events: seq<Event>, s: State, id: nat)
    requires IsHistory(EMPTY, events) && s == Replay(EMPTY, events) && id < |s.rows|
    ensures Tries(s.log, id, true) == Used(s.rows[id]) <= 3
    ensures s.rows[id].status.Error? ==> Used(s.rows[id]) == 3 == s.rows[id].attempts
    ensures !s.rows[id].status.Error? ==> s.rows[id].attempts < 3
    ensures AllTries(s, id) == Used(s.rows[id]) + TornOn(events, id)
    ensures AllTries(s, id) > 3 <==> TornOn(events, id) > 3 - Used(s.rows[id])
  {
    HistoryKeepsInv(EMPTY, events);
    TornAreLogged(EMPTY, events, id);
  }

  lemma Follow(s: State, e: Event, s': State, rest: seq<Event>)
    requires Fits(s, e) && s' == Step(s, e) && IsHistory(s', rest)
    ensures IsHistory(s, [e] + rest) && Replay(s, [e] + rest) == Replay(s', rest)
  {
    assert ([e] + rest)[1..] == rest;
  }

  /** One silent try of the only row. */
  lemma SilentRun(n: Notice, log: seq<Try>)
    requires n.status.Pending?
    ensures var run := Run([0], [NoReply], 1, false);
            Fits(State([n], log), run) && Step(State([n], log), run) == State([Tried(n, NoReply)], log + [Try(0, true)])
  {
    var s := State([n], log);
    assert [0][..1] == [0] && [NoReply][..1] == [NoReply];
    assert RecordAll(RecordOne(s, 0, NoReply), [], []) == RecordOne(s, 0, NoReply);
    assert [0][1..] == [] && [NoReply][1..] == [];
  }

  /** A fourth try: a run dies on the row, and three more find Telegram silent. */
  lemma FourTries(key: Key, now: int)
    ensures var silent := Run([0], [NoReply], 1, false);
            var events := [Queued(key, now)]
                + ([Run([0], [NoReply], 0, true)] + ([silent] + ([silent] + ([silent] + []))));
            && IsHistory(EMPTY, events)
            && |Replay(EMPTY, events).rows| == 1 && Replay(EMPTY, events).rows[0].status.Error?
            && AllTries(Replay(EMPTY, events), 0) == 4
  {
    var silent := Run([0], [NoReply], 1, false);
    var died := Run([0], [NoReply], 0, true);
    var n0 := Fresh(key, now);
    var n1 := Tried(n0, NoReply);
    var n2 := Tried(n1, NoReply);
    var n3 := Tried(n2, NoReply);
    var log0 := [Try(0, false)];
    var log1 := log0 + [Try(0, true)];
    var log2 := log1 + [Try(0, true)];
    var log3 := log2 + [Try(0, true)];
    SilentRun(n2, log2);
    Follow(State([n2], log2), silent, State([n3], log3), []);
    SilentRun(n1, log1);
    Follow(State([n1], log1), silent, State([n2], log2), [silent] + []);
    SilentRun(n0, log0);
    Follow(State([n0], log0), silent, State([n1], log1), [silent] + ([silent] + []));
    assert [0][..0] == [] && [NoReply][..0] == [];
    Follow(State([n0], []), died, State([n0], log0), [silent] + ([silent] + ([silent] + [])));
    Follow(EMPTY, Queued(key, now), State([n0], []), [died] + ([silent] + ([silent] + ([silent] + []))));
    FourLogged(State([n3], log3));
  }

  lemma FourLogged(s: State)
    requires s.log == [Try(0, false)] + [Try(0, true)] + [Try(0, true)] + [Try(0, true)]
    ensures AllTries(s, 0) == 4
  {
    var log0 := [Try(0, false)];
    assert [] + log0 == log0;
    forall recorded { TriesGrow([], Try(0, false), 0, recorded); }
    forall recorded { TriesGrow(log0, Try(0, true), 0, recorded); }
    forall recorded { TriesGrow(log0 + [Try(0, true)], Try(0, true), 0, recorded); }
    forall recorded { TriesGrow(log0 + [Try(0, true)] + [Try(0, true)], Try(0, true), 0, recorded); }
  }

  /** Once-only queueing: however often a notice is asked for, before or after it was sent or
      given up on, the table holds one row for it. */
  lemma {:induction false} QueuedOnce(s: State, events: seq<Event>, key: Key, i: nat)
    requires Inv(s) && IsHistory(s, events) && i < |s.rows| && s.rows[i].key == key
    ensures i < |Replay(s, events).rows| && Replay(s, events).rows[i].key == key
    ensures forall j :: 0 <= j < |Replay(s, events).rows| && Replay(s, events).rows[j].key == key ==> j == i
    decreases |events|
  {
    if events != [] {
      StepKeepsInv(s, events[0]);
      if events[0].Run? {
        KeysStay(s, events[0].batch[..events[0].recorded], events[0].outcomes[..events[0].recorded], i);
      }
      QueuedOnce(Step(s, events[0]), events[1..], key, i);
    }
  }

  lemma {:induction false} KeysStay(s: State, ids: seq<nat>, outcomes: seq<Outcome>, i: nat)
    requires |ids| == |outcomes| && forall k :: 0 <= k < |ids| ==> ids[k] < |s.rows|
    requires i < |s.rows|
    ensures |RecordAll(s, ids, outcomes).rows| == |s.rows|
    ensures RecordAll(s, ids, outcomes).rows[i].key == s.rows[i].key
    ensures RecordAll(s, ids, outcomes).rows[i].createdAt == s.rows[i].createdAt
    decreases |ids|
  {
    if ids != [] {
      KeysStay(RecordOne(s, ids[0], outcomes[0]), ids[1..], outcomes[1..], i);
    }
  }

  // ── What a run tries, and what becomes of it ─────────────────────────────

  function PendingIds(rows: Rows): set<nat> {
    set j: nat | j < |rows| && rows[j].status == Pending
  }

  function Members(batch: seq<nat>): (ids: set<nat>)
    ensures forall j :: j in ids <==> j in batch
  {
    set k | 0 <= k < |batch| :: batch[k]
  }

  lemma {:induction false} DistinctCount(batch: seq<nat>)
    requires forall k, m :: 0 <= k < m < |batch| ==> batch[k] != batch[m]
    ensures |Members(batch)| == |batch|
  {
    if batch != [] {
      var front, last := batch[..|batch| - 1], batch[|batch| - 1];
      DistinctCount(front);
      assert Members(batch) == Members(front) + {last};
    }
  }

  lemma SubsetCount(a: set<nat>, b: set<nat>)
    requires a <= b
    ensures |a| <= |b|
    ensures |a| == |b| ==> a == b
  {
    assert b == a + (b - a);
  }

  /** The pending rows that are strictly older than time t. */
  function OlderIds(rows: Rows, t: int): set<nat> {
    set j: nat | j < |rows| && rows[j].status == Pending && rows[j].createdAt < t
  }

  /** The other pending rows that are no younger than row r. */
  function NoYoungerIds(rows: Rows, r: nat): set<nat>
    requires r < |rows|
  {
    set j: nat | j < |rows| && rows[j].status == Pending && rows[j].createdAt <= rows[r].createdAt && j != r
  }

  lemma ChosenBefore(rows: Rows, batch: seq<nat>, r: nat)
    requires IsBatch(rows, batch) && r in batch
    ensures |OlderIds(rows, rows[r].createdAt)| < 50
  {
    var k: nat :| k < |batch| && batch[k] == r;
    DistinctCount(batch);
    assert forall j: nat :: j < |rows| && rows[j].status == Pending && j !in batch ==>
        rows[batch[k]].createdAt <= rows[j].createdAt;
    assert OlderIds(rows, rows[r].createdAt) <= Members(batch) - {r};
    SubsetCount(OlderIds(rows, rows[r].createdAt), Members(batch) - {r});
  }

  lemma LeftOutBehind(rows: Rows, batch: seq<nat>, r: nat)
    requires IsBatch(rows, batch) && r < |rows| && rows[r].status == Pending && r !in batch
    ensures |NoYoungerIds(rows, r)| >= 50
  {
    DistinctCount(batch);
    forall j | j in Members(batch) ensures j in NoYoungerIds(rows, r) {
      var k: nat :| k < |batch| && batch[k] == j;
    }
    SubsetCount(Members(batch), NoYoungerIds(rows, r));
  }

  lemma BatchSize(rows: Rows, batch: seq<nat>)
    requires IsBatch(rows, batch)
    ensures |batch| == (if |PendingIds(rows)| < 50 then |PendingIds(rows)| else 50)
  {
    DistinctCount(batch);
    assert forall j :: j in Members(batch) ==> j in PendingIds(rows);
    SubsetCount(Members(batch), PendingIds(rows));
    if |batch| < SEND_BATCH {
      forall j | j in PendingIds(rows) ensures j in Members(batch) {}
      assert Members(batch) == PendingIds(rows);
    }
  }

  /** A batch holds fifty pending rows, or all there are; a row in it has fewer than fifty strictly
      older ones, and one left out has at least fifty others that are no younger. */
  lemma BatchInNumbers(rows: Rows, batch: seq<nat>, r: nat)
    requires IsBatch(rows, batch) && r < |rows|
    ensures |batch| == (if |PendingIds(rows)| < 50 then |PendingIds(rows)| else 50)
    ensures r in batch ==> rows[r].status == Pending && |OlderIds(rows, rows[r].createdAt)| < 50
    ensures rows[r].status == Pending && r !in batch ==> |NoYoungerIds(rows, r)| >= 50
  {
    hide OlderIds, NoYoungerIds, PendingIds;
    BatchSize(rows, batch);
    if r in batch {
      ChosenBefore(rows, batch, r);
    } else if rows[r].status == Pending {
      LeftOutBehind(rows, batch, r);
    }
  }

  /** What a run leaves, in columns: each row it recorded is sent if it was delivered, and otherwise
      one failure on, waiting while these are fewer than three and given up on at three; every other
      row is as it was. */
  lemma RunInColumns(s: State, run: Event, j: nat)
    requires Inv(s) && run.Run? && Fits(s, run) && j < |s.rows|
    ensures |Step(s, run).rows| == |s.rows|
    ensures var n, after := s.rows[j], Step(s, run).rows[j];
            && (j !in run.batch[..run.recorded] ==> after == n)
            && forall k :: 0 <= k < run.recorded && run.batch[k] == j ==>
                 after == if run.outcomes[k] == Delivered then n.(status := Sent)
                          else n.(attempts := n.attempts + 1, status := if n.attempts >= 2 then Error else Pending)
  {
    hide RowsOk, KeysUnique;
    var ids, outcomes := run.batch[..run.recorded], run.outcomes[..run.recorded];
    RecordAllKeepsInv(s, ids, outcomes);
    forall k | 0 <= k < run.recorded && run.batch[k] == j
      ensures RecordAll(s, ids, outcomes).rows[j] == Tried(s.rows[j], run.outcomes[k])
    {
      OwnTurn(s, ids, outcomes, k);
    }
  }

  // ── No row waits for ever ────────────────────────────────────────────────

  predicate Ahead(n: Notice, t: int) {
    n.status.Pending? && n.createdAt <= t
  }

  function Left(n: Notice, t: int): nat {
    if Ahead(n, t) && n.attempts < MAX_SEND_ATTEMPTS then MAX_SEND_ATTEMPTS - n.attempts else 0
  }

  /** The tries that rows queued no later than t may still cost. */
  function Work(rows: Rows, t: int): nat {
    if rows == [] then 0 else Work(rows[..|rows| - 1], t) + Left(rows[|rows| - 1], t)
  }

  function PendingAhead(rows: Rows, t: int): nat {
    if rows == [] then 0 else PendingAhead(rows[..|rows| - 1], t) + if Ahead(rows[|rows| - 1], t) then 1 else 0
  }

  /** What can still pass before row r is settled: the tries of rows at or ahead of it, and a share
      for each try it has left. */
  function Effort(rows: Rows, r: nat, share: nat): nat
    requires r < |rows|
  {
    if rows[r].status.Pending? && rows[r].attempts < MAX_SEND_ATTEMPTS
    then Work(rows, rows[r].createdAt) + share * (MAX_SEND_ATTEMPTS - rows[r].attempts)
    else 0
  }

  lemma {:induction false} WorkUpdated(rows: Rows, i: nat, n: Notice, t: int)
    requires i < |rows|
    ensures Work(rows[i := n], t) == Work(rows, t) - Left(rows[i], t) + Left(n, t)
  {
    var last := |rows| - 1;
    if i < last {
      assert rows[i := n][..last] == rows[..last][i := n];
      WorkUpdated(rows[..last], i, n, t);
    } else {
      assert rows[i := n][..last] == rows[..last];
    }
  }

  lemma {:induction false} WorkAtMost(rows: Rows, t: int)
    ensures Work(rows, t) <= MAX_SEND_ATTEMPTS * PendingAhead(rows, t)
  {
    if rows != [] { WorkAtMost(rows[..|rows| - 1], t); }
  }

  /** Each recorded try of a row at or ahead of t uses up work; no try adds any. */
  lemma {:induction false} TriesUseWork(s: State, ids: seq<nat>, outcomes: seq<Outcome>, t: int)
    requires Inv(s) && |ids| == |outcomes|
    requires forall k :: 0 <= k < |ids| ==> ids[k] < |s.rows| && s.rows[ids[k]].status.Pending?
    requires forall k, m :: 0 <= k < m < |ids| ==> ids[k] != ids[m]
    ensures Work(RecordAll(s, ids, outcomes).rows, t) <= Work(s.rows, t)
    ensures (exists k :: 0 <= k < |ids| && s.rows[ids[k]].createdAt <= t) ==>
              Work(RecordAll(s, ids, outcomes).rows, t) < Work(s.rows, t)
    ensures (forall k :: 0 <= k < |ids| ==> s.rows[ids[k]].createdAt <= t) ==>
              Work(RecordAll(s, ids, outcomes).rows, t) + |ids| <= Work(s.rows, t)
    decreases |ids|
  {
    hide Tries, KeysUnique, Work;
    if ids != [] {
      var s' := RecordOne(s, ids[0], outcomes[0]);
      WorkUpdated(s.rows, ids[0], s'.rows[ids[0]], t);
      RecordKeepsInv(s, ids[0], outcomes[0]);
      TriesUseWork(s', ids[1..], outcomes[1..], t);
    }
  }

  /** A row's own turn in a run is one try. */
  lemma {:induction false} OwnTurn(s: State, ids: seq<nat>, outcomes: seq<Outcome>, k: nat)
    requires Inv(s) && |ids| == |outcomes| && k < |ids|
    requires forall k :: 0 <= k < |ids| ==> ids[k] < |s.rows| && s.rows[ids[k]].status.Pending?
    requires forall k, m :: 0 <= k < m < |ids| ==> ids[k] != ids[m]
    ensures |RecordAll(s, ids, outcomes).rows| == |s.rows|
    ensures RecordAll(s, ids, outcomes).rows[ids[k]] == Tried(s.rows[ids[k]], outcomes[k])
    decreases |ids|
  {
    var s' := RecordOne(s, ids[0], outcomes[0]);
    RecordKeepsInv(s, ids[0], outcomes[0]);
    if k == 0 {
      RecordAllKeepsInv(s', ids[1..], outcomes[1..]);
      assert ids[0] !in ids[1..];
    } else {
      OwnTurn(s', ids[1..], outcomes[1..], k - 1);
    }
  }

  /** Recorded tries never add effort, and spend a share of it if r is among them. */
  lemma TriesSpendEffort(s: State, ids: seq<nat>, outcomes: seq<Outcome>, r: nat, share: nat)
    requires Inv(s) && |ids| == |outcomes| && r < |s.rows|
    requires forall k :: 0 <= k < |ids| ==> ids[k] < |s.rows| && s.rows[ids[k]].status.Pending?
    requires forall k, m :: 0 <= k < m < |ids| ==> ids[k] != ids[m]
    ensures var rows := RecordAll(s, ids, outcomes).rows;
            && |rows| == |s.rows| && rows[r].createdAt == s.rows[r].createdAt
            && (!s.rows[r].status.Pending? ==> rows[r] == s.rows[r])
            && (rows[r].status.Pending? ==>
                && (r in ids ==> Effort(rows, r, share) + share < Effort(s.rows, r, share))
                && (r !in ids ==> Effort(rows, r, share) <= Effort(s.rows, r, share))
                && ((forall k :: 0 <= k < |ids| ==> s.rows[ids[k]].createdAt <= s.rows[r].createdAt) ==>
                    Effort(rows, r, share) + |ids| <= Effort(s.rows, r, share)))
  {
    hide Work, Tries, KeysUnique, RecordAll;
    KeysStay(s, ids, outcomes, r);
    TriesUseWork(s, ids, outcomes, s.rows[r].createdAt);
    RecordAllKeepsInv(s, ids, outcomes);
    var rows := RecordAll(s, ids, outcomes).rows;
    if r in ids {
      var k: nat :| k < |ids| && ids[k] == r;
      OwnTurn(s, ids, outcomes, k);
      if rows[r].status.Pending? {
        assert rows[r].attempts == s.rows[r].attempts + 1;
        assert RowOk(s.rows[r]) && RowOk(rows[r]);
        assert share * (MAX_SEND_ATTEMPTS - rows[r].attempts) + share
            == share * (MAX_SEND_ATTEMPTS - s.rows[r].attempts);
      }
    }
  }

  predicate IsFullRun(e: Event) {
    e.Run? && e.recorded == |e.batch| && !e.torn
  }

  function Recorded(e: Event): nat {
    if e.Run? then e.recorded else 0
  }

  /** A row that comes in at or ahead of time t. A row's time is when its transaction began, so it
      may come in behind others and still be older than they are. */
  predicate ArrivesAhead(e: Event, t: int) {
    e.Queued? && e.now <= t
  }

  function FullRuns(events: seq<Event>): nat
    decreases |events|
  {
    if events == [] then 0 else (if IsFullRun(events[0]) then 1 else 0) + FullRuns(events[1..])
  }

  function RecordedTries(events: seq<Event>): nat
    decreases |events|
  {
    if events == [] then 0 else Recorded(events[0]) + RecordedTries(events[1..])
  }

  function ArrivalsAhead(events: seq<Event>, t: int): nat
    decreases |events|
  {
    if events == [] then 0 else (if ArrivesAhead(events[0], t) then 1 else 0) + ArrivalsAhead(events[1..], t)
  }

  /** A new row adds three tries at most, and none if it is younger. */
  lemma ArrivalAddsWork(s: State, key: Key, now: int, r: nat, share: nat)
    requires r < |s.rows|
    ensures var rows := Enqueue(s.rows, key, now);
            && r < |rows| && rows[r] == s.rows[r]
            && Effort(rows, r, share)
               <= Effort(s.rows, r, share) + if now <= s.rows[r].createdAt then MAX_SEND_ATTEMPTS else 0
  {
    if !HasKey(s.rows, key) {
      assert (s.rows + [Fresh(key, now)])[..|s.rows|] == s.rows;
    }
  }

  /** A full run takes r, or fifty rows at or ahead of it. Younger rows are tried only in runs that
      have tried r before them, and there are forty-nine of them at most. */
  lemma EventSpendsEffort(s: State, e: Event, r: nat)
    requires Inv(s) && Fits(s, e) && r < |s.rows|
    ensures r < |Step(s, e).rows| && Step(s, e).rows[r].createdAt == s.rows[r].createdAt
    ensures !s.rows[r].status.Pending? ==> !Step(s, e).rows[r].status.Pending?
    ensures Step(s, e).rows[r].status.Pending? ==>
              var more := if ArrivesAhead(e, s.rows[r].createdAt) then MAX_SEND_ATTEMPTS else 0;
              && Effort(Step(s, e).rows, r, SEND_BATCH) + (if IsFullRun(e) then SEND_BATCH else 0)
                 <= Effort(s.rows, r, SEND_BATCH) + more
              && Effort(Step(s, e).rows, r, SEND_BATCH - 1) + Recorded(e)
                 <= Effort(s.rows, r, SEND_BATCH - 1) + more
  {
    hide Effort, RecordAll, Enqueue, RowsOk, KeysUnique;
    match e {
      case Queued(key, now) =>
        ArrivalAddsWork(s, key, now, r, SEND_BATCH);
        ArrivalAddsWork(s, key, now, r, SEND_BATCH - 1);
      case Run(batch, outcomes, recorded, torn) =>
        assert IsFullRun(e) ==> batch[..recorded] == batch;
        TriesSpendEffort(s, batch[..recorded], outcomes[..recorded], r, SEND_BATCH);
        TriesSpendEffort(s, batch[..recorded], outcomes[..recorded], r, SEND_BATCH - 1);
    }
  }

  lemma {:induction false} EffortRunsOut(s: State, events: seq<Event>, r: nat)
    requires Inv(s) && IsHistory(s, events) && r < |s.rows|
    ensures r < |Replay(s, events).rows| && Replay(s, events).rows[r].createdAt == s.rows[r].createdAt
    ensures !s.rows[r].status.Pending? ==> !Replay(s, events).rows[r].status.Pending?
    ensures Replay(s, events).rows[r].status.Pending? ==>
              var more := MAX_SEND_ATTEMPTS * ArrivalsAhead(events, s.rows[r].createdAt);
              && Effort(Replay(s, events).rows, r, SEND_BATCH) + SEND_BATCH * FullRuns(events)
                 <= Effort(s.rows, r, SEND_BATCH) + more
              && Effort(Replay(s, events).rows, r, SEND_BATCH - 1) + RecordedTries(events)
                 <= Effort(s.rows, r, SEND_BATCH - 1) + more
    decreases |events|
  {
    hide Effort, Inv, Step, Fits;
    if events != [] {
      StepKeepsInv(s, events[0]);
      EventSpendsEffort(s, events[0], r);
      EffortRunsOut(Step(s, events[0]), events[1..], r);
    }
  }

  /** Three tries for each row that is, or comes in, at or ahead of row r. */
  function WorkAhead(s: State, events: seq<Event>, r: nat): nat
    requires r < |s.rows|
  {
    var t := s.rows[r].createdAt;
    3 * (PendingAhead(s.rows, t) + ArrivalsAhead(events, t))
  }

  /**
   * No starvation, with a bound, over every history: if N rows are pending at or ahead of row r or
   * come in there later, then r is sent or given up on after floor(3N / 50) + 3 full runs at the
   * latest, whatever the tries' outcomes, however many runs die half-way and however many younger
   * rows arrive.
   */
  lemma EveryRowIsSettled(s: State, events: seq<Event>, r: nat)
    requires Inv(s) && IsHistory(s, events) && r < |s.rows|
    requires FullRuns(events) >= WorkAhead(s, events, r) / 50 + 3
    ensures r < |Replay(s, events).rows| && !Replay(s, events).rows[r].status.Pending?
  {
    hide Replay, IsHistory, Work, PendingAhead, ArrivalsAhead, FullRuns, KeysUnique, Tries;
    EffortRunsOut(s, events, r);
    HistoryKeepsInv(s, events);
    WorkAtMost(s.rows, s.rows[r].createdAt);
    var after := Replay(s, events).rows;
    if after[r].status.Pending? {
      OwnWork(after, r);
    }
  }

  /**
   * A sender that is always cut off still makes progress: with N rows pending at or ahead of row
   * r or coming in there later, it is settled once 3N + 98 tries have been recorded, in however
   * many runs.
   */
  lemma EveryRowIsSettledByTries(s: State, events: seq<Event>, r: nat)
    requires Inv(s) && IsHistory(s, events) && r < |s.rows|
    requires RecordedTries(events) >= WorkAhead(s, events, r) + 98
    ensures r < |Replay(s, events).rows| && !Replay(s, events).rows[r].status.Pending?
  {
    hide Replay, IsHistory, Work, PendingAhead, ArrivalsAhead, RecordedTries, KeysUnique, Tries;
    EffortRunsOut(s, events, r);
    HistoryKeepsInv(s, events);
    WorkAtMost(s.rows, s.rows[r].createdAt);
    var after := Replay(s, events).rows;
    if after[r].status.Pending? {
      OwnWork(after, r);
    }
  }

  /** A pending row is itself some of its work. */
  lemma OwnWork(rows: Rows, r: nat)
    requires r < |rows| && rows[r].status.Pending? && rows[r].attempts < MAX_SEND_ATTEMPTS
    ensures Work(rows, rows[r].createdAt) > 0
  {
    WorkUpdated(rows, r, rows[r].(status := Sent), rows[r].createdAt);
  }

  // ── Templates that cannot be rendered ────────────────────────────────────

  /** A full run that could not render a row's template leaves it waiting for another try if and
      only if it had failed less than twice before, exactly as if Telegram had been silent; the
      error is not final. */
  lemma UnrenderableIsRetried(s: State, batch: seq<nat>, outcomes: seq<Outcome>, k: nat)
    requires Inv(s) && IsBatch(s.rows, batch) && |outcomes| == |batch| && k < |batch| && outcomes[k] == Unrenderable
    ensures var before, after := s.rows[batch[k]], AfterRun(s, batch, outcomes, |batch|, false).rows;
            && batch[k] < |after| && after[batch[k]].attempts == before.attempts + 1
            && (after[batch[k]].status.Pending? <==> before.attempts + 1 < MAX_SEND_ATTEMPTS)
            && after[batch[k]] == Tried(before, NoReply)
  {
    assert batch[..|batch|] == batch && outcomes[..|batch|] == outcomes;
    OwnTurn(s, batch, outcomes, k);
  }
}
