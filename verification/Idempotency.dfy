/**
 * The server's Idempotency-Key table. `Begin` reserves the key's row or finds the stored
 * answer; `Finish` completes the row inside the same transaction as the handler's effect.
 *
 * SHA-256 over canonical JSON is taken as collision-free, so the hash column holds the
 * hashed pair itself. A row is identified by its unique (club, key, route) slot.
 */
module Idempotency {
  import opened Options
  import opened Commands

  const MAX_KEY_LEN := 128

  datatype Fingerprint = Fingerprint(path: JsonObject, body: JsonObject)

  datatype Slot = Slot(clubId: int, key: string, route: string)

  datatype Reply = Reply(status: int, body: JsonObject)

  /** `completion` is None while the row's own request is still running. */
  datatype Row = Row(hash: Fingerprint, createdBy: int, completion: Option<Reply>)

  type Table = map<Slot, Row>

  datatype Outcome =
    | Unkeyed              // no key was sent: run the service, record nothing
    | Reserved(slot: Slot) // run the service, then finish this row
    | Replay(reply: Reply) // answer with this, do not run the service
    | KeyReused            // 409 IDEMPOTENCY_KEY_REUSED
    | InProgress           // 409 IDEMPOTENCY_IN_PROGRESS

  datatype Request = Request(clubId: int, key: Option<string>, route: string, userId: int, fp: Fingerprint)

  function Truncate(key: string): string {
    if |key| <= MAX_KEY_LEN then key else key[..MAX_KEY_LEN]
  }

  predicate HasKey(r: Request) {
    r.key.Some? && r.key.value != ""
  }

  function SlotOf(r: Request): Slot
    requires HasKey(r)
  {
    Slot(r.clubId, Truncate(r.key.value), r.route)
  }

  /** The branch taken when the insert hit the unique constraint. */
  function OnConflict(row: Row, hash: Fingerprint): Outcome {
    if row.hash != hash then KeyReused
    else if row.completion.None? then InProgress
    else Replay(row.completion.value)
  }

  /** What `begin` answers on a table, and the table it leaves. */
  function BeginOutcome(rows: Table, r: Request): Outcome {
    if !HasKey(r) then Unkeyed
    else if SlotOf(r) in rows then OnConflict(rows[SlotOf(r)], r.fp)
    else Reserved(SlotOf(r))
  }

  function AfterBegin(rows: Table, r: Request): Table {
    var o := BeginOutcome(rows, r);
    if o.Reserved? then rows[o.slot := Row(r.fp, r.userId, None)] else rows
  }

  function AfterFinish(rows: Table, slot: Option<Slot>, reply: Reply): Table {
    if slot.Some? && slot.value in rows
    then rows[slot.value := rows[slot.value].(completion := Some(reply))]
    else rows
  }

  /** How the handler's service call went: an answer, or an exception that rolls back. */
  datatype Service = Succeeds(reply: Reply) | Raises(code: string)

  datatype Answer = Answered(reply: Reply) | Refused(code: string)

  /** The table as one request's transaction sees it. */
  class KeyTable {
    var rows: Table

    constructor ()
      ensures rows == map[]
    {
      rows := map[];
    }

    method Begin(r: Request) returns (outcome: Outcome)
      modifies this
      ensures outcome == BeginOutcome(old(rows), r)
      ensures rows == AfterBegin(old(rows), r)
    {
      if r.key == None || r.key == Some("") {
        return Unkeyed;
      }
      var key := if |r.key.value| <= MAX_KEY_LEN then r.key.value else r.key.value[..MAX_KEY_LEN];
      var slot := Slot(r.clubId, key, r.route);
      if slot in rows {
        var row := rows[slot];
        if row.hash != r.fp {
          return KeyReused;
        }
        if row.completion.None? {
          return InProgress;
        }
        return Replay(row.completion.value);
      }
      rows := rows[slot := Row(r.fp, r.userId, None)];
      return Reserved(slot);
    }

    method Finish(slot: Option<Slot>, reply: Reply)
      modifies this
      ensures rows == AfterFinish(old(rows), slot, reply)
    {
      if slot == None {
        return;
      }
      if slot.value in rows {
        rows := rows[slot.value := rows[slot.value].(completion := Some(reply))];
      }
    }

    /** A handler: begin, service, finish, in one transaction that an exception undoes. */
    method Handle(r: Request, service: Service) returns (answer: Answer, ran: bool)
      modifies this
      ensures (answer, ran) == Handled(old(rows), r, service)
      ensures rows == AfterHandled(old(rows), r, service)
    {
      var before := rows;
      var outcome := Begin(r);
      match outcome {
        case Replay(reply) => return Answered(reply), false;
        case KeyReused => return Refused("IDEMPOTENCY_KEY_REUSED"), false;
        case InProgress => return Refused("IDEMPOTENCY_IN_PROGRESS"), false;
        case _ =>
      }
      if service.Raises? {
        rows := before;
        return Refused(service.code), false;
      }
      Finish(if outcome.Reserved? then Some(outcome.slot) else None, service.reply);
      return Answered(service.reply), true;
    }
  }

  /** The answer of one handler call, and whether the service's effect was committed. */
  function Handled(rows: Table, r: Request, service: Service): (Answer, bool) {
    match BeginOutcome(rows, r)
    case Replay(reply) => (Answered(reply), false)
    case KeyReused => (Refused("IDEMPOTENCY_KEY_REUSED"), false)
    case InProgress => (Refused("IDEMPOTENCY_IN_PROGRESS"), false)
    case _ => if service.Raises? then (Refused(service.code), false) else (Answered(service.reply), true)
  }

  function AfterHandled(rows: Table, r: Request, service: Service): Table {
    match BeginOutcome(rows, r)
    case Reserved(slot) =>
      if service.Raises? then rows
      else AfterFinish(AfterBegin(rows, r), Some(slot), service.reply)
    case _ => rows
  }

  /**
   * One call in full. Without a key, or with an empty one, the service simply runs. With one, the
   * first call of a club, route and key, cut to 128 characters, runs the service and leaves its row
   * with the hash, the caller and the answer, or leaves nothing if the service raises; a later one
   * is answered from the row, refused for another path or body, or refused while the row is open.
   */
  lemma OneCall(rows: Table, r: Request, service: Service)
    ensures r.key == None || r.key == Some("") ==>
              && AfterHandled(rows, r, service) == rows
              && Handled(rows, r, service)
                 == (if service.Succeeds? then (Answered(service.reply), true) else (Refused(service.code), false))
    ensures r.key.Some? && |r.key.value| > 0 ==>
              var key := r.key.value;
              var slot := Slot(r.clubId, if |key| > 128 then key[..128] else key, r.route);
              var (answer, ran) := Handled(rows, r, service);
              if slot !in rows then
                match service
                case Succeeds(reply) =>
                  && answer == Answered(reply) && ran
                  && AfterHandled(rows, r, service) == rows[slot := Row(r.fp, r.userId, Some(reply))]
                case Raises(code) =>
                  answer == Refused(code) && !ran && AfterHandled(rows, r, service) == rows
              else
                && !ran && AfterHandled(rows, r, service) == rows
                && answer == (if rows[slot].hash != r.fp then Refused("IDEMPOTENCY_KEY_REUSED")
                              else match rows[slot].completion
                                   case None => Refused("IDEMPOTENCY_IN_PROGRESS")
                                   case Some(reply) => Answered(reply))
  {
  }

  /** Every row that outlives its transaction carries its answer. */
  ghost predicate AllComplete(rows: Table) {
    forall s :: s in rows ==> rows[s].completion.Some?
  }

  lemma HandlingKeepsComplete(rows: Table, r: Request, service: Service)
    requires AllComplete(rows)
    ensures AllComplete(AfterHandled(rows, r, service))
    ensures forall s :: s in rows ==>
        s in AfterHandled(rows, r, service) && AfterHandled(rows, r, service)[s] == rows[s]
  {
  }

  /** A history of handler calls, each with its own idea of what the service would say. */
  datatype Call = Call(request: Request, service: Service)

  function AfterCalls(rows: Table, calls: seq<Call>): Table {
    if calls == [] then rows
    else AfterHandled(AfterCalls(rows, calls[..|calls| - 1]), calls[|calls| - 1].request, calls[|calls| - 1].service)
  }

  function CallResult(rows: Table, calls: seq<Call>, i: nat): (Answer, bool)
    requires i < |calls|
  {
    Handled(AfterCalls(rows, calls[..i]), calls[i].request, calls[i].service)
  }

  lemma {:induction false} CallsKeepRows(rows: Table, calls: seq<Call>, i: nat)
    requires AllComplete(rows) && i <= |calls|
    ensures AllComplete(AfterCalls(rows, calls))
    ensures var mid := AfterCalls(rows, calls[..i]);
            forall s :: s in mid ==> s in AfterCalls(rows, calls) && AfterCalls(rows, calls)[s] == mid[s]
  {
    if calls == [] || i == |calls| {
      assert calls[..i] == calls;
      if calls != [] {
        CallsKeepRows(rows, calls[..i - 1], i - 1);
        HandlingKeepsComplete(AfterCalls(rows, calls[..i - 1]), calls[i - 1].request, calls[i - 1].service);
      }
    } else {
      var shorter := calls[..|calls| - 1];
      assert shorter[..i] == calls[..i];
      CallsKeepRows(rows, shorter, i);
      HandlingKeepsComplete(AfterCalls(rows, shorter), calls[|calls| - 1].request, calls[|calls| - 1].service);
    }
  }

  /**
   * A key works once. After a call whose effect was committed, any later call on the same
   * slot runs nothing: it repeats the stored answer word for word when path and body are
   * the same, and is refused as a reuse when they are not.
   */
  lemma LaterCallsReplay(rows: Table, calls: seq<Call>, i: nat, j: nat)
    requires AllComplete(rows) && i < j < |calls|
    requires HasKey(calls[i].request) && HasKey(calls[j].request)
    requires SlotOf(calls[i].request) == SlotOf(calls[j].request)
    requires CallResult(rows, calls, i).1
    ensures !CallResult(rows, calls, j).1
    ensures CallResult(rows, calls, j).0 ==
            if calls[j].request.fp == calls[i].request.fp then CallResult(rows, calls, i).0
            else Refused("IDEMPOTENCY_KEY_REUSED")
  {
    var after := AfterCalls(rows, calls[..i + 1]);
    assert calls[..i + 1][..i] == calls[..i];
    CallsKeepRows(rows, calls[..i], i);
    assert calls[..j][..i + 1] == calls[..i + 1];
    CallsKeepRows(rows, calls[..j], i + 1);
    var slot := SlotOf(calls[i].request);
    assert slot in after && after[slot].completion == Some(calls[i].service.reply);
  }

  /** Keys are told apart by their first 128 characters and by nothing else. */
  lemma KeysTruncated(k: string, l: string)
    ensures Truncate(k) == Truncate(l) <==>
            k == l || (|k| >= MAX_KEY_LEN && |l| >= MAX_KEY_LEN && k[..MAX_KEY_LEN] == l[..MAX_KEY_LEN])
  {
    if |k| <= MAX_KEY_LEN { assert k[..|k|] == k; }
    if |l| <= MAX_KEY_LEN { assert l[..|l|] == l; }
  }

  /** So a longer key can be answered with the reply of another command's key. */
  lemma LongKeysCollide(rows: Table, r: Request, service: Service, other: Service)
    requires r.key == Some(seq(MAX_KEY_LEN, _ => 'k')) && SlotOf(r) !in rows && service.Succeeds?
    ensures var clash := r.(key := Some(r.key.value + "x"));
            Handled(AfterHandled(rows, r, service), clash, other) == (Answered(service.reply), false)
  {
    var clash := r.(key := Some(r.key.value + "x"));
    assert Truncate(clash.key.value) == r.key.value;
  }
}
