/**
 * The server half of the offline protocol: any number of request transactions, running
 * concurrently over the committed key table.
 *
 * An insert into the table waits while another open transaction holds an uncommitted row
 * of the same slot; once that one has gone, it either succeeds or fails on the unique
 * constraint. A handler runs begin, service and finish in one transaction and the answer
 * is sent after the commit. Any open transaction may be cut off and rolled back.
 */
module OfflineServer {
  import opened Options
  import opened Idempotency

  /** A request as the network holds it; `slot` and `fp` are what the handler derives. */
  datatype HttpRequest = HttpRequest(slot: Slot, fp: Fingerprint)

  datatype Phase =
    | Arrived
    | Conflicted                // the insert hit the unique constraint, savepoint undone
    | Holding                   // the key row is inserted, not committed
    | Ran(reply: Reply)         // the service has run, its effect not committed
    | Finished(reply: Reply)    // the row is completed, nothing committed

  datatype Tx = Tx(rid: nat, req: HttpRequest, phase: Phase)

  /** One committed run of a service. */
  datatype Effect = Effect(slot: Slot, fp: Fingerprint, reply: Reply)

  datatype Answer =
    | Ok(reply: Reply)
    | Unauthorized
    | ServiceError(code: string)  // the service raised, or another guard refused
    | KeyReusedError              // 409 IDEMPOTENCY_KEY_REUSED
    | InProgressError             // 409 IDEMPOTENCY_IN_PROGRESS
    | NoRowError                  // the lookup after the failed insert found no row

  datatype Sent = Sent(rid: nat, answer: Answer)

  datatype Server = Server(
    rows: Table, effects: seq<Effect>, open: map<nat, Tx>, answers: set<Sent>)

  datatype Step =
    | Deliver(t: nat, rid: nat)
    | RejectAuth(rid: nat)
    | Insert(t: nat)
    | Select(t: nat)
    | RunService(t: nat, service: Service)
    | FinishRow(t: nat)
    | Commit(t: nat)
    | Abort(t: nat)

  predicate IsHolder(phase: Phase) {
    phase.Holding? || phase.Ran? || phase.Finished?
  }

  /** Another open transaction holds the slot's uncommitted row, so an insert must wait. */
  ghost predicate Blocked(s: Server, t: nat)
    requires t in s.open
  {
    exists u :: u in s.open && u != t && IsHolder(s.open[u].phase) && s.open[u].req.slot == s.open[t].req.slot
  }

  ghost predicate InPhase(s: Server, t: nat, p: Phase) {
    t in s.open && s.open[t].phase == p
  }

  ghost predicate Enabled(s: Server, sent: map<nat, HttpRequest>, step: Step) {
    match step
    case Deliver(t, rid) => t !in s.open && rid in sent
    case RejectAuth(rid) => rid in sent
    case Insert(t) => InPhase(s, t, Arrived) && !Blocked(s, t)
    case Select(t) => InPhase(s, t, Conflicted)
    case RunService(t, _) => InPhase(s, t, Holding)
    case FinishRow(t) => t in s.open && s.open[t].phase.Ran?
    case Commit(t) => t in s.open && s.open[t].phase.Finished?
    case Abort(t) => t in s.open
  }

  function Advance(s: Server, t: nat, phase: Phase): Server
    requires t in s.open
  {
    s.(open := s.open[t := s.open[t].(phase := phase)])
  }

  function Close(s: Server, t: nat, answer: Answer): Server
    requires t in s.open
  {
    s.(open := s.open - {t}, answers := s.answers + {Sent(s.open[t].rid, answer)})
  }

  /** What `begin` tells the client when its row was already there. A missing row would
      break the query that expects exactly one; `RowIsThere` shows it cannot happen. */
  function ConflictAnswer(rows: Table, req: HttpRequest): Answer {
    if req.slot !in rows then NoRowError
    else match OnConflict(rows[req.slot], req.fp)
      case Replay(reply) => Ok(reply)
      case InProgress => InProgressError
      case _ => KeyReusedError
  }

  function Next(s: Server, sent: map<nat, HttpRequest>, step: Step): (s': Server)
    requires match step
             case Deliver(t, rid) => rid in sent
             case RejectAuth(rid) => true
             case FinishRow(t) => t in s.open && s.open[t].phase.Ran?
             case Commit(t) => t in s.open && s.open[t].phase.Finished?
             case _ => step.t in s.open
  {
    match step
    case Deliver(t, rid) => s.(open := s.open[t := Tx(rid, sent[rid], Arrived)])
    case RejectAuth(rid) => s.(answers := s.answers + {Sent(rid, Unauthorized)})
    case Insert(t) => Advance(s, t, if s.open[t].req.slot in s.rows then Conflicted else Holding)
    case Select(t) => Close(s, t, ConflictAnswer(s.rows, s.open[t].req))
    case RunService(t, service) =>
      (match service
       case Succeeds(reply) => Advance(s, t, Ran(reply))
       case Raises(code) => Close(s, t, ServiceError(code)))
    case FinishRow(t) => Advance(s, t, Finished(s.open[t].phase.reply))
    case Commit(t) =>
      var req, reply := s.open[t].req, s.open[t].phase.reply;
      var closed := Close(s, t, Ok(reply));
      closed.(rows := s.rows[req.slot := Row(req.fp, 0, Some(reply))],
              effects := s.effects + [Effect(req.slot, req.fp, reply)])
    case Abort(t) => s.(open := s.open - {t})
  }

  const INITIAL := Server(map[], [], map[], {})

  /** One request's transaction from its insert to its end, with nothing in between. */
  ghost function Alone(s: Server, sent: map<nat, HttpRequest>, t: nat, service: Service): Server
    requires InPhase(s, t, Arrived)
  {
    var inserted := Next(s, sent, Insert(t));
    if inserted.open[t].phase.Conflicted? then Next(inserted, sent, Select(t))
    else
      var ran := Next(inserted, sent, RunService(t, service));
      if service.Raises? then ran else Next(Next(ran, sent, FinishRow(t)), sent, Commit(t))
  }

  function AsAnswer(a: Answer): Idempotency.Answer {
    match a
    case Ok(reply) => Answered(reply)
    case KeyReusedError => Refused("IDEMPOTENCY_KEY_REUSED")
    case InProgressError => Refused("IDEMPOTENCY_IN_PROGRESS")
    case ServiceError(code) => Refused(code)
    case _ => Refused("")
  }

  /** The tables agree in everything the protocol reads; who created a row it never does. */
  ghost predicate SameButCreator(a: Table, b: Table) {
    a.Keys == b.Keys && forall s :: s in a ==> a[s].hash == b[s].hash && a[s].completion == b[s].completion
  }

  /**
   * The transactions and the handler agree: one that runs alone leaves the table, gives the
   * answer and commits an effect exactly as the handler of the key table does.
   */
  lemma AloneIsHandled(s: Server, sent: map<nat, HttpRequest>, t: nat, service: Service, clubId: int, key: string,
                       route: string, userId: int, fp: Fingerprint)
    requires InPhase(s, t, Arrived) && 0 < |key| <= MAX_KEY_LEN
    requires s.open[t].req == HttpRequest(Slot(clubId, key, route), fp)
    ensures var r := Request(clubId, Some(key), route, userId, fp);
            var after := Alone(s, sent, t, service);
            && SameButCreator(after.rows, AfterHandled(s.rows, r, service))
            && (|after.effects| == |s.effects| + 1 <==> Handled(s.rows, r, service).1)
            && (after.effects == s.effects <==> !Handled(s.rows, r, service).1)
            && exists a :: Sent(s.open[t].rid, a) in after.answers && AsAnswer(a) == Handled(s.rows, r, service).0
  {
    var r := Request(clubId, Some(key), route, userId, fp);
    var after := Alone(s, sent, t, service);
    assert SlotOf(r) == s.open[t].req.slot;
    var a := if SlotOf(r) in s.rows then ConflictAnswer(s.rows, s.open[t].req)
             else if service.Raises? then ServiceError(service.code) else Ok(service.reply);
    assert Sent(s.open[t].rid, a) in after.answers;
  }

  // ── Invariant ────────────────────────────────────────────────────────────

  ghost predicate HasEffect(effects: seq<Effect>, slot: Slot) {
    exists i :: 0 <= i < |effects| && effects[i].slot == slot
  }

  ghost predicate EffectsMatchRows(s: Server) {
    && (forall i :: 0 <= i < |s.effects| ==>
          var e := s.effects[i];
          e.slot in s.rows && s.rows[e.slot].hash == e.fp && s.rows[e.slot].completion == Some(e.reply))
    && (forall slot :: slot in s.rows ==> HasEffect(s.effects, slot))
    && (forall i, j :: 0 <= i < j < |s.effects| ==> s.effects[i].slot != s.effects[j].slot)
  }

  ghost predicate TxOk(s: Server, sent: map<nat, HttpRequest>, t: nat)
    requires t in s.open
  {
    var tx := s.open[t];
    && tx.rid in sent && sent[tx.rid] == tx.req
    && (IsHolder(tx.phase) ==> tx.req.slot !in s.rows)
    && (tx.phase.Conflicted? ==> tx.req.slot in s.rows)
  }

  ghost predicate HoldersDiffer(s: Server) {
    forall t, u :: t in s.open && u in s.open && t != u && IsHolder(s.open[t].phase) && IsHolder(s.open[u].phase)
      ==> s.open[t].req.slot != s.open[u].req.slot
  }

  /** A successful answer repeats the one committed row of its slot. */
  ghost predicate AnswerOk(s: Server, sent: map<nat, HttpRequest>, a: Sent) {
    && a.rid in sent
    && !a.answer.NoRowError? && !a.answer.InProgressError?
    && (a.answer.Ok? ==>
          var req := sent[a.rid];
          req.slot in s.rows && s.rows[req.slot].hash == req.fp && s.rows[req.slot].completion == Some(a.answer.reply))
  }

  /** Every committed row came from a request that was sent. */
  ghost predicate RowsWereSent(s: Server, sent: map<nat, HttpRequest>) {
    forall slot :: slot in s.rows ==> exists rid :: rid in sent && sent[rid] == HttpRequest(slot, s.rows[slot].hash)
  }

  ghost predicate Inv(s: Server, sent: map<nat, HttpRequest>) {
    && EffectsMatchRows(s)
    && HoldersDiffer(s)
    && RowsWereSent(s, sent)
    && (forall t :: t in s.open ==> TxOk(s, sent, t))
    && (forall a :: a in s.answers ==> AnswerOk(s, sent, a))
  }

  lemma InitialInv(sent: map<nat, HttpRequest>)
    ensures Inv(INITIAL, sent)
  {
  }

  /** New requests on the network disturb nothing on the server. */
  lemma SendingKeepsInv(s: Server, sent: map<nat, HttpRequest>, sent': map<nat, HttpRequest>)
    requires Inv(s, sent) && sent.Keys <= sent'.Keys && forall r :: r in sent ==> sent'[r] == sent[r]
    ensures Inv(s, sent')
  {
    forall slot | slot in s.rows
      ensures exists rid :: rid in sent' && sent'[rid] == HttpRequest(slot, s.rows[slot].hash)
    {
      var rid :| rid in sent && sent[rid] == HttpRequest(slot, s.rows[slot].hash);
      assert rid in sent' && sent'[rid] == sent[rid];
    }
  }

  lemma CommitKeepsEffects(s: Server, sent: map<nat, HttpRequest>, t: nat)
    requires Inv(s, sent) && Enabled(s, sent, Commit(t))
    ensures EffectsMatchRows(Next(s, sent, Commit(t)))
  {
    assert TxOk(s, sent, t);
    var req, reply := s.open[t].req, s.open[t].phase.reply;
    EffectKeepsMatch(s, Next(s, sent, Commit(t)), Effect(req.slot, req.fp, reply));
  }

  lemma EffectKeepsMatch(s: Server, s': Server, e: Effect)
    requires EffectsMatchRows(s) && e.slot !in s.rows
    requires s'.effects == s.effects + [e] && s'.rows == s.rows[e.slot := Row(e.fp, 0, Some(e.reply))]
    ensures EffectsMatchRows(s')
  {
    hide HasEffect;
    forall slot | slot in s'.rows ensures HasEffect(s'.effects, slot) {
      EffectAppended(s.effects, e, slot);
    }
  }

  lemma EffectAppended(effects: seq<Effect>, e: Effect, slot: Slot)
    ensures HasEffect(effects + [e], slot) <==> HasEffect(effects, slot) || slot == e.slot
  {
    var longer := effects + [e];
    assert longer[|effects|] == e;
    if i :| 0 <= i < |effects| && effects[i].slot == slot { assert longer[i].slot == slot; }
  }

  /** Steps that leave the committed tables alone and change one transaction at most. */
  lemma LocalChangeKeepsInv(s: Server, sent: map<nat, HttpRequest>, s': Server, t: nat)
    requires Inv(s, sent)
    requires s'.rows == s.rows && s'.effects == s.effects
    requires s'.open.Keys <= s.open.Keys + {t}
    requires forall u :: u in s'.open && u != t ==> s'.open[u] == s.open[u]
    requires t in s'.open ==> TxOk(s', sent, t)
    requires t in s'.open && IsHolder(s'.open[t].phase) ==>
               forall u :: u in s.open && u != t && IsHolder(s.open[u].phase) ==>
                   s.open[u].req.slot != s'.open[t].req.slot
    requires forall a :: a in s'.answers ==> a in s.answers || AnswerOk(s, sent, a)
    ensures Inv(s', sent)
  {
    forall u | u in s'.open ensures TxOk(s', sent, u) {
      if u != t { assert TxOk(s, sent, u); }
    }
    forall a | a in s'.answers ensures AnswerOk(s', sent, a) {
      assert AnswerOk(s, sent, a);
    }
  }

  lemma CommitKeepsInv(s: Server, sent: map<nat, HttpRequest>, t: nat)
    requires Inv(s, sent) && Enabled(s, sent, Commit(t))
    ensures Inv(Next(s, sent, Commit(t)), sent)
  {
    var s' := Next(s, sent, Commit(t));
    CommitKeepsEffects(s, sent, t);
    var req := s.open[t].req;
    assert TxOk(s, sent, t);
    forall slot | slot in s'.rows
      ensures exists rid :: rid in sent && sent[rid] == HttpRequest(slot, s'.rows[slot].hash)
    {
      if slot == req.slot {
        assert sent[s.open[t].rid] == HttpRequest(slot, s'.rows[slot].hash);
      } else {
        var rid :| rid in sent && sent[rid] == HttpRequest(slot, s.rows[slot].hash);
      }
    }
    forall u | u in s'.open ensures TxOk(s', sent, u) {
      assert TxOk(s, sent, u);
    }
    forall a | a in s'.answers ensures AnswerOk(s', sent, a) {
      assert a in s.answers ==> AnswerOk(s, sent, a);
    }
  }

  lemma SelectAnswerOk(s: Server, sent: map<nat, HttpRequest>, t: nat)
    requires Inv(s, sent) && InPhase(s, t, Conflicted)
    ensures AnswerOk(s, sent, Sent(s.open[t].rid, ConflictAnswer(s.rows, s.open[t].req)))
  {
    assert TxOk(s, sent, t);
    var slot := s.open[t].req.slot;
    var i :| 0 <= i < |s.effects| && s.effects[i].slot == slot;
  }

  lemma StepKeepsInv(s: Server, sent: map<nat, HttpRequest>, step: Step)
    requires Inv(s, sent) && Enabled(s, sent, step)
    ensures Inv(Next(s, sent, step), sent)
  {
    var s' := Next(s, sent, step);
    if step.Commit? {
      CommitKeepsInv(s, sent, step.t);
    } else if step.RejectAuth? {
      if 0 in s.open { assert TxOk(s, sent, 0); }
      LocalChangeKeepsInv(s, sent, s', 0);
    } else {
      if step.Select? { SelectAnswerOk(s, sent, step.t); }
      if step.t in s.open { assert TxOk(s, sent, step.t); }
      LocalChangeKeepsInv(s, sent, s', step.t);
    }
  }

  // ── What the invariant says ──────────────────────────────────────────────

  /** How often the service of a slot was run and committed. */
  function CountEffects(effects: seq<Effect>, slot: Slot): nat {
    if effects == [] then 0
    else CountEffects(effects[..|effects| - 1], slot) + if effects[|effects| - 1].slot == slot then 1 else 0
  }

  lemma {:induction false} CountDistinct(effects: seq<Effect>, slot: Slot)
    requires forall i, j :: 0 <= i < j < |effects| ==> effects[i].slot != effects[j].slot
    ensures CountEffects(effects, slot) == if exists i :: 0 <= i < |effects| && effects[i].slot == slot then 1 else 0
  {
    if effects != [] {
      CountDistinct(effects[..|effects| - 1], slot);
      if i :| 0 <= i < |effects| && effects[i].slot == slot {
        assert i < |effects| - 1 ==> effects[..|effects| - 1][i].slot == slot;
      }
    }
  }

  /** Each committed key row stands for exactly one committed effect, and the other way round. */
  lemma OneEffectPerRow(s: Server, sent: map<nat, HttpRequest>, slot: Slot)
    requires Inv(s, sent)
    ensures CountEffects(s.effects, slot) == if slot in s.rows then 1 else 0
    ensures slot in s.rows ==> s.rows[slot].completion.Some?
  {
    CountDistinct(s.effects, slot);
    if slot in s.rows {
      var i :| 0 <= i < |s.effects| && s.effects[i].slot == slot;
    }
  }

  /** The row that made an insert fail is there, and complete, when it is looked up. */
  lemma RowIsThere(s: Server, sent: map<nat, HttpRequest>, t: nat)
    requires Inv(s, sent) && InPhase(s, t, Conflicted)
    ensures s.open[t].req.slot in s.rows
    ensures s.rows[s.open[t].req.slot].completion.Some?
    ensures ConflictAnswer(s.rows, s.open[t].req).Ok? <==> s.rows[s.open[t].req.slot].hash == s.open[t].req.fp
  {
    assert TxOk(s, sent, t);
    OneEffectPerRow(s, sent, s.open[t].req.slot);
  }

  /** Committed rows and effects are never changed or removed. */
  lemma StepOnlyAdds(s: Server, sent: map<nat, HttpRequest>, step: Step)
    requires Inv(s, sent) && Enabled(s, sent, step)
    ensures var s' := Next(s, sent, step);
            && s.effects <= s'.effects
            && s.answers <= s'.answers
            && forall slot :: slot in s.rows ==> slot in s'.rows && s'.rows[slot] == s.rows[slot]
  {
    if step.Commit? {
      assert TxOk(s, sent, step.t);
    }
  }
}
