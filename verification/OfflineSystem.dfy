/**
 * The whole offline pipeline: the console's tabs and outbox, the network, and the server's
 * concurrent transactions, interleaved in any order.
 */
module OfflineSystem {
  import opened Options
  import opened Commands
  import opened Idempotency
  import opened Outbox
  import opened OutboxStore
  import S = OfflineServer
  import C = OfflineClient

  datatype World = World(client: C.Client, server: S.Server)

  datatype Step = ClientStep(c: C.Step) | ServerStep(s: S.Step)

  const INITIAL := World(C.INITIAL, S.INITIAL)

  ghost predicate Enabled(w: World, step: Step) {
    match step
    case ClientStep(c) => C.Enabled(w.client, w.server.answers, c)
    case ServerStep(s) => S.Enabled(w.server, w.client.sent, s)
  }

  ghost function Next(w: World, step: Step): World
    requires Enabled(w, step)
  {
    match step
    case ClientStep(c) => w.(client := C.Next(w.client, w.server.answers, c))
    case ServerStep(s) => w.(server := S.Next(w.server, w.client.sent, s))
  }

  ghost predicate Leads(w: World, step: Step, w': World) {
    Enabled(w, step) && w' == Next(w, step)
  }

  /** A run: from the empty world, one step of anybody at a time. */
  ghost predicate IsRun(run: seq<World>) {
    && run != [] && run[0] == INITIAL
    && forall i :: 0 <= i < |run| - 1 ==> Connected(run[i], run[i + 1])
  }

  ghost predicate Connected(w: World, w': World) {
    exists step :: Leads(w, step, w')
  }

  /** The console is never told that its own key was reused for something else. */
  ghost predicate OwnKeysNotReused(w: World) {
    forall a :: a in w.server.answers && a.answer.KeyReusedError? && a.rid in w.client.sent ==>
      w.client.sent[a.rid].slot.key !in w.client.born
  }

  ghost predicate Inv(w: World) {
    && C.Inv(w.client, w.server.answers)
    && S.Inv(w.server, w.client.sent)
    && OwnKeysNotReused(w)
  }

  lemma ClientStepKeepsInv(w: World, c: C.Step)
    requires Inv(w) && Enabled(w, ClientStep(c))
    ensures Inv(Next(w, ClientStep(c)))
  {
    var w' := Next(w, ClientStep(c));
    C.StepKeepsInv(w.client, w.server.answers, c);
    C.StepGrows(w.client, w.server.answers, c);
    S.SendingKeepsInv(w.server, w.client.sent, w'.client.sent);
    forall a | a in w'.server.answers && a.answer.KeyReusedError? && a.rid in w'.client.sent
      ensures w'.client.sent[a.rid].slot.key !in w'.client.born
    {
      assert S.AnswerOk(w.server, w.client.sent, a);
    }
  }

  /** An own request that finds its row finds the row of its own command. */
  lemma OwnRequestMatchesRow(w: World, t: nat)
    requires Inv(w) && S.InPhase(w.server, t, S.Conflicted) && w.server.open[t].req.slot.key in w.client.born
    ensures S.ConflictAnswer(w.server.rows, w.server.open[t].req).Ok?
  {
    S.RowIsThere(w.server, w.client.sent, t);
    var tx := w.server.open[t];
    assert S.TxOk(w.server, w.client.sent, t);
    var rid :| rid in w.client.sent
        && w.client.sent[rid] == S.HttpRequest(tx.req.slot, w.server.rows[tx.req.slot].hash);
    assert w.client.sent[rid] == C.WireRequest(tx.req.slot.key, w.client.born[tx.req.slot.key]);
    assert w.client.sent[tx.rid] == C.WireRequest(tx.req.slot.key, w.client.born[tx.req.slot.key]);
  }

  lemma ServerStepKeepsInv(w: World, s: S.Step)
    requires Inv(w) && Enabled(w, ServerStep(s))
    ensures Inv(Next(w, ServerStep(s)))
  {
    hide C.Inv, C.WireRequest, S.EffectsMatchRows, S.HoldersDiffer, S.RowsWereSent;
    var w' := Next(w, ServerStep(s));
    S.StepKeepsInv(w.server, w.client.sent, s);
    S.StepOnlyAdds(w.server, w.client.sent, s);
    C.AnswersKeepInv(w.client, w.server.answers, w'.server.answers);
    if s.Select? && w.server.open[s.t].req.slot.key in w.client.born {
      OwnRequestMatchesRow(w, s.t);
    }
    if !s.Deliver? && !s.RejectAuth? {
      assert S.TxOk(w.server, w.client.sent, s.t);
    }
  }

  lemma InitialInv()
    ensures Inv(INITIAL)
  {
  }

  lemma {:induction false} RunKeepsInv(run: seq<World>, i: nat)
    requires IsRun(run) && i < |run|
    ensures Inv(run[i])
  {
    if i == 0 {
      InitialInv();
    } else {
      RunKeepsInv(run, i - 1);
      assert Connected(run[i - 1], run[i - 1 + 1]);
      var step :| Leads(run[i - 1], step, run[i]);
      if step.ClientStep? {
        ClientStepKeepsInv(run[i - 1], step.c);
      } else {
        ServerStepKeepsInv(run[i - 1], step.s);
      }
    }
  }

  // ── Main results ─────────────────────────────────────────────────────────

  function EffectsOf(w: World, slot: Slot): nat {
    S.CountEffects(w.server.effects, slot)
  }

  /**
   * In every reachable world the service of a (club, key, route) has been committed at most
   * once, and exactly once if and only if its key row is committed, which is then complete.
   */
  lemma AtMostOnce(run: seq<World>, i: nat, slot: Slot)
    requires IsRun(run) && i < |run|
    ensures EffectsOf(run[i], slot) <= 1
    ensures EffectsOf(run[i], slot) == 1 <==> slot in run[i].server.rows
    ensures slot in run[i].server.rows ==> run[i].server.rows[slot].completion.Some?
  {
    RunKeepsInv(run, i);
    S.OneEffectPerRow(run[i].server, run[i].client.sent, slot);
  }

  /**
   * Nobody is ever told "still in progress", no lookup misses the row that made an insert
   * fail, and no console request is told that its key was reused.
   */
  lemma ImpossibleAnswers(run: seq<World>, i: nat, a: S.Sent)
    requires IsRun(run) && i < |run| && a in run[i].server.answers
    ensures !a.answer.InProgressError? && !a.answer.NoRowError?
    ensures a.rid in run[i].client.sent
    ensures run[i].client.sent[a.rid].slot.key in run[i].client.born ==> !a.answer.KeyReusedError?
  {
    RunKeepsInv(run, i);
    assert S.AnswerOk(run[i].server, run[i].client.sent, a);
  }

  /** Two successful answers for one slot are the same answer, and to the same request. */
  lemma RepliesAgree(run: seq<World>, i: nat, a: S.Sent, b: S.Sent)
    requires IsRun(run) && i < |run|
    requires a in run[i].server.answers && b in run[i].server.answers && a.answer.Ok? && b.answer.Ok?
    requires a.rid in run[i].client.sent && b.rid in run[i].client.sent
    requires run[i].client.sent[a.rid].slot == run[i].client.sent[b.rid].slot
    ensures a.answer.reply == b.answer.reply
    ensures run[i].client.sent[a.rid].fp == run[i].client.sent[b.rid].fp
  {
    RunKeepsInv(run, i);
    assert S.AnswerOk(run[i].server, run[i].client.sent, a);
    assert S.AnswerOk(run[i].server, run[i].client.sent, b);
  }

  /** What one step of anybody leaves in place. */
  ghost predicate Lasting(w: World, w': World) {
    && C.Grows(w.client, w'.client)
    && w.server.effects <= w'.server.effects
    && w.server.answers <= w'.server.answers
    && forall slot :: slot in w.server.rows ==> slot in w'.server.rows && w'.server.rows[slot] == w.server.rows[slot]
  }

  lemma StepLasts(w: World, w': World)
    requires Inv(w) && Connected(w, w')
    ensures Lasting(w, w')
  {
    var step :| Leads(w, step, w');
    if step.ServerStep? {
      S.StepOnlyAdds(w.server, w.client.sent, step.s);
    } else {
      C.StepGrows(w.client, w.server.answers, step.c);
    }
  }

  lemma StepOfRun(run: seq<World>, j: nat)
    requires IsRun(run) && 0 < j < |run|
    ensures Connected(run[j - 1], run[j])
  {
    hide Connected;
    assert Connected(run[j - 1], run[j - 1 + 1]);
  }

  /** What has been committed once is the same ever after: rows, effects and answers. */
  lemma {:induction false} CommittedStays(run: seq<World>, i: nat, j: nat)
    requires IsRun(run) && i <= j < |run|
    ensures Lasting(run[i], run[j])
  {
    hide *;
    if i == j {
      LastingReflexive(run[i]);
    } else {
      CommittedStays(run, i, j - 1);
      RunKeepsInv(run, j - 1);
      StepOfRun(run, j);
      StepLasts(run[j - 1], run[j]);
      LastingTransitive(run[i], run[j - 1], run[j]);
    }
  }

  lemma LastingReflexive(w: World)
    ensures Lasting(w, w)
  {
  }

  lemma LastingTransitive(u: World, v: World, w: World)
    requires Lasting(u, v) && Lasting(v, w)
    ensures Lasting(u, w)
  {
  }

  /** The committed run of a service belongs to a request with exactly that path and body;
      a request that differs is answered, if at all, without success. */
  lemma OtherRequestsNeverRun(run: seq<World>, i: nat, slot: Slot, a: S.Sent)
    requires IsRun(run) && i < |run| && slot in run[i].server.rows
    requires a in run[i].server.answers && a.rid in run[i].client.sent && run[i].client.sent[a.rid].slot == slot
    requires run[i].client.sent[a.rid].fp != run[i].server.rows[slot].hash
    ensures !a.answer.Ok?
    ensures forall k :: 0 <= k < |run[i].server.effects| && run[i].server.effects[k].slot == slot ==>
              run[i].server.effects[k].fp == run[i].server.rows[slot].hash
  {
    RunKeepsInv(run, i);
    assert S.AnswerOk(run[i].server, run[i].client.sent, a);
  }

  /** What the server took the request of a committed effect for. */
  function EffectRead(e: S.Effect): Option<Command> {
    ReadRequest(e.slot.clubId, e.slot.route, e.fp.path, e.fp.body)
  }

  /** The command was applied: of all committed effects, whatever their club and route, exactly one
      carries its key, and the server read this command in it. */
  ghost predicate AppliedOnce(w: World, id: string) {
    && id in w.client.born
    && exists k :: 0 <= k < |w.server.effects| && OnlyEffect(w.server.effects, k, id)
                   && TookFor(w.server.effects[k], w.client.born[id])
  }

  ghost predicate OnlyEffect(effects: seq<S.Effect>, k: nat, id: string)
    requires k < |effects|
  {
    effects[k].slot.key == id && forall j :: 0 <= j < |effects| && effects[j].slot.key == id ==> j == k
  }

  /** Only the total that a cashier saw is not sent. */
  ghost predicate TookFor(e: S.Effect, c: Command) {
    EffectRead(e) == Some(if c.BillClose? then c.(expectedTotal := 0) else c)
  }

  /** All effects under a key of the console are of its own command's slot. */
  lemma KeyOfOneSlot(w: World, j: nat, id: string)
    requires Inv(w) && j < |w.server.effects| && w.server.effects[j].slot.key == id && id in w.client.born
    ensures w.server.effects[j].slot == C.WireRequest(id, w.client.born[id]).slot
  {
    hide C.WireRequest;
    var e := w.server.effects[j];
    assert e.slot in w.server.rows;
    var rid :| rid in w.client.sent && w.client.sent[rid] == S.HttpRequest(e.slot, w.server.rows[e.slot].hash);
  }

  lemma OwnRequestIsRead(e: S.Effect, id: string, c: Command)
    requires S.HttpRequest(e.slot, e.fp) == C.WireRequest(id, c)
    ensures TookFor(e, c)
  {
    hide ReadRequest;
    assert ReadWire(WireOf(c)) == EffectRead(e);
    ReadsBack(c);
  }

  lemma AckedIsApplied(w: World, id: string)
    requires Inv(w) && id in w.client.acked
    ensures AppliedOnce(w, id)
  {
    hide C.WireRequest, TookFor;
    assert C.Acknowledged(w.client, w.server.answers, id);
    var c := w.client.born[id];
    var a :| a in w.server.answers && a.rid in w.client.sent && a.answer.Ok?
             && w.client.sent[a.rid] == C.WireRequest(id, c);
    assert S.AnswerOk(w.server, w.client.sent, a);
    var slot := w.client.sent[a.rid].slot;
    var k: nat :| k < |w.server.effects| && w.server.effects[k].slot == slot;
    OwnRequestIsRead(w.server.effects[k], id, c);
    OwnKey(w, id);
    forall j: nat | j < |w.server.effects| && w.server.effects[j].slot.key == id ensures j == k {
      KeyOfOneSlot(w, j, id);
    }
    assert OnlyEffect(w.server.effects, k, id);
  }

  lemma OwnKey(w: World, id: string)
    requires Inv(w) && id in w.client.born
    ensures C.WireRequest(id, w.client.born[id]).slot.key == id
  {
    C.KeyLength(w.client, w.server.answers, id);
    C.OwnRequestKey(id, w.client.born[id]);
  }

  /**
   * Whenever an outbox item reads SYNCED, or `runCommand` has answered `synced: true`, the
   * command has been applied exactly once, whatever was lost, repeated or restarted before.
   */
  lemma SyncedMeansAppliedOnce(run: seq<World>, i: nat, id: string)
    requires IsRun(run) && i < |run|
    requires id in run[i].client.returned || (id in run[i].client.items && run[i].client.items[id].status == Synced)
    ensures AppliedOnce(run[i], id)
  {
    RunKeepsInv(run, i);
    if id !in run[i].client.returned {
      assert C.ItemOk(run[i].client, run[i].client.items[id]);
      assert run[i].client.items[id].id == id;
    }
    AckedIsApplied(run[i], id);
  }

  /**
   * No queued command is lost. Once `runCommand` has answered `synced: false`, the item is
   * in the outbox with its key, club, user, command and creation time as they were, or the
   * command has been applied exactly once.
   */
  lemma NoQueuedCommandLost(run: seq<World>, i: nat, j: nat, id: string)
    requires IsRun(run) && i <= j < |run| && id in run[i].client.queued
    ensures id in run[j].client.queued && run[j].client.queued[id] == run[i].client.queued[id]
    ensures id in run[j].client.items ==>
              run[j].client.items[id].id == id && BirthOf(run[j].client.items[id]) == run[i].client.queued[id]
    ensures id !in run[j].client.items ==> AppliedOnce(run[j], id)
  {
    CommittedStays(run, i, j);
    RunKeepsInv(run, j);
    if id in run[j].client.items {
      assert C.ItemOk(run[j].client, run[j].client.items[id]);
      assert run[j].client.items[id].id == id;
    } else {
      AckedIsApplied(run[j], id);
    }
  }

  /** The only way out of the outbox: a prune of an acknowledged item older than its cutoff. */
  lemma OnlyPruneRemoves(run: seq<World>, i: nat, step: Step, id: string)
    requires IsRun(run) && i + 1 < |run| && Leads(run[i], step, run[i + 1])
    requires id in run[i].client.items && id !in run[i + 1].client.items
    ensures step.ClientStep? && step.c.PruneDelete?
    ensures run[i].client.drains[step.c.t].Pruning?
    ensures run[i].client.items[id].createdAt < run[i].client.drains[step.c.t].cutoff
    ensures AppliedOnce(run[i], id)
  {
    hide AppliedOnce, Inv;
    RunKeepsInv(run, i);
    PruneRemoves(run[i], step, run[i + 1], id);
  }

  lemma PruneRemoves(w: World, step: Step, w': World, id: string)
    requires Inv(w) && Leads(w, step, w') && id in w.client.items && id !in w'.client.items
    ensures step.ClientStep? && step.c.PruneDelete? && w.client.drains[step.c.t].Pruning?
    ensures w.client.items[id].createdAt < w.client.drains[step.c.t].cutoff
    ensures AppliedOnce(w, id)
  {
    hide AppliedOnce, C.Inv, C.Enabled, C.Next;
    assert step.ClientStep?;
    C.RemovedByPrune(w.client, w.server.answers, step.c, id);
    AckedIsApplied(w, id);
  }
}
