/**
 * Extending runs of the joint protocol: sequences of steps from a world, and what the server can
 * always be made to do. Whatever it is busy with, it can come to answer a request of the console
 * with success.
 */
module WorldRuns {
  import opened Options
  import opened Commands
  import opened Idempotency
  import S = OfflineServer
  import C = OfflineClient
  import Sys = OfflineSystem

  /** A step of tab t's drain. */
  predicate OfDrain(a: C.Step, t: nat) {
    && (a.DrainBegin? || a.RecoverOne? || a.DrainList? || a.DrainSkip? || a.DrainStart? || a.DrainSend?
        || a.DrainResend? || a.DrainOk? || a.DrainFail? || a.SettlePut? || a.DrainStop? || a.PruneList?
        || a.PruneDelete?)
    && a.t == t
  }

  /** A step of the call that tab t makes for a key. */
  predicate OfCall(a: C.Step, t: nat, id: string) {
    match a
    case RunOnline(u, k, _, _, _) => u == t && k == id
    case RunOffline(u, k, _, _, _, _) => u == t && k == id
    case CallSend(k, _) => k == id
    case CallResend(k, _) => k == id
    case CallOk(k, _) => k == id
    case CallFail(k, _, _, _) => k == id
    case QueuePut(k) => k == id
    case _ => false
  }

  /** Whose steps a stretch of a run consists of, besides the server's. */
  datatype Actor = Drain(t: nat) | Call(tab: nat, id: string)

  predicate OfActor(a: C.Step, who: Actor) {
    match who
    case Drain(t) => OfDrain(a, t)
    case Call(t, id) => OfCall(a, t, id)
  }

  predicate IsBy(a: Sys.Step, who: Actor) {
    a.ServerStep? || OfActor(a.c, who)
  }

  ghost predicate CanRun(w: Sys.World, steps: seq<Sys.Step>)
    decreases |steps|
  {
    steps == [] || (Sys.Enabled(w, steps[0]) && CanRun(Sys.Next(w, steps[0]), steps[1..]))
  }

  ghost function After(w: Sys.World, steps: seq<Sys.Step>): Sys.World
    requires CanRun(w, steps)
    decreases |steps|
  {
    if steps == [] then w else After(Sys.Next(w, steps[0]), steps[1..])
  }

  /** These steps, all of that actor or of the server, lead from one world to the other. */
  ghost predicate Along(w: Sys.World, who: Actor, steps: seq<Sys.Step>, w': Sys.World) {
    && (forall k :: 0 <= k < |steps| ==> IsBy(steps[k], who))
    && CanRun(w, steps) && After(w, steps) == w'
  }

  ghost predicate Reaches(w: Sys.World, who: Actor, w': Sys.World) {
    exists steps :: Along(w, who, steps, w')
  }

  lemma {:induction false} Stays(w: Sys.World, who: Actor)
    ensures Along(w, who, [], w) && Reaches(w, who, w)
  {
    assert Along(w, who, [], w);
  }

  lemma {:induction false} FirstStep(w: Sys.World, who: Actor, a: Sys.Step, rest: seq<Sys.Step>, w': Sys.World)
    requires IsBy(a, who) && Sys.Enabled(w, a) && Along(Sys.Next(w, a), who, rest, w')
    ensures Along(w, who, [a] + rest, w')
  {
    hide Sys.Enabled, Sys.Next;
    assert ([a] + rest)[1..] == rest;
  }

  lemma Moves(w: Sys.World, who: Actor, a: Sys.Step, w': Sys.World)
    requires IsBy(a, who) && Sys.Leads(w, a, w')
    ensures Reaches(w, who, w')
  {
    hide Sys.Enabled, Sys.Next, Along;
    Stays(w', who);
    FirstStep(w, who, a, [], w');
  }

  lemma {:induction false} AlongBoth(w: Sys.World, who: Actor, first: seq<Sys.Step>, mid: Sys.World,
                                     rest: seq<Sys.Step>, w': Sys.World)
    requires Along(w, who, first, mid) && Along(mid, who, rest, w')
    ensures Along(w, who, first + rest, w')
    decreases |first|
  {
    hide Sys.Enabled, Sys.Next, IsBy;
    if first == [] {
      assert first + rest == rest;
    } else {
      assert IsBy(first[0], who);
      AlongBoth(Sys.Next(w, first[0]), who, first[1..], mid, rest, w');
      FirstStep(w, who, first[0], first[1..] + rest, w');
      assert [first[0]] + (first[1..] + rest) == first + rest;
    }
  }

  lemma Joined(w: Sys.World, who: Actor, mid: Sys.World, w': Sys.World)
    requires Reaches(w, who, mid) && Reaches(mid, who, w')
    ensures Reaches(w, who, w')
  {
    hide Along;
    var first :| Along(w, who, first, mid);
    var rest :| Along(mid, who, rest, w');
    AlongBoth(w, who, first, mid, rest, w');
  }

  lemma {:induction false} AlongKeepsInv(w: Sys.World, who: Actor, steps: seq<Sys.Step>, w': Sys.World)
    requires Sys.Inv(w) && Along(w, who, steps, w')
    ensures Sys.Inv(w')
    decreases |steps|
  {
    hide Sys.Inv, Sys.Next, IsBy;
    if steps != [] {
      match steps[0] {
        case ClientStep(c) => Sys.ClientStepKeepsInv(w, c);
        case ServerStep(s) => Sys.ServerStepKeepsInv(w, s);
      }
      AlongKeepsInv(Sys.Next(w, steps[0]), who, steps[1..], w');
    }
  }

  lemma ReachesKeepsInv(w: Sys.World, who: Actor, w': Sys.World)
    requires Sys.Inv(w) && Reaches(w, who, w')
    ensures Sys.Inv(w')
  {
    hide Sys.Inv, Along;
    var steps :| Along(w, who, steps, w');
    AlongKeepsInv(w, who, steps, w');
  }

  /** Every step of a run from its n-th world on is of that actor or of the server. */
  ghost predicate OnlyBy(run: seq<Sys.World>, n: nat, who: Actor) {
    forall k :: n <= k < |run| - 1 ==> StepBy(run[k], run[k + 1], who)
  }

  ghost predicate StepBy(w: Sys.World, w': Sys.World, who: Actor) {
    exists a :: IsBy(a, who) && Sys.Leads(w, a, w')
  }

  /** A reached world continues the run. */
  lemma Extends(run: seq<Sys.World>, who: Actor, w': Sys.World) returns (longer: seq<Sys.World>)
    requires Sys.IsRun(run) && Reaches(run[|run| - 1], who, w')
    ensures Sys.IsRun(longer) && run <= longer && longer[|longer| - 1] == w'
    ensures OnlyBy(longer, |run| - 1, who)
  {
    hide Along, OnlyBy;
    var steps :| Along(run[|run| - 1], who, steps, w');
    longer := ExtendsAlong(run, who, steps, w');
  }

  lemma {:induction false} ExtendsAlong(run: seq<Sys.World>, who: Actor, steps: seq<Sys.Step>, w': Sys.World)
    returns (longer: seq<Sys.World>)
    requires Sys.IsRun(run) && Along(run[|run| - 1], who, steps, w')
    ensures Sys.IsRun(longer) && run <= longer && longer[|longer| - 1] == w'
    ensures OnlyBy(longer, |run| - 1, who)
    decreases |steps|
  {
    hide Sys.Enabled, Sys.Next, IsBy;
    if steps == [] {
      longer := run;
    } else {
      var w := run[|run| - 1];
      var next := Sys.Next(w, steps[0]);
      assert IsBy(steps[0], who);
      assert Sys.Leads(w, steps[0], next);
      assert StepBy(w, next, who);
      RunGrows(run, next);
      longer := ExtendsAlong(run + [next], who, steps[1..], w');
      forall k | |run| - 1 <= k < |longer| - 1 ensures StepBy(longer[k], longer[k + 1], who) {
        if k == |run| - 1 {
          assert longer[k] == w && longer[k + 1] == next;
        }
      }
    }
  }

  lemma RunGrows(run: seq<Sys.World>, next: Sys.World)
    requires Sys.IsRun(run) && Sys.Connected(run[|run| - 1], next)
    ensures Sys.IsRun(run + [next])
  {
    hide Sys.Connected;
    var longer := run + [next];
    forall i | 0 <= i < |longer| - 1 ensures Sys.Connected(longer[i], longer[i + 1]) {
      if i < |run| - 1 { assert Sys.Connected(run[i], run[i + 1]); }
    }
  }

  /** A number above all those in use. */
  lemma {:induction false} FreshNat(taken: set<nat>) returns (n: nat)
    ensures forall m :: m in taken ==> m < n
    decreases taken
  {
    if taken == {} {
      n := 0;
    } else {
      var m :| m in taken;
      var k := FreshNat(taken - {m});
      n := if m < k then k else m + 1;
      forall x | x in taken ensures x < n {
        if x != m { assert x in taken - {m}; }
      }
    }
  }

  lemma ClientMoves(w: Sys.World, who: Actor, a: C.Step, c': C.Client)
    requires OfActor(a, who)
    requires C.Enabled(w.client, w.server.answers, a) && c' == C.Next(w.client, w.server.answers, a)
    ensures Reaches(w, who, w.(client := c'))
  {
    hide C.Enabled, C.Next, Reaches;
    Moves(w, who, Sys.ClientStep(a), w.(client := c'));
  }

  lemma ServerMoves(w: Sys.World, who: Actor, a: S.Step, s': S.Server)
    requires S.Enabled(w.server, w.client.sent, a) && s' == S.Next(w.server, w.client.sent, a)
    ensures Reaches(w, who, w.(server := s'))
  {
    hide S.Enabled, S.Next, Reaches;
    Moves(w, who, Sys.ServerStep(a), w.(server := s'));
  }

  // ── The server can answer ────────────────────────────────────────────────

  ghost predicate SlotFree(s: S.Server, slot: Slot) {
    forall u :: u in s.open && S.IsHolder(s.open[u].phase) ==> s.open[u].req.slot != slot
  }

  /** At most one transaction holds a slot, and it may be cut off. */
  lemma SlotCanBeFreed(w: Sys.World, who: Actor, slot: Slot) returns (w': Sys.World)
    requires Sys.Inv(w)
    ensures Reaches(w, who, w') && w'.client == w.client && SlotFree(w'.server, slot)
  {
    hide C.Inv, C.WireRequest, Reaches;
    if u :| u in w.server.open && S.IsHolder(w.server.open[u].phase) && w.server.open[u].req.slot == slot {
      w' := w.(server := S.Next(w.server, w.client.sent, S.Abort(u)));
      ServerMoves(w, who, S.Abort(u), w'.server);
    } else {
      w' := w;
      Stays(w, who);
    }
  }

  /** A request can be delivered and come to its insert. */
  lemma RequestCanArrive(w: Sys.World, who: Actor, rid: nat, u: nat) returns (w': Sys.World)
    requires rid in w.client.sent && u !in w.server.open && SlotFree(w.server, w.client.sent[rid].slot)
    ensures Reaches(w, who, w') && w'.client == w.client && w'.server.rows == w.server.rows
    ensures u in w'.server.open
            && w'.server.open[u] == S.Tx(rid, w.client.sent[rid],
                                         if w.client.sent[rid].slot in w.server.rows then S.Conflicted else S.Holding)
  {
    hide Reaches;
    var w1 := w.(server := S.Next(w.server, w.client.sent, S.Deliver(u, rid)));
    ServerMoves(w, who, S.Deliver(u, rid), w1.server);
    assert !S.Blocked(w1.server, u);
    w' := w.(server := S.Next(w1.server, w.client.sent, S.Insert(u)));
    ServerMoves(w1, who, S.Insert(u), w'.server);
    Joined(w, who, w1, w');
  }

  /** A transaction that holds its row can run its service, finish and commit. */
  lemma HolderCanCommit(w: Sys.World, who: Actor, u: nat, reply: Reply) returns (w': Sys.World)
    requires S.InPhase(w.server, u, S.Holding)
    ensures Reaches(w, who, w') && w'.client == w.client
    ensures S.Sent(w.server.open[u].rid, S.Ok(reply)) in w'.server.answers
  {
    hide Reaches;
    var w1 := w.(server := S.Next(w.server, w.client.sent, S.RunService(u, Succeeds(reply))));
    ServerMoves(w, who, S.RunService(u, Succeeds(reply)), w1.server);
    var w2 := w.(server := S.Next(w1.server, w.client.sent, S.FinishRow(u)));
    ServerMoves(w1, who, S.FinishRow(u), w2.server);
    Joined(w, who, w1, w2);
    w' := w.(server := S.Next(w2.server, w.client.sent, S.Commit(u)));
    ServerMoves(w2, who, S.Commit(u), w'.server);
    Joined(w, who, w2, w');
  }

  /** One that found the row of the console's own command is answered with what is stored there. */
  lemma ConflictIsReplayed(w: Sys.World, who: Actor, u: nat) returns (w': Sys.World, reply: Reply)
    requires Sys.Inv(w) && S.InPhase(w.server, u, S.Conflicted) && w.server.open[u].req.slot.key in w.client.born
    ensures Reaches(w, who, w') && w'.client == w.client
    ensures S.Sent(w.server.open[u].rid, S.Ok(reply)) in w'.server.answers
  {
    hide Reaches, Sys.Inv;
    Sys.OwnRequestMatchesRow(w, u);
    reply := S.ConflictAnswer(w.server.rows, w.server.open[u].req).reply;
    w' := w.(server := S.Next(w.server, w.client.sent, S.Select(u)));
    ServerMoves(w, who, S.Select(u), w'.server);
  }

  /**
   * From every world of the protocol, a request of the console that is on the network can be
   * answered with success: by running its service, or by replaying the answer it has had.
   */
  lemma CanAnswer(w: Sys.World, who: Actor, rid: nat, offered: Reply) returns (w': Sys.World, reply: Reply)
    requires Sys.Inv(w) && rid in w.client.sent && w.client.sent[rid].slot.key in w.client.born
    ensures Reaches(w, who, w') && w'.client == w.client
    ensures S.Sent(rid, S.Ok(reply)) in w'.server.answers
  {
    hide Reaches, Sys.Inv, SlotFree, C.WireRequest;
    var slot := w.client.sent[rid].slot;
    var w1 := SlotCanBeFreed(w, who, slot);
    ReachesKeepsInv(w, who, w1);
    var u := FreshNat(w1.server.open.Keys);
    var w2 := RequestCanArrive(w1, who, rid, u);
    ReachesKeepsInv(w1, who, w2);
    Joined(w, who, w1, w2);
    if slot in w1.server.rows {
      w', reply := ConflictIsReplayed(w2, who, u);
    } else {
      reply := offered;
      w' := HolderCanCommit(w2, who, u, reply);
    }
    Joined(w, who, w2, w');
  }

  /** The server may answer any request 401. */
  lemma RefusedAtTheDoor(w: Sys.World, who: Actor, rid: nat) returns (w': Sys.World)
    requires rid in w.client.sent
    ensures Reaches(w, who, w') && w'.client == w.client && S.Sent(rid, S.Unauthorized) in w'.server.answers
  {
    hide Reaches;
    w' := w.(server := S.Next(w.server, w.client.sent, S.RejectAuth(rid)));
    ServerMoves(w, who, S.RejectAuth(rid), w'.server);
  }

  /** What was sent for a success is answered with success. */
  lemma AnswerComes(w: Sys.World, who: Actor, id: string, http: C.Http, needed: bool, offered: Reply)
    returns (w': Sys.World, reply: Reply)
    requires Sys.Inv(w) && id in w.client.born
    requires needed ==> http.Waiting? && http.rid in w.client.sent
                        && w.client.sent[http.rid] == C.WireRequest(id, w.client.born[id])
    ensures Reaches(w, who, w') && w'.client == w.client
    ensures needed ==> S.Sent(http.rid, S.Ok(reply)) in w'.server.answers
  {
    hide Reaches, Sys.Inv, C.WireRequest;
    if needed {
      Sys.OwnKey(w, id);
      w', reply := CanAnswer(w, who, http.rid, offered);
    } else {
      Stays(w, who);
      w', reply := w, offered;
    }
  }
}
