/**
 * The engine's `runCommand` is a run of the protocol: it continues any run of `OfflineSystem`, by
 * the steps of one call and by what the server does with its requests, and leaves there the outbox
 * that the class `SyncEngine.Engine` leaves.
 */
module CommandRefinement {
  import opened Options
  import opened Outbox
  import opened OutboxStore
  import opened Backoff
  import I = Idempotency
  import Commands
  import S = OfflineServer
  import C = OfflineClient
  import Sys = OfflineSystem
  import opened WorldRuns
  import opened SyncEngine
  import opened DrainRefinement

  /** The call is in progress, and stands here. */
  ghost function Calls(c: C.Client, id: string, call: C.Running): C.Client {
    c.(calls := c.calls[id := call])
  }

  lemma CallsAgain(c: C.Client, id: string, call: C.Running, call': C.Running)
    ensures Calls(Calls(c, id, call), id, call') == Calls(c, id, call')
  {
  }

  /** Once the call is over, the tab's memory is as it was. */
  lemma CallOver(c: C.Client, id: string, call: C.Running)
    requires id !in c.calls
    ensures C.DropCall(Calls(c, id, call), id) == c
  {
    assert c.calls[id := call] - {id} == c.calls;
  }

  lemma BeginsOnline(c: C.Client, answers: set<S.Sent>, t: nat, id: string, clubId: int, userId: Option<int>,
                     command: Commands.Command)
    requires t in c.drains && C.IsFreshKey(c, id)
    ensures C.Enabled(c, answers, C.RunOnline(t, id, clubId, userId, command))
    ensures C.Next(c, answers, C.RunOnline(t, id, clubId, userId, command))
         == Calls(C.Bear(c, id, command), id, C.Running(t, clubId, userId, C.Calling(C.NotSent)))
  {
    hide C.WireRequest;
  }

  lemma BeginsOffline(c: C.Client, answers: set<S.Sent>, t: nat, id: string, birth: Birth, now: int)
    requires t in c.drains && C.IsFreshKey(c, id) && birth.createdAt == now
    ensures var step := C.RunOffline(t, id, birth.clubId, birth.userId, birth.command, now);
            && C.Enabled(c, answers, step)
            && C.Next(c, answers, step)
               == Calls(C.Bear(c, id, birth.command), id,
                        C.Running(t, birth.clubId, birth.userId, C.Queueing(NewItem(id, birth, now))))
  {
    hide C.WireRequest;
  }

  lemma SendsCall(c: C.Client, answers: set<S.Sent>, id: string, rid: nat)
    requires C.IsCalling(c, id) && c.calls[id].pc.http.NotSent? && rid !in c.sent
    ensures C.Enabled(c, answers, C.CallSend(id, rid))
    ensures C.Next(c, answers, C.CallSend(id, rid))
         == Calls(OnWire(c, rid, id), id, c.calls[id].(pc := C.Calling(C.Waiting(rid, false))))
  {
    hide C.WireRequest;
  }

  lemma ResendsCall(c: C.Client, answers: set<S.Sent>, id: string, first: nat, rid: nat)
    requires C.IsCalling(c, id) && c.calls[id].pc.http == C.Waiting(first, false) && rid !in c.sent
    requires S.Sent(first, S.Unauthorized) in answers
    ensures C.Enabled(c, answers, C.CallResend(id, rid))
    ensures C.Next(c, answers, C.CallResend(id, rid))
         == Calls(OnWire(c, rid, id), id, c.calls[id].(pc := C.Calling(C.Waiting(rid, true))))
  {
    hide C.WireRequest;
  }

  /** The direct call's requests go out; a first one to be repeated is refused by the server. */
  lemma CallGoesOut(w: Sys.World, t: nat, c: C.Client, id: string, call: C.Running, rid: nat, wire: Wire)
    returns (w': Sys.World, http: C.Http)
    requires id in c.born && FreeFrom(c, rid) && w.client == Calls(c, id, call) && call.pc == C.Calling(C.NotSent)
    ensures Reaches(w, Call(t, id), w')
    ensures w'.client == Calls(Requests(c, rid, id, wire), id, call.(pc := C.Calling(http)))
    ensures wire != NothingSent ==> http.Waiting? && http.rid in w'.client.sent
                                    && w'.client.sent[http.rid] == C.WireRequest(id, c.born[id])
  {
    hide Reaches, C.Enabled, C.Next, C.WireRequest;
    w', http := w, C.NotSent;
    Stays(w, Call(t, id));
    if wire != NothingSent {
      http := C.Waiting(rid, false);
      var one := OnWire(c, rid, id);
      SendsCall(w.client, w.server.answers, id, rid);
      var sent := call.(pc := C.Calling(http));
      assert OnWire(w.client, rid, id) == Calls(one, id, call);
      CallsAgain(one, id, call, sent);
      w' := w.(client := Calls(one, id, sent));
      ClientMoves(w, Call(t, id), C.CallSend(id, rid), w'.client);
      if wire == SentAgain {
        var refused := RefusedAtTheDoor(w', Call(t, id), rid);
        Joined(w, Call(t, id), w', refused);
        ResendsCall(refused.client, refused.server.answers, id, rid, rid + 1);
        http := C.Waiting(rid + 1, true);
        var two, again := OnWire(one, rid + 1, id), call.(pc := C.Calling(http));
        assert OnWire(refused.client, rid + 1, id) == Calls(two, id, sent);
        CallsAgain(two, id, sent, again);
        w' := refused.(client := Calls(two, id, again));
        ClientMoves(refused, Call(t, id), C.CallResend(id, rid + 1), w'.client);
        Joined(w, Call(t, id), refused, w');
      }
    }
  }

  /** What the call leaves of the client: the requests, and what the outcome makes of its key. */
  ghost function AfterCall(c: C.Client, id: string, queued: Option<Item>, synced: bool): C.Client {
    c.(items := WithItem(c.items, queued),
       queued := if queued.Some? then c.queued[id := BirthOf(queued.value)] else c.queued,
       acked := if synced then c.acked + {id} else c.acked,
       returned := if synced then c.returned + {id} else c.returned)
  }

  lemma PutsItem(w: Sys.World, t: nat, c: C.Client, id: string, call: C.Running) returns (w': Sys.World)
    requires id !in c.calls && w.client == Calls(c, id, call) && call.pc.Queueing? && call.pc.item.id == id
    ensures Reaches(w, Call(t, id), w') && w'.client == AfterCall(c, id, Some(call.pc.item), false)
  {
    hide Reaches;
    CallOver(c, id, call);
    w' := w.(client := AfterCall(c, id, Some(call.pc.item), false));
    assert C.Next(w.client, w.server.answers, C.QueuePut(id)) == w'.client;
    ClientMoves(w, Call(t, id), C.QueuePut(id), w'.client);
  }

  /** The direct call succeeds. */
  lemma CallSucceeds(w: Sys.World, t: nat, c: C.Client, id: string, call: C.Running, http: C.Http, reply: I.Reply)
    returns (w': Sys.World)
    requires id in c.born && id !in c.calls && w.client == Calls(c, id, call) && call.pc == C.Calling(http)
    requires http.Waiting? && S.Sent(http.rid, S.Ok(reply)) in w.server.answers
    ensures Reaches(w, Call(t, id), w') && w'.client == AfterCall(c, id, None, true)
  {
    hide Reaches, C.WireRequest;
    CallOver(c, id, call);
    w' := w.(client := AfterCall(c, id, None, true));
    assert C.Next(w.client, w.server.answers, C.CallOk(id, reply)).calls == c.calls;
    ClientMoves(w, Call(t, id), C.CallOk(id, reply), w'.client);
  }

  /** It fails: for good, and the error is thrown, or on the way, and the item is queued. */
  lemma CallFails(w: Sys.World, t: nat, c: C.Client, id: string, call: C.Running, http: C.Http, birth: Birth,
                  error: ClientError, now: int, draw: real) returns (w': Sys.World)
    requires id in c.born && id !in c.calls && w.client == Calls(c, id, call) && call.pc == C.Calling(http)
    requires birth == Birth(call.clubId, call.userId, c.born[id], now)
    ensures Reaches(w, Call(t, id), w')
    ensures w'.client == AfterCall(c, id, QueuedBy(id, birth, true, Outcome.Failure(error), now, draw), false)
  {
    hide Reaches, C.WireRequest, NextRetryDelayMs;
    CallOver(c, id, call);
    var step := C.CallFail(id, error, now, draw);
    AttemptSettles(NewItem(id, birth, now), error, now, NextRetryDelayMs(0, draw));
    if Classify(error).NetworkError? {
      var item := C.QueuedItem(id, call, c.born[id], error, now, draw);
      var queueing := call.(pc := C.Queueing(item));
      var mid := w.(client := Calls(c, id, queueing));
      CallsAgain(c, id, call, queueing);
      ClientMoves(w, Call(t, id), step, mid.client);
      w' := PutsItem(mid, t, c, id, queueing);
      Joined(w, Call(t, id), mid, w');
    } else {
      w' := w.(client := c);
      ClientMoves(w, Call(t, id), step, w'.client);
      assert AfterCall(c, id, None, false) == c;
    }
  }

  lemma FreshIsIdle(w: Sys.World, id: string)
    requires Sys.Inv(w) && C.IsFreshKey(w.client, id)
    ensures id !in w.client.calls
  {
    if id in w.client.calls { C.CallOf(w.client, w.server.answers, id); }
  }

  lemma CommandReaches(w: Sys.World, t: nat, id: string, birth: Birth, online: bool, outcome: Outcome, now: int,
                       draw: real, wire: Wire, rid: nat, offered: I.Reply) returns (w': Sys.World)
    requires Sys.Inv(w) && t in w.client.drains && C.IsFreshKey(w.client, id) && birth.createdAt == now
    requires FreeFrom(w.client, rid) && (online && outcome.Success? ==> wire != NothingSent)
    ensures Reaches(w, Call(t, id), w')
    ensures var born := C.Bear(w.client, id, birth.command);
            w'.client == AfterCall(if online then Requests(born, rid, id, wire) else born, id,
                                   QueuedBy(id, birth, online, outcome, now, draw), online && outcome.Success?)
  {
    hide Sys.Inv, Reaches, C.Enabled, C.Next, C.WireRequest, C.IsFreshKey, NextRetryDelayMs, QueuedBy;
    FreshIsIdle(w, id);
    var c := C.Bear(w.client, id, birth.command);
    if !online {
      var item := NewItem(id, birth, now);
      var call := C.Running(t, birth.clubId, birth.userId, C.Queueing(item));
      BeginsOffline(w.client, w.server.answers, t, id, birth, now);
      var begun := w.(client := Calls(c, id, call));
      ClientMoves(w, Call(t, id), C.RunOffline(t, id, birth.clubId, birth.userId, birth.command, now), begun.client);
      w' := PutsItem(begun, t, c, id, call);
      Joined(w, Call(t, id), begun, w');
      OfflineIsQueued(id, birth, outcome, now, draw);
    } else {
      var call := C.Running(t, birth.clubId, birth.userId, C.Calling(C.NotSent));
      BeginsOnline(w.client, w.server.answers, t, id, birth.clubId, birth.userId, birth.command);
      var begun := w.(client := Calls(c, id, call));
      ClientMoves(w, Call(t, id), C.RunOnline(t, id, birth.clubId, birth.userId, birth.command), begun.client);
      ReachesKeepsInv(w, Call(t, id), begun);
      w' := OnlineReaches(begun, t, c, id, call, birth, outcome, now, draw, wire, rid, offered);
      Joined(w, Call(t, id), begun, w');
    }
  }

  lemma OfflineIsQueued(id: string, birth: Birth, outcome: Outcome, now: int, draw: real)
    ensures QueuedBy(id, birth, false, outcome, now, draw) == Some(NewItem(id, birth, now))
  {
  }

  lemma OnlineReaches(w: Sys.World, t: nat, c: C.Client, id: string, call: C.Running, birth: Birth, outcome: Outcome,
                      now: int, draw: real, wire: Wire, rid: nat, offered: I.Reply) returns (w': Sys.World)
    requires Sys.Inv(w) && id in c.born && id !in c.calls && FreeFrom(c, rid)
    requires w.client == Calls(c, id, call) && call.pc == C.Calling(C.NotSent)
    requires birth == Birth(call.clubId, call.userId, c.born[id], now)
    requires outcome.Success? ==> wire != NothingSent
    ensures Reaches(w, Call(t, id), w')
    ensures w'.client == AfterCall(Requests(c, rid, id, wire), id, QueuedBy(id, birth, true, outcome, now, draw),
                                   outcome.Success?)
  {
    hide Sys.Inv, Reaches, C.WireRequest, NextRetryDelayMs, FreeFrom, AfterCall;
    var waiting, http := CallGoesOut(w, t, c, id, call, rid, wire);
    ReachesKeepsInv(w, Call(t, id), waiting);
    var answered, reply := AnswerComes(waiting, Call(t, id), id, http, outcome.Success?, offered);
    Joined(w, Call(t, id), waiting, answered);
    var sent := Requests(c, rid, id, wire);
    match outcome {
      case Success => w' := CallSucceeds(answered, t, sent, id, call.(pc := C.Calling(http)), http, reply);
      case Failure(error) =>
        w' := CallFails(answered, t, sent, id, call.(pc := C.Calling(http)), http, birth, error, now, draw);
    }
    Joined(w, Call(t, id), answered, w');
  }

  /**
   * Refinement: take any run of the protocol with tab t open, any key never used before and any
   * outcome. The run goes on, by steps of this call and of the server alone, to a world with the
   * outbox that `runCommand` leaves: the item queued when the console is offline or the failure is
   * not final, and the outbox untouched otherwise. A success is recorded as returned and applied
   * exactly once; nothing else of the console has changed but the requests sent.
   */
  lemma CommandIsARun(run: seq<Sys.World>, t: nat, id: string, birth: Birth, online: bool, outcome: Outcome, now: int,
                      draw: real, wire: Wire, offered: I.Reply)
    returns (longer: seq<Sys.World>, rid: nat)
    requires Sys.IsRun(run)
    requires var c := run[|run| - 1].client; t in c.drains && C.IsFreshKey(c, id)
    requires birth.createdAt == now && (online && outcome.Success? ==> wire != NothingSent)
    ensures Sys.IsRun(longer) && run <= longer && OnlyBy(longer, |run| - 1, Call(t, id))
    ensures var c, last := run[|run| - 1].client, longer[|longer| - 1];
            var born := c.(born := c.born[id := birth.command]);
            var queued := QueuedBy(id, birth, online, outcome, now, draw);
            && FreeFrom(c, rid)
            && last.client == AfterCall(if online then Requests(born, rid, id, wire) else born, id, queued,
                                        online && outcome.Success?)
            && (online && outcome.Success? ==> Sys.AppliedOnce(last, id))
  {
    hide Sys.Inv, Reaches, OnlyBy, Sys.AppliedOnce, C.WireRequest, C.IsFreshKey, QueuedBy;
    var w := run[|run| - 1];
    Sys.RunKeepsInv(run, |run| - 1);
    rid := FreshNat(w.client.sent.Keys);
    var last := CommandReaches(w, t, id, birth, online, outcome, now, draw, wire, rid, offered);
    longer := Extends(run, Call(t, id), last);
    Sys.RunKeepsInv(longer, |longer| - 1);
    if online && outcome.Success? { Sys.AckedIsApplied(last, id); }
  }
}
