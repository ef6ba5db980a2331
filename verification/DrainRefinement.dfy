/**
 * The engine's drain pass is a run of the protocol. A pass that nothing interrupts, as the class
 * `SyncEngine.Engine` makes it, continues any run of `OfflineSystem`: by the steps that one tab's
 * drain takes there and by what the server does with the requests of the pass. So what is proved
 * about every run of the protocol holds of every such pass.
 */
module DrainRefinement {
  import opened Options
  import opened Outbox
  import opened OutboxStore
  import opened Idempotency
  import S = OfflineServer
  import C = OfflineClient
  import Sys = OfflineSystem
  import opened WorldRuns
  import opened SyncEngine

  ghost function At(c: C.Client, items: Items, t: nat, d: C.Drain): C.Client {
    c.(items := items, drains := c.drains[t := d])
  }

  /** Moving a tab and writing the outbox again forgets where they were before. */
  lemma AtAgain(c: C.Client, items: Items, t: nat, d: C.Drain, items': Items, d': C.Drain)
    ensures At(At(c, items, t, d), items', t, d') == At(c, items', t, d')
  {
    assert c.drains[t := d][t := d'] == c.drains[t := d'];
  }

  // ── Recovery ─────────────────────────────────────────────────────────────

  /** The recovery loop over a listing. */
  function RecoverListed(items: Items, todo: seq<Item>, now: int): Items
    decreases |todo|
  {
    if todo == [] then items
    else RecoverListed(RecoverOne(items, todo[0], now), todo[1..], now)
  }

  function RecoverOne(items: Items, item: Item, now: int): Items {
    if item.status == Syncing then items[item.id := RecoverInterrupted(item, now)] else items
  }

  lemma RecoversOne(c: C.Client, answers: set<S.Sent>, t: nat, now: int, todo: seq<Item>)
    requires t in c.drains && c.drains[t] == C.Recovering(now, todo) && todo != []
    ensures C.Enabled(c, answers, C.RecoverOne(t))
    ensures C.Next(c, answers, C.RecoverOne(t))
         == At(c, RecoverOne(c.items, todo[0], now), t, C.Recovering(now, todo[1..]))
  {
    hide C.WireRequest;
  }

  lemma {:induction false} RecoveryRuns(w: Sys.World, t: nat, now: int, todo: seq<Item>)
    requires t in w.client.drains && w.client.drains[t] == C.Recovering(now, todo)
    ensures var c := w.client;
            Reaches(w, Drain(t), w.(client := At(c, RecoverListed(c.items, todo, now), t, C.Recovering(now, []))))
    decreases |todo|
  {
    hide Reaches, C.Enabled, C.Next, RecoverOne;
    var c := w.client;
    if todo == [] {
      assert At(c, c.items, t, C.Recovering(now, [])) == c;
      Stays(w, Drain(t));
    } else {
      var d, d' := C.Recovering(now, todo[1..]), C.Recovering(now, []);
      var items := RecoverOne(c.items, todo[0], now);
      var mid := w.(client := At(c, items, t, d));
      RecoversOne(c, w.server.answers, t, now, todo);
      ClientMoves(w, Drain(t), C.RecoverOne(t), mid.client);
      RecoveryRuns(mid, t, now, todo[1..]);
      var last := RecoverListed(items, todo[1..], now);
      AtAgain(c, items, t, d, last, d');
      Joined(w, Drain(t), mid, w.(client := At(c, last, t, d')));
    }
  }

  lemma {:induction false} RecoveredKeys(items: Items, todo: seq<Item>, now: int)
    requires forall i :: 0 <= i < |todo| ==> todo[i].id in items
    ensures RecoverListed(items, todo, now).Keys == items.Keys
    decreases |todo|
  {
    if todo != [] { RecoveredKeys(RecoverOne(items, todo[0], now), todo[1..], now); }
  }

  lemma {:induction false} RecoveredAt(items: Items, todo: seq<Item>, now: int, k: string)
    requires DistinctIds(todo) && k in items
    requires forall i :: 0 <= i < |todo| ==> todo[i].id in items && items[todo[i].id] == todo[i]
    ensures k in RecoverListed(items, todo, now)
    ensures RecoverListed(items, todo, now)[k]
         == if exists i :: 0 <= i < |todo| && todo[i].id == k then RecoverInterrupted(items[k], now) else items[k]
    decreases |todo|
  {
    if todo != [] {
      var next := RecoverOne(items, todo[0], now);
      var rest := todo[1..];
      forall i | 0 <= i < |rest| ensures rest[i].id in next && next[rest[i].id] == rest[i] {
        assert rest[i] == todo[i + 1];
      }
      RecoveredAt(next, rest, now, k);
      if k == todo[0].id {
        forall i | 0 <= i < |rest| ensures rest[i].id != k { assert rest[i] == todo[i + 1]; }
      } else if i :| 0 <= i < |todo| && todo[i].id == k {
        assert rest[i - 1].id == k;
      }
    }
  }

  lemma {:induction false} ListingRecoversAll(items: Items, list: seq<Item>, now: int)
    requires Keyed(items) && IsListing(items, list)
    ensures RecoverListed(items, list, now) == RecoverAll(items, now)
  {
    RecoveredKeys(items, list, now);
    forall k | k in items
      ensures k in RecoverListed(items, list, now)
          && RecoverListed(items, list, now)[k] == RecoverInterrupted(items[k], now) {
      RecoveredAt(items, list, now, k);
      var i :| 0 <= i < |list| && list[i].id == k;
    }
  }

  // ── One attempt ──────────────────────────────────────────────────────────

  /** The requests of one attempt: none if the executor gave up before sending, as it does when a
      bill's total moved, and two if the first was answered 401 and repeated. */
  datatype Wire = NothingSent | SentOnce | SentAgain

  function Uses(wire: Wire): nat {
    match wire
    case NothingSent => 0
    case SentOnce => 1
    case SentAgain => 2
  }

  /** Only what was sent can succeed. */
  ghost predicate Plausible(attempted: seq<Item>, env: Env, wire: Item -> Wire) {
    forall i :: 0 <= i < |attempted| && env.outcome(attempted[i]).Success? ==> wire(attempted[i]) != NothingSent
  }

  ghost function OnWire(c: C.Client, rid: nat, id: string): C.Client
    requires id in c.born
  {
    c.(sent := c.sent[rid := C.WireRequest(id, c.born[id])])
  }

  /** The requests of an attempt, numbered from rid on. */
  ghost function Requests(c: C.Client, rid: nat, id: string, wire: Wire): C.Client
    requires id in c.born
  {
    match wire
    case NothingSent => c
    case SentOnce => OnWire(c, rid, id)
    case SentAgain => OnWire(OnWire(c, rid, id), rid + 1, id)
  }

  /** What an attempt changes apart from the outbox: the requests on the network, and the
      acknowledgement. */
  ghost function Sends(c: C.Client, rid: nat, item: Item, env: Env, wire: Wire): C.Client
    requires item.id in c.born
  {
    var c' := Requests(c, rid, item.id, wire);
    c'.(acked := if env.outcome(item).Success? then c.acked + {item.id} else c.acked)
  }

  /** Request numbers from rid on are free. */
  ghost predicate FreeFrom(c: C.Client, rid: nat) {
    forall r :: r in c.sent ==> r < rid
  }

  function SyncingOf(item: Item, now: int): Item {
    ApplyOutboxEvent(item, StartSyncing, now, 0)
  }

  lemma StartsAttempt(c: C.Client, answers: set<S.Sent>, t: nat, now: int, club: int, todo: seq<Item>)
    requires t in c.drains && c.drains[t] == C.Draining(now, club, todo) && todo != []
        && C.IsEligible(todo[0], now, club)
    ensures C.Enabled(c, answers, C.DrainStart(t))
    ensures C.Next(c, answers, C.DrainStart(t))
         == At(c, c.items[todo[0].id := SyncingOf(todo[0], now)], t,
             C.Sending(now, club, SyncingOf(todo[0], now), C.NotSent, todo[1..]))
  {
    hide C.WireRequest;
  }

  lemma SendsAttempt(c: C.Client, answers: set<S.Sent>, t: nat, now: int, club: int, item: Item, rest: seq<Item>,
                     rid: nat)
    requires t in c.drains && c.drains[t] == C.Sending(now, club, item, C.NotSent, rest) && item.id in c.born
        && rid !in c.sent
    ensures C.Enabled(c, answers, C.DrainSend(t, rid))
    ensures C.Next(c, answers, C.DrainSend(t, rid))
         == At(OnWire(c, rid, item.id), c.items, t, C.Sending(now, club, item, C.Waiting(rid, false), rest))
  {
    hide C.WireRequest;
  }

  lemma ResendsAttempt(c: C.Client, answers: set<S.Sent>, t: nat, now: int, club: int, item: Item, rest: seq<Item>,
                       first: nat, rid: nat)
    requires t in c.drains && c.drains[t] == C.Sending(now, club, item, C.Waiting(first, false), rest)
    requires item.id in c.born && rid !in c.sent && S.Sent(first, S.Unauthorized) in answers
    ensures C.Enabled(c, answers, C.DrainResend(t, rid))
    ensures C.Next(c, answers, C.DrainResend(t, rid))
         == At(OnWire(c, rid, item.id), c.items, t, C.Sending(now, club, item, C.Waiting(rid, true), rest))
  {
    hide C.WireRequest;
  }

  function SettleStep(t: nat, item: Item, env: Env, reply: Reply): C.Step {
    match env.outcome(item)
    case Success => C.DrainOk(t, reply)
    case Failure(error) => C.DrainFail(t, error, env.clock(item), env.draw(item))
  }

  /** A failure needs nothing of the server, a success its answer. */
  lemma SettlesAttempt(c: C.Client, answers: set<S.Sent>, t: nat, now: int, club: int, item: Item, http: C.Http,
                       rest: seq<Item>, env: Env, reply: Reply)
    requires t in c.drains && item.id in c.born
    requires env.outcome(item).Success? ==> http.Waiting? && S.Sent(http.rid, S.Ok(reply)) in answers
    requires c.drains[t] == C.Sending(now, club, SyncingOf(item, now), http, rest)
    ensures C.Enabled(c, answers, SettleStep(t, item, env, reply))
    ensures C.Next(c, answers, SettleStep(t, item, env, reply))
         == At(c.(acked := if env.outcome(item).Success? then c.acked + {item.id} else c.acked), c.items, t,
               C.Settling(now, club, Settled(item, env), rest))
  {
    hide C.WireRequest, Classify, C.DelayFor;
    assert SyncingOf(item, now) == SyncingOf(item, env.clock(item));
    match env.outcome(item) {
      case Success => assert C.AfterOk(SyncingOf(item, now), now) == Settled(item, env);
      case Failure(error) =>
        assert C.AfterError(SyncingOf(item, now), error, env.clock(item), env.draw(item)) == Settled(item, env);
    }
  }

  lemma PutsAttempt(c: C.Client, answers: set<S.Sent>, t: nat, now: int, club: int, next: Item, rest: seq<Item>)
    requires t in c.drains && c.drains[t] == C.Settling(now, club, next, rest)
    ensures C.Enabled(c, answers, C.SettlePut(t))
    ensures C.Next(c, answers, C.SettlePut(t)) == At(c, c.items[next.id := next], t, C.Draining(now, club, rest))
  {
    hide C.WireRequest;
  }

  lemma SettledKeepsId(item: Item, env: Env)
    ensures Settled(item, env).id == item.id
  {
  }

  /** The executor's requests go out; a first one to be repeated is refused by the server. */
  lemma RequestsGoOut(w: Sys.World, t: nat, now: int, club: int, item: Item, rest: seq<Item>, rid: nat, wire: Wire)
    returns (w': Sys.World, http: C.Http)
    requires t in w.client.drains && w.client.drains[t] == C.Sending(now, club, item, C.NotSent, rest)
    requires item.id in w.client.born && FreeFrom(w.client, rid)
    ensures Reaches(w, Drain(t), w')
    ensures w'.client == At(Requests(w.client, rid, item.id, wire), w.client.items, t,
                            C.Sending(now, club, item, http, rest))
    ensures wire != NothingSent ==> http.Waiting? && http.rid in w'.client.sent
                                    && w'.client.sent[http.rid] == C.WireRequest(item.id, w.client.born[item.id])
  {
    hide Reaches, C.Enabled, C.Next, C.WireRequest;
    var c := w.client;
    w', http := w, C.NotSent;
    Stays(w, Drain(t));
    assert At(c, c.items, t, c.drains[t]) == c;
    if wire != NothingSent {
      http := C.Waiting(rid, false);
      var one := OnWire(c, rid, item.id);
      SendsAttempt(c, w.server.answers, t, now, club, item, rest, rid);
      w' := w.(client := At(one, c.items, t, C.Sending(now, club, item, http, rest)));
      ClientMoves(w, Drain(t), C.DrainSend(t, rid), w'.client);
      if wire == SentAgain {
        var refused := RefusedAtTheDoor(w', Drain(t), rid);
        Joined(w, Drain(t), w', refused);
        ResendsAttempt(refused.client, refused.server.answers, t, now, club, item, rest, rid, rid + 1);
        var d := C.Sending(now, club, item, http, rest);
        http := C.Waiting(rid + 1, true);
        var two := OnWire(one, rid + 1, item.id);
        var d' := C.Sending(now, club, item, http, rest);
        assert OnWire(At(one, c.items, t, d), rid + 1, item.id) == At(two, c.items, t, d);
        AtAgain(two, c.items, t, d, c.items, d');
        w' := refused.(client := At(two, c.items, t, d'));
        ClientMoves(refused, Drain(t), C.DrainResend(t, rid + 1), w'.client);
        Joined(w, Drain(t), refused, w');
      }
    }
  }

  lemma AttemptStarts(w: Sys.World, t: nat, now: int, club: int, todo: seq<Item>, rid: nat, wire: Wire)
    returns (w': Sys.World, http: C.Http)
    requires t in w.client.drains && w.client.drains[t] == C.Draining(now, club, todo) && todo != []
    requires C.IsEligible(todo[0], now, club) && todo[0].id in w.client.born && FreeFrom(w.client, rid)
    ensures Reaches(w, Drain(t), w')
    ensures var syncing := SyncingOf(todo[0], now);
            w'.client == At(Requests(w.client, rid, syncing.id, wire), w.client.items[syncing.id := syncing], t,
                            C.Sending(now, club, syncing, http, todo[1..]))
    ensures wire != NothingSent ==> http.Waiting? && http.rid in w'.client.sent
                                    && w'.client.sent[http.rid] == C.WireRequest(todo[0].id, w.client.born[todo[0].id])
  {
    hide Reaches, C.Enabled, C.Next, C.IsEligible, C.WireRequest;
    var c, syncing := w.client, SyncingOf(todo[0], now);
    var items := c.items[syncing.id := syncing];
    var d := C.Sending(now, club, syncing, C.NotSent, todo[1..]);
    StartsAttempt(c, w.server.answers, t, now, club, todo);
    var started := w.(client := At(c, items, t, d));
    ClientMoves(w, Drain(t), C.DrainStart(t), started.client);
    w', http := RequestsGoOut(started, t, now, club, syncing, todo[1..], rid, wire);
    Joined(w, Drain(t), started, w');
    RequestsMoved(c, rid, syncing.id, wire, items, t, d);
    AtAgain(Requests(c, rid, syncing.id, wire), items, t, d, items, C.Sending(now, club, syncing, http, todo[1..]));
  }

  /** Sending neither reads nor writes the outbox or the tab's place. */
  lemma RequestsMoved(c: C.Client, rid: nat, id: string, wire: Wire, items: Items, t: nat, d: C.Drain)
    requires id in c.born
    ensures Requests(At(c, items, t, d), rid, id, wire) == At(Requests(c, rid, id, wire), items, t, d)
  {
    hide C.WireRequest;
  }

  lemma AttemptEnds(w: Sys.World, c: C.Client, t: nat, now: int, club: int, item: Item, http: C.Http,
                    rest: seq<Item>, env: Env, reply: Reply, items: Items) returns (w': Sys.World)
    requires item.id in c.born
    requires env.outcome(item).Success? ==> http.Waiting? && S.Sent(http.rid, S.Ok(reply)) in w.server.answers
    requires w.client == At(c, items, t, C.Sending(now, club, SyncingOf(item, now), http, rest))
    ensures Reaches(w, Drain(t), w')
    ensures w'.client == At(c.(acked := if env.outcome(item).Success? then c.acked + {item.id} else c.acked),
                            items[item.id := Settled(item, env)], t, C.Draining(now, club, rest))
  {
    hide Reaches, C.Enabled, C.Next, C.WireRequest, Settled, SettleStep, SyncingOf;
    SettledKeepsId(item, env);
    SettlesAttempt(w.client, w.server.answers, t, now, club, item, http, rest, env, reply);
    var acked := c.(acked := if env.outcome(item).Success? then c.acked + {item.id} else c.acked);
    var d := C.Settling(now, club, Settled(item, env), rest);
    assert w.client.(acked := acked.acked) == At(acked, items, t, w.client.drains[t]);
    AtAgain(acked, items, t, w.client.drains[t], items, d);
    var mid := w.(client := At(acked, items, t, d));
    assert OfDrain(SettleStep(t, item, env, reply), t) by { SettlesInDrain(t, item, env, reply); }
    ClientMoves(w, Drain(t), SettleStep(t, item, env, reply), mid.client);
    PutsAttempt(mid.client, mid.server.answers, t, now, club, Settled(item, env), rest);
    var d' := C.Draining(now, club, rest);
    AtAgain(acked, items, t, d, items[item.id := Settled(item, env)], d');
    w' := mid.(client := At(acked, items[item.id := Settled(item, env)], t, d'));
    ClientMoves(mid, Drain(t), C.SettlePut(t), w'.client);
    Joined(w, Drain(t), mid, w');
  }

  lemma SettlesInDrain(t: nat, item: Item, env: Env, reply: Reply)
    ensures OfDrain(SettleStep(t, item, env, reply), t)
  {
  }

  /** One attempt, whatever it sends and however it ends. */
  lemma AttemptRuns(w: Sys.World, t: nat, now: int, club: int, todo: seq<Item>, env: Env, rid: nat, wire: Wire,
                    offered: Reply) returns (w': Sys.World)
    requires Sys.Inv(w) && t in w.client.drains && w.client.drains[t] == C.Draining(now, club, todo) && todo != []
    requires C.IsEligible(todo[0], now, club) && todo[0].id in w.client.born && FreeFrom(w.client, rid)
    requires env.outcome(todo[0]).Success? ==> wire != NothingSent
    ensures Reaches(w, Drain(t), w') && Sys.Inv(w')
    ensures w'.client == At(Sends(w.client, rid, todo[0], env, wire),
                            w.client.items[todo[0].id := Settled(todo[0], env)], t, C.Draining(now, club, todo[1..]))
  {
    hide Reaches, Sys.Inv, C.WireRequest, C.IsEligible, Settled;
    var c, item := w.client, todo[0];
    var waiting, http := AttemptStarts(w, t, now, club, todo, rid, wire);
    ReachesKeepsInv(w, Drain(t), waiting);
    var answered, reply := AnswerComes(waiting, Drain(t), item.id, http, env.outcome(item).Success?, offered);
    Joined(w, Drain(t), waiting, answered);
    var syncing := SyncingOf(item, now);
    var items := c.items[item.id := syncing];
    var sent := Requests(c, rid, item.id, wire);
    w' := AttemptEnds(answered, sent, t, now, club, item, http, todo[1..], env, reply, items);
    assert items[item.id := Settled(item, env)] == c.items[item.id := Settled(item, env)];
    Joined(w, Drain(t), answered, w');
    ReachesKeepsInv(w, Drain(t), w');
  }

  // ── The loop ─────────────────────────────────────────────────────────────

  /** What the attempts of a pass leave, in their order from the first on. */
  function SettleAll(items: Items, attempted: seq<Item>, env: Env): Items
    decreases |attempted|
  {
    if attempted == [] then items
    else SettleAll(items[attempted[0].id := Settled(attempted[0], env)], attempted[1..], env)
  }

  /** What they send and have acknowledged; request numbers are taken in order from rid on. */
  ghost function SendAll(c: C.Client, rid: nat, attempted: seq<Item>, env: Env, wire: Item -> Wire): C.Client
    requires forall i :: 0 <= i < |attempted| ==> attempted[i].id in c.born
    decreases |attempted|
  {
    if attempted == [] then c
    else
      var item := attempted[0];
      SendAll(Sends(c, rid, item, env, wire(item)), rid + Uses(wire(item)), attempted[1..], env, wire)
  }

  lemma {:induction false} SettleAllIsAfterAttempts(items: Items, attempted: seq<Item>, last: Item, env: Env)
    ensures SettleAll(items, attempted + [last], env) == SettleAll(items, attempted, env)[last.id := Settled(last, env)]
    decreases |attempted|
  {
    hide Settled;
    if attempted == [] {
      assert [] + [last] == [last] && [last][1..] == [];
    } else {
      assert (attempted + [last])[1..] == attempted[1..] + [last];
      SettleAllIsAfterAttempts(items[attempted[0].id := Settled(attempted[0], env)], attempted[1..], last, env);
    }
  }

  lemma {:induction false} SameAttempts(items: Items, attempted: seq<Item>, env: Env)
    ensures SettleAll(items, attempted, env) == AfterAttempts(items, attempted, env)
    decreases |attempted|
  {
    hide Settled;
    if attempted != [] {
      var front, last := attempted[..|attempted| - 1], attempted[|attempted| - 1];
      SameAttempts(items, front, env);
      assert front + [last] == attempted;
      SettleAllIsAfterAttempts(items, front, last, env);
    }
  }

  /** The loop ends here with these attempts made, and this much of the listing left. */
  ghost predicate LoopDone(w: Sys.World, t: nat, now: int, club: int, attempted: seq<Item>, env: Env,
                           wire: Item -> Wire, rid: nat, w': Sys.World, left: seq<Item>)
  {
    && (forall i :: 0 <= i < |attempted| ==> attempted[i].id in w.client.born)
    && Reaches(w, Drain(t), w')
    && w'.client == At(SendAll(w.client, rid, attempted, env, wire), SettleAll(w.client.items, attempted, env), t,
                       C.Draining(now, club, left))
  }

  lemma SkipsItem(c: C.Client, answers: set<S.Sent>, t: nat, now: int, club: int, todo: seq<Item>)
    requires t in c.drains && c.drains[t] == C.Draining(now, club, todo) && todo != []
    requires !C.IsEligible(todo[0], now, club)
    ensures C.Enabled(c, answers, C.DrainSkip(t))
    ensures C.Next(c, answers, C.DrainSkip(t)) == At(c, c.items, t, C.Draining(now, club, todo[1..]))
  {
    hide C.WireRequest, C.IsEligible;
  }

  lemma LoopStops(w: Sys.World, t: nat, now: int, club: int, todo: seq<Item>, env: Env, wire: Item -> Wire, rid: nat)
    requires t in w.client.drains && w.client.drains[t] == C.Draining(now, club, todo)
    ensures LoopDone(w, t, now, club, [], env, wire, rid, w, todo)
  {
    hide Reaches;
    Stays(w, Drain(t));
    assert At(w.client, w.client.items, t, C.Draining(now, club, todo)) == w.client;
  }

  lemma LoopSkips(w: Sys.World, t: nat, now: int, club: int, todo: seq<Item>, attempted: seq<Item>, env: Env,
                  wire: Item -> Wire, rid: nat, mid: Sys.World, w': Sys.World, left: seq<Item>)
    requires Reaches(w, Drain(t), mid) && mid.client == At(w.client, w.client.items, t, C.Draining(now, club, todo))
    requires LoopDone(mid, t, now, club, attempted, env, wire, rid, w', left)
    ensures LoopDone(w, t, now, club, attempted, env, wire, rid, w', left)
  {
    hide Reaches, C.WireRequest, SendAll, SettleAll;
    var c, d, d' := w.client, C.Draining(now, club, todo), C.Draining(now, club, left);
    SendAllMoved(c, rid, attempted, env, wire, c.items, t, d);
    AtAgain(SendAll(c, rid, attempted, env, wire), c.items, t, d, SettleAll(c.items, attempted, env), d');
    Joined(w, Drain(t), mid, w');
  }

  lemma {:induction false} FirstOfAll(c: C.Client, rid: nat, item: Item, later: seq<Item>, env: Env, wire: Item -> Wire)
    requires item.id in c.born && forall i :: 0 <= i < |later| ==> later[i].id in c.born
    ensures var next := Sends(c, rid, item, env, wire(item));
            && next.born == c.born
            && SendAll(c, rid, [item] + later, env, wire) == SendAll(next, rid + Uses(wire(item)), later, env, wire)
    ensures SettleAll(c.items, [item] + later, env)
         == SettleAll(c.items[item.id := Settled(item, env)], later, env)
  {
    hide C.WireRequest, Settled, Sends, Uses;
    SendsAre(c, rid, item, env, wire(item));
    var all := [item] + later;
    assert all[0] == item && all[1..] == later;
  }

  lemma LoopAttempts(w: Sys.World, t: nat, now: int, club: int, item: Item, rest: seq<Item>, later: seq<Item>,
                     env: Env, wire: Item -> Wire, rid: nat, mid: Sys.World, w': Sys.World, left: seq<Item>)
    requires item.id in w.client.born && Reaches(w, Drain(t), mid)
    requires mid.client == At(Sends(w.client, rid, item, env, wire(item)),
                              w.client.items[item.id := Settled(item, env)], t, C.Draining(now, club, rest))
    requires LoopDone(mid, t, now, club, later, env, wire, rid + Uses(wire(item)), w', left)
    ensures LoopDone(w, t, now, club, [item] + later, env, wire, rid, w', left)
  {
    hide Reaches, C.WireRequest, Settled, Uses, Sends, SendAll, SettleAll;
    var items := w.client.items[item.id := Settled(item, env)];
    SendsAre(w.client, rid, item, env, wire(item));
    FirstOfAll(w.client, rid, item, later, env, wire);
    var sends, next := Sends(w.client, rid, item, env, wire(item)), rid + Uses(wire(item));
    var d, d' := C.Draining(now, club, rest), C.Draining(now, club, left);
    SendAllMoved(sends, next, later, env, wire, items, t, d);
    AtAgain(SendAll(sends, next, later, env, wire), items, t, d, SettleAll(items, later, env), d');
    Joined(w, Drain(t), mid, w');
  }

  /** One attempt writes its own request numbers and no other, and nothing but these and the
      acknowledgement. */
  lemma SendsAre(c: C.Client, rid: nat, item: Item, env: Env, wire: Wire)
    requires item.id in c.born
    ensures var next := Sends(c, rid, item, env, wire);
            && next == c.(sent := next.sent, acked := next.acked)
            && next.acked == (if env.outcome(item).Success? then c.acked + {item.id} else c.acked)
            && (forall r :: rid <= r < rid + Uses(wire) ==>
                  r in next.sent && next.sent[r] == C.WireRequest(item.id, c.born[item.id]))
            && (forall r :: r < rid || rid + Uses(wire) <= r ==>
                  (r in next.sent <==> r in c.sent) && (r in c.sent ==> next.sent[r] == c.sent[r]))
  {
    hide C.WireRequest;
  }

  lemma SendsFree(c: C.Client, rid: nat, item: Item, env: Env, wire: Wire, items: Items, t: nat, d: C.Drain)
    requires item.id in c.born && FreeFrom(c, rid)
    ensures FreeFrom(At(Sends(c, rid, item, env, wire), items, t, d), rid + Uses(wire))
  {
    hide C.WireRequest;
  }

  lemma {:induction false} LoopRuns(w: Sys.World, t: nat, now: int, club: int, todo: seq<Item>, env: Env, asked: nat,
                                    wire: Item -> Wire, rid: nat, offered: Reply)
    returns (w': Sys.World, left: seq<Item>)
    requires Sys.Inv(w) && t in w.client.drains && w.client.drains[t] == C.Draining(now, club, todo)
    requires FreeFrom(w.client, rid) && forall i :: 0 <= i < |todo| ==> todo[i].id in w.client.born
    requires Plausible(Attempts(todo, now, club, env.online, asked), env, wire)
    ensures LoopDone(w, t, now, club, Attempts(todo, now, club, env.online, asked), env, wire, rid, w', left)
    decreases |todo|
  {
    hide LoopDone, Sys.Inv, Reaches, C.WireRequest, C.IsEligible, Settled, Uses, FreeFrom, Sends, Plausible;
    var c, attempted := w.client, Attempts(todo, now, club, env.online, asked);
    if todo == [] || (C.IsEligible(todo[0], now, club) && !env.online(asked)) {
      w', left := w, todo;
      LoopStops(w, t, now, club, todo, env, wire, rid);
    } else if !C.IsEligible(todo[0], now, club) {
      var mid := SkipRuns(w, t, now, club, todo);
      StillFree(c, mid.client, rid);
      w', left := LoopRuns(mid, t, now, club, todo[1..], env, asked, wire, rid, offered);
      LoopSkips(w, t, now, club, todo[1..], attempted, env, wire, rid, mid, w', left);
    } else {
      var item, later := todo[0], Attempts(todo[1..], now, club, env.online, asked + 1);
      LaterIsPlausible(item, later, env, wire);
      var mid := AttemptRuns(w, t, now, club, todo, env, rid, wire(item), offered);
      SendsAre(c, rid, item, env, wire(item));
      SendsFree(c, rid, item, env, wire(item), mid.client.items, t, mid.client.drains[t]);
      w', left := LoopRuns(mid, t, now, club, todo[1..], env, asked + 1, wire, rid + Uses(wire(item)), offered);
      LoopAttempts(w, t, now, club, item, todo[1..], later, env, wire, rid, mid, w', left);
    }
  }

  lemma SkipRuns(w: Sys.World, t: nat, now: int, club: int, todo: seq<Item>) returns (w': Sys.World)
    requires Sys.Inv(w) && t in w.client.drains && w.client.drains[t] == C.Draining(now, club, todo) && todo != []
    requires !C.IsEligible(todo[0], now, club)
    ensures Reaches(w, Drain(t), w') && Sys.Inv(w')
    ensures w'.client == At(w.client, w.client.items, t, C.Draining(now, club, todo[1..]))
  {
    hide Reaches, Sys.Inv, C.Enabled, C.Next, C.IsEligible;
    SkipsItem(w.client, w.server.answers, t, now, club, todo);
    w' := w.(client := At(w.client, w.client.items, t, C.Draining(now, club, todo[1..])));
    ClientMoves(w, Drain(t), C.DrainSkip(t), w'.client);
    ReachesKeepsInv(w, Drain(t), w');
  }

  lemma LaterIsPlausible(item: Item, later: seq<Item>, env: Env, wire: Item -> Wire)
    requires Plausible([item] + later, env, wire)
    ensures env.outcome(item).Success? ==> wire(item) != NothingSent
    ensures Plausible(later, env, wire)
  {
    var attempted := [item] + later;
    assert attempted[0] == item;
    forall i | 0 <= i < |later| && env.outcome(later[i]).Success? ensures wire(later[i]) != NothingSent {
      assert attempted[i + 1] == later[i];
    }
  }

  lemma StillFree(c: C.Client, c': C.Client, rid: nat)
    requires FreeFrom(c, rid) && c'.sent == c.sent
    ensures FreeFrom(c', rid)
  {
  }

  /** Sending neither reads nor writes the outbox or the tab's place. */
  lemma {:induction false} SendAllMoved(c: C.Client, rid: nat, attempted: seq<Item>, env: Env, wire: Item -> Wire,
                                        items: Items, t: nat, d: C.Drain)
    requires forall i :: 0 <= i < |attempted| ==> attempted[i].id in c.born
    ensures SendAll(At(c, items, t, d), rid, attempted, env, wire)
         == At(SendAll(c, rid, attempted, env, wire), items, t, d)
    decreases |attempted|
  {
    hide C.WireRequest, Uses, Requests;
    if attempted != [] {
      var item := attempted[0];
      var next := Sends(c, rid, item, env, wire(item));
      SendsAre(c, rid, item, env, wire(item));
      RequestsMoved(c, rid, item.id, wire(item), items, t, d);
      assert Sends(At(c, items, t, d), rid, item, env, wire(item)) == At(next, items, t, d);
      SendAllMoved(next, rid + Uses(wire(item)), attempted[1..], env, wire, items, t, d);
    }
  }

  // ── The pass ─────────────────────────────────────────────────────────────

  /** The listing that the recovery of a pass works through. */
  lemma OlderListing(items: Items, now: int, list: seq<Item>) returns (older: seq<Item>)
    requires Keyed(items) && IsListing(RecoverAll(items, now), list)
    ensures IsListing(items, older)
  {
    hide IsListing, RecoverAll;
    ListedIn(items, now, list);
    older := seq(|list|, i requires 0 <= i < |list| => items[list[i].id]);
    OlderIsListing(items, now, list, older);
  }

  lemma ListedIn(items: Items, now: int, list: seq<Item>)
    requires IsListing(RecoverAll(items, now), list)
    ensures forall i :: 0 <= i < |list| ==> list[i].id in items && list[i] == RecoverInterrupted(items[list[i].id], now)
  {
  }

  lemma OlderIsListing(items: Items, now: int, list: seq<Item>, older: seq<Item>)
    requires Keyed(items) && IsListing(RecoverAll(items, now), list) && |older| == |list|
    requires forall i :: 0 <= i < |list| ==> list[i].id in items && older[i] == items[list[i].id]
    ensures IsListing(items, older)
  {
    ListedIn(items, now, list);
    forall i | 0 <= i < |list| ensures older[i].id == list[i].id && older[i].createdAt == list[i].createdAt {}
    forall k | k in items ensures exists i :: 0 <= i < |older| && older[i].id == k {
      assert k in RecoverAll(items, now);
      var i :| 0 <= i < |list| && list[i].id == k;
      assert older[i].id == k;
    }
  }

  lemma StopsDraining(c: C.Client, answers: set<S.Sent>, t: nat)
    requires t in c.drains && c.drains[t].Draining?
    ensures C.Enabled(c, answers, C.DrainStop(t))
    ensures C.Next(c, answers, C.DrainStop(t)) == At(c, c.items, t, C.PruneListing)
  {
    hide C.WireRequest;
  }

  lemma ListsStale(c: C.Client, answers: set<S.Sent>, t: nat, later: int, cutoff: int)
    requires t in c.drains && c.drains[t] == C.PruneListing && cutoff == later - C.SYNCED_RETENTION_MS
    ensures C.Enabled(c, answers, C.PruneList(t, later))
    ensures C.Next(c, answers, C.PruneList(t, later))
        == At(c, c.items, t, C.Pruning(cutoff, C.StaleKeys(c.items, cutoff)))
  {
    hide C.WireRequest, C.StaleKeys;
  }

  lemma DeletesStale(c: C.Client, answers: set<S.Sent>, t: nat, cutoff: int)
    requires t in c.drains && c.drains[t] == C.Pruning(cutoff, C.StaleKeys(c.items, cutoff))
    ensures C.Enabled(c, answers, C.PruneDelete(t))
    ensures C.Next(c, answers, C.PruneDelete(t)) == At(c, Pruned(c.items, cutoff), t, C.Idle)
  {
    hide C.WireRequest;
    assert c.items - C.StaleKeys(c.items, cutoff) == Pruned(c.items, cutoff);
  }

  lemma PruneRuns(w: Sys.World, t: nat, now: int, club: int, left: seq<Item>, later: int) returns (w': Sys.World)
    requires t in w.client.drains && w.client.drains[t] == C.Draining(now, club, left)
    ensures Reaches(w, Drain(t), w')
    ensures w'.client == At(w.client, Pruned(w.client.items, later - C.SYNCED_RETENTION_MS), t, C.Idle)
  {
    hide Reaches, C.Enabled, C.Next, Pruned, C.StaleKeys;
    var c, answers, cutoff := w.client, w.server.answers, later - C.SYNCED_RETENTION_MS;
    StopsDraining(c, answers, t);
    var listing := w.(client := At(c, c.items, t, C.PruneListing));
    ClientMoves(w, Drain(t), C.DrainStop(t), listing.client);
    var d := C.Pruning(cutoff, C.StaleKeys(c.items, cutoff));
    ListsStale(listing.client, answers, t, later, cutoff);
    AtAgain(c, c.items, t, C.PruneListing, c.items, d);
    var pruning := w.(client := At(c, c.items, t, d));
    ClientMoves(listing, Drain(t), C.PruneList(t, later), pruning.client);
    Joined(w, Drain(t), listing, pruning);
    DeletesStale(pruning.client, answers, t, cutoff);
    AtAgain(c, c.items, t, d, Pruned(c.items, cutoff), C.Idle);
    w' := w.(client := At(c, Pruned(c.items, cutoff), t, C.Idle));
    ClientMoves(pruning, Drain(t), C.PruneDelete(t), w'.client);
    Joined(w, Drain(t), pruning, w');
  }

  lemma BeginsPass(c: C.Client, answers: set<S.Sent>, t: nat, now: int, older: seq<Item>)
    requires t in c.drains && c.drains[t].Idle? && IsListing(c.items, older)
    ensures C.Enabled(c, answers, C.DrainBegin(t, now, older))
    ensures C.Next(c, answers, C.DrainBegin(t, now, older)) == At(c, c.items, t, C.Recovering(now, older))
  {
    hide C.WireRequest, IsListing;
  }

  lemma ListsItems(c: C.Client, answers: set<S.Sent>, t: nat, now: int, club: int, list: seq<Item>)
    requires t in c.drains && c.drains[t] == C.Recovering(now, []) && IsListing(c.items, list)
    ensures C.Enabled(c, answers, C.DrainList(t, club, list))
    ensures C.Next(c, answers, C.DrainList(t, club, list)) == At(c, c.items, t, C.Draining(now, club, list))
  {
    hide C.WireRequest, IsListing;
  }

  lemma BeginRuns(w: Sys.World, t: nat, now: int, club: int, list: seq<Item>) returns (w': Sys.World)
    requires t in w.client.drains && w.client.drains[t].Idle? && Keyed(w.client.items)
    requires IsListing(RecoverAll(w.client.items, now), list)
    ensures Reaches(w, Drain(t), w')
    ensures w'.client == At(w.client, RecoverAll(w.client.items, now), t, C.Draining(now, club, list))
  {
    hide Reaches, C.Enabled, C.Next, IsListing, RecoverListed, RecoverAll;
    var c, answers := w.client, w.server.answers;
    var items := RecoverAll(c.items, now);
    var older := OlderListing(c.items, now, list);
    ListingRecoversAll(c.items, older, now);
    BeginsPass(c, answers, t, now, older);
    var d := C.Recovering(now, older);
    var begun := w.(client := At(c, c.items, t, d));
    ClientMoves(w, Drain(t), C.DrainBegin(t, now, older), begun.client);
    RecoveryRuns(begun, t, now, older);
    var d' := C.Recovering(now, []);
    AtAgain(c, c.items, t, d, items, d');
    var recovered := w.(client := At(c, items, t, d'));
    Joined(w, Drain(t), begun, recovered);
    ListsItems(recovered.client, answers, t, now, club, list);
    AtAgain(c, items, t, d', items, C.Draining(now, club, list));
    w' := w.(client := At(c, items, t, C.Draining(now, club, list)));
    ClientMoves(recovered, Drain(t), C.DrainList(t, club, list), w'.client);
    Joined(w, Drain(t), recovered, w');
  }

  lemma PassReaches(w: Sys.World, t: nat, after: Items, attempted: seq<Item>, now: int, later: int, club: int,
                    env: Env, wire: Item -> Wire, rid: nat, offered: Reply) returns (w': Sys.World)
    requires Sys.Inv(w) && t in w.client.drains && w.client.drains[t].Idle?
    requires IsPass(w.client.items, after, attempted, now, later, club, env) && Plausible(attempted, env, wire)
    requires FreeFrom(w.client, rid)
    ensures forall i :: 0 <= i < |attempted| ==> attempted[i].id in w.client.born
    ensures Reaches(w, Drain(t), w')
    ensures w'.client == At(SendAll(w.client, rid, attempted, env, wire), after, t, C.Idle)
  {
    hide Sys.Inv, Reaches, Settled, Pruned, C.WireRequest, IsListing, RecoverAll, Attempts, AfterAttempts, SettleAll,
        SendAll, FreeFrom, Plausible;
    var c, recovered := w.client, RecoverAll(w.client.items, now);
    var list: seq<Item> :| IsListing(recovered, list)
                           && PassOver(c.items, after, attempted, now, later, club, env, list);
    OutboxIsBorn(w);
    ListedAreBorn(c, now, list);
    var d := C.Draining(now, club, list);
    var draining := BeginRuns(w, t, now, club, list);
    ReachesKeepsInv(w, Drain(t), draining);
    StillFree(c, draining.client, rid);
    var looped, left := LoopRuns(draining, t, now, club, list, env, 1, wire, rid, offered);
    Joined(w, Drain(t), draining, looped);
    SameAttempts(recovered, attempted, env);
    SendAllMoved(c, rid, attempted, env, wire, recovered, t, d);
    var all := SendAll(c, rid, attempted, env, wire);
    var d' := C.Draining(now, club, left);
    var settled := AfterAttempts(recovered, attempted, env);
    AtAgain(all, recovered, t, d, settled, d');
    w' := PruneRuns(looped, t, now, club, left, later);
    AtAgain(all, settled, t, d', after, C.Idle);
    Joined(w, Drain(t), looped, w');
  }

  lemma OutboxIsBorn(w: Sys.World)
    requires Sys.Inv(w)
    ensures Keyed(w.client.items) && forall k :: k in w.client.items ==> k in w.client.born
  {
    hide C.WireRequest, C.Acknowledged, C.CallOkay, C.DrainOkay, S.Inv;
    forall k | k in w.client.items ensures k in w.client.born {
      assert C.ItemOk(w.client, w.client.items[k]);
    }
  }

  lemma ListedAreBorn(c: C.Client, now: int, list: seq<Item>)
    requires IsListing(RecoverAll(c.items, now), list) && forall k :: k in c.items ==> k in c.born
    ensures forall i :: 0 <= i < |list| ==> list[i].id in c.born
  {
  }

  /**
   * Refinement: take any run of the protocol that ends with tab t idle, and any pass that
   * `drainQueue` could make there uninterrupted. The run goes on, by steps of that tab's drain
   * and of the server alone, to a world with the tab idle again, the outbox that the pass leaves,
   * the requests of its attempts on the network, and the successful ones acknowledged; nothing
   * else of the console has changed, and each successful command has been applied exactly once.
   */
  lemma PassIsARun(run: seq<Sys.World>, t: nat, after: Items, attempted: seq<Item>, now: int, later: int, club: int,
                   env: Env, wire: Item -> Wire, offered: Reply)
    returns (longer: seq<Sys.World>, rid: nat)
    requires Sys.IsRun(run)
    requires var c := run[|run| - 1].client;
             && t in c.drains && c.drains[t].Idle?
             && IsPass(c.items, after, attempted, now, later, club, env)
    requires Plausible(attempted, env, wire)
    ensures Sys.IsRun(longer) && run <= longer && OnlyBy(longer, |run| - 1, Drain(t))
    ensures var c, last := run[|run| - 1].client, longer[|longer| - 1];
            && FreeFrom(c, rid)
            && (forall i :: 0 <= i < |attempted| ==> attempted[i].id in c.born)
            && last.client == At(SendAll(c, rid, attempted, env, wire), after, t, C.Idle)
            && (forall i :: 0 <= i < |attempted| && env.outcome(attempted[i]).Success? ==>
                  Sys.AppliedOnce(last, attempted[i].id))
  {
    hide IsPass, Sys.Inv, Reaches, OnlyBy, SendAll, Sys.AppliedOnce, Plausible, C.WireRequest;
    var w := run[|run| - 1];
    Sys.RunKeepsInv(run, |run| - 1);
    rid := FreshNat(w.client.sent.Keys);
    var last := PassReaches(w, t, after, attempted, now, later, club, env, wire, rid, offered);
    longer := Extends(run, Drain(t), last);
    Sys.RunKeepsInv(longer, |longer| - 1);
    forall i | 0 <= i < |attempted| && env.outcome(attempted[i]).Success?
      ensures Sys.AppliedOnce(last, attempted[i].id)
    {
      SendingKeepsRest(w.client, rid, attempted, env, wire, attempted[i].id);
      Sys.AckedIsApplied(last, attempted[i].id);
    }
  }

  /** The first request number of the i-th attempt. */
  function FirstOf(rid: nat, attempted: seq<Item>, wire: Item -> Wire, i: nat): nat
    requires i <= |attempted|
    decreases i
  {
    if i == 0 then rid else FirstOf(rid + Uses(wire(attempted[0])), attempted[1..], wire, i - 1)
  }

  /** What `SendAll` is: the requests of the i-th attempt go out under its own key, and numbers
      outside the pass are left alone. */
  lemma {:induction false} SendIs(c: C.Client, rid: nat, attempted: seq<Item>, env: Env, wire: Item -> Wire, i: nat,
                                  r: nat)
    requires i < |attempted| && forall j :: 0 <= j < |attempted| ==> attempted[j].id in c.born
    requires FirstOf(rid, attempted, wire, i) <= r < FirstOf(rid, attempted, wire, i) + Uses(wire(attempted[i]))
    ensures r in SendAll(c, rid, attempted, env, wire).sent
    ensures SendAll(c, rid, attempted, env, wire).sent[r] == C.WireRequest(attempted[i].id, c.born[attempted[i].id])
    decreases |attempted|
  {
    hide C.WireRequest, Sends, Uses;
    var item, rest := attempted[0], attempted[1..];
    SendsAre(c, rid, item, env, wire(item));
    var next, rid' := Sends(c, rid, item, env, wire(item)), rid + Uses(wire(item));
    if i == 0 {
      OtherSendsStay(next, rid', rest, env, wire, r);
    } else {
      assert rest[i - 1] == attempted[i];
      SendIs(next, rid', rest, env, wire, i - 1, r);
    }
  }

  lemma {:induction false} OtherSendsStay(c: C.Client, rid: nat, attempted: seq<Item>, env: Env, wire: Item -> Wire,
                                          r: nat)
    requires forall j :: 0 <= j < |attempted| ==> attempted[j].id in c.born
    requires r < rid || FirstOf(rid, attempted, wire, |attempted|) <= r
    ensures var all := SendAll(c, rid, attempted, env, wire);
            (r in all.sent <==> r in c.sent) && (r in c.sent ==> all.sent[r] == c.sent[r])
    decreases |attempted|
  {
    hide C.WireRequest, Sends, Uses;
    if attempted != [] {
      var item, rest := attempted[0], attempted[1..];
      SendsAre(c, rid, item, env, wire(item));
      NumbersClimb(rid + Uses(wire(item)), rest, wire, |rest|);
      OtherSendsStay(Sends(c, rid, item, env, wire(item)), rid + Uses(wire(item)), rest, env, wire, r);
    }
  }

  lemma {:induction false} NumbersClimb(rid: nat, attempted: seq<Item>, wire: Item -> Wire, i: nat)
    requires i <= |attempted|
    ensures rid <= FirstOf(rid, attempted, wire, i)
    decreases i
  {
    if i > 0 { NumbersClimb(rid + Uses(wire(attempted[0])), attempted[1..], wire, i - 1); }
  }

  /** And nothing else about the client changes but the acknowledgement of what succeeded. */
  lemma {:induction false} SendingKeepsRest(c: C.Client, rid: nat, attempted: seq<Item>, env: Env, wire: Item -> Wire,
                                            k: string)
    requires forall j :: 0 <= j < |attempted| ==> attempted[j].id in c.born
    ensures var all := SendAll(c, rid, attempted, env, wire);
            && all == c.(sent := all.sent, acked := all.acked)
            && (k in all.acked <==>
                k in c.acked
                || exists j ::
                     0 <= j < |attempted| && attempted[j].id == k && env.outcome(attempted[j]).Success?)
    decreases |attempted|
  {
    hide C.WireRequest, Sends, Uses;
    if attempted != [] {
      var item, rest := attempted[0], attempted[1..];
      SendsAre(c, rid, item, env, wire(item));
      SendingKeepsRest(Sends(c, rid, item, env, wire(item)), rid + Uses(wire(item)), rest, env, wire, k);
      if j :| 0 <= j < |attempted| && attempted[j].id == k && env.outcome(attempted[j]).Success? {
        if j > 0 { assert rest[j - 1] == attempted[j]; }
      }
      if j :| 0 <= j < |rest| && rest[j].id == k && env.outcome(rest[j]).Success? {
        assert attempted[j + 1] == rest[j];
      }
    }
  }
}
