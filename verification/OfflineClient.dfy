/**
 * The console half of the offline protocol: browser tabs that share one durable outbox.
 *
 * A step is what runs between two awaits. A tab may crash at any of them, which loses
 * everything but the outbox and whatever is already on the network. Several tabs may
 * drain the same outbox from listings that have gone stale in the meantime.
 */
module OfflineClient {
  import opened Options
  import opened Commands
  import opened Idempotency
  import opened Outbox
  import opened OutboxStore
  import opened OfflineServer
  import opened Backoff

  const SYNCED_RETENTION_MS := 7 * 24 * 60 * 60 * 1000
  const UUID_LEN := 36

  /** An executor's progress: nothing sent, or waiting for a request, the first of the
      attempt or the one repeated after a 401. */
  datatype Http = NotSent | Waiting(rid: nat, resent: bool)

  /** A running `runCommand`: in its direct call, or about to write its item. */
  datatype Pc = Calling(http: Http) | Queueing(item: Item)

  datatype Running = Running(tab: nat, clubId: int, userId: Option<int>, pc: Pc)

  /** Where a tab's `drainQueue` is; `Idle` means its `draining` flag is false. */
  datatype Drain =
    | Idle
    | Recovering(now: int, todo: seq<Item>)
    | Draining(now: int, club: int, todo: seq<Item>)
    | Sending(now: int, club: int, item: Item, http: Http, todo: seq<Item>)
    | Settling(now: int, club: int, next: Item, todo: seq<Item>)
    | PruneListing
    | Pruning(cutoff: int, stale: set<string>)

  /**
   * `items` is durable. `calls` and `drains` are the tabs' memory. `sent` is every request
   * ever put on the network. The rest records history: the command of every key, the keys
   * acknowledged by a 2xx answer, the keys for which `runCommand` returned `synced: true`,
   * and the items it queued before returning `synced: false`.
   */
  datatype Client = Client(
    items: Items, calls: map<string, Running>, drains: map<nat, Drain>, sent: map<nat, HttpRequest>,
    born: map<string, Command>, acked: set<string>, returned: set<string>, queued: map<string, Birth>)

  datatype Step =
    | OpenTab(t: nat)
    | CrashTab(t: nat)
    | ForeignSend(rid: nat, req: HttpRequest)
    | RunOnline(t: nat, id: string, clubId: int, userId: Option<int>, command: Command)
    | RunOffline(t: nat, id: string, clubId: int, userId: Option<int>, command: Command, now: int)
    | CallSend(id: string, rid: nat)
    | CallResend(id: string, rid: nat)
    | CallOk(id: string, reply: Reply)
    | CallFail(id: string, error: ClientError, now: int, draw: real)
    | QueuePut(id: string)
    | QueueFail(id: string)
    | DrainBegin(t: nat, now: int, list: seq<Item>)
    | RecoverOne(t: nat)
    | DrainList(t: nat, club: int, list: seq<Item>)
    | DrainSkip(t: nat)
    | DrainStart(t: nat)
    | DrainSend(t: nat, rid: nat)
    | DrainResend(t: nat, rid: nat)
    | DrainOk(t: nat, reply: Reply)
    | DrainFail(t: nat, error: ClientError, now: int, draw: real)
    | SettlePut(t: nat)
    | DrainStop(t: nat)
    | PruneList(t: nat, now: int)
    | PruneDelete(t: nat)
    | DrainAbort(t: nat)

  const INITIAL := Client(map[], map[], map[], map[], map[], {}, {}, map[])

  /** The request an executor sends for a command under its key. */
  function WireRequest(id: string, command: Command): HttpRequest {
    var w := WireOf(command);
    HttpRequest(Slot(w.clubId, Truncate(id), w.route), Fingerprint(w.path, w.body))
  }

  predicate IsEligible(item: Item, now: int, club: int) {
    IsRetryable(item.status) && item.nextRetryAt <= now && item.clubId == club
  }

  function DelayFor(event: OutboxEvent, attempts: nat, draw: real): int {
    if event.NetworkError? then NextRetryDelayMs(attempts, draw) else 0
  }

  /** The item an attempt leaves behind when its executor rejected. */
  function AfterError(syncing: Item, error: ClientError, now: int, draw: real): Item {
    var event := Classify(error);
    ApplyOutboxEvent(syncing, event, now, DelayFor(event, syncing.attempts, draw))
  }

  function AfterOk(syncing: Item, now: int): Item {
    ApplyOutboxEvent(syncing, SentOk, now, 0)
  }

  /** The item `runCommand` queues after its direct call failed. */
  function QueuedItem(id: string, call: Running, command: Command, error: ClientError, now: int, draw: real): Item {
    var item := NewItem(id, Birth(call.clubId, call.userId, command, now), now);
    ApplyOutboxEvent(item, Classify(error), now, NextRetryDelayMs(0, draw))
  }

  ghost predicate IsCalling(c: Client, id: string) {
    id in c.calls && c.calls[id].pc.Calling? && id in c.born
  }

  /** A key never used before, by this browser or anyone else: a fresh random UUID. */
  ghost predicate IsFreshKey(c: Client, id: string) {
    && |id| == UUID_LEN && id !in c.born
    && forall rid :: rid in c.sent ==> c.sent[rid].slot.key != id
  }

  ghost predicate Enabled(c: Client, answers: set<Sent>, step: Step) {
    match step
    case OpenTab(t) => t !in c.drains
    case CrashTab(t) => t in c.drains
    case ForeignSend(rid, req) => rid !in c.sent && req.slot.key !in c.born
    case RunOnline(t, id, _, _, _) => t in c.drains && IsFreshKey(c, id)
    case RunOffline(t, id, _, _, _, _) => t in c.drains && IsFreshKey(c, id)
    case CallSend(id, rid) => IsCalling(c, id) && c.calls[id].pc.http.NotSent? && rid !in c.sent
    case CallResend(id, rid) =>
      IsCalling(c, id) && MayResend(c.calls[id].pc.http, answers) && rid !in c.sent
    case CallOk(id, reply) => IsCalling(c, id) && GotOk(c.calls[id].pc.http, answers, reply)
    case CallFail(id, _, _, _) => IsCalling(c, id)
    case QueuePut(id) => id in c.calls && c.calls[id].pc.Queueing?
    case QueueFail(id) => id in c.calls && c.calls[id].pc.Queueing?
    case DrainBegin(t, _, list) => t in c.drains && c.drains[t].Idle? && IsListing(c.items, list)
    case RecoverOne(t) => t in c.drains && c.drains[t].Recovering? && c.drains[t].todo != []
    case DrainList(t, _, list) =>
      t in c.drains && c.drains[t].Recovering? && c.drains[t].todo == [] && IsListing(c.items, list)
    case DrainSkip(t) => HasNext(c, t) && !IsEligible(c.drains[t].todo[0], c.drains[t].now, c.drains[t].club)
    case DrainStart(t) => HasNext(c, t) && IsEligible(c.drains[t].todo[0], c.drains[t].now, c.drains[t].club)
    case DrainSend(t, rid) => IsSending(c, t) && c.drains[t].http.NotSent? && rid !in c.sent
    case DrainResend(t, rid) => IsSending(c, t) && MayResend(c.drains[t].http, answers) && rid !in c.sent
    case DrainOk(t, reply) => IsSending(c, t) && GotOk(c.drains[t].http, answers, reply)
    case DrainFail(t, _, _, _) => IsSending(c, t)
    case SettlePut(t) => t in c.drains && c.drains[t].Settling?
    case DrainStop(t) => t in c.drains && c.drains[t].Draining?
    case PruneList(t, _) => t in c.drains && c.drains[t].PruneListing?
    case PruneDelete(t) => t in c.drains && c.drains[t].Pruning?
    case DrainAbort(t) => t in c.drains && !c.drains[t].Idle?
  }

  ghost predicate HasNext(c: Client, t: nat) {
    t in c.drains && c.drains[t].Draining? && c.drains[t].todo != []
  }

  ghost predicate IsSending(c: Client, t: nat) {
    t in c.drains && c.drains[t].Sending? && c.drains[t].item.id in c.born
  }

  predicate MayResend(http: Http, answers: set<Sent>) {
    http.Waiting? && !http.resent && Sent(http.rid, Unauthorized) in answers
  }

  predicate GotOk(http: Http, answers: set<Sent>, reply: Reply) {
    http.Waiting? && Sent(http.rid, Ok(reply)) in answers
  }

  // Each step is a chain of these single updates.

  ghost function SetCall(c: Client, id: string, call: Running): Client {
    c.(calls := c.calls[id := call])
  }

  ghost function DropCall(c: Client, id: string): Client {
    c.(calls := c.calls - {id})
  }

  ghost function SetDrain(c: Client, t: nat, drain: Drain): Client {
    c.(drains := c.drains[t := drain])
  }

  ghost function Put(c: Client, item: Item): Client {
    c.(items := c.items[item.id := item])
  }

  ghost function Send(c: Client, rid: nat, req: HttpRequest): Client {
    c.(sent := c.sent[rid := req])
  }

  ghost function Bear(c: Client, id: string, command: Command): Client {
    c.(born := c.born[id := command])
  }

  ghost function Ack(c: Client, id: string): Client {
    c.(acked := c.acked + {id})
  }

  ghost function Queue(c: Client, item: Item): Client {
    c.(calls := c.calls - {item.id}, items := c.items[item.id := item],
       queued := c.queued[item.id := BirthOf(item)])
  }

  ghost function Delete(c: Client, stale: set<string>): Client {
    c.(items := c.items - stale)
  }

  ghost function CloseTab(c: Client, t: nat): Client {
    c.(drains := c.drains - {t}, calls := map id | id in c.calls && c.calls[id].tab != t :: c.calls[id])
  }

  ghost function Next(c: Client, answers: set<Sent>, step: Step): Client
    requires Enabled(c, answers, step)
  {
    match step
    case OpenTab(t) => SetDrain(c, t, Idle)
    case CrashTab(t) => CloseTab(c, t)
    case ForeignSend(rid, req) => Send(c, rid, req)
    case RunOnline(t, id, clubId, userId, command) =>
      SetCall(Bear(c, id, command), id, Running(t, clubId, userId, Calling(NotSent)))
    case RunOffline(t, id, clubId, userId, command, now) =>
      var item := NewItem(id, Birth(clubId, userId, command, now), now);
      SetCall(Bear(c, id, command), id, Running(t, clubId, userId, Queueing(item)))
    case CallSend(id, rid) =>
      SetCall(Send(c, rid, WireRequest(id, c.born[id])), id, c.calls[id].(pc := Calling(Waiting(rid, false))))
    case CallResend(id, rid) =>
      SetCall(Send(c, rid, WireRequest(id, c.born[id])), id, c.calls[id].(pc := Calling(Waiting(rid, true))))
    case CallOk(id, _) => DropCall(Ack(c, id), id).(returned := c.returned + {id})
    case CallFail(id, error, now, draw) =>
      if Classify(error).NetworkError?
      then SetCall(c, id, c.calls[id].(pc := Queueing(QueuedItem(id, c.calls[id], c.born[id], error, now, draw))))
      else DropCall(c, id)
    case QueuePut(id) => Queue(c, c.calls[id].pc.item)
    case QueueFail(id) => DropCall(c, id)
    case DrainBegin(t, now, list) => SetDrain(c, t, Recovering(now, list))
    case RecoverOne(t) =>
      var d := c.drains[t];
      var after := SetDrain(c, t, Recovering(d.now, d.todo[1..]));
      if d.todo[0].status == Syncing then Put(after, RecoverInterrupted(d.todo[0], d.now)) else after
    case DrainList(t, club, list) => SetDrain(c, t, Draining(c.drains[t].now, club, list))
    case DrainSkip(t) => SetDrain(c, t, Draining(c.drains[t].now, c.drains[t].club, c.drains[t].todo[1..]))
    case DrainStart(t) =>
      var d := c.drains[t];
      var syncing := ApplyOutboxEvent(d.todo[0], StartSyncing, d.now, 0);
      Put(SetDrain(c, t, Sending(d.now, d.club, syncing, NotSent, d.todo[1..])), syncing)
    case DrainSend(t, rid) =>
      var d := c.drains[t];
      SetDrain(Send(c, rid, WireRequest(d.item.id, c.born[d.item.id])), t, d.(http := Waiting(rid, false)))
    case DrainResend(t, rid) =>
      var d := c.drains[t];
      SetDrain(Send(c, rid, WireRequest(d.item.id, c.born[d.item.id])), t, d.(http := Waiting(rid, true)))
    case DrainOk(t, _) =>
      var d := c.drains[t];
      SetDrain(Ack(c, d.item.id), t, Settling(d.now, d.club, AfterOk(d.item, d.now), d.todo))
    case DrainFail(t, error, now, draw) =>
      var d := c.drains[t];
      SetDrain(c, t, Settling(d.now, d.club, AfterError(d.item, error, now, draw), d.todo))
    case SettlePut(t) =>
      var d := c.drains[t];
      SetDrain(Put(c, d.next), t, Draining(d.now, d.club, d.todo))
    case DrainStop(t) => SetDrain(c, t, PruneListing)
    case PruneList(t, now) =>
      SetDrain(c, t, Pruning(now - SYNCED_RETENTION_MS, StaleKeys(c.items, now - SYNCED_RETENTION_MS)))
    case PruneDelete(t) => SetDrain(Delete(c, c.drains[t].stale), t, Idle)
    case DrainAbort(t) => SetDrain(c, t, Idle)
  }

  function StaleKeys(items: Items, cutoff: int): set<string> {
    set k | k in items && IsStale(items[k], cutoff)
  }

  // ── Invariant ────────────────────────────────────────────────────────────

  /** An item anywhere, stored or in a tab's hands, is the item that was queued; it reads
      SYNCED only when its key was acknowledged. */
  ghost predicate ItemOk(c: Client, item: Item) {
    && item.id in c.queued && BirthOf(item) == c.queued[item.id]
    && (item.status == Synced ==> item.id in c.acked)
  }

  ghost predicate ListOk(c: Client, list: seq<Item>) {
    forall i :: 0 <= i < |list| ==> ItemOk(c, list[i])
  }

  ghost predicate HttpOk(c: Client, id: string, http: Http) {
    http.Waiting? ==> id in c.born && http.rid in c.sent && c.sent[http.rid] == WireRequest(id, c.born[id])
  }

  ghost predicate DrainOkay(c: Client, d: Drain) {
    match d
    case Recovering(_, todo) => ListOk(c, todo)
    case Draining(_, _, todo) => ListOk(c, todo)
    case Sending(_, _, item, http, todo) => ItemOk(c, item) && HttpOk(c, item.id, http) && ListOk(c, todo)
    case Settling(_, _, next, todo) => ItemOk(c, next) && ListOk(c, todo)
    case Pruning(cutoff, stale) =>
      forall k :: k in stale ==> k in c.acked && k in c.queued && c.queued[k].createdAt < cutoff
    case _ => true
  }

  ghost predicate CallOkay(c: Client, id: string, call: Running) {
    && id in c.born && id !in c.queued
    && match call.pc
       case Calling(http) => HttpOk(c, id, http)
       case Queueing(item) => item.id == id && item.command == c.born[id] && item.status != Synced
  }

  /** A request of this browser was answered with success under this key. */
  ghost predicate Acknowledged(c: Client, answers: set<Sent>, id: string) {
    && id in c.born
    && exists a ::
         a in answers && a.rid in c.sent && a.answer.Ok? && c.sent[a.rid] == WireRequest(id, c.born[id])
  }

  ghost predicate HistoryOk(c: Client, answers: set<Sent>) {
    && (forall id :: id in c.born ==> |id| == UUID_LEN)
    && (forall rid :: rid in c.sent && c.sent[rid].slot.key in c.born ==>
          c.sent[rid] == WireRequest(c.sent[rid].slot.key, c.born[c.sent[rid].slot.key]))
    && (forall id :: id in c.acked ==> Acknowledged(c, answers, id))
    && c.returned <= c.acked
    && (forall id :: id in c.queued ==>
          id in c.born && c.queued[id].command == c.born[id] && (id in c.items || id in c.acked))
  }

  ghost predicate Inv(c: Client, answers: set<Sent>) {
    && HistoryOk(c, answers)
    && Keyed(c.items)
    && (forall k :: k in c.items ==> ItemOk(c, c.items[k]))
    && (forall id :: id in c.calls ==> CallOkay(c, id, c.calls[id]))
    && (forall t :: t in c.drains ==> DrainOkay(c, c.drains[t]))
  }

  /** Nothing that the invariant rests on is ever taken back. */
  ghost predicate Grows(c: Client, c': Client) {
    && (forall id :: id in c.born ==> id in c'.born && c'.born[id] == c.born[id])
    && (forall r :: r in c.sent ==> r in c'.sent && c'.sent[r] == c.sent[r])
    && (forall id :: id in c.queued ==> id in c'.queued && c'.queued[id] == c.queued[id])
    && c.acked <= c'.acked
  }

  lemma DrainStaysOk(c: Client, c': Client, d: Drain)
    requires Grows(c, c') && DrainOkay(c, d)
    ensures DrainOkay(c', d)
  {
    hide WireRequest;
  }

  // ── Every single update keeps it ─────────────────────────────────────────

  lemma GrowthKeepsItems(c: Client, c': Client, items: Items)
    requires Grows(c, c') && forall k :: k in items ==> ItemOk(c, items[k])
    ensures forall k :: k in items ==> ItemOk(c', items[k])
  {
    hide WireRequest;
  }

  lemma GrowthKeepsDrains(c: Client, c': Client, drains: map<nat, Drain>)
    requires Grows(c, c') && forall t :: t in drains ==> DrainOkay(c, drains[t])
    ensures forall t :: t in drains ==> DrainOkay(c', drains[t])
  {
    hide WireRequest;
    forall t | t in drains ensures DrainOkay(c', drains[t]) {
      DrainStaysOk(c, c', drains[t]);
    }
  }

  lemma GrowthKeepsCalls(c: Client, c': Client, calls: map<string, Running>)
    requires Grows(c, c') && c'.queued == c.queued
    requires forall id :: id in calls ==> CallOkay(c, id, calls[id])
    ensures forall id :: id in calls ==> CallOkay(c', id, calls[id])
  {
    hide WireRequest;
  }

  /** Growth of the past alone, with the outbox and the tabs as they were. */
  lemma GrowthKeepsInv(c: Client, c': Client, answers: set<Sent>)
    requires Inv(c, answers) && Grows(c, c') && HistoryOk(c', answers)
    requires c'.items == c.items && c'.drains == c.drains && c'.calls == c.calls && c'.queued == c.queued
    ensures Inv(c', answers)
  {
    hide WireRequest, HistoryOk, Grows, ItemOk, DrainOkay, CallOkay;
    GrowthKeepsItems(c, c', c.items);
    GrowthKeepsDrains(c, c', c.drains);
    GrowthKeepsCalls(c, c', c.calls);
  }

  lemma AcksStay(c: Client, c': Client, answers: set<Sent>)
    requires HistoryOk(c, answers) && Grows(c, c')
    ensures forall k :: k in c.acked ==> Acknowledged(c', answers, k)
  {
    hide WireRequest;
    forall k | k in c.acked ensures Acknowledged(c', answers, k) {
      assert Acknowledged(c, answers, k);
    }
  }

  lemma KeyLength(c: Client, answers: set<Sent>, id: string)
    requires Inv(c, answers) && id in c.born
    ensures |id| == UUID_LEN
  {
    hide WireRequest, ItemOk, DrainOkay, CallOkay, Acknowledged;
  }

  lemma CallOf(c: Client, answers: set<Sent>, id: string)
    requires Inv(c, answers) && id in c.calls
    ensures CallOkay(c, id, c.calls[id])
  {
    hide WireRequest, HistoryOk, ItemOk, DrainOkay, CallOkay;
  }

  lemma DrainOf(c: Client, answers: set<Sent>, t: nat)
    requires Inv(c, answers) && t in c.drains
    ensures DrainOkay(c, c.drains[t])
  {
    hide WireRequest, HistoryOk, ItemOk, DrainOkay, CallOkay;
  }

  lemma SetCallKeepsInv(c: Client, answers: set<Sent>, id: string, call: Running)
    requires Inv(c, answers) && CallOkay(c, id, call)
    ensures Inv(SetCall(c, id, call), answers)
  {
    hide WireRequest, HistoryOk, ItemOk, DrainOkay, CallOkay;
    var c' := SetCall(c, id, call);
    SameHistory(c, c', answers);
    GrowthKeepsItems(c, c', c.items);
    GrowthKeepsDrains(c, c', c.drains);
    GrowthKeepsCalls(c, c', c'.calls);
  }

  lemma DropCallKeepsInv(c: Client, answers: set<Sent>, id: string)
    requires Inv(c, answers)
    ensures Inv(DropCall(c, id), answers)
  {
    hide WireRequest, HistoryOk, ItemOk, DrainOkay, CallOkay;
    var c' := DropCall(c, id);
    SameHistory(c, c', answers);
    GrowthKeepsItems(c, c', c.items);
    GrowthKeepsDrains(c, c', c.drains);
    GrowthKeepsCalls(c, c', c'.calls);
  }

  lemma CloseTabKeepsInv(c: Client, answers: set<Sent>, t: nat)
    requires Inv(c, answers)
    ensures Inv(CloseTab(c, t), answers)
  {
    hide WireRequest, HistoryOk, ItemOk, DrainOkay, CallOkay;
    var c' := CloseTab(c, t);
    SameHistory(c, c', answers);
    GrowthKeepsItems(c, c', c.items);
    GrowthKeepsDrains(c, c', c'.drains);
    GrowthKeepsCalls(c, c', c'.calls);
  }

  lemma SetDrainKeepsInv(c: Client, answers: set<Sent>, t: nat, d: Drain)
    requires Inv(c, answers) && DrainOkay(c, d)
    ensures Inv(SetDrain(c, t, d), answers)
  {
    hide WireRequest, HistoryOk, ItemOk, DrainOkay, CallOkay;
    var c' := SetDrain(c, t, d);
    SameHistory(c, c', answers);
    GrowthKeepsItems(c, c', c.items);
    GrowthKeepsDrains(c, c', c'.drains);
    GrowthKeepsCalls(c, c', c.calls);
  }

  lemma PutKeepsInv(c: Client, answers: set<Sent>, item: Item)
    requires Inv(c, answers) && ItemOk(c, item)
    ensures Inv(Put(c, item), answers)
  {
    hide WireRequest, HistoryOk, ItemOk, DrainOkay, CallOkay;
    var c' := Put(c, item);
    SameHistory(c, c', answers);
    GrowthKeepsItems(c, c', c'.items);
    GrowthKeepsDrains(c, c', c.drains);
    GrowthKeepsCalls(c, c', c.calls);
  }

  /** Updates that leave the record of the past alone and lose no unacknowledged item. */
  lemma SameHistory(c: Client, c': Client, answers: set<Sent>)
    requires HistoryOk(c, answers)
    requires c'.born == c.born && c'.acked == c.acked && c'.returned == c.returned
    requires c'.sent == c.sent && c'.queued == c.queued
    requires forall id :: id in c.items ==> id in c'.items || id in c.acked
    ensures HistoryOk(c', answers)
  {
    hide WireRequest;
    forall id | id in c'.acked ensures Acknowledged(c', answers, id) {
      assert Acknowledged(c, answers, id);
    }
  }

  lemma DeleteKeepsInv(c: Client, answers: set<Sent>, stale: set<string>)
    requires Inv(c, answers) && stale <= c.acked
    ensures Inv(Delete(c, stale), answers)
  {
    hide WireRequest, HistoryOk, ItemOk, DrainOkay, CallOkay;
    var c' := Delete(c, stale);
    SameHistory(c, c', answers);
    GrowthKeepsItems(c, c', c'.items);
    GrowthKeepsDrains(c, c', c.drains);
    GrowthKeepsCalls(c, c', c.calls);
  }

  lemma SendKeepsInv(c: Client, answers: set<Sent>, rid: nat, req: HttpRequest)
    requires Inv(c, answers) && rid !in c.sent
    requires req.slot.key in c.born ==> req == WireRequest(req.slot.key, c.born[req.slot.key])
    ensures Inv(Send(c, rid, req), answers)
  {
    hide WireRequest, Acknowledged, ItemOk, DrainOkay, CallOkay;
    AcksStay(c, Send(c, rid, req), answers);
    GrowthKeepsInv(c, Send(c, rid, req), answers);
  }

  /** The key an own request carries is the UUID itself: it is shorter than the limit. */
  lemma OwnRequestKey(id: string, command: Command)
    requires |id| == UUID_LEN
    ensures WireRequest(id, command).slot.key == id
  {
  }

  lemma BearKeepsInv(c: Client, answers: set<Sent>, id: string, command: Command)
    requires Inv(c, answers) && IsFreshKey(c, id)
    ensures Inv(Bear(c, id, command), answers)
    ensures id !in c.queued
  {
    hide WireRequest, Acknowledged, ItemOk, DrainOkay, CallOkay;
    AcksStay(c, Bear(c, id, command), answers);
    GrowthKeepsInv(c, Bear(c, id, command), answers);
  }

  lemma AckKeepsInv(c: Client, answers: set<Sent>, id: string, rid: nat, reply: Reply)
    requires Inv(c, answers) && id in c.born
    requires rid in c.sent && c.sent[rid] == WireRequest(id, c.born[id]) && Sent(rid, Ok(reply)) in answers
    ensures Inv(Ack(c, id), answers)
  {
    hide WireRequest, ItemOk, DrainOkay, CallOkay;
    var a := Sent(rid, Ok(reply));
    assert a in answers && a.rid in c.sent && a.answer.Ok?;
    assert Acknowledged(Ack(c, id), answers, id);
    AcksStay(c, Ack(c, id), answers);
    GrowthKeepsInv(c, Ack(c, id), answers);
  }

  lemma ReturnKeepsInv(c: Client, answers: set<Sent>, id: string)
    requires Inv(c, answers) && id in c.acked
    ensures Inv(c.(returned := c.returned + {id}), answers)
  {
    hide WireRequest, Acknowledged, ItemOk, DrainOkay, CallOkay;
    var c' := c.(returned := c.returned + {id});
    AcksStay(c, c', answers);
    GrowthKeepsInv(c, c', answers);
  }

  lemma QueueKeepsInv(c: Client, answers: set<Sent>, item: Item)
    requires Inv(c, answers) && item.id in c.born && item.id !in c.queued
    requires item.command == c.born[item.id] && item.status != Synced
    ensures Inv(Queue(c, item), answers)
  {
    hide WireRequest, HistoryOk, CallOkay, DrainOkay, HttpOk;
    var c' := Queue(c, item);
    QueueKeepsHistory(c, answers, item);
    QueueKeepsCalls(c, item);
    GrowthKeepsItems(c, c', c.items);
    GrowthKeepsDrains(c, c', c.drains);
  }

  lemma QueueKeepsHistory(c: Client, answers: set<Sent>, item: Item)
    requires HistoryOk(c, answers) && item.id in c.born && item.id !in c.queued && item.command == c.born[item.id]
    ensures HistoryOk(Queue(c, item), answers) && Grows(c, Queue(c, item))
  {
    hide WireRequest, Acknowledged;
    AcksStay(c, Queue(c, item), answers);
  }

  lemma QueueKeepsCalls(c: Client, item: Item)
    requires forall id :: id in c.calls ==> CallOkay(c, id, c.calls[id])
    ensures forall id :: id in Queue(c, item).calls ==> CallOkay(Queue(c, item), id, Queue(c, item).calls[id])
  {
    hide WireRequest, BirthOf;
    var c' := Queue(c, item);
    forall id | id in c'.calls ensures CallOkay(c', id, c'.calls[id]) {
      assert CallOkay(c, id, c.calls[id]);
    }
  }

  // ── Every step keeps it ──────────────────────────────────────────────────

  lemma CallStepKeepsInv(c: Client, answers: set<Sent>, step: Step)
    requires Inv(c, answers) && Enabled(c, answers, step)
    requires step.CallOk? || step.CallFail? || step.QueuePut? || step.QueueFail?
    ensures Inv(Next(c, answers, step), answers)
  {
    hide WireRequest, Inv;
    var id := step.id;
    var call := c.calls[id];
    CallOf(c, answers, id);
    if step.CallOk? {
      AckKeepsInv(c, answers, id, call.pc.http.rid, step.reply);
      DropCallKeepsInv(Ack(c, id), answers, id);
      ReturnKeepsInv(DropCall(Ack(c, id), id), answers, id);
    } else if step.QueuePut? {
      QueueKeepsInv(c, answers, call.pc.item);
    } else if step.CallFail? && Classify(step.error).NetworkError? {
      SetCallKeepsInv(c, answers, id,
          call.(pc := Queueing(QueuedItem(id, call, c.born[id], step.error, step.now, step.draw))));
    } else {
      DropCallKeepsInv(c, answers, id);
    }
  }

  lemma RunKeepsInv(c: Client, answers: set<Sent>, step: Step)
    requires Inv(c, answers) && Enabled(c, answers, step)
    requires step.RunOnline? || step.RunOffline?
    ensures Inv(Next(c, answers, step), answers)
  {
    hide WireRequest, Inv;
    BearKeepsInv(c, answers, step.id, step.command);
    var mid := Bear(c, step.id, step.command);
    if step.RunOnline? {
      SetCallKeepsInv(mid, answers, step.id, Running(step.t, step.clubId, step.userId, Calling(NotSent)));
    } else {
      var item := NewItem(step.id, Birth(step.clubId, step.userId, step.command, step.now), step.now);
      SetCallKeepsInv(mid, answers, step.id, Running(step.t, step.clubId, step.userId, Queueing(item)));
    }
  }

  lemma CallSendKeepsInv(c: Client, answers: set<Sent>, id: string, rid: nat, resent: bool)
    requires Inv(c, answers) && IsCalling(c, id) && rid !in c.sent
    ensures Inv(SetCall(Send(c, rid, WireRequest(id, c.born[id])), id,
        c.calls[id].(pc := Calling(Waiting(rid, resent)))), answers)
  {
    hide WireRequest, Inv;
    KeyLength(c, answers, id);
    OwnRequestKey(id, c.born[id]);
    CallOf(c, answers, id);
    SendKeepsInv(c, answers, rid, WireRequest(id, c.born[id]));
    SetCallKeepsInv(Send(c, rid, WireRequest(id, c.born[id])), answers, id,
        c.calls[id].(pc := Calling(Waiting(rid, resent))));
  }

  lemma DrainSendKeepsInv(c: Client, answers: set<Sent>, t: nat, rid: nat, resent: bool)
    requires Inv(c, answers) && IsSending(c, t) && rid !in c.sent
    ensures var d := c.drains[t];
            Inv(SetDrain(Send(c, rid, WireRequest(d.item.id, c.born[d.item.id])), t, d.(http := Waiting(rid, resent))),
                answers)
  {
    hide WireRequest, Inv;
    var d := c.drains[t];
    DrainOf(c, answers, t);
    var req := WireRequest(d.item.id, c.born[d.item.id]);
    KeyLength(c, answers, d.item.id);
    OwnRequestKey(d.item.id, c.born[d.item.id]);
    SendKeepsInv(c, answers, rid, req);
    var c' := Send(c, rid, req);
    DrainStaysOk(c, c', d.(http := NotSent));
    SetDrainKeepsInv(c', answers, t, d.(http := Waiting(rid, resent)));
  }

  lemma ListingKeepsInv(c: Client, answers: set<Sent>, t: nat, now: int, club: int, list: seq<Item>)
    requires Inv(c, answers) && IsListing(c.items, list)
    ensures Inv(SetDrain(c, t, Recovering(now, list)), answers)
    ensures Inv(SetDrain(c, t, Draining(now, club, list)), answers)
  {
    forall i | 0 <= i < |list| ensures ItemOk(c, list[i]) {
      assert ItemOk(c, c.items[list[i].id]);
    }
    SetDrainKeepsInv(c, answers, t, Recovering(now, list));
    SetDrainKeepsInv(c, answers, t, Draining(now, club, list));
  }

  lemma RecoverKeepsInv(c: Client, answers: set<Sent>, t: nat)
    requires Inv(c, answers) && Enabled(c, answers, RecoverOne(t))
    ensures Inv(Next(c, answers, RecoverOne(t)), answers)
  {
    hide WireRequest, Inv;
    var d := c.drains[t];
    DrainOf(c, answers, t);
    assert ItemOk(c, d.todo[0]);
    SetDrainKeepsInv(c, answers, t, Recovering(d.now, d.todo[1..]));
    var mid := SetDrain(c, t, Recovering(d.now, d.todo[1..]));
    if d.todo[0].status == Syncing {
      PutKeepsInv(mid, answers, RecoverInterrupted(d.todo[0], d.now));
    }
  }

  lemma DrainStartKeepsInv(c: Client, answers: set<Sent>, t: nat)
    requires Inv(c, answers) && Enabled(c, answers, DrainStart(t))
    ensures Inv(Next(c, answers, DrainStart(t)), answers)
  {
    hide WireRequest, Inv;
    var d := c.drains[t];
    DrainOf(c, answers, t);
    var syncing := ApplyOutboxEvent(d.todo[0], StartSyncing, d.now, 0);
    assert ItemOk(c, syncing) by { assert ItemOk(c, d.todo[0]); }
    SetDrainKeepsInv(c, answers, t, Sending(d.now, d.club, syncing, NotSent, d.todo[1..]));
    PutKeepsInv(SetDrain(c, t, Sending(d.now, d.club, syncing, NotSent, d.todo[1..])), answers, syncing);
  }

  lemma SettledItemOk(c: Client, item: Item, error: ClientError, now: int, draw: real)
    requires ItemOk(c, item)
    ensures ItemOk(c, AfterError(item, error, now, draw))
    ensures item.id in c.acked ==> ItemOk(c, AfterOk(item, now))
  {
    AttemptSettles(item, error, now, DelayFor(Classify(error), item.attempts, draw));
  }

  lemma DrainOkKeepsInv(c: Client, answers: set<Sent>, t: nat, reply: Reply)
    requires Inv(c, answers) && Enabled(c, answers, DrainOk(t, reply))
    ensures Inv(Next(c, answers, DrainOk(t, reply)), answers)
  {
    hide WireRequest, Inv;
    var d := c.drains[t];
    DrainOf(c, answers, t);
    AckKeepsInv(c, answers, d.item.id, d.http.rid, reply);
    var c' := Ack(c, d.item.id);
    DrainStaysOk(c, c', d);
    var next := AfterOk(d.item, d.now);
    SettledItemOk(c', d.item, OtherFailure(""), d.now, 0.0);
    assert DrainOkay(c', Settling(d.now, d.club, next, d.todo));
    SetDrainKeepsInv(c', answers, t, Settling(d.now, d.club, next, d.todo));
  }

  lemma DrainFailKeepsInv(c: Client, answers: set<Sent>, t: nat, error: ClientError, now: int, draw: real)
    requires Inv(c, answers) && IsSending(c, t)
    ensures var d := c.drains[t];
            Inv(SetDrain(c, t, Settling(d.now, d.club, AfterError(d.item, error, now, draw), d.todo)), answers)
  {
    var d := c.drains[t];
    DrainOf(c, answers, t);
    SettledItemOk(c, d.item, error, now, draw);
    var next := AfterError(d.item, error, now, draw);
    assert DrainOkay(c, Settling(d.now, d.club, next, d.todo));
    SetDrainKeepsInv(c, answers, t, Settling(d.now, d.club, next, d.todo));
  }

  lemma DrainSkipKeepsInv(c: Client, answers: set<Sent>, t: nat)
    requires Inv(c, answers) && HasNext(c, t)
    ensures var d := c.drains[t]; Inv(SetDrain(c, t, Draining(d.now, d.club, d.todo[1..])), answers)
  {
    hide WireRequest, Inv;
    var d := c.drains[t];
    DrainOf(c, answers, t);
    SetDrainKeepsInv(c, answers, t, Draining(d.now, d.club, d.todo[1..]));
  }

  lemma SettlePutKeepsInv(c: Client, answers: set<Sent>, t: nat)
    requires Inv(c, answers) && Enabled(c, answers, SettlePut(t))
    ensures Inv(Next(c, answers, SettlePut(t)), answers)
  {
    hide WireRequest, Inv;
    var d := c.drains[t];
    DrainOf(c, answers, t);
    PutKeepsInv(c, answers, d.next);
    DrainStaysOk(c, Put(c, d.next), Draining(d.now, d.club, d.todo));
    SetDrainKeepsInv(Put(c, d.next), answers, t, Draining(d.now, d.club, d.todo));
  }

  /** What a prune lists is acknowledged and past the retention. */
  lemma StaleIsAcked(c: Client, answers: set<Sent>, cutoff: int)
    requires Inv(c, answers)
    ensures DrainOkay(c, Pruning(cutoff, StaleKeys(c.items, cutoff)))
  {
    hide WireRequest, HistoryOk, CallOkay, HttpOk;
    forall k | k in StaleKeys(c.items, cutoff)
      ensures k in c.acked && k in c.queued && c.queued[k].createdAt < cutoff
    {
      assert ItemOk(c, c.items[k]);
    }
  }

  lemma PruneListKeepsInv(c: Client, answers: set<Sent>, t: nat, now: int)
    requires Inv(c, answers) && Enabled(c, answers, PruneList(t, now))
    ensures Inv(Next(c, answers, PruneList(t, now)), answers)
  {
    hide WireRequest, Inv, DrainOkay;
    var cutoff := now - SYNCED_RETENTION_MS;
    StaleIsAcked(c, answers, cutoff);
    SetDrainKeepsInv(c, answers, t, Pruning(cutoff, StaleKeys(c.items, cutoff)));
  }

  lemma PruneDeleteKeepsInv(c: Client, answers: set<Sent>, t: nat)
    requires Inv(c, answers) && Enabled(c, answers, PruneDelete(t))
    ensures Inv(Next(c, answers, PruneDelete(t)), answers)
  {
    hide WireRequest, Inv;
    DrainOf(c, answers, t);
    var stale := c.drains[t].stale;
    DeleteKeepsInv(c, answers, stale);
    SetDrainKeepsInv(Delete(c, stale), answers, t, Idle);
  }

  lemma StepKeepsInv(c: Client, answers: set<Sent>, step: Step)
    requires Inv(c, answers) && Enabled(c, answers, step)
    ensures Inv(Next(c, answers, step), answers)
  {
    hide Inv, WireRequest;
    match step {
      case OpenTab(t) => SetDrainKeepsInv(c, answers, t, Idle);
      case CrashTab(t) => CloseTabKeepsInv(c, answers, t);
      case ForeignSend(rid, req) => SendKeepsInv(c, answers, rid, req);
      case RunOnline(_, _, _, _, _) => RunKeepsInv(c, answers, step);
      case RunOffline(_, _, _, _, _, _) => RunKeepsInv(c, answers, step);
      case CallSend(id, rid) => CallSendKeepsInv(c, answers, id, rid, false);
      case CallResend(id, rid) => CallSendKeepsInv(c, answers, id, rid, true);
      case CallOk(_, _) => CallStepKeepsInv(c, answers, step);
      case CallFail(_, _, _, _) => CallStepKeepsInv(c, answers, step);
      case QueuePut(_) => CallStepKeepsInv(c, answers, step);
      case QueueFail(_) => CallStepKeepsInv(c, answers, step);
      case DrainBegin(t, now, list) => ListingKeepsInv(c, answers, t, now, 0, list);
      case RecoverOne(t) => RecoverKeepsInv(c, answers, t);
      case DrainList(t, club, list) => ListingKeepsInv(c, answers, t, c.drains[t].now, club, list);
      case DrainSkip(t) => DrainSkipKeepsInv(c, answers, t);
      case DrainStart(t) => DrainStartKeepsInv(c, answers, t);
      case DrainSend(t, rid) => DrainSendKeepsInv(c, answers, t, rid, false);
      case DrainResend(t, rid) => DrainSendKeepsInv(c, answers, t, rid, true);
      case DrainOk(t, reply) => DrainOkKeepsInv(c, answers, t, reply);
      case DrainFail(t, error, now, draw) => DrainFailKeepsInv(c, answers, t, error, now, draw);
      case SettlePut(t) => SettlePutKeepsInv(c, answers, t);
      case DrainStop(t) => SetDrainKeepsInv(c, answers, t, PruneListing);
      case PruneList(t, now) => PruneListKeepsInv(c, answers, t, now);
      case PruneDelete(t) => PruneDeleteKeepsInv(c, answers, t);
      case DrainAbort(t) => SetDrainKeepsInv(c, answers, t, Idle);
    }
  }

  /** What a step may do to the past and to the outbox: history only grows, new keys are
      fresh ones, and items leave the outbox by a prune's delete and no other way. */
  ghost predicate Faithful(c: Client, step: Step, c': Client) {
    && Grows(c, c')
    && (forall id :: id in c'.born && id !in c.born ==> IsFreshKey(c, id))
    && (!step.PruneDelete? ==> c.items.Keys <= c'.items.Keys)
  }

  lemma StepGrows(c: Client, answers: set<Sent>, step: Step)
    requires Inv(c, answers) && Enabled(c, answers, step)
    ensures Faithful(c, step, Next(c, answers, step))
  {
    hide Faithful, Inv, Enabled, Next;
    match step {
      case RunOnline(_, _, _, _, _) => RunGrows(c, answers, step);
      case RunOffline(_, _, _, _, _, _) => RunGrows(c, answers, step);
      case CallSend(_, _) => SendGrows(c, answers, step);
      case CallResend(_, _) => SendGrows(c, answers, step);
      case DrainSend(_, _) => SendGrows(c, answers, step);
      case DrainResend(_, _) => SendGrows(c, answers, step);
      case RecoverOne(_) => PutGrows(c, answers, step);
      case DrainStart(_) => PutGrows(c, answers, step);
      case SettlePut(_) => PutGrows(c, answers, step);
      case QueuePut(_) => QueueGrows(c, answers, step);
      case CallOk(_, _) => QuietGrows(c, answers, step);
      case CallFail(_, _, _, _) => QuietGrows(c, answers, step);
      case DrainOk(_, _) => QuietGrows(c, answers, step);
      case DrainFail(_, _, _, _) => QuietGrows(c, answers, step);
      case _ => RestGrows(c, answers, step);
    }
  }

  /** A step that leaves the past alone, and takes nothing out of the outbox unless it prunes. */
  lemma PastKept(c: Client, step: Step, c': Client)
    requires c'.born == c.born && c'.sent == c.sent && c'.queued == c.queued && c.acked <= c'.acked
    requires step.PruneDelete? || c.items.Keys <= c'.items.Keys
    ensures Faithful(c, step, c')
  {
    hide IsFreshKey;
  }

  lemma SentOneMore(c: Client, step: Step, c': Client, rid: nat, req: HttpRequest)
    requires rid !in c.sent && c'.sent == c.sent[rid := req] && !step.PruneDelete?
    requires c'.born == c.born && c'.queued == c.queued && c'.acked == c.acked && c'.items == c.items
    ensures Faithful(c, step, c')
  {
    hide IsFreshKey;
  }

  lemma RunGrows(c: Client, answers: set<Sent>, step: Step)
    requires Enabled(c, answers, step) && (step.RunOnline? || step.RunOffline?)
    ensures Faithful(c, step, Next(c, answers, step))
  {
    hide WireRequest;
    assert Next(c, answers, step).born == c.born[step.id := step.command];
  }

  lemma SendGrows(c: Client, answers: set<Sent>, step: Step)
    requires Enabled(c, answers, step)
    requires step.CallSend? || step.CallResend? || step.DrainSend? || step.DrainResend?
    ensures Faithful(c, step, Next(c, answers, step))
  {
    hide WireRequest, Faithful, MayResend;
    var id := if step.CallSend? || step.CallResend? then step.id else c.drains[step.t].item.id;
    SentOneMore(c, step, Next(c, answers, step), step.rid, WireRequest(id, c.born[id]));
  }

  lemma PutGrows(c: Client, answers: set<Sent>, step: Step)
    requires Enabled(c, answers, step)
    requires step.RecoverOne? || step.DrainStart? || step.SettlePut?
    ensures Faithful(c, step, Next(c, answers, step))
  {
    hide WireRequest, Faithful, IsEligible;
    PastKept(c, step, Next(c, answers, step));
  }

  lemma QueueGrows(c: Client, answers: set<Sent>, step: Step)
    requires Inv(c, answers) && Enabled(c, answers, step) && step.QueuePut?
    ensures Faithful(c, step, Next(c, answers, step))
  {
    hide WireRequest, IsFreshKey, HistoryOk, DrainOkay, ItemOk;
    assert CallOkay(c, step.id, c.calls[step.id]);
  }

  lemma QuietGrows(c: Client, answers: set<Sent>, step: Step)
    requires Enabled(c, answers, step)
    requires step.CallOk? || step.CallFail? || step.DrainOk? || step.DrainFail?
    ensures Faithful(c, step, Next(c, answers, step))
  {
    hide WireRequest, Faithful, GotOk, Classify, QueuedItem, AfterError, AfterOk;
    PastKept(c, step, Next(c, answers, step));
  }

  lemma RestGrows(c: Client, answers: set<Sent>, step: Step)
    requires Enabled(c, answers, step)
    requires step.OpenTab? || step.CrashTab? || step.ForeignSend? || step.QueueFail? || step.DrainBegin?
             || step.DrainList? || step.DrainSkip? || step.DrainStop? || step.PruneList? || step.PruneDelete?
             || step.DrainAbort?
    ensures Faithful(c, step, Next(c, answers, step))
  {
    hide WireRequest, Faithful, IsEligible, IsListing, StaleKeys;
    if step.ForeignSend? {
      SentOneMore(c, step, Next(c, answers, step), step.rid, step.req);
    } else {
      PastKept(c, step, Next(c, answers, step));
    }
  }

  /** The only way out of the outbox is a prune, of an acknowledged item past its cutoff. */
  lemma RemovedByPrune(c: Client, answers: set<Sent>, step: Step, id: string)
    requires Inv(c, answers) && Enabled(c, answers, step)
    requires id in c.items && id !in Next(c, answers, step).items
    ensures step.PruneDelete? && c.drains[step.t].Pruning?
    ensures id in c.acked && c.items[id].createdAt < c.drains[step.t].cutoff
  {
    hide WireRequest, Inv, Next, Grows;
    StepGrows(c, answers, step);
    assert step.PruneDelete?;
    if id !in c.drains[step.t].stale { DeleteLeaves(c, answers, step.t, id); }
    DeleteRemoves(c, answers, step.t, id);
  }

  lemma DeleteLeaves(c: Client, answers: set<Sent>, t: nat, id: string)
    requires Enabled(c, answers, PruneDelete(t)) && id in c.items && id !in c.drains[t].stale
    ensures id in Next(c, answers, PruneDelete(t)).items
  {
  }

  lemma DeleteRemoves(c: Client, answers: set<Sent>, t: nat, id: string)
    requires Inv(c, answers) && id in c.items
    requires t in c.drains && c.drains[t].Pruning? && id in c.drains[t].stale
    ensures id in c.acked && c.items[id].createdAt < c.drains[t].cutoff
  {
    hide WireRequest, HistoryOk, CallOkay, HttpOk;
    DrainOf(c, answers, t);
    assert c.items[id].id == id && ItemOk(c, c.items[id]);
  }

  /** A crash loses what the tab had in memory, its drain and its calls, and nothing else; opened
      again, the tab is idle. A pass or a call that gives up leaves the outbox as it is. */
  lemma CrashLosesMemory(c: Client, answers: set<Sent>, t: nat)
    requires t in c.drains
    ensures var c' := Next(c, answers, CrashTab(t));
            && c' == c.(drains := c'.drains, calls := c'.calls)
            && c'.drains == c.drains - {t} && Next(c', answers, OpenTab(t)).drains == c.drains[t := Idle]
            && (forall id :: id in c'.calls <==> id in c.calls && c.calls[id].tab != t)
            && (forall id :: id in c'.calls ==> c'.calls[id] == c.calls[id])
    ensures !c.drains[t].Idle? ==> Next(c, answers, DrainAbort(t)) == c.(drains := c.drains[t := Idle])
    ensures forall id :: id in c.calls && c.calls[id].pc.Queueing? ==>
              Next(c, answers, QueueFail(id)) == c.(calls := c.calls - {id})
    ensures forall rid, req: HttpRequest :: rid !in c.sent && req.slot.key !in c.born ==>
              Next(c, answers, ForeignSend(rid, req)) == c.(sent := c.sent[rid := req])
  {
    hide WireRequest;
    assert (c.drains - {t})[t := Idle] == c.drains[t := Idle];
  }

  /** New answers from the server disturb nothing in the browser. */
  lemma AnswersKeepInv(c: Client, answers: set<Sent>, answers': set<Sent>)
    requires Inv(c, answers) && answers <= answers'
    ensures Inv(c, answers')
  {
    hide WireRequest;
    forall id | id in c.acked ensures Acknowledged(c, answers', id) {
      assert Acknowledged(c, answers, id);
    }
  }
}
