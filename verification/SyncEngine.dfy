/**
 * The sync engine as one tab runs it on its own: `runCommand`, `attemptOne` and `drainQueue`
 * over the durable store. Connectivity, clocks, jitter and the outcome of each request are
 * whatever the environment says.
 */
module SyncEngine {
  import opened Options
  import opened Commands
  import opened Outbox
  import opened OutboxStore
  import opened Backoff
  import opened OfflineClient

  datatype Outcome = Success | Failure(error: ClientError)

  /** `online(n)` answers the n-th connectivity question of a pass; the rest is per item. */
  datatype Env = Env(online: nat -> bool, outcome: Item -> Outcome, clock: Item -> int, draw: Item -> real)

  datatype Result = RunSynced | RunQueued | RunThrown(error: ClientError)

  /** What an attempt leaves in the store for this item. */
  function Settled(item: Item, env: Env): Item {
    var syncing := ApplyOutboxEvent(item, StartSyncing, env.clock(item), 0);
    match env.outcome(item)
    case Success => AfterOk(syncing, env.clock(item))
    case Failure(error) => AfterError(syncing, error, env.clock(item), env.draw(item))
  }

  /** An attempt that ends in a version conflict leaves a record with the server's reason. */
  function WithConflict(conflicts: map<string, ConflictRecord>, item: Item, env: Env): map<string, ConflictRecord> {
    if env.outcome(item).Failure? && Classify(env.outcome(item).error).VersionConflict?
    then conflicts[item.id := ConflictRecord(item.id, Classify(env.outcome(item).error).message, env.clock(item))]
    else conflicts
  }

  function WithConflicts(conflicts: map<string, ConflictRecord>, attempted: seq<Item>,
                         env: Env): map<string, ConflictRecord> {
    if attempted == [] then conflicts
    else WithConflict(WithConflicts(conflicts, attempted[..|attempted| - 1], env), attempted[|attempted| - 1], env)
  }

  function RecoverAll(items: Items, now: int): Items {
    map k | k in items :: RecoverInterrupted(items[k], now)
  }

  /** The items a pass attempts: the eligible ones, in order, until connectivity is gone. */
  function Attempts(list: seq<Item>, now: int, club: int, online: nat -> bool, n: nat): seq<Item> {
    if list == [] then []
    else if !IsEligible(list[0], now, club) then Attempts(list[1..], now, club, online, n)
    else if !online(n) then []
    else [list[0]] + Attempts(list[1..], now, club, online, n + 1)
  }

  function AfterAttempts(items: Items, attempted: seq<Item>, env: Env): Items {
    if attempted == [] then items
    else
      var last := attempted[|attempted| - 1];
      AfterAttempts(items, attempted[..|attempted| - 1], env)[last.id := Settled(last, env)]
  }

  lemma AttemptsFrom(list: seq<Item>, i: nat, now: int, club: int, online: nat -> bool, n: nat)
    requires i < |list|
    ensures Attempts(list[i..], now, club, online, n)
         == if !IsEligible(list[i], now, club) then Attempts(list[i + 1..], now, club, online, n)
            else if !online(n) then []
            else [list[i]] + Attempts(list[i + 1..], now, club, online, n + 1)
  {
    assert list[i..][0] == list[i] && list[i..][1..] == list[i + 1..];
  }

  lemma NoneAttempted(now: int, club: int, online: nat -> bool, n: nat)
    ensures Attempts([], now, club, online, n) == []
  {
  }

  lemma AttemptsAppend(items: Items, attempted: seq<Item>, item: Item, env: Env)
    ensures AfterAttempts(items, attempted + [item], env)
        == AfterAttempts(items, attempted, env)[item.id := Settled(item, env)]
    ensures forall conflicts ::
        WithConflicts(conflicts, attempted + [item], env)
            == WithConflict(WithConflicts(conflicts, attempted, env), item, env)
  {
    assert (attempted + [item])[..|attempted|] == attempted;
  }

  /** What one pass did: the listing it worked through and the items it attempted. */
  ghost predicate IsPass(before: Items, after: Items, attempted: seq<Item>, now: int, later: int, club: int, env: Env) {
    exists list :: IsListing(RecoverAll(before, now), list)
        && PassOver(before, after, attempted, now, later, club, env, list)
  }

  ghost predicate PassOver(before: Items, after: Items, attempted: seq<Item>, now: int, later: int, club: int,
                           env: Env, list: seq<Item>) {
    && attempted == Attempts(list, now, club, env.online, 1)
    && after == Pruned(AfterAttempts(RecoverAll(before, now), attempted, env), later - SYNCED_RETENTION_MS)
  }

  /** The item that `runCommand` queues, if it queues any. */
  function QueuedBy(id: string, birth: Birth, online: bool, outcome: Outcome, now: int, draw: real): Option<Item> {
    if !online then Some(NewItem(id, birth, now))
    else if outcome.Success? || IsFinalError(outcome.error) then None
    else Some(ApplyOutboxEvent(NewItem(id, birth, now), Classify(outcome.error), now, NextRetryDelayMs(0, draw)))
  }

  function WithItem(items: Items, item: Option<Item>): Items {
    if item.Some? then items[item.value.id := item.value] else items
  }

  class Engine {
    const store: Store
    var draining: bool

    constructor (store: Store)
      ensures this.store == store && !draining
    {
      this.store := store;
      draining := false;
    }

    method AttemptOne(item: Item, env: Env)
      requires Keyed(store.items)
      modifies store
      ensures store.items == old(store.items)[item.id := Settled(item, env)] && Keyed(store.items)
      ensures store.conflicts == WithConflict(old(store.conflicts), item, env)
    {
      var syncing := ApplyOutboxEvent(item, StartSyncing, env.clock(item), 0);
      store.PutOutboxItem(syncing);
      match env.outcome(item) {
        case Success =>
          store.PutOutboxItem(ApplyOutboxEvent(syncing, SentOk, env.clock(item), 0));
        case Failure(error) =>
          var event := Classify(error);
          var delay := if event.NetworkError? then NextRetryDelayMs(syncing.attempts, env.draw(item)) else 0;
          store.PutOutboxItem(ApplyOutboxEvent(syncing, event, env.clock(item), delay));
          if event.VersionConflict? {
            store.PutConflict(ConflictRecord(item.id, event.message, env.clock(item)));
          }
      }
    }

    /** A command is queued exactly when the console is offline or the request's fate is
        unknown; in every other case the store is left alone. */
    method RunCommand(id: string, birth: Birth, online: bool, outcome: Outcome, now: int, draw: real)
      returns (result: Result)
      requires Keyed(store.items) && birth.createdAt == now
      modifies store
      ensures result.RunQueued? <==> !online || (outcome.Failure? && !IsFinalError(outcome.error))
      ensures result.RunSynced? <==> online && outcome.Success?
      ensures result.RunThrown? ==> outcome == Outcome.Failure(result.error)
      ensures store.conflicts == old(store.conflicts)
      ensures store.items == WithItem(old(store.items), QueuedBy(id, birth, online, outcome, now, draw))
      ensures !result.RunQueued? ==> store.items == old(store.items)
      ensures result.RunQueued? ==>
                && store.items.Keys == old(store.items.Keys) + {id}
                && (forall k :: k in old(store.items) && k != id ==> store.items[k] == old(store.items)[k])
                && store.items[id].id == id && BirthOf(store.items[id]) == birth
                && IsRetryable(store.items[id].status)
                && store.items[id].attempts == (if online then 1 else 0)
                && store.items[id].nextRetryAt == now + (if online then NextRetryDelayMs(0, draw) else 0)
    {
      if !online {
        store.PutOutboxItem(NewItem(id, birth, now));
        return RunQueued;
      }
      if outcome.Success? {
        return RunSynced;
      }
      var event := Classify(outcome.error);
      if event.BusinessError? || event.VersionConflict? {
        return RunThrown(outcome.error);
      }
      var queued := ApplyOutboxEvent(NewItem(id, birth, now), event, now, NextRetryDelayMs(0, draw));
      store.PutOutboxItem(queued);
      return RunQueued;
    }

    /** Puts every interrupted item back to waiting. */
    method RecoverInterruptedItems(now: int)
      requires Keyed(store.items)
      modifies store`items
      ensures store.items == RecoverAll(old(store.items), now) && Keyed(store.items)
    {
      ghost var before := store.items;
      var list := store.ListOutboxItems();
      var i := 0;
      while i < |list|
        invariant 0 <= i <= |list|
        invariant Keyed(store.items) && store.items.Keys == before.Keys
        invariant forall j :: 0 <= j < |list| ==>
                    store.items[list[j].id] == if j < i then RecoverInterrupted(list[j], now) else list[j]
      {
        if list[i].status == Syncing {
          store.PutOutboxItem(RecoverInterrupted(list[i], now));
        }
        i := i + 1;
      }
      forall k | k in before ensures store.items[k] == RecoverInterrupted(before[k], now) {
        var j :| 0 <= j < |list| && list[j].id == k;
      }
    }

    method DrainQueue(env: Env, now: int, later: int, club: int) returns (attempted: seq<Item>)
      requires Keyed(store.items)
      modifies this, store
      ensures Keyed(store.items) && draining == old(draining)
      ensures store.conflicts == WithConflicts(old(store.conflicts), attempted, env)
      ensures old(draining) || !env.online(0) ==> attempted == [] && store.items == old(store.items)
      ensures !old(draining) && env.online(0) ==>
                IsPass(old(store.items), store.items, attempted, now, later, club, env)
    {
      hide IsListing, RecoverAll, Settled, IsEligible, Pruned, Attempts, WithConflict;
      attempted := [];
      if draining {
        return;
      }
      draining := true;
      if !env.online(0) {
        draining := false;
        return;
      }
      RecoverInterruptedItems(now);
      ghost var recovered := store.items;
      var list := store.ListOutboxItems();
      var i, asked := 0, 1;
      while i < |list|
        invariant 0 <= i <= |list| && draining
        invariant Keyed(store.items) && store.items == AfterAttempts(recovered, attempted, env)
        invariant store.conflicts == WithConflicts(old(store.conflicts), attempted, env)
        invariant Attempts(list, now, club, env.online, 1) == attempted
            + Attempts(list[i..], now, club, env.online, asked)
      {
        var item := list[i];
        AttemptsFrom(list, i, now, club, env.online, asked);
        if IsEligible(item, now, club) {
          if !env.online(asked) {
            break;
          }
          AttemptOne(item, env);
          AttemptsAppend(recovered, attempted, item, env);
          attempted := attempted + [item];
          asked := asked + 1;
        }
        i := i + 1;
      }
      NoneAttempted(now, club, env.online, asked);
      assert list[|list|..] == [];
      store.PruneSyncedOlderThan(later - SYNCED_RETENTION_MS);
      assert PassOver(old(store.items), store.items, attempted, now, later, club, env, list);
      draining := false;
    }
  }

  // ── What a pass amounts to ───────────────────────────────────────────────

  /** Waiting and due before the pass, or left in the middle of an attempt by an earlier one. */
  predicate WasDue(item: Item, now: int, club: int) {
    item.clubId == club && (item.status == Syncing || (item.status == Pending && item.nextRetryAt <= now))
  }

  lemma DueIsEligible(item: Item, now: int, club: int)
    ensures WasDue(item, now, club) <==> IsEligible(RecoverInterrupted(item, now), now, club)
  {
  }

  lemma {:induction false} AttemptsAreEligible(list: seq<Item>, now: int, club: int, online: nat -> bool, n: nat)
    ensures forall a :: a in Attempts(list, now, club, online, n) ==> a in list && IsEligible(a, now, club)
    ensures (forall m :: online(m)) ==>
              forall a :: a in list && IsEligible(a, now, club) ==> a in Attempts(list, now, club, online, n)
  {
    if list != [] {
      AttemptsAreEligible(list[1..], now, club, online, n);
      AttemptsAreEligible(list[1..], now, club, online, n + 1);
      assert list == [list[0]] + list[1..];
    }
  }

  lemma {:induction false} AttemptsKeepOrder(list: seq<Item>, now: int, club: int, online: nat -> bool, n: nat)
    requires SortedByCreatedAt(list) && DistinctIds(list)
    ensures var r := Attempts(list, now, club, online, n);
            SortedByCreatedAt(r) && DistinctIds(r)
  {
    if list != [] {
      AttemptsKeepOrder(list[1..], now, club, online, n);
      AttemptsKeepOrder(list[1..], now, club, online, n + 1);
      var rest := Attempts(list[1..], now, club, online, n + 1);
      AttemptsAreEligible(list[1..], now, club, online, n + 1);
      forall i | 0 <= i < |rest| ensures list[0].createdAt <= rest[i].createdAt && list[0].id != rest[i].id {
        assert rest[i] in rest;
        var j :| 0 <= j < |list| - 1 && list[1..][j] == rest[i];
        assert list[j + 1] == rest[i];
      }
    }
  }

  lemma {:induction false} AfterAttemptsAt(items: Items, attempted: seq<Item>, env: Env)
    requires DistinctIds(attempted)
    requires forall i :: 0 <= i < |attempted| ==> attempted[i].id in items
    ensures AfterAttempts(items, attempted, env).Keys == items.Keys
    ensures forall i :: 0 <= i < |attempted| ==>
              AfterAttempts(items, attempted, env)[attempted[i].id] == Settled(attempted[i], env)
    ensures forall k :: k in items && (forall i :: 0 <= i < |attempted| ==> attempted[i].id != k) ==>
              AfterAttempts(items, attempted, env)[k] == items[k]
  {
    hide Settled;
    if attempted != [] {
      var front := attempted[..|attempted| - 1];
      AfterAttemptsAt(items, front, env);
      assert forall i :: 0 <= i < |front| ==> front[i] == attempted[i];
    }
  }

  /** Everything a reader may want of a pass, item by item. */
  ghost predicate AttemptedIn(attempted: seq<Item>, k: string) {
    exists i :: 0 <= i < |attempted| && attempted[i].id == k
  }

  /**
   * A pass is a simple filter: it attempts only items that were due for the active club,
   * each at most once and oldest first.
   */
  lemma PassAttemptsDueItems(before: Items, after: Items, attempted: seq<Item>, now: int, later: int, club: int,
                             env: Env)
    requires Keyed(before) && IsPass(before, after, attempted, now, later, club, env)
    ensures SortedByCreatedAt(attempted) && DistinctIds(attempted)
    ensures forall i :: 0 <= i < |attempted| ==>
              attempted[i].id in before && attempted[i] == RecoverInterrupted(before[attempted[i].id], now)
              && WasDue(before[attempted[i].id], now, club)
  {
    var recovered := RecoverAll(before, now);
    var list: seq<Item> :| IsListing(recovered, list)
        && PassOver(before, after, attempted, now, later, club, env, list);
    AttemptsKeepOrder(list, now, club, env.online, 1);
    AttemptsAreEligible(list, now, club, env.online, 1);
    forall i | 0 <= i < |attempted|
      ensures attempted[i].id in before && attempted[i] == RecoverInterrupted(before[attempted[i].id], now)
      ensures WasDue(before[attempted[i].id], now, club)
    {
      assert attempted[i] in attempted;
      DueIsEligible(before[attempted[i].id], now, club);
    }
  }

  /** A pass that stays online attempts exactly the items that were due. */
  lemma OnlinePassIsComplete(before: Items, after: Items, attempted: seq<Item>, now: int, later: int, club: int,
                             env: Env, k: string)
    requires Keyed(before) && IsPass(before, after, attempted, now, later, club, env)
    requires k in before && forall n :: env.online(n)
    ensures AttemptedIn(attempted, k) <==> WasDue(before[k], now, club)
  {
    var recovered := RecoverAll(before, now);
    var list: seq<Item> :| IsListing(recovered, list)
        && PassOver(before, after, attempted, now, later, club, env, list);
    PassAttemptsDueItems(before, after, attempted, now, later, club, env);
    AttemptsAreEligible(list, now, club, env.online, 1);
    assert k in recovered;
    var j :| 0 <= j < |list| && list[j].id == k;
    assert list[j] in list && recovered[k] == list[j];
    DueIsEligible(before[k], now, club);
  }

  lemma SettledIsNotSyncing(item: Item, env: Env)
    ensures Settled(item, env).status != Syncing
  {
  }

  /**
   * What a pass leaves of every item: the outcome of its attempt if it was attempted, and
   * otherwise the item as it was, put back to waiting if an earlier attempt had been cut off.
   * Nothing is left in the middle of an attempt, and only acknowledged items past the
   * retention are removed.
   */
  lemma PassSettlesEveryItem(before: Items, after: Items, attempted: seq<Item>, now: int, later: int, club: int,
                             env: Env, k: string)
    requires Keyed(before) && IsPass(before, after, attempted, now, later, club, env) && k in before
    ensures var settled := if AttemptedIn(attempted, k) then Settled(RecoverInterrupted(before[k], now), env)
                           else RecoverInterrupted(before[k], now);
            && settled.status != Syncing
            && (k in after <==> !(settled.status == Synced && settled.createdAt < later - 604_800_000))
            && (k in after ==> after[k] == settled)
    ensures after.Keys <= before.Keys
  {
    var recovered := RecoverAll(before, now);
    PassAttemptsDueItems(before, after, attempted, now, later, club, env);
    AfterAttemptsAt(recovered, attempted, env);
    var mid := AfterAttempts(recovered, attempted, env);
    assert after == Pruned(mid, later - SYNCED_RETENTION_MS);
    assert k in recovered;
    if AttemptedIn(attempted, k) {
      var i :| 0 <= i < |attempted| && attempted[i].id == k;
      assert attempted[i] == recovered[k];
      assert mid[k] == Settled(attempted[i], env);
      SettledIsNotSyncing(recovered[k], env);
    } else {
      assert mid[k] == recovered[k];
    }
  }

  /** A settled item is never sent again: neither refused, nor in conflict, nor acknowledged. */
  lemma FinalItemsAreNotResent(before: Items, after: Items, attempted: seq<Item>, now: int, later: int, club: int,
                               env: Env, k: string)
    requires Keyed(before) && IsPass(before, after, attempted, now, later, club, env)
    requires k in before && before[k].status in {Synced, Failed, Conflict}
    ensures !AttemptedIn(attempted, k)
    ensures before[k].status != Synced ==> k in after && after[k] == before[k]
  {
    PassAttemptsDueItems(before, after, attempted, now, later, club, env);
    PassSettlesEveryItem(before, after, attempted, now, later, club, env, k);
  }

  /** The server's answer that somebody else has changed the thing meanwhile. */
  predicate IsVersionConflict(outcome: Outcome) {
    outcome.Failure? && outcome.error.ApiError? && outcome.error.status < 500
    && outcome.error.code == "VERSION_CONFLICT"
  }

  /** A pass leaves a conflict record, with the server's reason and the time, for exactly the
      attempted items that the server found changed; records of other items stay as they were. */
  lemma {:induction false} ConflictsAreRecorded(conflicts: map<string, ConflictRecord>, attempted: seq<Item>, env: Env,
                                                k: string)
    requires DistinctIds(attempted)
    ensures var after := WithConflicts(conflicts, attempted, env);
            && (forall i ::
                  0 <= i < |attempted| && attempted[i].id == k && IsVersionConflict(env.outcome(attempted[i])) ==>
                  k in after && after[k] == ConflictRecord(k, env.outcome(attempted[i]).error.message,
                                                           env.clock(attempted[i])))
            && ((forall i :: 0 <= i < |attempted| && attempted[i].id == k ==>
                   !IsVersionConflict(env.outcome(attempted[i]))) ==>
                (k in after <==> k in conflicts) && (k in after ==> after[k] == conflicts[k]))
  {
    if attempted != [] {
      var n := |attempted| - 1;
      var front := attempted[..n];
      assert forall i :: 0 <= i < n ==> front[i] == attempted[i];
      ConflictsAreRecorded(conflicts, front, env, k);
      VersionConflictsOnly(attempted[n], env);
    }
  }

  lemma VersionConflictsOnly(item: Item, env: Env)
    ensures env.outcome(item).Failure? ==>
              (Classify(env.outcome(item).error).VersionConflict? <==> IsVersionConflict(env.outcome(item)))
              && (IsVersionConflict(env.outcome(item)) ==>
                  Classify(env.outcome(item).error).message == env.outcome(item).error.message)
  {
  }

  // ── Backing off ──────────────────────────────────────────────────────────

  /**
   * What one attempt leaves of an item, in every column. A success settles it; an answer below 500
   * other than "in progress" settles it as failed, or as a conflict, when it is due as before; any
   * other failure leaves it waiting for the delay of its count of failures.
   */
  lemma AttemptLeaves(item: Item, env: Env)
    ensures var r, outcome, now := Settled(item, env), env.outcome(item), env.clock(item);
            && r.id == item.id && BirthOf(r) == BirthOf(item)
            && (outcome.Success? ==>
                r.status == Synced && r.attempts == item.attempts && r.nextRetryAt == item.nextRetryAt
                && r.lastError.None? && r.lastErrorCode.None?)
            && (outcome.Failure? ==> r.attempts == item.attempts + 1 && r.lastError == Some(outcome.error.message))
            && (outcome.Failure? && outcome.error.ApiError? && outcome.error.status < 500
                && outcome.error.code != "IDEMPOTENCY_IN_PROGRESS" ==>
                && r.status == (if outcome.error.code == "VERSION_CONFLICT" then Conflict else Failed)
                && r.lastErrorCode == Some(outcome.error.code) && r.nextRetryAt == item.nextRetryAt)
            && (outcome.Failure? && !(outcome.error.ApiError? && outcome.error.status < 500
                                      && outcome.error.code != "IDEMPOTENCY_IN_PROGRESS") ==>
                && r.status == Pending && r.lastErrorCode.None?
                && r.nextRetryAt == now + NextRetryDelayMs(item.attempts, env.draw(item)))
  {
    hide NextRetryDelayMs;
  }

  /** One pass over the store, as `DrainQueue` makes it. */
  datatype Pass = Pass(
    before: Items, after: Items, attempted: seq<Item>, now: int, later: int, club: int, env: Env)

  /** Passes one after the other, with the outbox left alone in between. */
  ghost predicate AreFailing(passes: seq<Pass>, k: string) {
    && (forall j :: 0 <= j < |passes| ==> FailsIn(passes[j], k))
    && forall j, m :: 0 <= j < m < |passes| && m == j + 1 ==> passes[m].before == passes[j].after
  }

  /** The pass attempts this item, which fails without a final answer. */
  ghost predicate FailsIn(p: Pass, k: string) {
    && Keyed(p.before) && IsPass(p.before, p.after, p.attempted, p.now, p.later, p.club, p.env)
    && k in p.before && AttemptedIn(p.attempted, k)
    && p.env.outcome(Attempted(p, k)).Failure? && !IsFinalError(p.env.outcome(Attempted(p, k)).error)
  }

  function Attempted(p: Pass, k: string): Item
    requires k in p.before
  {
    RecoverInterrupted(p.before[k], p.now)
  }

  ghost function FailureIn(p: Pass, k: string): Backoff.Failure
    requires FailsIn(p, k)
  {
    var item := Attempted(p, k);
    Backoff.Failure(p.env.clock(item), p.env.draw(item), p.env.outcome(item).error.message)
  }

  ghost function FailuresIn(passes: seq<Pass>, k: string): seq<Backoff.Failure>
    requires forall j :: 0 <= j < |passes| ==> FailsIn(passes[j], k)
  {
    seq(|passes|, j requires 0 <= j < |passes| => FailureIn(passes[j], k))
  }

  lemma FailsOnItsItem(p: Pass, k: string)
    requires FailsIn(p, k)
    ensures k in p.before
  {
  }

  /** An item is attempted no earlier than it says. */
  lemma AttemptedWhenDue(p: Pass, k: string)
    requires FailsIn(p, k)
    ensures k in p.before && (p.before[k].status == Pending ==> p.before[k].nextRetryAt <= p.now)
  {
    hide IsPass;
    PassAttemptsDueItems(p.before, p.after, p.attempted, p.now, p.later, p.club, p.env);
    var i :| 0 <= i < |p.attempted| && p.attempted[i].id == k;
    assert WasDue(p.before[p.attempted[i].id], p.now, p.club);
  }

  /** A pass that fails on an item leaves it as one more failure does. */
  lemma PassIsAFailure(p: Pass, k: string, f: Backoff.Failure)
    requires FailsIn(p, k) && f == FailureIn(p, k)
    ensures k in p.after && p.after[k].status == Pending
    ensures p.after[k] == p.before[k].(status := Pending, attempts := p.before[k].attempts + 1,
                                       nextRetryAt := f.now + NextRetryDelayMs(p.before[k].attempts, f.draw),
                                       lastError := Some(f.message), lastErrorCode := None)
  {
    hide Settled, IsPass, NextRetryDelayMs;
    PassSettlesEveryItem(p.before, p.after, p.attempted, p.now, p.later, p.club, p.env, k);
    AttemptLeaves(Attempted(p, k), p.env);
  }

  /** k passes that each fail on an item leave in the store what k failures make of it. */
  lemma {:induction false} PassesAreFailures(passes: seq<Pass>, k: string)
    requires passes != [] && AreFailing(passes, k)
    ensures var last := passes[|passes| - 1];
            k in last.after && last.after[k] == AfterFailures(passes[0].before[k], FailuresIn(passes, k))
  {
    hide FailsIn, NextRetryDelayMs;
    var n := |passes| - 1;
    var run := FailuresIn(passes, k);
    var front := passes[..n];
    assert forall j :: 0 <= j < n ==> front[j] == passes[j];
    assert run[..n] == FailuresIn(front, k);
    FailsOnItsItem(passes[0], k);
    FailsOnItsItem(passes[n], k);
    PassIsAFailure(passes[n], k, run[n]);
    if n > 0 {
      PassesAreFailures(front, k);
      assert passes[n].before == passes[n - 1].after;
    } else {
      assert run[..0] == [];
    }
  }

  /**
   * The drain backs off. Between two attempts of an item that fail on the way, in passes however
   * frequent, at least four fifths of its step go by: of 1, 2, 4, 8, 16, 30 and then 60 seconds, by
   * its count of failures.
   */
  lemma DrainsBackOff(passes: seq<Pass>, k: string, j: nat)
    requires AreFailing(passes, k) && j + 1 < |passes| && 0.0 <= FailureIn(passes[j], k).draw <= 1.0
    ensures k in passes[0].before
    ensures passes[j + 1].now >= FailureIn(passes[j], k).now
                                 + 800 * Seconds(passes[0].before[k].attempts + j)
  {
    hide FailsIn, NextRetryDelayMs, Seconds, AfterFailures;
    FailsOnItsItem(passes[0], k);
    FailsOnItsItem(passes[j], k);
    var f := FailureIn(passes[j], k);
    var failures := passes[0].before[k].attempts + j;
    if j > 0 {
      var front := passes[..j];
      assert forall m :: 0 <= m < j ==> front[m] == passes[m];
      PassesAreFailures(front, k);
      FailuresAreCounted(passes[0].before[k], FailuresIn(front, k));
      assert passes[j].before == passes[j - 1].after;
    }
    assert passes[j].before[k].attempts == failures;
    PassIsAFailure(passes[j], k, f);
    assert passes[j + 1].before == passes[j].after;
    AttemptedWhenDue(passes[j + 1], k);
    AtLeastFourFifths(failures, f.draw);
  }

  lemma AtLeastFourFifths(failures: nat, draw: real)
    requires 0.0 <= draw <= 1.0
    ensures NextRetryDelayMs(failures, draw) >= 800 * Seconds(failures)
  {
    DelayInNumbers(failures, draw);
    assert Seconds(failures) as real * (800.0 + 400.0 * draw) >= Seconds(failures) as real * 800.0;
  }

  // ── Executors ────────────────────────────────────────────────────────────

  /** The bill's total as re-read just before closing it. */
  datatype LiveTotal = Total(total: int) | Unknown(error: ClientError)

  /** An executor: closing a bill first compares the total the cashier saw. */
  function Execute(c: Command, live: LiveTotal, http: Outcome): Outcome {
    if !c.BillClose? then http
    else match live
      case Unknown(error) => Outcome.Failure(error)
      case Total(total) =>
        if total != c.expectedTotal then Outcome.Failure(ApiError(409, "VERSION_CONFLICT", "total changed")) else http
  }

  /** The server's first guard: the club in the path must be the console's active club, which
      is read when the request is sent. */
  function AtClub(activeClub: int, c: Command, http: Outcome): Outcome {
    if activeClub != c.clubId then Outcome.Failure(ApiError(403, "CLUB_MISMATCH", "club")) else http
  }

  /** A queued bill whose total moved meanwhile is set aside as a conflict without being sent; one
      whose total cannot be read is settled by that error; otherwise the server's answer decides. */
  lemma ChangedBillIsConflict(item: Item, env: Env, live: LiveTotal, http: Outcome)
    requires item.command.BillClose? && env.outcome(item) == Execute(item.command, live, http)
    ensures live.Total? && live.total != item.command.expectedTotal ==>
              Settled(item, env).status == Conflict && Settled(item, env).lastErrorCode == Some("VERSION_CONFLICT")
    ensures live.Total? && live.total == item.command.expectedTotal ==>
              Settled(item, env) == Settled(item, env.(outcome := (_: Item) => http))
    ensures live.Unknown? ==> (IsRetryable(Settled(item, env).status) <==> !IsFinalError(live.error))
  {
  }

  // ── A club switched during a pass ────────────────────────────────────────

  /** The total of a bill reads as the cashier saw it, unless the read already meets the guard. */
  predicate ReadsTotal(c: Command, clubAtSend: int, live: LiveTotal) {
    c.BillClose? ==>
      live == Total(c.expectedTotal)
      || (clubAtSend != c.clubId && live == Unknown(ApiError(403, "CLUB_MISMATCH", "club")))
  }

  /** The server would accept the item, if only it is sent under its own club. */
  ghost predicate WouldBeAccepted(item: Item, env: Env, clubAtSend: int) {
    && item.command.clubId == item.clubId
    && exists live :: ReadsTotal(item.command, clubAtSend, live)
                      && env.outcome(item) == Execute(item.command, live, AtClub(clubAtSend, item.command, Success))
  }

  lemma SendDecides(item: Item, env: Env, clubAtSend: int)
    requires WouldBeAccepted(item, env, clubAtSend)
    ensures Settled(item, env).status == if clubAtSend == item.clubId then Synced else Failed
    ensures clubAtSend != item.clubId ==> Settled(item, env).lastErrorCode == Some("CLUB_MISMATCH")
    ensures Settled(item, env).id == item.id && Settled(item, env).createdAt == item.createdAt
  {
  }

  /**
   * A pass filters by the club that was active when it began, but a request is judged by the club
   * active when it is sent. An item that a pass attempts, and that the server would accept, ends
   * FAILED, and so is never sent again, if and only if the active club at its own send is no
   * longer the pass's; otherwise it is acknowledged, and kept unless past the retention.
   */
  lemma ClubSwitchFailsForGood(before: Items, after: Items, attempted: seq<Item>, now: int, later: int, club: int,
                               env: Env, k: string, clubAtSend: int)
    requires Keyed(before) && IsPass(before, after, attempted, now, later, club, env)
    requires k in before && AttemptedIn(attempted, k)
    requires WouldBeAccepted(RecoverInterrupted(before[k], now), env, clubAtSend)
    ensures (k in after && after[k].status == Failed) <==> clubAtSend != club
    ensures clubAtSend != club ==> after[k].lastErrorCode == Some("CLUB_MISMATCH")
    ensures clubAtSend == club ==> (k in after <==> before[k].createdAt >= later - 604_800_000)
                                   && (k in after ==> after[k].status == Synced)
  {
    hide IsPass, Settled, WouldBeAccepted;
    PassAttemptsDueItems(before, after, attempted, now, later, club, env);
    PassSettlesEveryItem(before, after, attempted, now, later, club, env, k);
    SendDecides(RecoverInterrupted(before[k], now), env, clubAtSend);
    var i :| 0 <= i < |attempted| && attempted[i].id == k;
    assert before[k].id == k && WasDue(before[attempted[i].id], now, club);
  }

  /** A pass over two waiting items of one club, during which the club is switched: the first is
      acknowledged, the second fails. */
  lemma SwitchDuringPass(a: Item, b: Item, env: Env, now: int, club: int, other: int)
    requires a.id != b.id && a.createdAt <= b.createdAt && other != club
    requires IsEligible(a, now, club) && IsEligible(b, now, club) && forall n :: env.online(n)
    requires WouldBeAccepted(a, env, club) && WouldBeAccepted(b, env, other)
    ensures var before := map[a.id := a, b.id := b];
            var after := map[a.id := Settled(a, env), b.id := Settled(b, env)];
            && Keyed(before) && IsPass(before, after, [a, b], now, a.createdAt + SYNCED_RETENTION_MS, club, env)
            && after[a.id].status == Synced && after[b.id].status == Failed
  {
    hide WouldBeAccepted, Settled, IsEligible, IsListing, Attempts, AfterAttempts;
    var before, list := map[a.id := a, b.id := b], [a, b];
    var after := map[a.id := Settled(a, env), b.id := Settled(b, env)];
    SendDecides(a, env, club);
    SendDecides(b, env, other);
    ClubOfEligible(a, now, club);
    ClubOfEligible(b, now, club);
    PairIsListed(a, b);
    PairIsAttempted(a, b, now, club, env.online);
    PairIsSettled(a, b, env);
    assert RecoverAll(before, now) == before;
    assert Pruned(after, a.createdAt) == after;
    assert PassOver(before, after, list, now, a.createdAt + SYNCED_RETENTION_MS, club, env, list);
  }

  lemma ClubOfEligible(item: Item, now: int, club: int)
    requires IsEligible(item, now, club)
    ensures item.clubId == club && RecoverInterrupted(item, now) == item
  {
  }

  lemma PairIsListed(a: Item, b: Item)
    requires a.id != b.id && a.createdAt <= b.createdAt
    ensures IsListing(map[a.id := a, b.id := b], [a, b])
  {
    var before, list := map[a.id := a, b.id := b], [a, b];
    forall k | k in before ensures exists i :: 0 <= i < |list| && list[i].id == k {
      assert list[0].id == a.id && list[1].id == b.id;
    }
  }

  lemma {:induction false} PairIsAttempted(a: Item, b: Item, now: int, club: int, online: nat -> bool)
    requires IsEligible(a, now, club) && IsEligible(b, now, club) && forall n :: online(n)
    ensures Attempts([a, b], now, club, online, 1) == [a, b]
  {
    hide IsEligible;
    assert [a, b][1..] == [b] && [b][1..] == [];
    assert Attempts([b], now, club, online, 2) == [b] + Attempts([], now, club, online, 3);
  }

  lemma {:induction false} PairIsSettled(a: Item, b: Item, env: Env)
    requires a.id != b.id
    ensures AfterAttempts(map[a.id := a, b.id := b], [a, b], env)
        == map[a.id := Settled(a, env), b.id := Settled(b, env)]
  {
    hide Settled;
    var before := map[a.id := a, b.id := b];
    assert [a, b][..1] == [a] && [a][..0] == [];
    assert AfterAttempts(before, [a], env) == before[a.id := Settled(a, env)];
  }
}
