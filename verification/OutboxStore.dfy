/** The browser's two durable object stores, keyed by id. */
module OutboxStore {
  import opened Outbox

  datatype ConflictRecord = ConflictRecord(id: string, reason: string, createdAt: int)

  type Items = map<string, Item>

  /** The store's key path is the item's own id. */
  ghost predicate Keyed(items: Items) {
    forall k :: k in items ==> items[k].id == k
  }

  predicate SortedByCreatedAt(list: seq<Item>) {
    forall i, j :: 0 <= i < j < |list| ==> list[i].createdAt <= list[j].createdAt
  }

  ghost predicate DistinctIds(list: seq<Item>) {
    forall i, j :: 0 <= i < j < |list| ==> list[i].id != list[j].id
  }

  /** A listing shows every stored item once, oldest first; equal times in any order. */
  ghost predicate IsListing(items: Items, list: seq<Item>) {
    && SortedByCreatedAt(list)
    && DistinctIds(list)
    && (forall i :: 0 <= i < |list| ==> list[i].id in items && items[list[i].id] == list[i])
    && (forall k :: k in items ==> exists i :: 0 <= i < |list| && list[i].id == k)
  }

  predicate IsStale(item: Item, cutoff: int) {
    item.status == Synced && item.createdAt < cutoff
  }

  function Pruned(items: Items, cutoff: int): Items {
    map k | k in items && !IsStale(items[k], cutoff) :: items[k]
  }

  /** Where an item goes: behind everything that is not younger than it. */
  function Place(list: seq<Item>, item: Item): (n: nat)
    requires SortedByCreatedAt(list)
    ensures n <= |list|
    ensures forall i :: 0 <= i < n ==> list[i].createdAt <= item.createdAt
    ensures forall i :: n <= i < |list| ==> item.createdAt < list[i].createdAt
  {
    if list == [] || list[|list| - 1].createdAt <= item.createdAt then |list|
    else Place(list[..|list| - 1], item)
  }

  /** The items gathered so far, as `ListOutboxItems` keeps them. */
  ghost predicate IsPartialListing(items: Items, list: seq<Item>, rest: set<string>) {
    && SortedByCreatedAt(list)
    && DistinctIds(list)
    && (forall i :: 0 <= i < |list| ==> list[i].id in items && items[list[i].id] == list[i] && list[i].id !in rest)
    && (forall k :: k in items && k !in rest ==> exists i :: 0 <= i < |list| && list[i].id == k)
  }

  function InsertAt(list: seq<Item>, n: nat, item: Item): (r: seq<Item>)
    requires n <= |list|
    ensures |r| == |list| + 1
    ensures forall i :: 0 <= i < |r| ==> r[i] == if i < n then list[i] else if i == n then item else list[i - 1]
  {
    list[..n] + [item] + list[n..]
  }

  lemma InsertKeepsOrder(list: seq<Item>, item: Item)
    requires SortedByCreatedAt(list) && DistinctIds(list)
    requires forall i :: 0 <= i < |list| ==> list[i].id != item.id
    ensures SortedByCreatedAt(InsertAt(list, Place(list, item), item))
    ensures DistinctIds(InsertAt(list, Place(list, item), item))
  {
  }

  lemma InsertExtends(items: Items, list: seq<Item>, rest: set<string>, k: string)
    requires Keyed(items) && k in items && k in rest && IsPartialListing(items, list, rest)
    ensures IsPartialListing(items, InsertAt(list, Place(list, items[k]), items[k]), rest - {k})
  {
    hide SortedByCreatedAt, DistinctIds, Place;
    InsertKeepsOrder(list, items[k]);
    forall l | l in items && l !in rest - {k}
      ensures exists i :: 0 <= i < |list| + 1 && InsertAt(list, Place(list, items[k]), items[k])[i].id == l
    {
      InsertKeepsOthers(list, items[k], l);
    }
  }

  lemma InsertKeepsOthers(list: seq<Item>, item: Item, id: string)
    requires SortedByCreatedAt(list)
    requires id != item.id ==> exists i :: 0 <= i < |list| && list[i].id == id
    ensures exists i :: 0 <= i < |list| + 1 && InsertAt(list, Place(list, item), item)[i].id == id
  {
    hide SortedByCreatedAt;
    var n := Place(list, item);
    var longer := InsertAt(list, n, item);
    if id == item.id {
      assert longer[n].id == id;
    } else {
      var i :| 0 <= i < |list| && list[i].id == id;
      assert longer[if i < n then i else i + 1].id == id;
    }
  }

  /** A stale item of this id is among the first n of a listing. */
  ghost predicate StaleIn(list: seq<Item>, n: nat, k: string, cutoff: int)
    requires n <= |list|
  {
    exists j :: 0 <= j < n && list[j].id == k && IsStale(list[j], cutoff)
  }

  lemma OneMoreStale(list: seq<Item>, n: nat, k: string, cutoff: int)
    requires n < |list|
    ensures StaleIn(list, n + 1, k, cutoff) <==>
        StaleIn(list, n, k, cutoff) || (list[n].id == k && IsStale(list[n], cutoff))
  {
  }

  lemma ListedStale(items: Items, list: seq<Item>, k: string, cutoff: int)
    requires Keyed(items) && IsListing(items, list) && k in items
    ensures IsStale(items[k], cutoff) <==> StaleIn(list, |list|, k, cutoff)
  {
    var j :| 0 <= j < |list| && list[j].id == k;
  }

  class Store {
    var items: Items
    var conflicts: map<string, ConflictRecord>

    constructor ()
      ensures items == map[] && conflicts == map[]
    {
      items, conflicts := map[], map[];
    }

    method PutOutboxItem(item: Item)
      requires Keyed(items)
      modifies this`items
      ensures items == old(items)[item.id := item] && Keyed(items)
    {
      items := items[item.id := item];
    }

    method ListOutboxItems() returns (list: seq<Item>)
      requires Keyed(items)
      ensures IsListing(items, list)
    {
      list := [];
      var rest := items.Keys;
      while rest != {}
        invariant rest <= items.Keys
        invariant IsPartialListing(items, list, rest)
        decreases |rest|
      {
        var k :| k in rest;
        InsertExtends(items, list, rest, k);
        list := InsertAt(list, Place(list, items[k]), items[k]);
        rest := rest - {k};
      }
    }

    method PruneSyncedOlderThan(cutoff: int)
      requires Keyed(items)
      modifies this`items
      ensures items == Pruned(old(items), cutoff) && Keyed(items)
    {
      hide IsListing;
      var list := ListOutboxItems();
      ghost var before := items;
      var i := 0;
      while i < |list|
        invariant 0 <= i <= |list|
        invariant Keyed(items)
        invariant items == map k | k in before && !StaleIn(list, i, k, cutoff) :: before[k]
      {
        forall k ensures StaleIn(list, i + 1, k, cutoff) <==>
            StaleIn(list, i, k, cutoff) || (list[i].id == k && IsStale(list[i], cutoff)) {
          OneMoreStale(list, i, k, cutoff);
        }
        if IsStale(list[i], cutoff) {
          items := items - {list[i].id};
        }
        i := i + 1;
      }
      forall k | k in before
        ensures IsStale(before[k], cutoff) <==> StaleIn(list, |list|, k, cutoff)
      {
        ListedStale(before, list, k, cutoff);
      }
    }

    method PutConflict(record: ConflictRecord)
      modifies this`conflicts
      ensures conflicts == old(conflicts)[record.id := record]
    {
      conflicts := conflicts[record.id := record];
    }
  }
}
