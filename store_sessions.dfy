/**
 * Two requests in a row against a store in any valid state, proved from the
 * store's method contracts and the lookup lemmas alone.
 */
module StoreSessions {
  import opened Wrappers
  import opened JsValue
  import opened JsBuiltins
  import opened ItemStore

  /** The lookup of a just appended record's id, as the path the client sends. */
  lemma LookupAfterAppend(items: seq<Record>, item: Record, n: nat)
    requires Get(item, "id") == Num(n)
    ensures var k := FindFirst(items + [item], ParseInt(DecimalString(n)));
      k.Some? && (items + [item])[k.value] ==
        match FindFirst(items, Some(n)) case Some(j) => items[j] case None => item
  {
    ParseIntOfDecimalString(n);
    CreatedIsFound(items, item, n);
  }

  /**
   * POST then GET of the new id: an earlier record that already carries the
   * id shadows the created one; otherwise the created record comes back.
   */
  method CreateThenGet(store: Store, body: Record) returns (created: Response, fetched: Response)
    requires store.Valid() && Validate(body).Accepted? && "id" !in body
    modifies store, store.counter
    ensures store.Valid()
    ensures created.Created? && Get(created.item, "id") == Num(old(store.counter.count))
    ensures var k := FindFirst(old(store.items), Some(old(store.counter.count)));
      fetched == Found(if k.Some? then old(store.items)[k.value] else created.item)
  {
    ghost var before := store.items;
    var n := store.counter.count;
    created := store.Create(body);
    LookupAfterAppend(before, created.item, n);
    fetched := store.GetById(DecimalString(n));
  }

  /** PUT without an `id` in its body, then GET of the same path, returns the merged record. */
  method UpdateThenGet(store: Store, idParam: string, body: Record) returns (updated: Response, fetched: Response)
    requires store.Valid() && "id" !in body
    modifies store
    ensures store.Valid()
    ensures updated.Updated? ==> fetched == Found(updated.item)
    ensures updated == NotFound ==> fetched == NotFound && store.items == old(store.items)
  {
    ghost var before := store.items;
    updated := store.Update(idParam, body);
    var target := ParseInt(idParam);
    if FindFirst(before, target).Some? {
      FindFirstAfterMerge(before, target, FindFirst(before, target).value, body);
    }
    fetched := store.GetById(idParam);
  }

  /** The lookup of a path after the record it found first was removed. */
  lemma LookupAfterRemove(items: seq<Record>, target: Option<int>, k: nat)
    requires FindFirst(items, target) == Some(k)
    ensures var r := RemoveAt(items, k);
      match FindFirst(items[k + 1..], target)
      case None => FindFirst(r, target) == None
      case Some(j) => FindFirst(r, target) == Some(k + j) && r[k + j] == items[k + 1 + j]
  {
    FindFirstAfterRemove(items, target, k);
  }

  /** DELETE then GET of the same path finds the next record with that id, or nothing. */
  method DeleteThenGet(store: Store, idParam: string) returns (deleted: Response, fetched: Response)
    requires store.Valid()
    modifies store
    ensures store.Valid()
    ensures var k := FindFirst(old(store.items), ParseInt(idParam));
      if k.Some? then
        && deleted == Deleted
        && match FindFirst(old(store.items)[k.value + 1..], ParseInt(idParam))
           case None => fetched == NotFound
           case Some(j) => fetched == Found(old(store.items)[k.value + 1 + j])
      else
        deleted == NotFound && fetched == NotFound
  {
    ghost var before := store.items;
    var target := ParseInt(idParam);
    deleted := store.Delete(idParam);
    if FindFirst(before, target).Some? {
      LookupAfterRemove(before, target, FindFirst(before, target).value);
    }
    fetched := store.GetById(idParam);
  }
}
