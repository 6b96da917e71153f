/** The in-memory order store behind the `/api/orders` route: a
    process-wide map from user id to order record, merged into by POST,
    read by GET and emptied by DELETE. */
module Orders {
  import opened Common

  /** A stored order. The POST handler writes exactly these keys; a field
      that no request ever supplied stays `undefined` (None). */
  datatype OrderRecord = OrderRecord(
    userId: string,
    name: Option<string>,
    email: Option<string>,
    phone: Option<string>,
    address: Option<string>,
    updatedAt: string)

  /** A parsed POST body. `status` and `orderId` may be sent (the order form
      sends a status) but the handler never reads them. */
  datatype PostBody = PostBody(
    userId: Option<string>,
    name: Option<string>,
    email: Option<string>,
    phone: Option<string>,
    address: Option<string>,
    timestamp: Option<string>,
    status: Option<string>,
    orderId: Option<string>)

  /** What the route answers; every variant but `Failed` has status 200. */
  datatype OrdersReply =
    | Saved(order: OrderRecord)          // { success: true, order }
    | Found(order: OrderRecord)          // { order }
    | Listed(orders: seq<OrderRecord>)   // { orders }
    | Deleted                            // { success: true, message: "Order deleted" }
    | Failed(status: int, error: string) // { error } with that status

  /** The record the POST handler stores for `userId`: each contact field is
      the incoming value when truthy and the stored one otherwise, and
      `updatedAt` is the supplied timestamp, or the current time. */
  function Merged(existing: Option<OrderRecord>, userId: string, body: PostBody, now: string): (r: OrderRecord)
    ensures r.userId == userId
    // an empty or missing incoming field keeps the stored one (undefined
    // when nothing was stored)
    ensures !Truthy(body.name) ==> r.name == (if existing.Some? then existing.value.name else None)
    ensures !Truthy(body.email) ==> r.email == (if existing.Some? then existing.value.email else None)
    ensures !Truthy(body.phone) ==> r.phone == (if existing.Some? then existing.value.phone else None)
    ensures !Truthy(body.address) ==> r.address == (if existing.Some? then existing.value.address else None)
    // so a present, non-empty stored field is never cleared
    ensures existing.Some? && Truthy(existing.value.name) ==> Truthy(r.name)
    ensures existing.Some? && Truthy(existing.value.email) ==> Truthy(r.email)
    ensures existing.Some? && Truthy(existing.value.phone) ==> Truthy(r.phone)
    ensures existing.Some? && Truthy(existing.value.address) ==> Truthy(r.address)
    // a truthy incoming field always wins
    ensures Truthy(body.name) ==> r.name == body.name
    ensures Truthy(body.email) ==> r.email == body.email
    ensures Truthy(body.phone) ==> r.phone == body.phone
    ensures Truthy(body.address) ==> r.address == body.address
    // the time stamp never comes from the old record
    ensures Truthy(body.timestamp) ==> r.updatedAt == body.timestamp.value
    ensures !Truthy(body.timestamp) ==> r.updatedAt == now
  {
    OrderRecord(
      userId,
      Or(body.name, if existing.Some? then existing.value.name else None),
      Or(body.email, if existing.Some? then existing.value.email else None),
      Or(body.phone, if existing.Some? then existing.value.phone else None),
      Or(body.address, if existing.Some? then existing.value.address else None),
      OrElse(body.timestamp, now))
  }

  /** The body that has the effect of `later` posted after `earlier`: per
      field, the later value when truthy, else the earlier one. */
  function Overlay(later: PostBody, earlier: PostBody): PostBody {
    PostBody(later.userId, Or(later.name, earlier.name), Or(later.email, earlier.email),
             Or(later.phone, earlier.phone), Or(later.address, earlier.address),
             later.timestamp, later.status, later.orderId)
  }

  /** Last write wins, field by field: two POSTs for one user leave the
      record one merged POST would. */
  lemma MergeLastWriteWins(existing: Option<OrderRecord>, userId: string,
                           earlier: PostBody, t1: string, later: PostBody, t2: string)
    ensures Merged(Some(Merged(existing, userId, earlier, t1)), userId, later, t2)
         == Merged(existing, userId, Overlay(later, earlier), t2)
  {
  }

  /** Posting the same body twice at the same time changes nothing more. */
  lemma MergeIdempotent(existing: Option<OrderRecord>, userId: string, body: PostBody, now: string)
    ensures Merged(Some(Merged(existing, userId, body, now)), userId, body, now)
         == Merged(existing, userId, body, now)
  {
  }

  /** The body's `status` and `orderId` have no effect on the stored record. */
  lemma MergeIgnoresStatusAndOrderId(existing: Option<OrderRecord>, userId: string, body: PostBody,
                                     status: Option<string>, orderId: Option<string>, now: string)
    ensures Merged(existing, userId, body.(status := status, orderId := orderId), now)
         == Merged(existing, userId, body, now)
  {
  }

  /** No contact field of the record is the empty string: each is either
      undefined or non-empty. */
  predicate NoEmptyFields(rec: OrderRecord) {
    rec.name != Some("") && rec.email != Some("") && rec.phone != Some("") && rec.address != Some("")
  }

  /** The store never keeps "": an empty incoming field falls back on the
      stored one, so from an empty store every record has only undefined or
      non-empty fields. */
  lemma MergedNeverStoresEmpty(existing: Option<OrderRecord>, userId: string, body: PostBody, now: string)
    requires existing.Some? ==> NoEmptyFields(existing.value)
    ensures NoEmptyFields(Merged(existing, userId, body, now))
  {
  }

  class OrderStore {
    /** The entries of the JavaScript `Map`. */
    var records: map<string, OrderRecord>
    /** The `Map`'s keys in insertion order, which `values()` follows. */
    var keys: seq<string>

    ghost predicate Valid()
      reads this
    {
      NoDuplicates(keys)
      && (forall k :: k in records <==> k in keys)
      && (forall k :: k in records ==> records[k].userId == k)
    }

    constructor ()
      ensures Valid()
      ensures records == map[] && keys == []
    {
      records := map[];
      keys := [];
    }

    /** The stored records in the `Map`'s iteration order. */
    function Values(): (vs: seq<OrderRecord>)
      reads this
      requires Valid()
      ensures |vs| == |keys|
      ensures forall i :: 0 <= i < |keys| ==> vs[i] == records[keys[i]]
    {
      var ks, rs := keys, records;
      seq(|ks|, i requires 0 <= i < |ks| && ks[i] in rs => rs[ks[i]])
    }

    /** POST: `body` is None when the request body is null or is not JSON
        at all (`parseError` is then the message the handler reports). A
        body that parses to something other than an object reads every
        field as undefined, so it is `Some` with no `userId` and gets 400. */
    method Post(body: Option<PostBody>, now: string, parseError: string) returns (reply: OrdersReply)
      requires Valid()
      modifies this
      ensures Valid()
      ensures body.None? ==> reply == Failed(500, parseError)
      ensures body.Some? && !Truthy(body.value.userId) ==> reply == Failed(400, "userId is required")
      // a rejected request leaves the store as it was
      ensures reply.Failed? ==> records == old(records) && keys == old(keys)
      ensures body.Some? && Truthy(body.value.userId) ==>
                var u := body.value.userId.value;
                var existing := if u in old(records) then Some(old(records)[u]) else None;
                && records == old(records)[u := Merged(existing, u, body.value, now)]
                && keys == (if u in old(keys) then old(keys) else old(keys) + [u])
                && reply == Saved(records[u])
    {
      if body.None? {
        return Failed(500, parseError);
      }
      var b := body.value;
      if !Truthy(b.userId) {
        return Failed(400, "userId is required");
      }
      var u := b.userId.value;
      var existing := if u in records then Some(records[u]) else None;
      var updated := Merged(existing, u, b, now);
      if u !in keys {
        keys := keys + [u];
      }
      records := records[u := updated];
      reply := Saved(updated);
    }

    /** GET: the record of `userId`, 404 when there is none; without a
        (non-empty) `userId`, every record. */
    method Get(userId: Option<string>) returns (reply: OrdersReply)
      requires Valid()
      ensures !Truthy(userId) ==> reply == Listed(Values())
      ensures Truthy(userId) && userId.value in records ==> reply == Found(records[userId.value])
      ensures Truthy(userId) && userId.value !in records ==> reply == Failed(404, "Order not found")
    {
      if !Truthy(userId) {
        return Listed(Values());
      }
      if userId.value in records {
        reply := Found(records[userId.value]);
      } else {
        reply := Failed(404, "Order not found");
      }
    }

    /** DELETE: removes the record of `userId`, reporting success whether or
        not there was one. */
    method Delete(userId: Option<string>) returns (reply: OrdersReply)
      requires Valid()
      modifies this
      ensures Valid()
      ensures !Truthy(userId) ==> reply == Failed(400, "userId is required")
                                  && records == old(records) && keys == old(keys)
      ensures Truthy(userId) ==> reply == Deleted
                                 && records == old(records) - {userId.value}
                                 && keys == Without(old(keys), userId.value)
    {
      if !Truthy(userId) {
        return Failed(400, "userId is required");
      }
      var u := userId.value;
      WithoutMembers(keys, u);
      WithoutNoDuplicates(keys, u);
      records := records - {u};
      keys := Without(keys, u);
      reply := Deleted;
    }
  }

  /** A POST followed by a GET for the same user returns exactly the record
      the POST stored, and it is the merge of the previous record with the
      body. */
  method PostThenGet(store: OrderStore, body: PostBody, now: string) returns (saved: OrdersReply, fetched: OrdersReply)
    requires store.Valid()
    requires Truthy(body.userId)
    modifies store
    ensures store.Valid()
    ensures saved.Saved? && fetched == Found(saved.order)
    ensures var u := body.userId.value;
            saved.order == Merged(if u in old(store.records) then Some(old(store.records)[u]) else None, u, body, now)
  {
    saved := store.Post(Some(body), now, "");
    fetched := store.Get(body.userId);
  }

  /** DELETE is idempotent: a second DELETE of the same user also succeeds
      and leaves the store as the first one did. */
  method DeleteTwice(store: OrderStore, userId: string) returns (first: OrdersReply, second: OrdersReply)
    requires store.Valid()
    requires userId != ""
    modifies store
    ensures store.Valid()
    ensures first == Deleted && second == Deleted
    ensures userId !in store.records && store.records == old(store.records) - {userId}
  {
    first := store.Delete(Some(userId));
    ghost var afterFirst := store.records;
    second := store.Delete(Some(userId));
    assert store.records == afterFirst;
  }
}
