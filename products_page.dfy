/** The shop page: adding a product to the cart and switching to the
    order tab. */
module ProductsPage {
  import opened Common
  import OrderForm

  datatype CartItem = CartItem(id: string, quantity: int)

  datatype Tab = ProductsTab | OrderTab

  datatype PageState = PageState(activeTab: Tab, cart: seq<CartItem>)

  /** `prev.find(item => item.id === id)` finds something. */
  predicate InCart(cart: seq<CartItem>, id: string) {
    exists i :: 0 <= i < |cart| && cart[i].id == id
  }

  predicate UniqueIds(cart: seq<CartItem>) {
    forall i, j :: 0 <= i < j < |cart| ==> cart[i].id != cart[j].id
  }

  /** The sum of the quantities. */
  function TotalQuantity(cart: seq<CartItem>): int {
    if cart == [] then 0 else cart[0].quantity + TotalQuantity(cart[1..])
  }

  /** The number of cart lines carrying `id`. */
  function Occurrences(cart: seq<CartItem>, id: string): nat {
    if cart == [] then 0 else (if cart[0].id == id then 1 else 0) + Occurrences(cart[1..], id)
  }

  /** `prev.map(item => item.id === id ? { ...item, quantity: item.quantity + 1 } : item)` */
  function Incremented(cart: seq<CartItem>, id: string): seq<CartItem> {
    seq(|cart|, i requires 0 <= i < |cart| => if cart[i].id == id then cart[i].(quantity := cart[i].quantity + 1) else cart[i])
  }

  /** The cart after `handleAddToCart(id)`: a line already carrying `id`
      gains one unit; otherwise `{ id, quantity: 1 }` is appended. */
  function AddToCart(cart: seq<CartItem>, id: string): (r: seq<CartItem>)
    ensures InCart(cart, id) ==> |r| == |cart|
    ensures !InCart(cart, id) ==> |r| == |cart| + 1 && r[..|cart|] == cart && r[|cart|] == CartItem(id, 1)
    ensures InCart(cart, id) ==>
              forall i :: 0 <= i < |cart| ==>
                r[i].id == cart[i].id
                && r[i].quantity == (if cart[i].id == id then cart[i].quantity + 1 else cart[i].quantity)
    ensures InCart(r, id)
  {
    if InCart(cart, id) then Incremented(cart, id) else cart + [CartItem(id, 1)]
  }

  /** The whole handler: the cart update and the switch to the order tab. */
  function HandleAddToCart(st: PageState, id: string): (r: PageState)
    ensures r.activeTab == OrderTab
    ensures r.cart == AddToCart(st.cart, id)
  {
    PageState(OrderTab, AddToCart(st.cart, id))
  }

  lemma {:induction false} OccurrencesPositive(cart: seq<CartItem>, id: string)
    ensures InCart(cart, id) <==> Occurrences(cart, id) > 0
  {
    if cart != [] {
      OccurrencesPositive(cart[1..], id);
      if cart[0].id != id && InCart(cart, id) {
        var i :| 0 <= i < |cart| && cart[i].id == id;
        assert cart[1..][i - 1].id == id;
      }
      if InCart(cart[1..], id) {
        var i :| 0 <= i < |cart[1..]| && cart[1..][i].id == id;
        assert cart[i + 1].id == id;
      }
    }
  }

  lemma {:induction false} UniqueOccursOnce(cart: seq<CartItem>, id: string)
    requires UniqueIds(cart)
    ensures Occurrences(cart, id) <= 1
  {
    if cart != [] {
      UniqueOccursOnce(cart[1..], id);
      if cart[0].id == id {
        forall i | 0 <= i < |cart[1..]| ensures cart[1..][i].id != id {
          assert cart[0].id != cart[i + 1].id;
        }
        OccurrencesPositive(cart[1..], id);
      }
    }
  }

  lemma {:induction false} IncrementedTotal(cart: seq<CartItem>, id: string)
    ensures TotalQuantity(Incremented(cart, id)) == TotalQuantity(cart) + Occurrences(cart, id)
  {
    if cart != [] {
      assert Incremented(cart, id)[1..] == Incremented(cart[1..], id);
      IncrementedTotal(cart[1..], id);
    }
  }

  lemma {:induction false} TotalAppend(cart: seq<CartItem>, item: CartItem)
    ensures TotalQuantity(cart + [item]) == TotalQuantity(cart) + item.quantity
  {
    if cart != [] {
      assert (cart + [item])[1..] == cart[1..] + [item];
      TotalAppend(cart[1..], item);
    }
  }

  /** Adding to a cart whose ids are unique raises the total quantity by
      exactly one, and the number of lines by at most one. */
  lemma AddToCartTotal(cart: seq<CartItem>, id: string)
    requires UniqueIds(cart)
    ensures TotalQuantity(AddToCart(cart, id)) == TotalQuantity(cart) + 1
    ensures |cart| <= |AddToCart(cart, id)| <= |cart| + 1
  {
    if InCart(cart, id) {
      IncrementedTotal(cart, id);
      OccurrencesPositive(cart, id);
      UniqueOccursOnce(cart, id);
    } else {
      TotalAppend(cart, CartItem(id, 1));
    }
  }

  /** Adding keeps the ids unique. */
  lemma AddToCartKeepsIdsUnique(cart: seq<CartItem>, id: string)
    requires UniqueIds(cart)
    ensures UniqueIds(AddToCart(cart, id))
  {
  }

  // ---------------------------------------------------------------------
  // The order form on the order tab

  /** The user id the order tab's form receives as written: the element
      passes only the cart, so the form's `userId` is undefined whatever id
      the page itself was given. */
  function FormUserIdAsWritten(pageUserId: Option<string>): Option<string> {
    None
  }

  /** The user id the form should receive: the page's own. */
  function FormUserId(pageUserId: Option<string>): Option<string> {
    pageUserId
  }

  /** As written, the form on this page never loads a stored order and
      never saves one, even for a visitor who arrived with a user id: every
      fetch step leaves the form alone and a complete form is only marked
      submitted. */
  lemma FormNeverSyncsAsWritten(pageUserId: Option<string>, fetched: Option<OrderForm.FetchedOrder>,
                                snapshot: OrderForm.FormData, st: OrderForm.FormState, f: OrderForm.FormData)
    ensures OrderForm.ApplyFetchAsWritten(FormUserIdAsWritten(pageUserId), fetched, snapshot, st) == st
    ensures OrderForm.ApplyFetch(FormUserIdAsWritten(pageUserId), fetched, st) == st
    ensures OrderForm.IsFormComplete(f) ==>
              OrderForm.Submit(FormUserIdAsWritten(pageUserId), f) == OrderForm.MarkedSubmitted
  {
  }

  /** With the page's user id passed on, a visitor with an id gets the
      stored order merged into the form and a complete form is posted under
      that id. */
  lemma FormSyncsWithPageUser(pageUserId: Option<string>, o: OrderForm.FetchedOrder,
                              st: OrderForm.FormState, f: OrderForm.FormData)
    requires Truthy(pageUserId)
    ensures OrderForm.ApplyFetch(FormUserId(pageUserId), Some(o), st).data == OrderForm.MergeFetched(o, st.data)
    ensures OrderForm.IsFormComplete(f) ==>
              OrderForm.Submit(FormUserId(pageUserId), f).Sent?
              && OrderForm.Submit(FormUserId(pageUserId), f).body.userId == pageUserId
  {
  }
}
