/** Model of the cart panel: the derived total, the per-row view and the
    removal protocol with the cart service and the owner component.
    Amounts are whole dirhams, so prices and quantities are integers. */
module CartSidebar {

  /** One line of the cart as the owner supplies it. `id` keys the row on
      screen; `productId` is what a removal request names. */
  datatype CartItem = CartItem(id: int, productId: int, name: string, price: int, quantity: int)

  /** A line's amount: unit price times quantity. */
  function Subtotal(item: CartItem): int
  {
    item.price * item.quantity
  }

  /** Reference definition of the cart total: the sum of every line's amount. */
  function Sum(items: seq<CartItem>): int
    decreases |items|
  {
    if items == [] then 0 else Subtotal(items[0]) + Sum(items[1..])
  }

  /** The callback of the total's `reduce`, applied left to right from `acc`. */
  function Reduce(acc: int, items: seq<CartItem>): int
    decreases |items|
  {
    if items == [] then acc else Reduce(acc + Subtotal(items[0]), items[1..])
  }

  /** The left fold adds the sum of the items to its starting value. */
  lemma {:induction false} ReduceIsSum(acc: int, items: seq<CartItem>)
    ensures Reduce(acc, items) == acc + Sum(items)
    decreases |items|
  {
    if items != [] {
      ReduceIsSum(acc + Subtotal(items[0]), items[1..]);
    }
  }

  /** The total shown under the rows: the fold started from 0. */
  function Total(items: seq<CartItem>): (total: int)
    ensures total == Sum(items)
    ensures items == [] ==> total == 0
  {
    ReduceIsSum(0, items);
    Reduce(0, items)
  }

  lemma {:induction false} SumAppend(a: seq<CartItem>, b: seq<CartItem>)
    ensures Sum(a + b) == Sum(a) + Sum(b)
    decreases |a|
  {
    if a == [] {
      assert a + b == b;
    } else {
      assert (a + b)[1..] == a[1..] + b;
      SumAppend(a[1..], b);
    }
  }

  /** The total of a concatenation is the sum of the totals. */
  lemma TotalAppend(a: seq<CartItem>, b: seq<CartItem>)
    ensures Total(a + b) == Total(a) + Total(b)
  {
    SumAppend(a, b);
  }

  /** However the list is split in two, the parts' totals add up to the total. */
  lemma TotalSplit(items: seq<CartItem>, k: nat)
    requires k <= |items|
    ensures Total(items) == Total(items[..k]) + Total(items[k..])
  {
    assert items == items[..k] + items[k..];
    SumAppend(items[..k], items[k..]);
  }

  /** The total does not depend on the order of the lines. */
  lemma {:induction false} TotalPermutation(a: seq<CartItem>, b: seq<CartItem>)
    requires multiset(a) == multiset(b)
    ensures Total(a) == Total(b)
    decreases |a|
  {
    if a == [] {
      assert |b| == |multiset(b)| == 0;
    } else {
      var x := a[0];
      assert x in multiset(b);
      var j :| 0 <= j < |b| && b[j] == x;
      var rest := b[..j] + b[j + 1..];
      TotalWithout(b, j);
      MultisetWithout(b, j);
      assert a == [x] + a[1..];
      assert multiset(a) == multiset{x} + multiset(a[1..]);
      assert multiset(a[1..]) == multiset(a) - multiset{x};
      assert multiset(rest) == multiset(b) - multiset{x};
      TotalPermutation(a[1..], rest);
    }
  }

  /** With no negative price or quantity the total is not negative; the
      panel itself does not check this of its input. */
  lemma {:induction false} TotalNonNegative(items: seq<CartItem>)
    requires forall i :: 0 <= i < |items| ==> items[i].price >= 0 && items[i].quantity >= 0
    ensures Total(items) >= 0
    decreases |items|
  {
    if items != [] {
      TotalNonNegative(items[1..]);
    }
  }

  /** A line's amount counts once in the total: dropping a line lowers the
      total by exactly that line's amount. */
  lemma TotalWithout(items: seq<CartItem>, k: nat)
    requires k < |items|
    ensures Total(items[..k] + items[k + 1..]) == Total(items) - Subtotal(items[k])
  {
    assert items == items[..k] + ([items[k]] + items[k + 1..]);
    SumAppend(items[..k], [items[k]] + items[k + 1..]);
    assert ([items[k]] + items[k + 1..])[1..] == items[k + 1..];
    SumAppend(items[..k], items[k + 1..]);
  }

  lemma MultisetWithout(items: seq<CartItem>, k: nat)
    requires k < |items|
    ensures multiset(items) == multiset(items[..k] + items[k + 1..]) + multiset{items[k]}
  {
    assert items == items[..k] + [items[k]] + items[k + 1..];
  }

  /** Two lines, 250 x 1 and 75 x 3, make 475. */
  lemma TotalExample()
    ensures Total([CartItem(1, 10, "Rug A", 250, 1), CartItem(2, 20, "Rug B", 75, 3)]) == 475
  {
    var items := [CartItem(1, 10, "Rug A", 250, 1), CartItem(2, 20, "Rug B", 75, 3)];
    assert items[1..][1..] == [];
  }

  // ---------------------------------------------------------------- view

  /** What one row shows: the key React uses, the name, the quantity, the
      amount, and the product that its remove button asks to remove. */
  datatype Row = Row(key: int, name: string, quantity: int, amount: int, removeTarget: int)

  /** The body of the panel: the empty-cart message alone, or the rows
      followed by the total line. */
  datatype Content = EmptyMessage | Listing(rows: seq<Row>, total: int)

  datatype CartView = CartView(transform: string, content: Content)

  function RowOf(item: CartItem): Row
  {
    Row(item.id, item.name, item.quantity, Subtotal(item), item.productId)
  }

  /** `products.map(...)`: one row per line, in list order. */
  function Rows(items: seq<CartItem>): (rows: seq<Row>)
    ensures |rows| == |items|
    ensures forall i :: 0 <= i < |items| ==>
      rows[i].amount == items[i].price * items[i].quantity &&
      rows[i].key == items[i].id && rows[i].name == items[i].name &&
      rows[i].quantity == items[i].quantity && rows[i].removeTarget == items[i].productId
    decreases |items|
  {
    if items == [] then [] else [RowOf(items[0])] + Rows(items[1..])
  }

  /** The sum of the amounts shown on the rows. */
  function RowsSum(rows: seq<Row>): int
    decreases |rows|
  {
    if rows == [] then 0 else rows[0].amount + RowsSum(rows[1..])
  }

  /** The total line agrees with the amounts printed on the rows above it. */
  lemma {:induction false} RowsSumIsTotal(items: seq<CartItem>)
    ensures RowsSum(Rows(items)) == Total(items)
    decreases |items|
  {
    if items != [] {
      assert Rows(items)[1..] == Rows(items[1..]);
      RowsSumIsTotal(items[1..]);
    }
  }

  /** The panel's slide position: in view exactly when it is open. */
  function Transform(isOpen: bool): (t: string)
    ensures t == "translate-x-0" <==> isOpen
  {
    if isOpen then "translate-x-0" else "translate-x-full"
  }

  /** The whole panel as a function of its props. */
  function Render(items: seq<CartItem>, isOpen: bool): (v: CartView)
    ensures v.transform == "translate-x-0" <==> isOpen
    ensures v.content.EmptyMessage? <==> items == []
    ensures v.content.Listing? ==>
      |v.content.rows| == |items| && v.content.total == Sum(items) &&
      RowsSum(v.content.rows) == v.content.total
    ensures v.content.Listing? ==> forall i :: 0 <= i < |items| ==>
      v.content.rows[i].key == items[i].id && v.content.rows[i].name == items[i].name &&
      v.content.rows[i].quantity == items[i].quantity &&
      v.content.rows[i].amount == Subtotal(items[i]) &&
      v.content.rows[i].removeTarget == items[i].productId
  {
    if items == [] then
      CartView(Transform(isOpen), EmptyMessage)
    else
      RowsSumIsTotal(items);
      CartView(Transform(isOpen), Listing(Rows(items), Total(items)))
  }

  // ------------------------------------------------------------- removal

  /** What the cart service made of a request: accepted, or any failure
      (transport error or non-success status). */
  datatype Outcome = Success | Failure

  /** The body of a POST to the removal endpoint. */
  datatype RemoveRequest = RemoveRequest(productId: int)

  /** One rendering of the panel. Its props are constants: nothing the
      panel does can change the list it was given. `requests` records
      what was sent to the cart service; the counters record calls of the
      owner's callbacks. */
  class CartPanel {
    const products: seq<CartItem>
    const isOpen: bool
    var requests: seq<RemoveRequest>
    var removedCalls: nat
    var closeCalls: nat

    constructor (products: seq<CartItem>, isOpen: bool)
      ensures this.products == products && this.isOpen == isOpen
      ensures requests == [] && removedCalls == 0 && closeCalls == 0
    {
      this.products := products;
      this.isOpen := isOpen;
      requests := [];
      removedCalls := 0;
      closeCalls := 0;
    }

    /** Sends one request naming `productId`; on success calls
        `onProductRemoved` once, on failure swallows the error. */
    method RemoveFromCart(productId: int, outcome: Outcome)
      modifies this`requests, this`removedCalls
      ensures requests == old(requests) + [RemoveRequest(productId)]
      ensures removedCalls == old(removedCalls) + (if outcome == Success then 1 else 0)
    {
      requests := requests + [RemoveRequest(productId)];
      match outcome
      case Success =>
        removedCalls := removedCalls + 1;
      case Failure =>
    }

    /** The remove button of row `row`: the request names that row's
        `productId`, which is what the rendered row carries. */
    method ClickRemove(row: nat, outcome: Outcome)
      requires row < |products|
      modifies this`requests, this`removedCalls
      ensures requests == old(requests) + [RemoveRequest(products[row].productId)]
      ensures Render(products, isOpen).content.Listing?
      ensures requests[|requests| - 1].productId == Render(products, isOpen).content.rows[row].removeTarget
      ensures removedCalls == old(removedCalls) + (if outcome == Success then 1 else 0)
    {
      RemoveFromCart(products[row].productId, outcome);
    }

    /** The close button only calls `onClose`. */
    method Close()
      modifies this`closeCalls
      ensures closeCalls == old(closeCalls) + 1
    {
      closeCalls := closeCalls + 1;
    }
  }

  /** A cart holding one rug (row id 1, product 7): removing it sends one
      request for product 7, and calls back exactly when it succeeds. */
  method RemoveOnlyLine(outcome: Outcome) returns (sent: seq<RemoveRequest>, removed: nat, shown: CartView)
    ensures sent == [RemoveRequest(7)]
    ensures removed == (if outcome == Success then 1 else 0)
    ensures shown == Render([CartItem(1, 7, "Rug A", 100, 2)], true)
    ensures shown.content == Listing([Row(1, "Rug A", 2, 200, 7)], 200)
  {
    var panel := new CartPanel([CartItem(1, 7, "Rug A", 100, 2)], true);
    panel.ClickRemove(0, outcome);
    sent, removed := panel.requests, panel.removedCalls;
    shown := Render(panel.products, panel.isOpen);
    assert Rows(panel.products) == [Row(1, "Rug A", 2, 200, 7)];
  }

  /** Two removals in a row are independent: both requests go out, and a
      failure of one does not suppress the other's callback. */
  method RemoveTwoLines(first: Outcome, second: Outcome) returns (sent: seq<RemoveRequest>, removed: nat)
    ensures sent == [RemoveRequest(7), RemoveRequest(9)]
    ensures removed == (if first == Success then 1 else 0) + (if second == Success then 1 else 0)
  {
    var panel := new CartPanel([CartItem(1, 7, "Rug A", 100, 2), CartItem(2, 9, "Rug B", 50, 1)], true);
    panel.ClickRemove(0, first);
    panel.ClickRemove(1, second);
    sent, removed := panel.requests, panel.removedCalls;
  }
}
