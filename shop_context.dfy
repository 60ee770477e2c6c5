/** The cart state layer of the storefront client: an ordered sequence of
    line items keyed by (product id, size), the local add and update
    operations, the count and amount folds, and the token-gated round trip
    to the remote cart store (post a change, then fetch and replace). */
module CartState {

  datatype Option<T> = None | Some(value: T)

  /** A product as a cart line carries it: its id and, when the snapshot has
      one, its unit price. */
  datatype Product = Product(id: string, price: Option<int>)

  datatype LineItem = LineItem(product: Product, size: string, quantity: int)

  // ---------------------------------------------------------------------
  // Keys and well-formedness
  // ---------------------------------------------------------------------

  /** A line is identified by its product's id together with its size. */
  predicate HasKey(item: LineItem, productId: string, size: string) {
    item.product.id == productId && item.size == size
  }

  predicate Contains(cart: seq<LineItem>, productId: string, size: string) {
    exists i :: 0 <= i < |cart| && HasKey(cart[i], productId, size)
  }

  /** No two lines share (product id, size). */
  ghost predicate UniqueKeys(cart: seq<LineItem>) {
    forall i, j :: 0 <= i < j < |cart| ==> !HasKey(cart[j], cart[i].product.id, cart[i].size)
  }

  predicate AllPositive(cart: seq<LineItem>) {
    forall i :: 0 <= i < |cart| ==> cart[i].quantity > 0
  }

  /** The invariant every settled local operation keeps. */
  ghost predicate WellFormed(cart: seq<LineItem>) {
    UniqueKeys(cart) && AllPositive(cart)
  }

  /** Position of the first line with the key, or -1 when there is none. */
  function KeyIndex(cart: seq<LineItem>, productId: string, size: string): (i: int)
    ensures -1 <= i < |cart|
    ensures i == -1 <==> !Contains(cart, productId, size)
    ensures i >= 0 ==> HasKey(cart[i], productId, size)
    ensures i >= 0 ==> forall j :: 0 <= j < i ==> !HasKey(cart[j], productId, size)
  {
    if |cart| == 0 then -1
    else if HasKey(cart[0], productId, size) then 0
    else
      var k := KeyIndex(cart[1..], productId, size);
      if k == -1 then -1 else k + 1
  }

  /** The `findIndex` scan that addToCart runs over its copy of the cart. */
  method FindIndex(cart: seq<LineItem>, productId: string, size: string) returns (index: int)
    ensures index == KeyIndex(cart, productId, size)
  {
    index := 0;
    while index < |cart| && !HasKey(cart[index], productId, size)
      invariant 0 <= index <= |cart|
      invariant forall j :: 0 <= j < index ==> !HasKey(cart[j], productId, size)
    {
      index := index + 1;
    }
    if index == |cart| {
      index := -1;
    }
  }

  // ---------------------------------------------------------------------
  // Local add
  // ---------------------------------------------------------------------

  /** Reference definition of the local effect of adding one unit of
      (product, size): the first line with that key gains one unit, and
      when there is none a line of quantity 1 goes at the end. */
  function AddLine(cart: seq<LineItem>, product: Product, size: string): (r: seq<LineItem>)
    ensures |cart| <= |r| <= |cart| + 1
  {
    if cart == [] then [LineItem(product, size, 1)]
    else if HasKey(cart[0], product.id, size) then
      [cart[0].(quantity := cart[0].quantity + 1)] + cart[1..]
    else
      [cart[0]] + AddLine(cart[1..], product, size)
  }

  /** The reference definition agrees with findIndex-then-overwrite-or-push. */
  lemma {:induction false} AddLineAt(cart: seq<LineItem>, product: Product, size: string)
    ensures var i := KeyIndex(cart, product.id, size);
      i >= 0 ==> AddLine(cart, product, size) == cart[i := cart[i].(quantity := cart[i].quantity + 1)]
    ensures !Contains(cart, product.id, size) ==> AddLine(cart, product, size) == cart + [LineItem(product, size, 1)]
  {
    if cart != [] && !HasKey(cart[0], product.id, size) {
      AddLineAt(cart[1..], product, size);
      var i := KeyIndex(cart, product.id, size);
      if i >= 0 {
        assert cart[1..][i - 1 := cart[i].(quantity := cart[i].quantity + 1)] ==
               cart[i := cart[i].(quantity := cart[i].quantity + 1)][1..];
      } else {
        assert cart[1..] + [LineItem(product, size, 1)] == (cart + [LineItem(product, size, 1)])[1..];
      }
    }
  }

  /** On an existing key the matching line gains exactly one unit and the
      length stays; on a new key the line (product, size, 1) is appended.
      No other line changes. */
  lemma AddLineEffect(cart: seq<LineItem>, product: Product, size: string)
    ensures var r := AddLine(cart, product, size); var i := KeyIndex(cart, product.id, size);
      && (i >= 0 ==> |r| == |cart| && r[i].quantity == cart[i].quantity + 1
                     && r[i].product == cart[i].product && r[i].size == cart[i].size)
      && (i < 0 ==> |r| == |cart| + 1 && r[|cart|] == LineItem(product, size, 1))
      && (forall j :: 0 <= j < |cart| && j != i ==> r[j] == cart[j])
  {
    AddLineAt(cart, product, size);
  }

  /** Adding keeps the keys unique and the quantities positive. */
  lemma AddLineWellFormed(cart: seq<LineItem>, product: Product, size: string)
    requires WellFormed(cart)
    ensures WellFormed(AddLine(cart, product, size))
  {
    var i := KeyIndex(cart, product.id, size);
    if i >= 0 {
      var bumped := cart[i].(quantity := cart[i].quantity + 1);
      assert AddLine(cart, product, size) == cart[i := bumped] by { AddLineAt(cart, product, size); }
      ReplaceKeepsWellFormed(cart, i, bumped);
    } else {
      var line := LineItem(product, size, 1);
      assert AddLine(cart, product, size) == cart + [line] by { AddLineAt(cart, product, size); }
      AppendKeepsWellFormed(cart, line);
    }
  }

  lemma ReplaceKeepsWellFormed(cart: seq<LineItem>, i: nat, line: LineItem)
    requires WellFormed(cart) && i < |cart|
    requires line.product == cart[i].product && line.size == cart[i].size && line.quantity > 0
    ensures WellFormed(cart[i := line])
  {
    var r := cart[i := line];
    assert forall k :: 0 <= k < |r| ==> r[k].product == cart[k].product && r[k].size == cart[k].size;
  }

  lemma AppendKeepsWellFormed(cart: seq<LineItem>, line: LineItem)
    requires WellFormed(cart) && !Contains(cart, line.product.id, line.size) && line.quantity > 0
    ensures WellFormed(cart + [line])
  {
    var r := cart + [line];
    forall a, b | 0 <= a < b < |r|
      ensures !HasKey(r[b], r[a].product.id, r[a].size)
    {
      if b == |cart| {
        assert !HasKey(cart[a], line.product.id, line.size);
      }
    }
  }

  /** Adding the same (product, size) twice to a cart without that key
      gives one new line of quantity 2, not two lines. */
  lemma AddTwiceMerges(cart: seq<LineItem>, product: Product, size: string)
    requires !Contains(cart, product.id, size)
    ensures var r := AddLine(AddLine(cart, product, size), product, size);
      r == cart + [LineItem(product, size, 2)]
  {
    AddLineAt(cart, product, size);
    var once := cart + [LineItem(product, size, 1)];
    AddLineAt(once, product, size);
    assert KeyIndex(once, product.id, size) == |cart|;
  }

  // ---------------------------------------------------------------------
  // Local quantity update
  // ---------------------------------------------------------------------

  /** The `map` step of updateQuantity: each line with the key takes the new
      quantity, every other line is kept as it is. */
  function SetQuantity(cart: seq<LineItem>, productId: string, size: string, quantity: int): (r: seq<LineItem>)
    ensures |r| == |cart|
  {
    seq(|cart|, i requires 0 <= i < |cart| =>
      if HasKey(cart[i], productId, size) then cart[i].(quantity := quantity) else cart[i])
  }

  /** The `filter` step of updateQuantity: drop every line whose quantity is
      not positive, keeping the order of the rest. */
  function KeepPositive(cart: seq<LineItem>): (r: seq<LineItem>)
    ensures AllPositive(r)
    ensures |r| <= |cart|
    ensures forall x :: x in r ==> x in cart
  {
    if cart == [] then []
    else
      var rest := KeepPositive(cart[1..]);
      if cart[0].quantity > 0 then [cart[0]] + rest else rest
  }

  /** updateQuantity's local effect: map, then filter. */
  function UpdateLines(cart: seq<LineItem>, productId: string, size: string, quantity: int): (r: seq<LineItem>)
    ensures AllPositive(r) && |r| <= |cart|
  {
    KeepPositive(SetQuantity(cart, productId, size, quantity))
  }

  lemma {:induction false} KeepPositiveAppend(a: seq<LineItem>, b: seq<LineItem>)
    ensures KeepPositive(a + b) == KeepPositive(a) + KeepPositive(b)
  {
    if a != [] {
      assert (a + b)[1..] == a[1..] + b;
      KeepPositiveAppend(a[1..], b);
    } else {
      assert a + b == b;
    }
  }

  lemma {:induction false} KeepPositiveOfPositive(cart: seq<LineItem>)
    requires AllPositive(cart)
    ensures KeepPositive(cart) == cart
  {
    if cart != [] {
      KeepPositiveOfPositive(cart[1..]);
    }
  }

  /** Filtering never creates a duplicate key. */
  lemma {:induction false} KeepPositiveUnique(cart: seq<LineItem>)
    requires UniqueKeys(cart)
    ensures UniqueKeys(KeepPositive(cart))
  {
    if cart != [] {
      KeepPositiveUnique(cart[1..]);
      var rest := KeepPositive(cart[1..]);
      if cart[0].quantity > 0 {
        var r := [cart[0]] + rest;
        forall a, b | 0 <= a < b < |r|
          ensures !HasKey(r[b], r[a].product.id, r[a].size)
        {
          if a == 0 {
            assert r[b] in cart[1..];
            var k :| 0 <= k < |cart[1..]| && cart[1..][k] == r[b];
            assert cart[k + 1] == r[b];
          } else {
            assert r[a] == rest[a - 1] && r[b] == rest[b - 1];
          }
        }
      }
    }
  }

  /** The new quantity lands only on the matching line; with a non-positive
      quantity that line is deleted; every other line keeps its value and
      its relative order; an absent key inserts nothing. */
  lemma UpdateLinesEffect(cart: seq<LineItem>, productId: string, size: string, quantity: int)
    requires WellFormed(cart)
    ensures var r := UpdateLines(cart, productId, size, quantity); var i := KeyIndex(cart, productId, size);
      r == if i < 0 then cart
           else if quantity > 0 then cart[i := cart[i].(quantity := quantity)]
           else cart[..i] + cart[i + 1..]
  {
    SetQuantityUnique(cart, productId, size, quantity);
    var i := KeyIndex(cart, productId, size);
    if i < 0 {
      KeepPositiveOfPositive(cart);
    } else {
      KeepPositiveAround(cart, i, cart[i].(quantity := quantity));
    }
  }

  /** Filtering a positive cart with one line replaced keeps that line
      exactly when its quantity is positive. */
  lemma KeepPositiveAround(cart: seq<LineItem>, i: nat, line: LineItem)
    requires AllPositive(cart) && i < |cart|
    ensures KeepPositive(cart[i := line]) == if line.quantity > 0 then cart[i := line] else cart[..i] + cart[i + 1..]
  {
    var front, back := cart[..i], cart[i + 1..];
    assert cart[i := line] == (front + [line]) + back;
    KeepPositiveAppend(front + [line], back);
    KeepPositiveAppend(front, [line]);
    KeepPositiveOfPositive(front);
    KeepPositiveOfPositive(back);
    assert KeepPositive([line]) == if line.quantity > 0 then [line] else [] by {
      assert [line][1..] == [];
    }
  }

  /** With unique keys the `map` step touches at most the one matching line. */
  lemma SetQuantityUnique(cart: seq<LineItem>, productId: string, size: string, quantity: int)
    requires UniqueKeys(cart)
    ensures var i := KeyIndex(cart, productId, size);
      SetQuantity(cart, productId, size, quantity) ==
        if i < 0 then cart else cart[i := cart[i].(quantity := quantity)]
  {
    var i := KeyIndex(cart, productId, size);
    if i >= 0 {
      forall j | 0 <= j < |cart| && j != i
        ensures !HasKey(cart[j], productId, size)
      {
        if j > i {
          assert !HasKey(cart[j], cart[i].product.id, cart[i].size);
        }
      }
    }
  }

  /** After any update every line has a positive quantity and the keys that
      were unique stay unique. */
  lemma UpdateLinesWellFormed(cart: seq<LineItem>, productId: string, size: string, quantity: int)
    requires UniqueKeys(cart)
    ensures WellFormed(UpdateLines(cart, productId, size, quantity))
  {
    var mapped := SetQuantity(cart, productId, size, quantity);
    assert forall i :: 0 <= i < |cart| ==> mapped[i].product == cart[i].product && mapped[i].size == cart[i].size;
    KeepPositiveUnique(mapped);
  }

  /** Setting a non-positive quantity (the remove control passes 0) leaves no
      line with that key; a positive quantity is what every line with that
      key then holds. No line with the key appears that was not there. */
  lemma UpdateLinesKey(cart: seq<LineItem>, productId: string, size: string, quantity: int)
    ensures var r := UpdateLines(cart, productId, size, quantity);
      && (quantity <= 0 ==> !Contains(r, productId, size))
      && (forall x :: x in r && HasKey(x, productId, size) ==> x.quantity == quantity)
      && (!Contains(cart, productId, size) ==> r == KeepPositive(cart))
  {
    var mapped := SetQuantity(cart, productId, size, quantity);
    var r := KeepPositive(mapped);
    forall x | x in r && HasKey(x, productId, size)
      ensures x.quantity == quantity
    {
      var k :| 0 <= k < |mapped| && mapped[k] == x;
    }
    if quantity <= 0 {
      forall k | 0 <= k < |r|
        ensures !HasKey(r[k], productId, size)
      {
        assert r[k] in r;
      }
    }
    if !Contains(cart, productId, size) {
      assert mapped == cart;
    }
  }

  /** An update never brings in a key the cart did not have: every line of
      the result carries the key of some line of the input. */
  lemma UpdateLinesNoNewKeys(cart: seq<LineItem>, productId: string, size: string, quantity: int, otherId: string, otherSize: string)
    requires !Contains(cart, otherId, otherSize)
    ensures !Contains(UpdateLines(cart, productId, size, quantity), otherId, otherSize)
  {
    var mapped := SetQuantity(cart, productId, size, quantity);
    var r := KeepPositive(mapped);
    forall k | 0 <= k < |r|
      ensures !HasKey(r[k], otherId, otherSize)
    {
      assert r[k] in mapped;
      var j :| 0 <= j < |mapped| && mapped[j] == r[k];
      assert !HasKey(cart[j], otherId, otherSize);
    }
  }

  // ---------------------------------------------------------------------
  // Aggregates
  // ---------------------------------------------------------------------

  /** `price || 0`: an unresolved price counts as 0. */
  function UnitPrice(product: Product): int
  {
    match product.price
    case Some(p) => p
    case None => 0
  }

  /** What one line adds to the amount: nothing without a resolved price,
      and never a negative sum for a non-negative price. */
  function LineAmount(item: LineItem): (amount: int)
    ensures item.product.price.None? ==> amount == 0
    ensures UnitPrice(item.product) >= 0 && item.quantity > 0 ==> amount >= 0
  {
    UnitPrice(item.product) * item.quantity
  }

  /** getCartCount: the left fold adding up the quantities. */
  function CartCount(cart: seq<LineItem>): (n: int)
    ensures AllPositive(cart) ==> n >= |cart|
  {
    if cart == [] then 0
    else
      var init := cart[..|cart| - 1];
      assert AllPositive(cart) ==> AllPositive(init) by {
        assert forall i :: 0 <= i < |init| ==> init[i] == cart[i];
      }
      CartCount(init) + cart[|cart| - 1].quantity
  }

  ghost predicate PricesNonNegative(cart: seq<LineItem>) {
    forall i :: 0 <= i < |cart| ==> UnitPrice(cart[i].product) >= 0
  }

  /** getCartAmount: the left fold adding up price times quantity. */
  function CartAmount(cart: seq<LineItem>): (total: int)
    ensures AllPositive(cart) && PricesNonNegative(cart) ==> total >= 0
  {
    if cart == [] then 0
    else
      var init := cart[..|cart| - 1];
      var last := cart[|cart| - 1];
      assert AllPositive(cart) && PricesNonNegative(cart) ==> AllPositive(init) && PricesNonNegative(init) && LineAmount(last) >= 0 by {
        assert forall i :: 0 <= i < |init| ==> init[i] == cart[i];
      }
      CartAmount(init) + LineAmount(last)
  }

  lemma {:induction false} CountAppend(a: seq<LineItem>, b: seq<LineItem>)
    ensures CartCount(a + b) == CartCount(a) + CartCount(b)
  {
    if b == [] {
      assert a + b == a;
    } else {
      assert (a + b)[..|a + b| - 1] == a + b[..|b| - 1];
      CountAppend(a, b[..|b| - 1]);
    }
  }

  lemma {:induction false} AmountAppend(a: seq<LineItem>, b: seq<LineItem>)
    ensures CartAmount(a + b) == CartAmount(a) + CartAmount(b)
  {
    if b == [] {
      assert a + b == a;
    } else {
      assert (a + b)[..|a + b| - 1] == a + b[..|b| - 1];
      AmountAppend(a, b[..|b| - 1]);
    }
  }

  /** Worked instance: quantities 2 and 3 at prices 10 and 20 give a count
      of 5 and an amount of 2*10 + 3*20 = 80. */
  lemma CountAndAmountExample(p: Product, q: Product)
    requires p.price == Some(10) && q.price == Some(20)
    ensures var cart := [LineItem(p, "M", 2), LineItem(q, "L", 3)];
      CartCount(cart) == 5 && CartAmount(cart) == 80
  {
    var first := [LineItem(p, "M", 2)];
    var cart := first + [LineItem(q, "L", 3)];
    assert first[..0] == [];
    assert CartCount(first) == 2 && CartAmount(first) == 20;
    assert cart[..1] == first;
  }

  /** Count and amount split around one line. */
  lemma SplitAt(cart: seq<LineItem>, i: nat)
    requires i < |cart|
    ensures CartCount(cart) == CartCount(cart[..i]) + cart[i].quantity + CartCount(cart[i + 1..])
    ensures CartAmount(cart) == CartAmount(cart[..i]) + LineAmount(cart[i]) + CartAmount(cart[i + 1..])
  {
    var front, single, back := cart[..i], [cart[i]], cart[i + 1..];
    assert cart == (front + single) + back;
    SingleLine(cart[i]);
    CountAppend(front + single, back);
    CountAppend(front, single);
    AmountAppend(front + single, back);
    AmountAppend(front, single);
  }

  lemma SingleLine(item: LineItem)
    ensures CartCount([item]) == item.quantity && CartAmount([item]) == LineAmount(item)
  {
    assert [item][..0] == [];
  }

  /** Replacing one line moves count and amount by that line's change. */
  lemma ReplaceLine(cart: seq<LineItem>, i: nat, line: LineItem)
    requires i < |cart|
    ensures CartCount(cart[i := line]) == CartCount(cart) - cart[i].quantity + line.quantity
    ensures CartAmount(cart[i := line]) == CartAmount(cart) - LineAmount(cart[i]) + LineAmount(line)
  {
    var r := cart[i := line];
    SplitAt(cart, i);
    SplitAt(r, i);
    assert r[..i] == cart[..i] && r[i + 1..] == cart[i + 1..];
  }

  lemma OneMoreUnit(item: LineItem)
    ensures LineAmount(item.(quantity := item.quantity + 1)) == LineAmount(item) + UnitPrice(item.product)
  {
    var p, q := UnitPrice(item.product), item.quantity;
    assert p * (q + 1) == p * q + p;
  }

  /** Each add raises the count by exactly one. */
  lemma AddLineCount(cart: seq<LineItem>, product: Product, size: string)
    ensures CartCount(AddLine(cart, product, size)) == CartCount(cart) + 1
  {
    var i := KeyIndex(cart, product.id, size);
    var line := LineItem(product, size, 1);
    if i >= 0 {
      var bumped := cart[i].(quantity := cart[i].quantity + 1);
      assert AddLine(cart, product, size) == cart[i := bumped] by { AddLineAt(cart, product, size); }
      ReplaceLine(cart, i, bumped);
    } else {
      assert AddLine(cart, product, size) == cart + [line] by { AddLineAt(cart, product, size); }
      CountAppend(cart, [line]);
      SingleLine(line);
    }
  }

  lemma AmountCons(item: LineItem, rest: seq<LineItem>)
    ensures CartAmount([item] + rest) == LineAmount(item) + CartAmount(rest)
  {
    AmountAppend([item], rest);
    SingleLine(item);
  }

  /** Each add raises the amount by the unit price of the line that gained
      the unit: the existing line's snapshot, or the added product's. */
  lemma {:induction false} AddLineAmount(cart: seq<LineItem>, product: Product, size: string)
    ensures var i := KeyIndex(cart, product.id, size);
      CartAmount(AddLine(cart, product, size)) ==
        CartAmount(cart) + (if i >= 0 then UnitPrice(cart[i].product) else UnitPrice(product))
  {
    if cart == [] {
      SingleLine(LineItem(product, size, 1));
    } else if HasKey(cart[0], product.id, size) {
      BumpHeadAmount(cart);
    } else {
      var rest := AddLine(cart[1..], product, size);
      assert AddLine(cart, product, size) == [cart[0]] + rest;
      AddLineAmount(cart[1..], product, size);
      AmountCons(cart[0], rest);
      AmountCons(cart[0], cart[1..]);
      assert cart == [cart[0]] + cart[1..];
      var k := KeyIndex(cart[1..], product.id, size);
      assert k >= 0 ==> cart[1..][k] == cart[k + 1];
    }
  }

  /** One more unit on the first line adds that line's unit price. */
  lemma BumpHeadAmount(cart: seq<LineItem>)
    requires cart != []
    ensures CartAmount([cart[0].(quantity := cart[0].quantity + 1)] + cart[1..]) == CartAmount(cart) + UnitPrice(cart[0].product)
  {
    AmountCons(cart[0].(quantity := cart[0].quantity + 1), cart[1..]);
    AmountCons(cart[0], cart[1..]);
    assert cart == [cart[0]] + cart[1..];
    OneMoreUnit(cart[0]);
  }

  /** On a well-formed cart an update moves the count by the change of the
      matching line's quantity (to zero when the line is deleted). */
  lemma UpdateLinesCount(cart: seq<LineItem>, productId: string, size: string, quantity: int)
    requires WellFormed(cart)
    ensures var r := UpdateLines(cart, productId, size, quantity); var i := KeyIndex(cart, productId, size);
      CartCount(r) == if i < 0 then CartCount(cart)
                      else CartCount(cart) - cart[i].quantity + (if quantity > 0 then quantity else 0)
  {
    UpdateLinesEffect(cart, productId, size, quantity);
    var r := UpdateLines(cart, productId, size, quantity);
    var i := KeyIndex(cart, productId, size);
    if i >= 0 {
      SplitAt(cart, i);
      if quantity > 0 {
        ReplaceLine(cart, i, cart[i].(quantity := quantity));
      } else {
        CountAppend(cart[..i], cart[i + 1..]);
      }
    }
  }

  // ---------------------------------------------------------------------
  // Sessions of local operations
  // ---------------------------------------------------------------------

  /** A call of the mutation API, as client code issues it. The remove
      control is Update(id, size, 0). */
  datatype CartOp =
    | Add(product: Product, size: string)
    | Update(productId: string, size: string, quantity: int)

  /** Local (optimistic) effect of one call; an add without a size is
      rejected before any change. */
  function LocalEffect(cart: seq<LineItem>, op: CartOp): seq<LineItem> {
    match op
    case Add(product, size) => if size == "" then cart else AddLine(cart, product, size)
    case Update(productId, size, quantity) => UpdateLines(cart, productId, size, quantity)
  }

  function RunLocal(cart: seq<LineItem>, ops: seq<CartOp>): seq<LineItem>
    decreases ops
  {
    if ops == [] then cart else RunLocal(LocalEffect(cart, ops[0]), ops[1..])
  }

  /** With no session every call is local only, and any sequence of them
      keeps the keys unique and the quantities positive. */
  lemma {:induction false} AnonymousSessionWellFormed(cart: seq<LineItem>, ops: seq<CartOp>)
    requires WellFormed(cart)
    ensures WellFormed(RunLocal(cart, ops))
    decreases ops
  {
    if ops != [] {
      match ops[0] {
        case Add(product, size) =>
          if size != "" {
            AddLineWellFormed(cart, product, size);
          }
        case Update(productId, size, quantity) =>
          UpdateLinesWellFormed(cart, productId, size, quantity);
      }
      AnonymousSessionWellFormed(LocalEffect(cart, ops[0]), ops[1..]);
    }
  }

  // ---------------------------------------------------------------------
  // The context object and its remote round trips
  // ---------------------------------------------------------------------

  /** What a fetch of the remote cart gives: the cart array of a successful
      response, or failure (an unsuccessful response or a thrown error). */
  datatype FetchResult = Fetched(cart: seq<LineItem>) | FetchFailed

  /** A remote call the context issues, with its payload. */
  datatype Request =
    | AddItem(itemId: string, size: string, quantity: int)
    | UpdateItem(itemId: string, size: string, quantity: int)
    | GetCart(authToken: string)

  /** An error notice shown to the user. */
  datatype Notice = SelectSize | AddFailed | UpdateFailed | FetchCartFailed

  /** The cart after a post: on success it is followed by a fetch, whose
      cart replaces the local one when it arrives. Whatever the outcome, the
      cart stays well formed when the local cart and any fetched cart are. */
  function AfterSync(local: seq<LineItem>, postOk: bool, fetch: FetchResult): (r: seq<LineItem>)
    ensures WellFormed(local) && (fetch.Fetched? ==> WellFormed(fetch.cart)) ==> WellFormed(r)
    ensures r == local || (fetch.Fetched? && r == fetch.cart)
  {
    if postOk && fetch.Fetched? then fetch.cart else local
  }

  /** The notices a post and its follow-up fetch show. */
  function SyncNotices(postFailed: Notice, postOk: bool, fetch: FetchResult): (r: seq<Notice>)
    ensures |r| <= 1
    ensures r == [] <==> postOk && fetch.Fetched?
    ensures !postOk ==> r == [postFailed]
    ensures postOk && fetch.FetchFailed? ==> r == [FetchCartFailed]
  {
    if !postOk then [postFailed] else if fetch.FetchFailed? then [FetchCartFailed] else []
  }

  class ShopContext {
    var cartItems: seq<LineItem>
    /** The session credential; "" means anonymous. */
    var token: string
    /** Every remote call issued, in order. */
    var requests: seq<Request>
    /** Every error notice shown, in order. */
    var notices: seq<Notice>

    constructor ()
      ensures cartItems == [] && token == "" && requests == [] && notices == []
    {
      cartItems := [];
      token := "";
      requests := [];
      notices := [];
    }

    /** setToken, as login and logout use it. */
    method SetToken(t: string)
      modifies this
      ensures token == t
      ensures cartItems == old(cartItems) && requests == old(requests) && notices == old(notices)
    {
      token := t;
    }

    /** getUserCart: fetch and replace on success, leave the cart alone and
        show a notice on failure. */
    method GetUserCart(authToken: string, fetch: FetchResult)
      modifies this
      ensures requests == old(requests) + [GetCart(authToken)]
      ensures cartItems == if fetch.Fetched? then fetch.cart else old(cartItems)
      ensures notices == old(notices) + (if fetch.Fetched? then [] else [FetchCartFailed])
      ensures token == old(token)
    {
      requests := requests + [GetCart(authToken)];
      match fetch
      case Fetched(fetchedCart) =>
        cartItems := fetchedCart;
      case FetchFailed =>
        notices := notices + [FetchCartFailed];
    }

    /** addToCart: reject a missing size; otherwise bump or append locally,
        and with a session post the add and refresh from the remote cart. */
    method AddToCart(product: Product, size: string, postOk: bool, fetch: FetchResult)
      modifies this
      ensures token == old(token)
      ensures size == "" ==>
        cartItems == old(cartItems) && requests == old(requests) && notices == old(notices) + [SelectSize]
      ensures size != "" && token == "" ==>
        cartItems == AddLine(old(cartItems), product, size) && requests == old(requests) && notices == old(notices)
      ensures size != "" && token != "" ==>
        && requests == old(requests) + [AddItem(product.id, size, 1)] + (if postOk then [GetCart(token)] else [])
        && cartItems == AfterSync(AddLine(old(cartItems), product, size), postOk, fetch)
        && notices == old(notices) + SyncNotices(AddFailed, postOk, fetch)
      ensures WellFormed(old(cartItems)) && (fetch.Fetched? ==> WellFormed(fetch.cart)) ==> WellFormed(cartItems)
    {
      if size == "" {
        notices := notices + [SelectSize];
        return;
      }
      var updatedCart := cartItems;
      var index := FindIndex(updatedCart, product.id, size);
      if index != -1 {
        updatedCart := updatedCart[index := updatedCart[index].(quantity := updatedCart[index].quantity + 1)];
      } else {
        updatedCart := updatedCart + [LineItem(product, size, 1)];
      }
      AddLineAt(cartItems, product, size);
      if WellFormed(cartItems) {
        AddLineWellFormed(cartItems, product, size);
      }
      cartItems := updatedCart;
      if token != "" {
        requests := requests + [AddItem(product.id, size, 1)];
        if postOk {
          GetUserCart(token, fetch);
        } else {
          notices := notices + [AddFailed];
        }
      }
    }

    /** updateQuantity: rewrite the matching line and drop non-positive
        lines locally, and with a session post the update (0 included) and
        refresh from the remote cart. */
    method UpdateQuantity(productId: string, size: string, quantity: int, postOk: bool, fetch: FetchResult)
      modifies this
      ensures token == old(token)
      ensures token == "" ==>
        cartItems == UpdateLines(old(cartItems), productId, size, quantity) && requests == old(requests) && notices == old(notices)
      ensures token != "" ==>
        && requests == old(requests) + [UpdateItem(productId, size, quantity)] + (if postOk then [GetCart(token)] else [])
        && cartItems == AfterSync(UpdateLines(old(cartItems), productId, size, quantity), postOk, fetch)
        && notices == old(notices) + SyncNotices(UpdateFailed, postOk, fetch)
      ensures UniqueKeys(old(cartItems)) && (fetch.Fetched? ==> WellFormed(fetch.cart)) ==> WellFormed(cartItems)
    {
      if UniqueKeys(cartItems) {
        UpdateLinesWellFormed(cartItems, productId, size, quantity);
      }
      cartItems := UpdateLines(cartItems, productId, size, quantity);
      if token != "" {
        requests := requests + [UpdateItem(productId, size, quantity)];
        if postOk {
          GetUserCart(token, fetch);
        } else {
          notices := notices + [UpdateFailed];
        }
      }
    }

    /** Checkout and payment verification clear the cart after a placed order. */
    method ClearCart()
      modifies this
      ensures cartItems == []
      ensures token == old(token) && requests == old(requests) && notices == old(notices)
    {
      cartItems := [];
    }
  }

  /** Anonymous session: adding (p, "L") to an empty cart gives one line and
      issues no remote call; after login, a successful add posts, fetches,
      and the fetched cart replaces the local one. */
  method AnonymousThenLoginScenario(p: Product, q: Product, remote: seq<LineItem>)
  {
    var shop := new ShopContext();
    shop.AddToCart(p, "L", true, Fetched(remote));
    assert shop.cartItems == [LineItem(p, "L", 1)] && shop.requests == [];
    shop.SetToken("session");
    shop.AddToCart(q, "M", true, Fetched(remote));
    assert shop.cartItems == remote;
    assert shop.requests == [AddItem(q.id, "M", 1), GetCart("session")];
  }
}
