/** The quantity field of one cart row: a draft quantity clamped on every
    edit, one pending debounce timer that every change of the draft cancels
    and re-arms, a commit of the draft (or 1) to updateQuantity when the
    timer fires, a resync of the draft when the committed quantity changes
    from outside, and the row's remove control. Time is a sequence of
    events: a timer's expiry is the event Fire(id) of that timer. */
module QuantityInput {
  import CartState
  import opened Numbers

  const MinQty: int := 1
  const MaxQty: int := 50

  /** The debounce delay in milliseconds (the comment above the effect says
      one second, the code waits five). Only the order of events is
      modelled, so no member uses it. */
  const DebounceDelayMs: int := 5000

  /** `Number(value)` of the field's text: an integer (the empty field
      gives 0), or NaN for text that is not a number. */
  datatype JsNumber = Num(n: int) | NaN


  /** `x || 1` on a number: 0 (and NaN) are falsy and give 1. */
  function OrOne(x: int): (r: int)
    ensures r != 0
    ensures x != 0 ==> r == x
  {
    if x == 0 then 1 else x
  }

  /** The onChange handler's `Math.max(1, Math.min(50, Number(value))) || 1`:
      every stored draft lies in [1, 50]; in-range values are kept, larger
      ones saturate at 50, and smaller, empty or non-numeric input gives 1. */
  function ClampDraft(v: JsNumber): (q: int)
    ensures MinQty <= q <= MaxQty
    ensures v.Num? && MinQty <= v.n <= MaxQty ==> q == v.n
    ensures v.Num? && v.n > MaxQty ==> q == MaxQty
    ensures v.NaN? || v.n < MinQty ==> q == MinQty
  {
    match v
    case NaN => 1
    case Num(n) => OrOne(Max(MinQty, Min(MaxQty, n)))
  }

  /** A call `updateQuantity(productId, size, quantity)` made by the row. */
  datatype Commit = Commit(productId: string, size: string, quantity: int)

  /** The debounce timer: none pending, or the one with this id. */
  datatype Timer = Idle | Pending(id: nat)

  class CartItemInput {
    const productId: string
    const size: string
    /** The committed quantity the row was last rendered with. */
    var quantity: int
    /** The draft shown in the field. */
    var localQty: int
    var timer: Timer
    /** Id the next armed timer gets; ids of cancelled timers are never reused. */
    var nextTimer: nat
    var mounted: bool
    /** Every updateQuantity call the row has made, in order. */
    var commits: seq<Commit>

    ghost predicate Valid()
      reads this
    {
      && (timer.Pending? ==> timer.id < nextTimer)
      && (!mounted ==> timer == Idle)
      && (localQty == quantity || MinQty <= localQty <= MaxQty)
    }

    /** Mounting: the draft starts at the committed quantity and the
        debounce effect runs once, so a timer is pending even before any
        edit. */
    constructor (productId: string, size: string, quantity: int)
      ensures Valid()
      ensures this.productId == productId && this.size == size
      ensures this.quantity == quantity && localQty == quantity
      ensures mounted && timer == Pending(0) && nextTimer == 1 && commits == []
    {
      this.productId := productId;
      this.size := size;
      this.quantity := quantity;
      localQty := quantity;
      timer := Pending(0);
      nextTimer := 1;
      mounted := true;
      commits := [];
    }

    /** Cancel the pending timer (if any) and arm a fresh one. */
    method Rearm()
      requires Valid()
      modifies this`timer, this`nextTimer
      ensures timer == Pending(old(nextTimer)) && nextTimer == old(nextTimer) + 1
    {
      timer := Pending(nextTimer);
      nextTimer := nextTimer + 1;
    }

    /** onChange: store the clamped draft. A new draft re-renders the field
        and restarts the debounce timer; storing the value the draft already
        has changes nothing, not even the timer. */
    method Edit(v: JsNumber)
      requires Valid() && mounted
      modifies this
      ensures Valid() && mounted
      ensures localQty == ClampDraft(v)
      ensures ClampDraft(v) != old(localQty) ==> timer == Pending(old(nextTimer)) && nextTimer == old(nextTimer) + 1
      ensures ClampDraft(v) == old(localQty) ==> timer == old(timer) && nextTimer == old(nextTimer)
      ensures quantity == old(quantity) && commits == old(commits)
    {
      var next := ClampDraft(v);
      if next != localQty {
        localQty := next;
        Rearm();
      }
    }

    /** The committed quantity changes from outside (a refresh, or the row's
        own commit coming back): the draft is reset to it, and when that
        changes the draft the timer restarts, so the new value is itself
        committed after the delay. An unchanged quantity does nothing. */
    method External(q: int)
      requires Valid() && mounted
      modifies this
      ensures Valid() && mounted
      ensures quantity == q && commits == old(commits)
      ensures q == old(quantity) ==> localQty == old(localQty) && timer == old(timer) && nextTimer == old(nextTimer)
      ensures q != old(quantity) ==> localQty == q
      ensures q != old(quantity) && q != old(localQty) ==> timer == Pending(old(nextTimer)) && nextTimer == old(nextTimer) + 1
      ensures q != old(quantity) && q == old(localQty) ==> timer == old(timer) && nextTimer == old(nextTimer)
    {
      if q != quantity {
        quantity := q;
        if q != localQty {
          localQty := q;
          Rearm();
        }
      }
    }

    /** Timer `id` expires. Only the pending timer still exists; it commits
        `localQty || 1`: never 0, and either a clamped draft in [1, 50] or
        the committed quantity itself (1 when that is 0). A cancelled timer
        does nothing. */
    method Fire(id: nat)
      requires Valid()
      modifies this
      ensures Valid()
      ensures old(timer) == Pending(id) ==>
        && commits == old(commits) + [Commit(productId, size, OrOne(localQty))]
        && timer == Idle
      ensures old(timer) != Pending(id) ==> commits == old(commits) && timer == old(timer)
      ensures localQty == old(localQty) && quantity == old(quantity) && mounted == old(mounted) && nextTimer == old(nextTimer)
      ensures forall c :: c in commits[|old(commits)|..] ==>
        c.quantity != 0 && (MinQty <= c.quantity <= MaxQty || c.quantity == OrOne(quantity))
    {
      if timer == Pending(id) {
        commits := commits + [Commit(productId, size, OrOne(localQty))];
        timer := Idle;
      }
    }

    /** Teardown: the effect's cleanup cancels the pending timer, so nothing
        is committed after unmount. */
    method Unmount()
      requires Valid()
      modifies this
      ensures Valid() && !mounted && timer == Idle
      ensures localQty == old(localQty) && quantity == old(quantity) && commits == old(commits) && nextTimer == old(nextTimer)
    {
      timer := Idle;
      mounted := false;
    }

    /** A burst of keystrokes with no expiry in between: nothing is
        committed, the draft is the last clamped value, and at most one
        timer (the newest) is pending, so at most one commit follows and it
        carries the final draft. */
    method EditBurst(values: seq<JsNumber>)
      requires Valid() && mounted
      modifies this
      ensures Valid() && mounted
      ensures commits == old(commits) && quantity == old(quantity)
      ensures values != [] ==> localQty == ClampDraft(values[|values| - 1])
      ensures values == [] ==> localQty == old(localQty) && timer == old(timer)
      ensures (timer == old(timer) && nextTimer == old(nextTimer))
           || (nextTimer > old(nextTimer) && timer == Pending(nextTimer - 1))
    {
      var k := 0;
      while k < |values|
        invariant 0 <= k <= |values|
        invariant Valid() && mounted
        invariant commits == old(commits) && quantity == old(quantity)
        invariant k > 0 ==> localQty == ClampDraft(values[k - 1])
        invariant k == 0 ==> localQty == old(localQty) && timer == old(timer)
        invariant (timer == old(timer) && nextTimer == old(nextTimer))
               || (nextTimer > old(nextTimer) && timer == Pending(nextTimer - 1))
      {
        Edit(values[k]);
        k := k + 1;
      }
    }
  }

  /** Typing "5" then "2" gives the field values 5 and 52; the second is
      clamped to 50, the first timer is cancelled, and the one commit that
      follows carries 50. */
  method TypeFiveThenTwo(productId: string, size: string)
  {
    var input := new CartItemInput(productId, size, 1);
    input.Edit(Num(5));
    var first := input.nextTimer - 1;
    input.Edit(Num(52));
    var second := input.nextTimer - 1;
    input.Fire(first);
    assert input.commits == [];
    input.Fire(second);
    assert input.commits == [Commit(productId, size, 50)];
  }

  /** Mounting with no edit still commits the current quantity once. */
  method MountCommitsOnce(productId: string, size: string, q: int)
  {
    var input := new CartItemInput(productId, size, q);
    input.Fire(0);
    assert input.commits == [Commit(productId, size, OrOne(q))];
    input.Fire(0);
    assert |input.commits| == 1;
  }

  /** After teardown no timer fires. */
  method UnmountCancels(productId: string, size: string)
  {
    var input := new CartItemInput(productId, size, 3);
    input.Edit(Num(7));
    var pending := input.nextTimer - 1;
    input.Unmount();
    input.Fire(pending);
    assert input.commits == [];
  }

  /** The row's remove control, `updateQuantity(id, size, 0)`: afterwards
      no line has that key. */
  function RemoveLine(cart: seq<CartState.LineItem>, productId: string, size: string): (r: seq<CartState.LineItem>)
    ensures !CartState.Contains(r, productId, size)
  {
    CartState.UpdateLinesKey(cart, productId, size, 0);
    CartState.UpdateLines(cart, productId, size, 0)
  }

  /** On a well-formed cart removing deletes exactly the matching line and
      keeps every other line, in order. */
  lemma RemoveLineKeepsOthers(cart: seq<CartState.LineItem>, productId: string, size: string)
    requires CartState.WellFormed(cart)
    ensures var i := CartState.KeyIndex(cart, productId, size);
      RemoveLine(cart, productId, size) == if i < 0 then cart else cart[..i] + cart[i + 1..]
  {
    CartState.UpdateLinesEffect(cart, productId, size, 0);
  }

  /** As written, the expiry callback belongs to the render in which the
      draft last changed, and the updateQuantity it calls maps the cart of
      that render. Rows are keyed by position, so when another row is
      removed this row keeps its props and its timer; when that timer fires
      it writes back the cart it captured, and the removed line returns.
      Here both rows mount on [A, B], B's bin empties B, and A's mount
      timer then commits A's quantity against [A, B]. */
  lemma StaleCommitRevivesRemovedLine(a: CartState.Product, b: CartState.Product)
    requires a.id != b.id
    ensures var atMount := [CartState.LineItem(a, "M", 1), CartState.LineItem(b, "L", 1)];
      && !CartState.Contains(RemoveLine(atMount, b.id, "L"), b.id, "L")
      && CartState.Contains(CartState.UpdateLines(atMount, a.id, "M", 1), b.id, "L")
  {
    var atMount := [CartState.LineItem(a, "M", 1), CartState.LineItem(b, "L", 1)];
    assert CartState.KeyIndex(atMount, a.id, "M") == 0;
    CartState.UpdateLinesEffect(atMount, a.id, "M", 1);
    var r := CartState.UpdateLines(atMount, a.id, "M", 1);
    assert r == atMount;
    assert CartState.HasKey(r[1], b.id, "L");
  }

  /** The intended commit updates the cart as it is when the timer fires,
      which is what the context's UpdateQuantity does: a line removed before
      then stays removed, whichever row commits and whatever it commits. */
  lemma CommitOnCurrentCartKeepsRemoval(cart: seq<CartState.LineItem>, removedId: string, removedSize: string,
                                        productId: string, size: string, quantity: int)
    ensures var current := RemoveLine(cart, removedId, removedSize);
      !CartState.Contains(CartState.UpdateLines(current, productId, size, quantity), removedId, removedSize)
  {
    CartState.UpdateLinesNoNewKeys(RemoveLine(cart, removedId, removedSize), productId, size, quantity, removedId, removedSize);
  }
}
