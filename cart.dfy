/**
 * The cart entity: an owner, a list of lines and a stored total that the
 * entity's own `addItem`/`removeItem` keep equal to the sum of the line
 * totals. Each line carries a back reference to its cart, which `addItem`
 * sets and `removeItem` clears.
 */
module CartEntity {
  import opened Common
  import opened Entities

  /** The position of the first element equal to `x`, or the length when there is none. */
  function FirstIndex<T(==)>(s: seq<T>, x: T): (i: nat)
    ensures i <= |s|
    ensures i < |s| ==> s[i] == x
    ensures forall j :: 0 <= j < i ==> s[j] != x
    ensures i == |s| <==> x !in s
  {
    if s == [] then 0
    else if s[0] == x then 0
    else 1 + FirstIndex(s[1..], x)
  }

  /**
   * `List.remove(Object)`: drops the first element equal to `x`, and leaves
   * the list as it is when there is none.
   */
  function RemoveFirst<T(==)>(s: seq<T>, x: T): (r: seq<T>)
    ensures x !in s ==> r == s
    ensures x in s ==> |r| == |s| - 1
  {
    var i := FirstIndex(s, x);
    if i < |s| then s[..i] + s[i + 1..] else s
  }

  /** Removing one occurrence takes exactly that occurrence out of the multiset of lines. */
  lemma RemoveFirstMultiset<T>(s: seq<T>, x: T)
    ensures multiset(RemoveFirst(s, x)) == multiset(s) - multiset{x}
  {
    var i := FirstIndex(s, x);
    if i < |s| {
      assert s == s[..i] + [x] + s[i + 1..];
    } else {
      assert multiset(s)[x] == 0;
    }
  }

  /** Removing one occurrence takes its value off any sum over the list. */
  lemma RemoveFirstSum<T>(s: seq<T>, x: T, f: T -> int)
    ensures Sum(RemoveFirst(s, x), f) == Sum(s, f) - (if x in s then f(x) else 0)
  {
    var i := FirstIndex(s, x);
    if i < |s| {
      SumRemove(s, i, f);
    }
  }

  class Cart {
    const id: CartId
    var user: UserId
    var items: seq<CartItem>
    var totalPrice: Money

    /** Every line points back at this cart. */
    ghost predicate OwnsItems()
      reads this
    {
      forall item :: item in items ==> item.cart == Some(id)
    }

    /** The stored total agrees with the lines. */
    ghost predicate Totalled()
      reads this
    {
      totalPrice == ItemsTotal(items)
    }

    /** A new cart has no lines and a zero total. */
    constructor (id: CartId, user: UserId)
      ensures this.id == id && this.user == user
      ensures items == [] && totalPrice == 0
      ensures OwnsItems() && Totalled()
    {
      this.id := id;
      this.user := user;
      items := [];
      totalPrice := 0;
    }

    /** `getTotalItems`: the number of units over all lines. */
    function TotalItems(): (n: int)
      reads this
      ensures items == [] ==> n == 0
      ensures (forall item :: item in items ==> item.quantity >= 0) ==> n >= 0
    {
      NonNegativeCount(items);
      ItemsCount(items)
    }

    /** `recalculateTotal`: the stored total becomes the sum of the line totals; nothing else changes. */
    method RecalculateTotal()
      modifies this`totalPrice
      ensures Totalled()
      ensures totalPrice == ItemsTotal(items)
    {
      totalPrice := ItemsTotal(items);
    }

    /** `addItem`: appends the line with its back reference set, then recalculates. */
    method AddItem(item: CartItem) returns (added: CartItem)
      modifies this`items, this`totalPrice
      ensures added == item.(cart := Some(id))
      ensures items == old(items) + [added]
      ensures Totalled() && totalPrice == ItemsTotal(old(items)) + item.totalPrice
      ensures TotalItems() == old(TotalItems()) + item.quantity
      ensures old(OwnsItems()) ==> OwnsItems()
    {
      added := item.(cart := Some(id));
      ghost var before := items;
      SumAppend(before, added, ItemTotal);
      SumAppend(before, added, ItemQuantity);
      items := items + [added];
      RecalculateTotal();
      assert forall x :: x in items ==> x in before || x == added;
    }

    /**
     * `removeItem`: drops the first equal line, clears the back reference of
     * the line handed in, then recalculates.
     */
    method RemoveItem(item: CartItem) returns (detached: CartItem)
      modifies this`items, this`totalPrice
      ensures detached == item.(cart := None)
      ensures items == RemoveFirst(old(items), item)
      ensures multiset(items) == multiset(old(items)) - multiset{item}
      ensures Totalled()
      ensures totalPrice == ItemsTotal(old(items)) - (if item in old(items) then item.totalPrice else 0)
      ensures TotalItems() == old(TotalItems()) - (if item in old(items) then item.quantity else 0)
      ensures old(OwnsItems()) ==> OwnsItems()
    {
      RemoveFirstMultiset(items, item);
      RemoveFirstSum(items, item, ItemTotal);
      RemoveFirstSum(items, item, ItemQuantity);
      items := RemoveFirst(items, item);
      detached := item.(cart := None);
      RecalculateTotal();
    }
  }

  /** Counting units over lines that all hold a non-negative quantity gives a non-negative number. */
  lemma {:induction false} NonNegativeCount(items: seq<CartItem>)
    ensures (forall item :: item in items ==> item.quantity >= 0) ==> ItemsCount(items) >= 0
  {
    if items != [] {
      NonNegativeCount(items[..|items| - 1]);
      assert forall item :: item in items[..|items| - 1] ==> item in items;
    }
  }

  /** Adding a line and removing that same line again restores the lines and the total. */
  lemma AddThenRemoveRestores(items: seq<CartItem>, added: CartItem)
    requires added !in items
    ensures RemoveFirst(items + [added], added) == items
    ensures ItemsTotal(RemoveFirst(items + [added], added)) == ItemsTotal(items)
  {
    var s := items + [added];
    var i := FirstIndex(s, added);
    assert s[|items|] == added;
    assert forall j :: 0 <= j < |items| ==> s[j] == items[j];
    assert i == |items|;
    assert s[..i] == items;
  }
}
