/** The life-cycle states of a catalogue product and the three questions asked of them. */
module ProductStatuses {

  datatype ProductStatus =
    | Pending
    | Active
    | Inactive
    | OutOfStock
    | Discontinued
    | Rejected
    | Approved
  {
    predicate IsActive() { this == Active }

    /** A product is shown in listings while active or temporarily sold out. */
    predicate IsVisible()
      ensures IsActive() ==> IsVisible()
    {
      this == Active || this == OutOfStock
    }

    /** Only an active product can be bought, and whatever can be bought is shown. */
    predicate CanBePurchased()
      ensures CanBePurchased() <==> IsActive()
      ensures CanBePurchased() ==> IsVisible()
    {
      this == Active
    }
  }

  /** Only an active product can be bought, and a product that can be bought is also shown. */
  lemma PurchasableIsActiveAndVisible(s: ProductStatus)
    ensures s.CanBePurchased() <==> s.IsActive()
    ensures s.CanBePurchased() ==> s.IsVisible()
    ensures s.IsVisible() && !s.CanBePurchased() <==> s == OutOfStock
  {
  }

  /** Exactly one status can be bought and exactly two are shown. */
  lemma StatusCounts()
    ensures (set s: ProductStatus | s.CanBePurchased()) == {Active}
    ensures (set s: ProductStatus | s.IsVisible()) == {Active, OutOfStock}
  {
  }
}
