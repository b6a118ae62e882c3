/**
 * The card customisation dialog: one entry per selected product, each with a
 * custom price and a custom description (at most 200 characters) that the card
 * renderer later prefers over the catalog's values.
 */
module CardGenerationModal {
  import opened Products

  /** A description edit longer than this is refused. */
  const MaxDescriptionLength: nat := 200

  /** `{ ...product, customPrice, customDescription }`. */
  datatype CardEntry = CardEntry(product: Product, customPrice: string, customDescription: string)

  /** Every custom description is within the limit. */
  predicate WithinLimit(entries: seq<CardEntry>)
  {
    forall k :: 0 <= k < |entries| ==> |entries[k].customDescription| <= MaxDescriptionLength
  }

  /** The initial entries: every product, in order, with nothing customised. */
  function InitialEntries(products: seq<Product>): (r: seq<CardEntry>)
    ensures |r| == |products|
    ensures forall k :: 0 <= k < |r| ==> r[k].product == products[k] && r[k].customPrice == "" && r[k].customDescription == ""
    ensures WithinLimit(r)
  {
    seq(|products|, k requires 0 <= k < |products| => CardEntry(products[k], "", ""))
  }

  /** `handlePriceChange`: any text becomes entry `index`'s price; nothing else changes. */
  function SetPrice(entries: seq<CardEntry>, index: nat, value: string): (r: seq<CardEntry>)
    requires index < |entries|
    ensures |r| == |entries|
    ensures r[index].customPrice == value
    ensures r[index].product == entries[index].product && r[index].customDescription == entries[index].customDescription
    ensures forall k :: 0 <= k < |r| && k != index ==> r[k] == entries[k]
  {
    entries[index := entries[index].(customPrice := value)]
  }

  /**
   * `handleDescriptionChange`: text of at most 200 characters becomes entry `index`'s
   * description; longer text is refused outright, not cut.
   */
  function SetDescription(entries: seq<CardEntry>, index: nat, value: string): (r: seq<CardEntry>)
    requires index < |entries|
    ensures |value| > MaxDescriptionLength ==> r == entries
    ensures |r| == |entries|
    ensures |value| <= MaxDescriptionLength ==> r[index].customDescription == value
    ensures r[index].product == entries[index].product && r[index].customPrice == entries[index].customPrice
    ensures forall k :: 0 <= k < |r| && k != index ==> r[k] == entries[k]
  {
    if |value| <= MaxDescriptionLength then entries[index := entries[index].(customDescription := value)]
    else entries
  }

  /** Both edits keep every description within the limit, and neither changes which products are listed. */
  lemma EditsKeepLimit(entries: seq<CardEntry>, index: nat, value: string)
    requires index < |entries| && WithinLimit(entries)
    ensures WithinLimit(SetPrice(entries, index, value))
    ensures WithinLimit(SetDescription(entries, index, value))
    ensures forall k :: 0 <= k < |entries| ==>
      SetPrice(entries, index, value)[k].product == entries[k].product &&
      SetDescription(entries, index, value)[k].product == entries[k].product
  {
    var p := SetPrice(entries, index, value);
    var d := SetDescription(entries, index, value);
    forall k | 0 <= k < |entries|
      ensures |p[k].customDescription| <= MaxDescriptionLength && |d[k].customDescription| <= MaxDescriptionLength
      ensures p[k].product == entries[k].product && d[k].product == entries[k].product
    {
      if k == index {
        assert |entries[k].customDescription| <= MaxDescriptionLength;
      }
    }
  }

  class Modal {
    /** `productData`. */
    var entries: seq<CardEntry>

    predicate Valid()
      reads this
    {
      WithinLimit(entries)
    }

    constructor(products: seq<Product>)
      ensures entries == InitialEntries(products) && Valid()
    {
      entries := InitialEntries(products);
    }

    method HandlePriceChange(index: nat, value: string)
      requires Valid() && index < |entries|
      modifies this
      ensures Valid()
      ensures entries == SetPrice(old(entries), index, value)
    {
      EditsKeepLimit(entries, index, value);
      entries := entries[index := entries[index].(customPrice := value)];
    }

    method HandleDescriptionChange(index: nat, value: string)
      requires Valid() && index < |entries|
      modifies this
      ensures Valid()
      ensures entries == SetDescription(old(entries), index, value)
    {
      EditsKeepLimit(entries, index, value);
      if |value| <= MaxDescriptionLength {
        entries := entries[index := entries[index].(customDescription := value)];
      }
    }
  }
}
