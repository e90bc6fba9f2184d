/**
 * The product list page: a form (description, rate, stock) that appends a
 * product when its fields pass validation, deletion by position, and a copy
 * of the list kept in local storage after every change.
 */
module Products {
  import opened Wrappers
  import Lists

  datatype Product = Product(description: string, rate: real, stock: real)

  /** A number input's state: `""` while empty, otherwise the number it holds. */
  datatype NumberField = Blank | Value(n: real)

  /**
   * handleAdd's guard, written positively: a description, a rate above 0 and
   * a stock of at least 0 are all required.
   */
  function Accepts(desc: string, rate: NumberField, stock: NumberField): (ok: bool)
    ensures ok ==> rate.Value? && rate.n > 0.0 && stock.Value? && stock.n >= 0.0 && desc != ""
    ensures desc != "" && rate.Value? && rate.n > 0.0 && stock.Value? && stock.n >= 0.0 ==> ok
  {
    !(desc == "" || rate == Blank || rate.n <= 0.0 || stock == Blank || stock.n < 0.0)
  }

  /** Products with a positive rate and a non-negative stock, as the form lets through. */
  predicate WellFormed(products: seq<Product>) {
    forall i :: 0 <= i < |products| ==> products[i].rate > 0.0 && products[i].stock >= 0.0
  }

  /** Removing a product by position keeps the others well formed. */
  lemma DropIndexWellFormed(products: seq<Product>, index: int)
    requires WellFormed(products)
    ensures WellFormed(Lists.DropIndex(products, index))
  {
    if 0 <= index < |products| {
      forall k | 0 <= k < |products| - 1
        ensures Lists.DropIndex(products, index)[k] in products
      {
        Lists.DropIndexAt(products, index, k);
      }
    }
  }

  class ProductPage {
    var products: seq<Product>
    /** The "products" entry of local storage. */
    var stored: Option<seq<Product>>
    var desc: string
    var rate: NumberField
    var stock: NumberField

    /** The page before its first effect: an empty list and empty fields; `saved` is what storage holds. */
    constructor (saved: Option<seq<Product>>)
      ensures products == [] && stored == saved
      ensures desc == "" && rate == Blank && stock == Blank
    {
      products, stored := [], saved;
      desc, rate, stock := "", Blank, Blank;
    }

    /** The effect on mount: a stored list, if any, replaces the in-memory one. */
    method Load()
      modifies this`products
      ensures products == if stored.Some? then stored.value else old(products)
    {
      if stored.Some? {
        products := stored.value;
      }
    }

    /**
     * handleAdd: when the guard accepts, one product built from the fields is
     * appended, storage gets the new list and the fields are cleared;
     * otherwise nothing changes.
     */
    method Add()
      modifies this
      ensures var ok := Accepts(old(desc), old(rate), old(stock));
        && (ok ==> products == old(products) + [Product(old(desc), old(rate).n, old(stock).n)])
        && (ok ==> stored == Some(products))
        && (ok ==> desc == "" && rate == Blank && stock == Blank)
        && (!ok ==> products == old(products) && stored == old(stored))
        && (!ok ==> desc == old(desc) && rate == old(rate) && stock == old(stock))
      ensures WellFormed(old(products)) ==> WellFormed(products)
    {
      if !Accepts(desc, rate, stock) {
        return;
      }
      products := products + [Product(desc, rate.n, stock.n)];
      stored := Some(products);
      desc, rate, stock := "", Blank, Blank;
    }

    /** handleDelete: the product at `index` goes, the rest keep their order, storage follows. */
    method Delete(index: int)
      modifies this`products, this`stored
      ensures products == Lists.DropIndex(old(products), index)
      ensures stored == Some(products)
      ensures 0 <= index < |old(products)| ==> |products| == |old(products)| - 1
      ensures WellFormed(old(products)) ==> WellFormed(products)
    {
      if WellFormed(products) {
        DropIndexWellFormed(products, index);
      }
      products := Lists.DropIndex(products, index);
      stored := Some(products);
    }
  }
}
