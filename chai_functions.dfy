/** Small functions of the chai scripts: default arguments, a bill, and a pure function set
    beside one that updates a global total. */
module ChaiFunctions {
  import Seqs

  /** `chai_flavour(flavour="masala")`: the flavour it is given. */
  function ChaiFlavour(flavour: string := "masala"): (r: string)
    ensures r == flavour
  {
    flavour
  }

  /** `generate_bill(chai=0, samosa=0)`: 10 rupees a chai, 15 a samosa. */
  function GenerateBill(chai: int := 0, samosa: int := 0): (r: int)
    ensures r == 10 * chai + 15 * samosa
  {
    (chai * 10) + (samosa * 15)
  }

  /** The defaults and the example. */
  lemma BillExamples()
    ensures ChaiFlavour() == "masala"
    ensures GenerateBill() == 0
    ensures GenerateBill(2, 3) == 65
  {
    assert GenerateBill(2, 3) == 10 * 2 + 15 * 3;
  }

  /** What can be ordered, and its price in rupees. */
  datatype Snack = Chai | Samosa

  function Price(item: Snack): nat {
    match item
    case Chai => 10
    case Samosa => 15
  }

  /** The bill of an order written out item by item: the sum of the prices. */
  function ItemsTotal(items: seq<Snack>): int {
    if items == [] then 0 else Price(items[0]) + ItemsTotal(items[1..])
  }

  /** How often `item` occurs in an order. */
  function CountOf(items: seq<Snack>, item: Snack): nat {
    if items == [] then 0 else (if items[0] == item then 1 else 0) + CountOf(items[1..], item)
  }

  /** Ten rupees per chai and fifteen per samosa sum to the prices of the items. */
  lemma {:induction false} CountsPriceItems(items: seq<Snack>)
    ensures 10 * CountOf(items, Chai) + 15 * CountOf(items, Samosa) == ItemsTotal(items)
  {
    if items != [] {
      CountsPriceItems(items[1..]);
    }
  }

  /** `generate_bill` given the number of chai and samosa of an order charges exactly the sum
      of the prices of its items. */
  lemma GenerateBillIsItemsTotal(items: seq<Snack>)
    ensures GenerateBill(CountOf(items, Chai), CountOf(items, Samosa)) == ItemsTotal(items)
  {
    var c, m := CountOf(items, Chai), CountOf(items, Samosa);
    CountsPriceItems(items);
    assert GenerateBill(c, m) == 10 * c + 15 * m;
  }

  /** `pure_chai(cups)`: the price of the cups, depending on nothing else. */
  function PureChai(cups: int): (r: int)
    ensures r == 10 * cups
  {
    cups * 10
  }

  /** The sum of a sequence of cup counts. */
  function Sum(s: seq<int>): int {
    if s == [] then 0 else Sum(s[..|s| - 1]) + s[|s| - 1]
  }

  /** Sums add up over concatenation. */
  lemma {:induction false} SumConcat(a: seq<int>, b: seq<int>)
    ensures Sum(a + b) == Sum(a) + Sum(b)
    decreases |b|
  {
    if b == [] {
      assert a + b == a;
    } else {
      assert (a + b)[..|a + b| - 1] == a + b[..|b| - 1];
      SumConcat(a, b[..|b| - 1]);
    }
  }

  /** The price of the cups of a whole run of orders is the sum of the prices of each order,
      so `pure_chai` of the total kept by `impure_chai` is what the orders cost one by one. */
  lemma {:induction false} PureChaiOfSum(orders: seq<int>)
    ensures PureChai(Sum(orders)) == Sum(Seqs.Map(orders, PureChai))
    decreases |orders|
  {
    if orders != [] {
      var init := orders[..|orders| - 1];
      assert Seqs.Map(orders, PureChai)[..|orders| - 1] == Seqs.Map(init, PureChai);
      PureChaiOfSum(init);
    }
  }

  /** The module-level state of the script: `total_chai`, initially 0. */
  class ChaiShop {
    var totalChai: int

    constructor ()
      ensures totalChai == 0
    {
      totalChai := 0;
    }

    /** `impure_chai(cups)`: adds the cups to the global total and returns nothing. */
    method ImpureChai(cups: int)
      modifies this
      ensures totalChai == old(totalChai) + cups
    {
      totalChai := totalChai + cups;
    }
  }

  /** Calling `impure_chai` once per entry of `orders` adds their sum to the total. */
  method ServeAll(shop: ChaiShop, orders: seq<int>)
    modifies shop
    ensures shop.totalChai == old(shop.totalChai) + Sum(orders)
  {
    var i := 0;
    while i < |orders|
      invariant 0 <= i <= |orders|
      invariant shop.totalChai == old(shop.totalChai) + Sum(orders[..i])
    {
      assert orders[..i + 1][..i] == orders[..i];
      shop.ImpureChai(orders[i]);
      i := i + 1;
    }
    assert orders[..i] == orders;
  }

  /** From a fresh start the total is exactly the sum of all cups served. */
  method ServeFromStart(orders: seq<int>) returns (shop: ChaiShop)
    ensures shop.totalChai == Sum(orders)
    ensures PureChai(shop.totalChai) == Sum(Seqs.Map(orders, PureChai))
  {
    shop := new ChaiShop();
    ServeAll(shop, orders);
    PureChaiOfSum(orders);
  }
}
