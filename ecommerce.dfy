/** The e-commerce dataclasses: products, customers, addresses, orders and a shopping cart
    that merges lines per product, checks stock and is emptied by checkout. */
module ECommerce {
  import opened Wrappers
  import Seqs
  import Strings

  datatype OrderStatus = Pending | Processing | Shipped | Delivered | Cancelled

  datatype PaymentMethod = CreditCard | DebitCard | PayPal | BankTransfer

  datatype Product = Product(productId: int, name: string, description: string, price: real,
                             category: string, stock: int, imageUrl: string, rating: real)
  {
    /** `is_available()`. */
    function IsAvailable(): (r: bool)
      ensures r <==> stock > 0
    {
      stock > 0
    }
  }

  /** A customer; `fullName` is filled in after construction. */
  datatype Customer = Customer(customerId: int, firstName: string, lastName: string,
                               email: string, phone: string, fullName: string)

  /** `Customer(...)` followed by `__post_init__`: the full name is the first name, a space
      and the last name. */
  function NewCustomer(customerId: int, firstName: string, lastName: string,
                       email: string, phone: string): (c: Customer)
    ensures c.customerId == customerId && c.firstName == firstName && c.lastName == lastName
    ensures c.email == email && c.phone == phone
    ensures c.fullName == firstName + " " + lastName
  {
    Customer(customerId, firstName, lastName, email, phone, firstName + " " + lastName)
  }

  /** When neither name holds a space, the full name splits back into the two names. */
  lemma FullNameSplits(customerId: int, firstName: string, lastName: string, email: string, phone: string)
    requires ' ' !in firstName && ' ' !in lastName
    ensures Strings.Split(NewCustomer(customerId, firstName, lastName, email, phone).fullName, ' ')
         == [firstName, lastName]
  {
    Strings.SplitTwo(firstName, lastName, ' ');
  }

  datatype Address = Address(street: string, city: string, state: string, zipCode: string,
                             country: string)
  {
    /** `format_address()`: "street, city, state zip, country". */
    function FormatAddress(): (r: string)
      ensures r == street + ", " + city + ", " + state + " " + zipCode + ", " + country
    {
      street + ", " + city + ", " + state + " " + zipCode + ", " + country
    }
  }

  /** When no field holds a comma, the formatted address splits at its commas into the street,
      the city, the state with the zip code, and the country, each after the first behind one
      space. */
  lemma FormatAddressSplits(a: Address)
    requires ',' !in a.street && ',' !in a.city && ',' !in a.state && ',' !in a.zipCode && ',' !in a.country
    ensures Strings.Split(a.FormatAddress(), ',')
         == [a.street, " " + a.city, " " + a.state + " " + a.zipCode, " " + a.country]
  {
    var city, region, country := " " + a.city, " " + a.state + " " + a.zipCode, " " + a.country;
    assert ',' !in region;
    assert a.FormatAddress() == a.street + [','] + city + [','] + region + [','] + country;
    Strings.SplitFour(a.street, city, region, country, ',');
  }

  /** A cart or order line. */
  datatype OrderItem = OrderItem(product: Product, quantity: int)

  /** The first line holding product `id`, as the cart's `for item in self.items` finds it. */
  function LineOf(items: seq<OrderItem>, id: int): (r: Option<nat>)
    ensures r.Some? ==> r.value < |items| && items[r.value].product.productId == id
    ensures r.Some? ==> forall j :: 0 <= j < r.value ==> items[j].product.productId != id
    ensures r.None? ==> forall j :: 0 <= j < |items| ==> items[j].product.productId != id
  {
    if items == [] then None
    else if items[0].product.productId == id then Some(0)
    else match LineOf(items[1..], id)
      case None => None
      case Some(k) => Some(k + 1)
  }

  /** The cart lines after `add_item(product, quantity)`, scanning the lines in order. */
  function AddedItems(items: seq<OrderItem>, product: Product, quantity: int): (r: seq<OrderItem>)
    ensures !product.IsAvailable() || quantity > product.stock ==> r == items
    ensures product.IsAvailable() && quantity <= product.stock ==>
      match LineOf(items, product.productId)
      case None => r == items + [OrderItem(product, quantity)]
      case Some(i) => r == items[i := items[i].(quantity := items[i].quantity + quantity)]
  {
    if !product.IsAvailable() || quantity > product.stock then items
    else Merged(items, product, quantity)
  }

  /** The line-merging loop of `add_item` once the stock checks have passed. */
  function Merged(items: seq<OrderItem>, product: Product, quantity: int): (r: seq<OrderItem>)
    ensures match LineOf(items, product.productId)
      case None => r == items + [OrderItem(product, quantity)]
      case Some(i) => r == items[i := items[i].(quantity := items[i].quantity + quantity)]
  {
    if items == [] then [OrderItem(product, quantity)]
    else if items[0].product.productId == product.productId then
      [items[0].(quantity := items[0].quantity + quantity)] + items[1..]
    else [items[0]] + Merged(items[1..], product, quantity)
  }

  /** Availability decides `add_item`: an unavailable product leaves the cart as it is, and an
      available one within stock ends up on a line of the cart. */
  lemma AvailabilityDecides(items: seq<OrderItem>, product: Product, quantity: int)
    ensures !product.IsAvailable() ==> AddedItems(items, product, quantity) == items
    ensures product.IsAvailable() && quantity <= product.stock ==>
      LineOf(AddedItems(items, product, quantity), product.productId).Some?
  {
    var r := AddedItems(items, product, quantity);
    if product.IsAvailable() && quantity <= product.stock {
      match LineOf(items, product.productId)
      case None => assert r[|items|].product.productId == product.productId;
      case Some(i) => assert r[i].product.productId == product.productId;
    }
  }

  /** No product id is on two lines. */
  ghost predicate UniqueLines(items: seq<OrderItem>) {
    forall i, j :: 0 <= i < j < |items| ==> items[i].product.productId != items[j].product.productId
  }

  /** `add_item` keeps every product on at most one line. */
  lemma AddKeepsLinesUnique(items: seq<OrderItem>, product: Product, quantity: int)
    requires UniqueLines(items)
    ensures UniqueLines(AddedItems(items, product, quantity))
  {
    var r := AddedItems(items, product, quantity);
    if product.IsAvailable() && quantity <= product.stock {
      match LineOf(items, product.productId)
      case None =>
        assert r == items + [OrderItem(product, quantity)];
        assert forall i :: 0 <= i < |items| ==> r[i] == items[i];
      case Some(k) =>
        assert forall i :: 0 <= i < |r| ==> r[i].product == items[i].product;
    }
  }

  /** The total quantity of product `id` over all lines. */
  function QuantityOf(items: seq<OrderItem>, id: int): int {
    if items == [] then 0
    else (if items[0].product.productId == id then items[0].quantity else 0) + QuantityOf(items[1..], id)
  }

  /** A line-by-line change of one line's quantity changes the product's total by the same amount. */
  lemma {:induction false} QuantityOfUpdate(items: seq<OrderItem>, i: nat, q: int, id: int)
    requires i < |items|
    ensures QuantityOf(items[i := items[i].(quantity := q)], id)
         == QuantityOf(items, id) + (if items[i].product.productId == id then q - items[i].quantity else 0)
    decreases i
  {
    if i > 0 {
      QuantityOfUpdate(items[1..], i - 1, q, id);
      assert items[i := items[i].(quantity := q)][1..] == items[1..][i - 1 := items[1..][i - 1].(quantity := q)];
    }
  }

  lemma {:induction false} QuantityOfAppend(items: seq<OrderItem>, line: OrderItem, id: int)
    ensures QuantityOf(items + [line], id)
         == QuantityOf(items, id) + (if line.product.productId == id then line.quantity else 0)
    decreases |items|
  {
    if items != [] {
      QuantityOfAppend(items[1..], line, id);
      assert (items + [line])[1..] == items[1..] + [line];
    }
  }

  /** An accepted `add_item` raises the product's total quantity by `quantity` and leaves every
      other product's total alone; a refused one changes nothing. */
  lemma AddQuantity(items: seq<OrderItem>, product: Product, quantity: int, id: int)
    ensures QuantityOf(AddedItems(items, product, quantity), id)
         == QuantityOf(items, id)
            + (if product.IsAvailable() && quantity <= product.stock && id == product.productId
               then quantity else 0)
  {
    if product.IsAvailable() && quantity <= product.stock {
      match LineOf(items, product.productId)
      case None =>
        QuantityOfAppend(items, OrderItem(product, quantity), id);
      case Some(k) =>
        QuantityOfUpdate(items, k, items[k].quantity + quantity, id);
    }
  }

  /** The stock check looks only at the quantity asked for now, not at what the line already
      holds: two adds of the single unit in stock leave a line of two. */
  lemma RepeatedAddsExceedStock(p: Product)
    requires p.stock == 1
    ensures var once := AddedItems([], p, 1);
      AddedItems(once, p, 1) == [OrderItem(p, 2)] && AddedItems(once, p, 1)[0].quantity > p.stock
  {
    assert AddedItems([], p, 1) == [OrderItem(p, 1)];
    assert LineOf([OrderItem(p, 1)], p.productId) == Some(0);
  }

  function OtherProduct(id: int): OrderItem -> bool {
    (item: OrderItem) => item.product.productId != id
  }

  /** `remove_item(id)`: every line of product `id` goes, the others stay in order. */
  function WithoutProduct(items: seq<OrderItem>, id: int): (r: seq<OrderItem>)
    ensures forall i :: 0 <= i < |r| ==> r[i].product.productId != id
    ensures forall l: OrderItem :: l.product.productId != id ==> multiset(r)[l] == multiset(items)[l]
  {
    Seqs.FilterCounts(items, OtherProduct(id));
    Seqs.Filter(items, OtherProduct(id))
  }

  /** Removal works line by line: on two runs of lines it is the removal from each, so the
      lines kept stay in their order. */
  lemma WithoutProductConcat(a: seq<OrderItem>, b: seq<OrderItem>, id: int)
    ensures WithoutProduct(a + b, id) == WithoutProduct(a, id) + WithoutProduct(b, id)
  {
    Seqs.FilterConcat(a, b, OtherProduct(id));
  }

  /** Removing a product the cart does not hold changes nothing. */
  lemma RemoveAbsentProduct(items: seq<OrderItem>, id: int)
    requires LineOf(items, id).None?
    ensures WithoutProduct(items, id) == items
  {
    Seqs.FilterAllPass(items, OtherProduct(id));
  }

  /** After removing a product none of it is left, and every other product keeps its total. */
  lemma {:induction false} RemoveQuantity(items: seq<OrderItem>, id: int, other: int)
    ensures QuantityOf(WithoutProduct(items, id), other) == if other == id then 0 else QuantityOf(items, other)
    decreases |items|
  {
    if items != [] {
      RemoveQuantity(items[1..], id, other);
      var rest := Seqs.Filter(items[1..], OtherProduct(id));
      if items[0].product.productId != id {
        assert Seqs.Filter(items, OtherProduct(id)) == [items[0]] + rest;
        assert ([items[0]] + rest)[1..] == rest;
      } else {
        assert Seqs.Filter(items, OtherProduct(id)) == rest;
      }
    }
  }

  /** What `add_item` reported. */
  datatype AddOutcome = OutOfStock | NotEnough(available: int) | Updated(quantity: int) | Added

  /** An order. Subtotal, tax, total and the creation time are not modelled. */
  class Order {
    const orderId: int
    const customer: Customer
    const items: seq<OrderItem>
    const shippingAddress: Address
    const paymentMethod: PaymentMethod
    var status: OrderStatus
    const taxRate: real
    const shippingCost: real

    constructor (orderId: int, customer: Customer, items: seq<OrderItem>, shippingAddress: Address,
                 paymentMethod: PaymentMethod, status: OrderStatus := Pending,
                 taxRate: real := 0.08, shippingCost: real := 10.0)
      ensures this.orderId == orderId && this.customer == customer && this.items == items
      ensures this.shippingAddress == shippingAddress && this.paymentMethod == paymentMethod
      ensures this.status == status && this.taxRate == taxRate && this.shippingCost == shippingCost
    {
      this.orderId := orderId;
      this.customer := customer;
      this.items := items;
      this.shippingAddress := shippingAddress;
      this.paymentMethod := paymentMethod;
      this.status := status;
      this.taxRate := taxRate;
      this.shippingCost := shippingCost;
    }

    /** `update_status(new_status)`: any status may follow any other. */
    method UpdateStatus(newStatus: OrderStatus)
      modifies this
      ensures status == newStatus
    {
      status := newStatus;
    }
  }

  class ShoppingCart {
    const customer: Customer
    var items: seq<OrderItem>

    constructor (customer: Customer, items: seq<OrderItem> := [])
      ensures this.customer == customer && this.items == items
    {
      this.customer := customer;
      this.items := items;
    }

    /** `add_item(product, quantity)`. */
    method AddItem(product: Product, quantity: int := 1) returns (outcome: AddOutcome)
      modifies this
      ensures items == AddedItems(old(items), product, quantity)
      ensures outcome == OutOfStock <==> !product.IsAvailable()
      ensures outcome == NotEnough(product.stock) <==> product.IsAvailable() && quantity > product.stock
      ensures outcome == Added <==>
        product.IsAvailable() && quantity <= product.stock && LineOf(old(items), product.productId).None?
      ensures outcome.Updated? ==>
        exists i :: 0 <= i < |items| && items[i].product.productId == product.productId && items[i].quantity == outcome.quantity
      ensures product.IsAvailable() && quantity <= product.stock && LineOf(old(items), product.productId).Some? ==>
        outcome == Updated(old(items)[LineOf(old(items), product.productId).value].quantity + quantity)
    {
      if !product.IsAvailable() {
        return OutOfStock;
      }
      if quantity > product.stock {
        return NotEnough(product.stock);
      }
      var i := 0;
      while i < |items|
        invariant 0 <= i <= |items| && items == old(items)
        invariant forall j :: 0 <= j < i ==> items[j].product.productId != product.productId
      {
        if items[i].product.productId == product.productId {
          assert LineOf(items, product.productId) == Some(i) by {
            LineOfFirst(items, product.productId, i);
          }
          items := items[i := items[i].(quantity := items[i].quantity + quantity)];
          return Updated(items[i].quantity);
        }
        i := i + 1;
      }
      items := items + [OrderItem(product, quantity)];
      outcome := Added;
    }

    /** `remove_item(product_id)`. */
    method RemoveItem(productId: int)
      modifies this
      ensures items == WithoutProduct(old(items), productId)
    {
      items := Seqs.Filter(items, OtherProduct(productId));
    }

    /** `checkout(...)`: an empty cart raises; otherwise a pending order takes a copy of the
        lines and the cart is emptied. */
    method Checkout(shippingAddress: Address, paymentMethod: PaymentMethod, orderId: int)
      returns (r: Result<Order, PyError>)
      modifies this
      ensures r.Err? <==> old(items) == []
      ensures r.Err? ==> r.error == ValueError("Cannot checkout with empty cart!") && items == old(items)
      ensures r.Ok? ==> fresh(r.value) && items == []
      ensures r.Ok? ==> r.value.items == old(items) && r.value.customer == customer
      ensures r.Ok? ==> r.value.orderId == orderId && r.value.shippingAddress == shippingAddress
      ensures r.Ok? ==> r.value.paymentMethod == paymentMethod && r.value.status == Pending
    {
      if items == [] {
        return Err(ValueError("Cannot checkout with empty cart!"));
      }
      var order := new Order(orderId, customer, items, shippingAddress, paymentMethod);
      items := [];
      r := Ok(order);
    }
  }

  /** The first index whose line is product `id`, with none before it, is what `LineOf` finds. */
  lemma LineOfFirst(items: seq<OrderItem>, id: int, i: nat)
    requires i < |items| && items[i].product.productId == id
    requires forall j :: 0 <= j < i ==> items[j].product.productId != id
    ensures LineOf(items, id) == Some(i)
  {
  }

  function Products(): seq<Product> {
    [ Product(1, "MacBook Pro 16\"", "Powerful laptop for professionals", 2499.99, "Electronics", 15, "macbook.jpg", 4.8),
      Product(2, "iPhone 15 Pro", "Latest smartphone with amazing features", 999.99, "Electronics", 25, "iphone.jpg", 4.7),
      Product(3, "AirPods Pro", "Wireless earbuds with noise cancellation", 249.99, "Electronics", 50, "airpods.jpg", 4.6),
      Product(4, "Magic Keyboard", "Wireless keyboard for Mac", 99.99, "Accessories", 30, "keyboard.jpg", 4.5) ]
  }

  /** The three adds of the demonstration: three new lines, in order. */
  lemma DemoCart()
    ensures AddedItems(AddedItems(AddedItems([], Products()[0], 1), Products()[2], 2), Products()[3], 1)
         == [OrderItem(Products()[0], 1), OrderItem(Products()[2], 2), OrderItem(Products()[3], 1)]
  {
    var p := Products();
    var c1 := [OrderItem(p[0], 1)];
    var c2 := c1 + [OrderItem(p[2], 2)];
    assert AddedItems([], p[0], 1) == c1;
    assert LineOf(c1, 3) == None;
    assert AddedItems(c1, p[2], 2) == c2;
    assert LineOf(c2, 4) == None;
  }

  /** The demonstration's customer name and shipping address, rendered. */
  lemma DemoText()
    ensures NewCustomer(12345, "John", "Doe", "john.doe@example.com", "+1-555-0123").fullName == "John Doe"
    ensures Address("123 Main Street, Apt 4B", "New York", "NY", "10001", "USA").FormatAddress()
         == "123 Main Street, Apt 4B, New York, NY 10001, USA"
  {
    assert "John" + " " + "Doe" == "John Doe";
    assert "123 Main Street, Apt 4B" + ", " + "New York" + ", " + "NY" + " " + "10001" + ", " + "USA"
        == "123 Main Street, Apt 4B, New York, NY 10001, USA";
  }

  /** The demonstration's three adds on a new cart. */
  method FillDemoCart(customer: Customer) returns (cart: ShoppingCart)
    ensures fresh(cart) && cart.customer == customer
    ensures cart.items == [OrderItem(Products()[0], 1), OrderItem(Products()[2], 2), OrderItem(Products()[3], 1)]
  {
    var products := Products();
    cart := new ShoppingCart(customer);
    var _ := cart.AddItem(products[0], 1);
    var _ := cart.AddItem(products[2], 2);
    var _ := cart.AddItem(products[3], 1);
    DemoCart();
  }

  /** The demonstration: three adds, a checkout as order 1001, and three status updates. */
  method Demo() returns (fullName: string, address: string, order: Order, cartAfter: seq<OrderItem>)
    ensures fullName == "John Doe"
    ensures address == "123 Main Street, Apt 4B, New York, NY 10001, USA"
    ensures order.items == [OrderItem(Products()[0], 1), OrderItem(Products()[2], 2), OrderItem(Products()[3], 1)]
    ensures order.orderId == 1001 && order.status == Delivered && cartAfter == []
  {
    DemoText();
    var customer := NewCustomer(12345, "John", "Doe", "john.doe@example.com", "+1-555-0123");
    fullName := customer.fullName;
    var cart := FillDemoCart(customer);
    var shipping := Address("123 Main Street, Apt 4B", "New York", "NY", "10001", "USA");
    address := shipping.FormatAddress();
    var r := cart.Checkout(shipping, CreditCard, 1001);
    order := r.value;
    order.UpdateStatus(Processing);
    order.UpdateStatus(Shipped);
    order.UpdateStatus(Delivered);
    cartAfter := cart.items;
  }
}
