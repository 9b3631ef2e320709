/**
 * The record store and the four mutations that write to it.
 *
 * Each mutation checks its conditions in the source's order and either
 * fails with the source's message, leaving the store as it was, or inserts
 * records.  The store keeps the constraints the mutations establish: unique
 * customer emails, positive prices, non-negative stock, and orders that link
 * an existing customer to a non-empty set of existing products.
 */
module CrmStore {
  import opened Options
  import opened Records
  import Phone
  import OrderTotal
  import BulkIngest

  /** The text of the TypeError raised by comparing a null stock with 0. */
  const NullStockMessage: string := "'<' not supported between instances of 'NoneType' and 'int'"

  class Store {
    /** Customer `i` has id `i`. */
    var customers: seq<Customer>
    var products: map<int, Product>
    /** The id the next product is saved under. */
    var nextProductId: nat
    var orders: seq<Order>

    ghost predicate OrderLinked(o: Order)
      reads this
    {
      && 0 <= o.customerId < |customers|
      && o.productIds != {}
      && o.productIds <= products.Keys
      && o.total > 0
    }

    ghost predicate Valid()
      reads this
    {
      && DistinctEmails(customers)
      && (forall k :: k in products ==> 0 <= k < nextProductId)
      && (forall k :: k in products ==> products[k].price > 0 && products[k].stock >= 0)
      && (forall i :: 0 <= i < |orders| ==> OrderLinked(orders[i]))
    }

    constructor ()
      ensures Valid()
      ensures customers == [] && products == map[] && orders == [] && nextProductId == 0
    {
      customers, products, orders, nextProductId := [], map[], [], 0;
    }

    /** CreateCustomer.mutate */
    method CreateCustomer(input: CustomerInput) returns (r: Result<Customer>)
      requires Valid()
      modifies this
      ensures Valid()
      ensures EmailTaken(old(customers), input.email) ==> r == Err("Email already exists")
      ensures !EmailTaken(old(customers), input.email) && !Phone.ValidatePhone(input.phone) ==>
                r == Err("Invalid phone format")
      ensures !EmailTaken(old(customers), input.email) && Phone.ValidatePhone(input.phone) ==>
                r == Ok(NewCustomer(input))
      ensures customers == old(customers) + if r.Ok? then [r.value] else []
      ensures products == old(products) && nextProductId == old(nextProductId) && orders == old(orders)
    {
      if EmailTaken(customers, input.email) {
        return Err("Email already exists");
      }
      if !Phone.ValidatePhone(input.phone) {
        return Err("Invalid phone format");
      }
      var customer := NewCustomer(input);
      customers := customers + [customer];
      r := Ok(customer);
    }

    /**
     * BulkCreateCustomers.mutate: returns the `customers` and `errors` lists.
     * `faults[i]` is the message of the exception saving item `i` raises, if any.
     */
    method BulkCreateCustomers(batch: seq<Option<CustomerInput>>, faults: seq<Option<string>>)
      returns (created: seq<Customer>, errors: seq<string>)
      requires Valid()
      modifies this
      ensures Valid()
      ensures created == BulkIngest.CreatedCustomers(old(customers), batch, faults)
      ensures errors == BulkIngest.ErrorMessages(old(customers), batch, faults)
      ensures customers == old(customers) + created
      ensures products == old(products) && nextProductId == old(nextProductId) && orders == old(orders)
    {
      created, errors := [], [];
      var i := 0;
      while i < |batch|
        invariant 0 <= i <= |batch|
        invariant customers == old(customers) + created
        invariant created == BulkIngest.CreatedCustomers(old(customers), batch[..i], faults)
        invariant errors == BulkIngest.ErrorMessages(old(customers), batch[..i], faults)
        invariant products == old(products) && nextProductId == old(nextProductId) && orders == old(orders)
      {
        BulkIngest.BulkStep(old(customers), batch, faults, i);
        if batch[i].None? {
          errors := errors + [BulkIngest.NullItemMessage];
          i := i + 1;
          continue;
        }
        var data := batch[i].value;
        if EmailTaken(customers, data.email) {
          errors := errors + [BulkIngest.DuplicateEmailMessage(data.email)];
        } else if !Phone.ValidatePhone(data.phone) {
          errors := errors + [BulkIngest.InvalidPhoneMessage(data.phone)];
        } else {
          var customer := NewCustomer(data);
          match BulkIngest.FaultAt(faults, i)
          case Some(message) =>
            errors := errors + [message];
          case None =>
            customers := customers + [customer];
            created := created + [customer];
        }
        i := i + 1;
      }
      assert batch[..i] == batch;
      BulkIngest.BulkCreatedEmailsFresh(old(customers), batch, faults);
    }

    /**
     * CreateProduct.mutate: returns the id the product is saved under.
     * `stock` is `None` when the request passes an explicit null; an omitted
     * stock arrives as `Some(0)`.  Comparing a null stock with 0 raises.
     */
    method CreateProduct(name: string, price: int, stock: Option<int>) returns (r: Result<int>)
      requires Valid()
      modifies this
      ensures Valid()
      ensures price <= 0 ==> r == Err("Price must be positive")
      ensures price > 0 && stock == None ==> r == Err(NullStockMessage)
      ensures price > 0 && stock.Some? && stock.value < 0 ==> r == Err("Stock cannot be negative")
      ensures price > 0 && stock.Some? && stock.value >= 0 ==>
                && r.Ok? && r.value !in old(products) && r.value == old(nextProductId)
                && products == old(products)[r.value := Product(name, price, stock.value)]
                && nextProductId == old(nextProductId) + 1
      ensures r.Err? ==> products == old(products) && nextProductId == old(nextProductId)
      ensures customers == old(customers) && orders == old(orders)
    {
      if price <= 0 {
        return Err("Price must be positive");
      }
      if stock == None {
        return Err(NullStockMessage);
      }
      if stock.value < 0 {
        return Err("Stock cannot be negative");
      }
      var id := nextProductId;
      products := products[id := Product(name, price, stock.value)];
      nextProductId := nextProductId + 1;
      r := Ok(id);
    }

    /** CreateOrder.mutate */
    method CreateOrder(customerId: int, productIds: seq<int>) returns (r: Result<Order>)
      requires Valid()
      modifies this
      ensures Valid()
      ensures !(0 <= customerId < |old(customers)|) ==> r == Err("Invalid customer ID")
      ensures 0 <= customerId < |old(customers)| && OrderTotal.Resolved(productIds, old(products)) == {} ==>
                r == Err("Invalid product IDs")
      ensures 0 <= customerId < |old(customers)| && OrderTotal.Resolved(productIds, old(products)) != {} ==>
                && r.Ok?
                && r.value.customerId == customerId
                && r.value.productIds == OrderTotal.Resolved(productIds, old(products))
                && r.value.total == OrderTotal.PriceSum(r.value.productIds, old(products))
                && r.value.total > 0
      ensures orders == old(orders) + if r.Ok? then [r.value] else []
      ensures customers == old(customers) && products == old(products) && nextProductId == old(nextProductId)
    {
      if !(0 <= customerId < |customers|) {
        return Err("Invalid customer ID");
      }
      var linked := OrderTotal.Resolved(productIds, products);
      if linked == {} {
        return Err("Invalid product IDs");
      }
      var total := OrderTotal.Total(productIds, products);
      OrderTotal.PriceSumPositive(linked, products);
      var order := Order(customerId, linked, total);
      orders := orders + [order];
      r := Ok(order);
    }
  }
}
