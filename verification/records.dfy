/**
 * The records of the CRM store: customers, products and orders, and the
 * input a customer mutation receives.
 */
module Records {
  import opened Options

  /** CustomerInput: name and email are required, the phone is optional. */
  datatype CustomerInput = CustomerInput(name: string, email: string, phone: Option<string>)

  /** A saved customer.  Its id is its position in the store's customer sequence. */
  datatype Customer = Customer(name: string, email: string, phone: Option<string>)

  /** A product; the price is an integer number of cents. */
  datatype Product = Product(name: string, price: int, stock: int)

  /** An order: its customer's id, the set of product ids it is linked to, and its total in cents. */
  datatype Order = Order(customerId: int, productIds: set<int>, total: int)

  /** The customer a mutation saves for an input: the same name, email and phone. */
  function NewCustomer(input: CustomerInput): Customer {
    Customer(input.name, input.email, input.phone)
  }

  /** Whether some stored customer already has this email (an exact comparison). */
  predicate EmailTaken(customers: seq<Customer>, email: string) {
    exists i :: 0 <= i < |customers| && customers[i].email == email
  }

  /** The uniqueness constraint on customer email. */
  ghost predicate DistinctEmails(customers: seq<Customer>) {
    forall i, j :: 0 <= i < j < |customers| ==> customers[i].email != customers[j].email
  }
}
