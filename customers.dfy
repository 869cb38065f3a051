/** The customer table: one row per customer, ids 1..N in append order. */
module Customers {
  import opened Schema
  import opened Randomness

  /** What Faker supplies for one customer: name, e-mail, city, state abbreviation
      and the raw draw of the join date. */
  datatype CustomerDraw = CustomerDraw(
    name: string, email: string, city: string, stateAbbr: string, joinDate: nat)

  /** The row appended for customer `id`. */
  function NewCustomer(id: int, d: CustomerDraw, cal: Calendar): (c: Customer)
    requires cal.Valid()
    ensures c.customerId == id
    ensures cal.joinStart <= c.joinDate <= cal.today
    ensures c.name == d.name && c.email == d.email
    ensures c.location == d.city + ", " + d.stateAbbr
  {
    Customer(id, d.name, d.email, d.city + ", " + d.stateAbbr,
             Pick(cal.joinStart, cal.today, d.joinDate))
  }

  /** The customer table holds n rows with ids 1..n in order, each joined within the
      join window. */
  ghost predicate CustomersValid(customers: seq<Customer>, n: nat, cal: Calendar) {
    && |customers| == n
    && forall i :: 0 <= i < |customers| ==>
         && customers[i].customerId == i + 1
         && cal.joinStart <= customers[i].joinDate <= cal.today
  }

  /** The customer loop: for i in 1..numCustomers append customer i. */
  method GenerateCustomers(numCustomers: nat, cal: Calendar, draws: seq<CustomerDraw>)
    returns (customers: seq<Customer>)
    requires cal.Valid()
    requires |draws| == numCustomers
    ensures CustomersValid(customers, numCustomers, cal)
    ensures forall i :: 0 <= i < numCustomers ==> customers[i] == NewCustomer(i + 1, draws[i], cal)
  {
    var make := (id: int, d: CustomerDraw) => NewCustomer(id, d, cal);
    customers := [];
    var i := 1;
    while i <= numCustomers
      invariant 1 <= i <= numCustomers + 1
      invariant customers == Tabulate(make, draws, i - 1)
    {
      customers := customers + [NewCustomer(i, draws[i - 1], cal)];
      i := i + 1;
    }
    forall k | 0 <= k < numCustomers ensures customers[k] == NewCustomer(k + 1, draws[k], cal) {
      TabulateAt(make, draws, numCustomers, k);
    }
  }
}
