/** The backend's in-memory customer table and its routes: GET, POST, PUT and DELETE on `/customers`,
    and the customer count reported by `/health`. */
module Registry {
  import opened Wrappers
  import opened Http
  import opened Customers

  const NAME_AND_ADDRESS_REQUIRED: string := "Name and address are required"
  const CUSTOMER_NOT_FOUND: string := "Customer not found"

  /** The three records the table starts with. */
  function Seed(): seq<Customer> {
    [ Customer(1, "John Doe", "123 Main St", 450, None, None),
      Customer(2, "Jane Smith", "456 Oak Ave", 320, None, None),
      Customer(3, "Mike Johnson", "789 Pine Rd", 890, Some(HIGH_USAGE_ALERT), None) ]
  }

  /** The fields POST /customers reads from its JSON body; `None` is a missing or `null` field. */
  datatype CreateBody = CreateBody(name: Option<string>, address: Option<string>, initialUsage: Option<int>)

  /** JavaScript truthiness of a string field: present and non-empty. */
  predicate Present(field: Option<string>) {
    field.Some? && field.value != ""
  }

  /** The record POST /customers builds when the table holds `cs`: the next id is the current length
      plus one, and a missing (or zero) initial usage becomes 0. */
  function NewCustomer(cs: seq<Customer>, name: string, address: string, initialUsage: Option<int>, now: string): (c: Customer)
    ensures c.id == |cs| + 1
    ensures c.name == name && c.address == address && c.createdAt == Some(now)
    ensures c.monthlyUsage == initialUsage.GetOr(0)
    ensures Consistent(c)
  {
    Customer(
      |cs| + 1,
      name,
      address,
      initialUsage.GetOr(0),
      if initialUsage.Some? then AlertFor(initialUsage.value) else None,
      Some(now))
  }

  /** The found record after PUT /customers/:id/usage assigns its usage and re-derives its alert. */
  function WithUsage(c: Customer, usage: int): (r: Customer)
    ensures r.monthlyUsage == usage && Consistent(r)
    ensures r.id == c.id && r.name == c.name && r.address == c.address && r.createdAt == c.createdAt
  {
    c.(monthlyUsage := usage, alert := AlertFor(usage))
  }

  /** `cs.findIndex(c => c.id === id)`: the index of the FIRST record with that id, `None` for -1. */
  function FindIndex(cs: seq<Customer>, id: int): (r: Option<nat>)
    ensures r.Some? ==> r.value < |cs| && cs[r.value].id == id
    ensures r.Some? ==> forall k :: 0 <= k < r.value ==> cs[k].id != id
    ensures r.None? <==> forall k :: 0 <= k < |cs| ==> cs[k].id != id
  {
    if cs == [] then None
    else if cs[0].id == id then Some(0)
    else match FindIndex(cs[1..], id)
      case None => None
      case Some(i) => Some(i + 1)
  }

  /** Ids are 1, 2, ..., n in list order: what the seed starts with and what creates keep. */
  predicate IdsSequential(cs: seq<Customer>) {
    forall i :: 0 <= i < |cs| ==> cs[i].id == i + 1
  }

  predicate IdsUnique(cs: seq<Customer>) {
    forall i, j :: 0 <= i < j < |cs| ==> cs[i].id != cs[j].id
  }

  lemma SequentialIdsAreUnique(cs: seq<Customer>)
    requires IdsSequential(cs)
    ensures IdsUnique(cs)
  {
  }

  /** With sequential ids, deleting any record but the last makes the next create reuse the id of
      the record that is now last: the table then holds two records with one id. */
  lemma DeleteThenCreateReusesId(cs: seq<Customer>, i: nat, name: string, address: string, initialUsage: Option<int>, now: string)
    requires IdsSequential(cs)
    requires i < |cs| - 1
    ensures var rest := cs[..i] + cs[i + 1..];
            var c := NewCustomer(rest, name, address, initialUsage, now);
            |rest| > 0 && c.id == rest[|rest| - 1].id && !IdsUnique(rest + [c])
  {
    var rest := cs[..i] + cs[i + 1..];
    var c := NewCustomer(rest, name, address, initialUsage, now);
    assert rest[|rest| - 1] == cs[|cs| - 1];
    var both := rest + [c];
    assert both[|rest| - 1].id == both[|rest|].id;
  }

  /** The Express app's module-level state: the `customers` array and the handlers that use it. */
  class Server {
    var customers: seq<Customer>

    constructor ()
      ensures customers == Seed()
      ensures AllConsistent(customers) && IdsSequential(customers)
    {
      customers := Seed();
    }

    /** GET /customers */
    method GetCustomers() returns (all: seq<Customer>)
      ensures all == customers
    {
      all := customers;
    }

    /** The `customers` figure of GET /health. */
    method HealthCount() returns (count: nat)
      ensures count == |customers|
    {
      count := |customers|;
    }

    /** POST /customers */
    method PostCustomer(body: CreateBody, now: string) returns (r: Response<Customer>)
      modifies this
      ensures !(Present(body.name) && Present(body.address)) ==>
                r == Error(BAD_REQUEST, NAME_AND_ADDRESS_REQUIRED) && customers == old(customers)
      ensures Present(body.name) && Present(body.address) ==>
                r == Ok(NewCustomer(old(customers), body.name.value, body.address.value, body.initialUsage, now)) &&
                customers == old(customers) + [r.body]
      ensures AllConsistent(old(customers)) ==> AllConsistent(customers)
      ensures IdsSequential(old(customers)) ==> IdsSequential(customers)
    {
      if !Present(body.name) || !Present(body.address) {
        return Error(BAD_REQUEST, NAME_AND_ADDRESS_REQUIRED);
      }
      var c := NewCustomer(customers, body.name.value, body.address.value, body.initialUsage, now);
      customers := customers + [c];
      r := Ok(c);
    }

    /** PUT /customers/:id/usage: only the first record with the id changes, and in it only usage and alert. */
    method PutUsage(id: int, usage: int) returns (r: Response<Customer>)
      modifies this
      ensures FindIndex(old(customers), id).None? ==>
                r == Error(NOT_FOUND, CUSTOMER_NOT_FOUND) && customers == old(customers)
      ensures FindIndex(old(customers), id).Some? ==>
                var i := FindIndex(old(customers), id).value;
                r == Ok(WithUsage(old(customers)[i], usage)) && customers == old(customers)[i := r.body]
      ensures |customers| == |old(customers)|
      ensures AllConsistent(old(customers)) ==> AllConsistent(customers)
      ensures IdsSequential(old(customers)) ==> IdsSequential(customers)
      ensures IdsUnique(old(customers)) ==> IdsUnique(customers)
    {
      var found := FindIndex(customers, id);
      if found.None? {
        return Error(NOT_FOUND, CUSTOMER_NOT_FOUND);
      }
      var i := found.value;
      customers := customers[i := WithUsage(customers[i], usage)];
      r := Ok(customers[i]);
    }

    /** DELETE /customers/:id: `splice` removes the first record with the id and closes the gap. */
    method DeleteCustomer(id: int) returns (r: Response<()>)
      modifies this
      ensures FindIndex(old(customers), id).None? ==>
                r == Error(NOT_FOUND, CUSTOMER_NOT_FOUND) && customers == old(customers)
      ensures FindIndex(old(customers), id).Some? ==>
                var i := FindIndex(old(customers), id).value;
                r == Ok(()) && customers == old(customers)[..i] + old(customers)[i + 1..]
      ensures AllConsistent(old(customers)) ==> AllConsistent(customers)
      ensures IdsUnique(old(customers)) ==> IdsUnique(customers)
      ensures r.Ok? && IdsSequential(old(customers)) && FindIndex(old(customers), id).value < |old(customers)| - 1 ==>
                |customers| > 0 && customers[|customers| - 1].id == |customers| + 1
    {
      var found := FindIndex(customers, id);
      if found.None? {
        return Error(NOT_FOUND, CUSTOMER_NOT_FOUND);
      }
      var i := found.value;
      ghost var before := customers;
      customers := customers[..i] + customers[i + 1..];
      assert forall k :: 0 <= k < |customers| ==> customers[k] == (if k < i then before[k] else before[k + 1]);
      r := Ok(());
    }
  }

  /** The seed, one delete and one create: the new record gets id 3, which "Mike Johnson" already has. */
  method SeedDeleteThenCreate() returns (table: seq<Customer>)
    ensures |table| == 3
    ensures table[1].name == "Mike Johnson" && table[1].id == 3
    ensures table[2].id == 3 && table[2].alert == Some(HIGH_USAGE_ALERT)
    ensures !IdsUnique(table)
  {
    var server := new Server();
    var deleted := server.DeleteCustomer(1);
    assert server.customers == [Seed()[1], Seed()[2]];
    var reply := server.PostCustomer(CreateBody(Some("A"), Some("B"), Some(850)), "now");
    table := server.customers;
  }

  /** The seed, two deletes and one create: after deleting ids 1 and 2 the new record gets id 2,
      which no remaining record has, so reuse needs ids 1..n before the delete. */
  method SeedTwoDeletesThenCreate() returns (table: seq<Customer>)
    ensures |table| == 2 && table[0].id == 3 && table[1].id == 2
    ensures IdsUnique(table)
  {
    var server := new Server();
    var first := server.DeleteCustomer(1);
    assert server.customers == [Seed()[1], Seed()[2]];
    var second := server.DeleteCustomer(2);
    assert server.customers == [Seed()[2]];
    var reply := server.PostCustomer(CreateBody(Some("A"), Some("B"), None), "now");
    table := server.customers;
  }
}
