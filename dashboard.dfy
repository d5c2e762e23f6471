/** The employee dashboard's local customer list: how each handler rebuilds it from the previous list
    and the server's reply, the add-customer form guard, the test-customer request, and the "Alerts"
    figure. The lemmas compare the local list with the server's table after the same request. */
module Dashboard {
  import opened Wrappers
  import opened Http
  import opened Decimal
  import opened Customers
  import opened Registry

  // ----- requests the dashboard sends -----

  /** The text inputs of the "Add New Customer" row. */
  datatype Form = Form(name: string, address: string, initialUsage: string)

  /** The body `addCustomer` posts, or `None` when its guard stops it and nothing is sent.
      An empty usage field sends 0; otherwise `parseInt` of the text is sent, `NaN` travelling as `null`. */
  function AddCustomerBody(form: Form): (r: Option<CreateBody>)
    ensures r.None? <==> form.name == "" || form.address == ""
    ensures r.Some? ==> r.value.name == Some(form.name) && r.value.address == Some(form.address)
    ensures r.Some? ==> Present(r.value.name) && Present(r.value.address)
    ensures r.Some? && form.initialUsage == "" ==> r.value.initialUsage == Some(0)
  {
    if form.name == "" || form.address == "" then None
    else
      var usage := if form.initialUsage == "" then Some(0) else ParseInt(form.initialUsage);
      Some(CreateBody(Some(form.name), Some(form.address), usage))
  }

  /** A submitted form whose usage field holds the decimal text of `u` creates a record with usage `u`,
      whatever the table holds. */
  lemma SubmittedUsageReachesServer(form: Form, u: int, cs: seq<Customer>, now: string)
    requires form.name != "" && form.address != ""
    requires form.initialUsage == IntToString(u)
    ensures var body := AddCustomerBody(form).value;
            NewCustomer(cs, form.name, form.address, body.initialUsage, now).monthlyUsage == u
  {
    ParseIntRoundTrip(u);
  }

  /** The body `addTestCustomer` posts when the list has `count` entries; `roll` stands for
      `Math.floor(Math.random() * 500)`. */
  function TestCustomerBody(count: nat, roll: int): (body: CreateBody)
    requires 0 <= roll < 500
    ensures Present(body.name) && Present(body.address)
    ensures body.initialUsage.Some? && 200 <= body.initialUsage.value < 700
  {
    CreateBody(
      Some("Test Customer " + IntToString(count + 1)),
      Some(IntToString(count + 100) + " Test Street"),
      Some(roll + 200))
  }

  /** A test customer is always accepted and never starts with an alert. */
  lemma TestCustomerHasNoAlert(cs: seq<Customer>, count: nat, roll: int, now: string)
    requires 0 <= roll < 500
    ensures var body := TestCustomerBody(count, roll);
            !HasAlert(NewCustomer(cs, body.name.value, body.address.value, body.initialUsage, now))
  {
  }

  // ----- local list updates -----

  /** `[...customers, data.customer]` when the reply reports success (`addCustomer`, `addTestCustomer`). */
  function AfterAdd(list: seq<Customer>, reply: Response<Customer>): (r: seq<Customer>)
    ensures reply.Error? ==> r == list
    ensures reply.Ok? ==> |r| == |list| + 1 && r[..|list|] == list && r[|list|] == reply.body
  {
    if reply.Ok? then list + [reply.body] else list
  }

  /** `clearAlert`: every entry with the id loses its alert; the server is not told. */
  function ClearAlert(list: seq<Customer>, id: int): (r: seq<Customer>)
    ensures |r| == |list|
    ensures forall k :: 0 <= k < |list| ==> r[k].id == list[k].id && r[k].monthlyUsage == list[k].monthlyUsage
    ensures forall k :: 0 <= k < |list| && list[k].id != id ==> r[k] == list[k]
    ensures forall k :: 0 <= k < |list| && list[k].id == id ==> r[k].alert == None && r[k].(alert := list[k].alert) == list[k]
  {
    seq(|list|, k requires 0 <= k < |list| => if list[k].id == id then list[k].(alert := None) else list[k])
  }

  /** `customers.filter(customer => customer.id !== id)` */
  function WithoutId(list: seq<Customer>, id: int): (r: seq<Customer>)
    ensures |r| <= |list|
    ensures forall k :: 0 <= k < |r| ==> r[k].id != id
  {
    if list == [] then []
    else (if list[0].id != id then [list[0]] else []) + WithoutId(list[1..], id)
  }

  /** The filter keeps exactly the entries with another id. */
  lemma {:induction false} WithoutIdMembers(list: seq<Customer>, id: int, c: Customer)
    ensures c in WithoutId(list, id) <==> c in list && c.id != id
  {
    if list != [] {
      WithoutIdMembers(list[1..], id, c);
      assert list == [list[0]] + list[1..];
    }
  }

  /** `deleteCustomer` after the reply: filtered on success, unchanged otherwise. */
  function AfterDelete(list: seq<Customer>, id: int, reply: Response<()>): (r: seq<Customer>)
    ensures reply.Error? ==> r == list
    ensures reply.Ok? ==> forall k :: 0 <= k < |r| ==> r[k].id != id
    ensures reply.Ok? ==> r == WithoutId(list, id)
  {
    if reply.Ok? then WithoutId(list, id) else list
  }

  /** `customers.map(customer => customer.id === id ? returned : customer)` */
  function ReplaceId(list: seq<Customer>, id: int, returned: Customer): (r: seq<Customer>)
    ensures |r| == |list|
    ensures forall k :: 0 <= k < |list| ==> r[k] == (if list[k].id == id then returned else list[k])
  {
    seq(|list|, k requires 0 <= k < |list| => if list[k].id == id then returned else list[k])
  }

  /** `updateCustomerUsage` after the reply: map-replaced on success, unchanged otherwise. */
  function AfterUpdate(list: seq<Customer>, id: int, reply: Response<Customer>): (r: seq<Customer>)
    ensures |r| == |list|
    ensures reply.Error? ==> r == list
    ensures forall k :: 0 <= k < |list| && list[k].id != id ==> r[k] == list[k]
    ensures reply.Ok? ==> forall k :: 0 <= k < |list| && list[k].id == id ==> r[k] == reply.body
    ensures reply.Ok? ==> r == ReplaceId(list, id, reply.body)
  {
    if reply.Ok? then ReplaceId(list, id, reply.body) else list
  }

  /** The "Alerts" figure: `customers.filter(c => c.alert).length`. */
  function AlertCount(list: seq<Customer>): (n: nat)
    ensures n <= |list|
  {
    if list == [] then 0 else (if HasAlert(list[0]) then 1 else 0) + AlertCount(list[1..])
  }

  /** Reference count for the alert figure: entries whose usage is above the threshold. */
  function HighUsageCount(list: seq<Customer>): nat {
    if list == [] then 0
    else (if list[0].monthlyUsage > HIGH_USAGE_THRESHOLD then 1 else 0) + HighUsageCount(list[1..])
  }

  // ----- properties of the list updates -----

  /** On a list the server keeps consistent, the "Alerts" figure counts the high-usage entries. */
  lemma {:induction false} AlertCountOfConsistentList(list: seq<Customer>)
    requires AllConsistent(list)
    ensures AlertCount(list) == HighUsageCount(list)
  {
    if list != [] {
      ConsistentAlertIffHighUsage(list[0]);
      AlertCountOfConsistentList(list[1..]);
    }
  }

  /** Clearing an alert on any high-usage entry leaves the list inconsistent. */
  lemma ClearAlertBreaksConsistency(list: seq<Customer>, id: int, k: nat)
    requires k < |list| && list[k].id == id && list[k].monthlyUsage > HIGH_USAGE_THRESHOLD
    ensures !AllConsistent(ClearAlert(list, id))
  {
    assert !Consistent(ClearAlert(list, id)[k]);
  }

  /** The seed is consistent; clearing the alert of customer 3 makes it inconsistent. */
  lemma ClearAlertOnSeed()
    ensures AllConsistent(Seed())
    ensures !AllConsistent(ClearAlert(Seed(), 3))
  {
    ClearAlertBreaksConsistency(Seed(), 3, 2);
  }

  /** After `clearAlert(id)` the alerts left are exactly those of the entries with other ids. */
  lemma {:induction false} AlertCountAfterClear(list: seq<Customer>, id: int)
    ensures AlertCount(ClearAlert(list, id)) == AlertCount(WithoutId(list, id))
  {
    if list != [] {
      var cleared := ClearAlert(list, id);
      var kept := WithoutId(list, id);
      assert cleared[1..] == ClearAlert(list[1..], id);
      AlertCountAfterClear(list[1..], id);
      if list[0].id == id {
        assert !HasAlert(cleared[0]);
        assert kept == WithoutId(list[1..], id);
      } else {
        assert cleared[0] == list[0] == kept[0];
        assert kept[1..] == WithoutId(list[1..], id);
      }
    }
  }

  lemma {:induction false} WithoutAbsentId(list: seq<Customer>, id: int)
    requires forall k :: 0 <= k < |list| ==> list[k].id != id
    ensures WithoutId(list, id) == list
  {
    if list != [] {
      WithoutAbsentId(list[1..], id);
      assert [list[0]] + list[1..] == list;
    }
  }

  lemma {:induction false} WithoutIdDistributes(a: seq<Customer>, b: seq<Customer>, id: int)
    ensures WithoutId(a + b, id) == WithoutId(a, id) + WithoutId(b, id)
  {
    if a != [] {
      assert (a + b)[1..] == a[1..] + b;
      WithoutIdDistributes(a[1..], b, id);
    } else {
      assert a + b == b;
    }
  }

  /** Filtering out an id that only entry `i` has is splicing out entry `i`. */
  lemma WithoutSoleId(cs: seq<Customer>, id: int, i: nat)
    requires i < |cs| && cs[i].id == id
    requires forall k :: 0 <= k < |cs| && k != i ==> cs[k].id != id
    ensures WithoutId(cs, id) == cs[..i] + cs[i + 1..]
  {
    var before, after := cs[..i], cs[i + 1..];
    assert cs == (before + [cs[i]]) + after;
    WithoutIdDistributes(before + [cs[i]], after, id);
    WithoutIdDistributes(before, [cs[i]], id);
    WithoutAbsentId(before, id);
    WithoutAbsentId(after, id);
    var dropped := WithoutId([cs[i]], id);
    assert dropped == [] by {
      assert [cs[i]][1..] == [];
    }
  }

  /** With unique ids, the dashboard's filter after DELETE leaves exactly the server's new table
      (the old table with the found record spliced out), and a 404 leaves both unchanged. */
  lemma DeleteMirrorsServer(cs: seq<Customer>, id: int)
    requires IdsUnique(cs)
    ensures FindIndex(cs, id).None? ==> AfterDelete(cs, id, Error(NOT_FOUND, CUSTOMER_NOT_FOUND)) == cs
    ensures FindIndex(cs, id).Some? ==>
              var i := FindIndex(cs, id).value;
              AfterDelete(cs, id, Ok(())) == cs[..i] + cs[i + 1..]
  {
    if FindIndex(cs, id).Some? {
      var i := FindIndex(cs, id).value;
      forall k | 0 <= k < |cs| && k != i
        ensures cs[k].id != id
      {
        if k < i { assert cs[k].id != cs[i].id; } else { assert cs[i].id != cs[k].id; }
      }
      WithoutSoleId(cs, id, i);
    }
  }

  /** With two entries of one id, the server's DELETE removes only the first while the dashboard
      filters out both: the local list no longer matches the table. */
  lemma DeleteDivergesOnDuplicateId(cs: seq<Customer>, id: int, j: nat)
    requires FindIndex(cs, id).Some? && FindIndex(cs, id).value < j < |cs| && cs[j].id == id
    ensures var i := FindIndex(cs, id).value;
            WithoutId(cs, id) != cs[..i] + cs[i + 1..]
  {
    var i := FindIndex(cs, id).value;
    var server := cs[..i] + cs[i + 1..];
    assert server[j - 1] == cs[j];
    assert cs[j] in server;
  }

  /** With unique ids, the dashboard's map-replace after PUT leaves exactly the server's new table. */
  lemma UpdateMirrorsServer(cs: seq<Customer>, id: int, usage: int)
    requires IdsUnique(cs)
    ensures FindIndex(cs, id).None? ==> AfterUpdate(cs, id, Error(NOT_FOUND, CUSTOMER_NOT_FOUND)) == cs
    ensures FindIndex(cs, id).Some? ==>
              var i := FindIndex(cs, id).value;
              var updated := WithUsage(cs[i], usage);
              AfterUpdate(cs, id, Ok(updated)) == cs[i := updated]
  {
    if FindIndex(cs, id).Some? {
      var i := FindIndex(cs, id).value;
      var updated := WithUsage(cs[i], usage);
      var local := AfterUpdate(cs, id, Ok(updated));
      forall k | 0 <= k < |cs|
        ensures local[k] == cs[i := updated][k]
      {
        if k != i {
          assert cs[k].id != cs[i].id;
        }
      }
    }
  }

  /** With two entries of one id, the server updates only the first, while the dashboard overwrites
      the second too with the first one's updated record (its name and address included). */
  lemma UpdateDivergesOnDuplicateId(cs: seq<Customer>, id: int, usage: int, j: nat)
    requires FindIndex(cs, id).Some? && FindIndex(cs, id).value < j < |cs| && cs[j].id == id
    ensures var i := FindIndex(cs, id).value;
            var updated := WithUsage(cs[i], usage);
            AfterUpdate(cs, id, Ok(updated))[j] == updated && cs[i := updated][j] == cs[j]
  {
  }

  /** From the seed: delete customer 1, add a customer (who gets id 3 again), then delete id 3.
      The server keeps one record with id 3; the dashboard shows none. */
  method DuplicateIdDeleteScenario() returns (local: seq<Customer>, table: seq<Customer>)
    ensures |table| == 2 && table[1].id == 3
    ensures forall k :: 0 <= k < |local| ==> local[k].id != 3
  {
    var server := new Server();
    var r1 := server.DeleteCustomer(1);
    DeleteMirrorsServer(Seed(), 1);
    local := AfterDelete(Seed(), 1, r1);
    assert local == server.customers && |local| == 2 && local[0].id == 2 && local[1].id == 3;
    var r2 := server.PostCustomer(CreateBody(Some("A"), Some("B"), Some(850)), "now");
    local := AfterAdd(local, r2);
    assert local == server.customers && |local| == 3 && local[0].id == 2 && local[2].id == 3;
    var r3 := server.DeleteCustomer(3);
    local := AfterDelete(local, 3, r3);
    table := server.customers;
  }
}
