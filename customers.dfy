/**
 * The admin customer list of `customer.service.ts`: the published list, mirrored under the
 * `customers` key on every change, and the dashboard statistics computed from it.
 */
module Customers {
  import opened Wrappers
  import opened Records
  import opened Persistence

  datatype Customer = Customer(
    id: int, username: string, email: string, fullName: string, phone: string, address: string,
    city: string, district: string, ward: string, dateOfBirth: string, gender: string,
    joinedDate: string, lastOrderDate: string, totalOrders: int, totalSpent: int, status: string,
    membershipLevel: string, notes: string, selected: Option<bool>)

  const CustomersKey := "customers"

  function CustomerId(c: Customer): int {
    c.id
  }

  /** `generateNextId(customers)` */
  function NextCustomerId(customers: seq<Customer>): (id: int)
    ensures id >= 1
    ensures forall i :: 0 <= i < |customers| ==> customers[i].id < id
  {
    NextIdFresh(Keys(customers, CustomerId));
    NextId(Keys(customers, CustomerId))
  }

  /** The record `addCustomer` appends: the argument with the generated id. */
  function WithNextId(customers: seq<Customer>, customer: Customer): (c: Customer)
    ensures c.id == NextCustomerId(customers)
    ensures c == customer.(id := c.id)
  {
    customer.(id := NextCustomerId(customers))
  }

  /** The list `deleteCustomer` publishes: every record with that id is gone. */
  function WithoutCustomer(customers: seq<Customer>, customerId: int): (r: seq<Customer>)
    ensures forall i :: 0 <= i < |r| ==> r[i].id != customerId
    ensures forall c :: c in customers && c.id != customerId ==> c in r
    ensures IsSubsequence(r, customers)
  {
    var keep := (c: Customer) => c.id != customerId;
    FilterMembers(customers, keep);
    FilterSubsequence(customers, keep);
    Filter(customers, keep)
  }

  /** Unique ids stay unique through an add, an update of a found record, and a delete. */
  lemma {:induction false} MutatorsKeepIdsUnique(customers: seq<Customer>, customer: Customer, updated: Customer, customerId: int)
    requires UniqueBy(customers, CustomerId)
    ensures UniqueBy(customers + [WithNextId(customers, customer)], CustomerId)
    ensures match FirstIndex(customers, (c: Customer) => c.id == updated.id)
            case None => true
            case Some(k) => UniqueBy(customers[k := updated], CustomerId)
    ensures UniqueBy(WithoutCustomer(customers, customerId), CustomerId)
  {
    AppendNextIdKeepsUnique(customers, CustomerId, WithNextId(customers, customer));
    FilterKeepsUnique(customers, (c: Customer) => c.id != customerId, CustomerId);
    match FirstIndex(customers, (c: Customer) => c.id == updated.id)
    case None =>
    case Some(k) => ReplaceKeepsUnique(customers, CustomerId, k, updated);
  }

  /** The object `getCustomerStats` emits. */
  datatype CustomerStats = CustomerStats(totalCustomers: nat, activeCustomers: nat, totalRevenue: int, avgOrderValue: real)

  predicate IsActive(c: Customer) {
    c.status == "Active"
  }

  function TotalSpent(customers: seq<Customer>): int {
    if customers == [] then 0 else customers[0].totalSpent + TotalSpent(customers[1..])
  }

  function TotalOrders(customers: seq<Customer>): int {
    if customers == [] then 0 else customers[0].totalOrders + TotalOrders(customers[1..])
  }

  /**
   * `getCustomerStats`: the number of customers, how many have status exactly `Active`, the total
   * spent, and the revenue per order (0 when there are no orders).
   */
  function Stats(customers: seq<Customer>): (s: CustomerStats)
    ensures s.totalCustomers == |customers|
    ensures s.activeCustomers <= s.totalCustomers
    ensures s.activeCustomers == |Filter(customers, IsActive)|
    ensures s.totalRevenue == TotalSpent(customers)
    ensures TotalOrders(customers) <= 0 ==> s.avgOrderValue == 0.0
    ensures TotalOrders(customers) > 0 ==> s.avgOrderValue * (TotalOrders(customers) as real) == s.totalRevenue as real
  {
    var totalRevenue := TotalSpent(customers);
    var totalOrders := TotalOrders(customers);
    CustomerStats(
      |customers|,
      |Filter(customers, IsActive)|,
      totalRevenue,
      if totalOrders > 0 then totalRevenue as real / totalOrders as real else 0.0)
  }

  /** The active count is the number of customers whose status is exactly `Active`. */
  lemma ActiveCount(customers: seq<Customer>)
    ensures Stats(customers).activeCustomers == Count(customers, IsActive)
  {
    FilterLength(customers, IsActive);
  }

  class CustomerService {
    const browser: bool
    const storage: LocalStorage
    const codec: Codec<seq<Customer>>
    /** The value of `customersSubject`. */
    var customers: seq<Customer>

    /** The constructor runs the load path: `loadCustomers` in a browser, `loadCustomersFromJson` elsewhere. */
    constructor(browser: bool, storage: LocalStorage, codec: Codec<seq<Customer>>, seed: Option<seq<Customer>>, writeOk: bool)
      modifies storage
      ensures this.browser == browser && this.storage == storage && this.codec == codec
      ensures Snapshot(customers, storage.entries) == Load(browser, CustomersKey, old(storage.entries), codec, seed, writeOk, false)
    {
      var loaded := LoadInto(storage, browser, CustomersKey, codec, seed, writeOk, false);
      this.browser := browser;
      this.storage := storage;
      this.codec := codec;
      customers := loaded;
    }

    /**
     * `addCustomer`: append the argument under the next id and persist; when the write fails the
     * list is put back and the Observable errors.
     */
    method AddCustomer(customer: Customer, writeOk: bool) returns (r: Outcome<Customer>)
      modifies this, storage
      ensures var added := WithNextId(old(customers), customer);
              if browser && !writeOk then
                r == Error && customers == old(customers) && storage.entries == old(storage.entries)
              else
                r == Next(added) && customers == old(customers) + [added] &&
                storage.entries == Written(old(storage.entries), CustomersKey, codec.encode(customers), browser)
    {
      var currentCustomers := customers;
      var newCustomer := WithNextId(currentCustomers, customer);
      var updatedCustomers := currentCustomers + [newCustomer];
      customers := updatedCustomers;
      var ok := Persist(storage, browser, CustomersKey, codec, updatedCustomers, writeOk);
      if !ok {
        customers := currentCustomers;
        return Error;
      }
      r := Next(newCustomer);
    }

    /**
     * `updateCustomer`: replace the first record with the same id and persist (a failed write is
     * not rolled back); `None` (the `null` result) when no record has that id.
     */
    method UpdateCustomer(updatedCustomer: Customer, writeOk: bool) returns (r: Option<Customer>)
      modifies this, storage
      ensures match FirstIndex(old(customers), (c: Customer) => c.id == updatedCustomer.id)
              case None =>
                r == None && customers == old(customers) && storage.entries == old(storage.entries)
              case Some(k) =>
                r == Some(updatedCustomer) && customers == old(customers)[k := updatedCustomer] &&
                storage.entries == Written(old(storage.entries), CustomersKey, codec.encode(customers), browser && writeOk)
    {
      var currentCustomers := customers;
      var customerIndex := FirstIndex(currentCustomers, (c: Customer) => c.id == updatedCustomer.id);
      if customerIndex.Some? {
        var updatedCustomers := currentCustomers[customerIndex.value := updatedCustomer];
        customers := updatedCustomers;
        var _ := Persist(storage, browser, CustomersKey, codec, updatedCustomers, writeOk);
        r := Some(updatedCustomers[customerIndex.value]);
      } else {
        r := None;
      }
    }

    /** `deleteCustomer`: `true` and every record with that id removed, or `false` and no change. */
    method DeleteCustomer(customerId: int, writeOk: bool) returns (deleted: bool)
      modifies this, storage
      ensures deleted <==> exists i :: 0 <= i < |old(customers)| && old(customers)[i].id == customerId
      ensures deleted ==> customers == WithoutCustomer(old(customers), customerId) &&
                          storage.entries == Written(old(storage.entries), CustomersKey, codec.encode(customers), browser && writeOk)
      ensures !deleted ==> customers == old(customers) && storage.entries == old(storage.entries)
    {
      var currentCustomers := customers;
      var customerIndex := FirstIndex(currentCustomers, (c: Customer) => c.id == customerId);
      if customerIndex.Some? {
        var updatedCustomers := WithoutCustomer(currentCustomers, customerId);
        customers := updatedCustomers;
        var _ := Persist(storage, browser, CustomersKey, codec, updatedCustomers, writeOk);
        deleted := true;
      } else {
        deleted := false;
      }
    }

    function GetCustomerStats(): (s: CustomerStats)
      reads this
      ensures s.totalCustomers == |customers| && s.activeCustomers <= s.totalCustomers
      ensures s.activeCustomers == Count(customers, IsActive) && s.totalRevenue == TotalSpent(customers)
      ensures TotalOrders(customers) <= 0 ==> s.avgOrderValue == 0.0
      ensures TotalOrders(customers) > 0 ==> s.avgOrderValue * (TotalOrders(customers) as real) == s.totalRevenue as real
    {
      ActiveCount(customers);
      Stats(customers)
    }
  }
}
