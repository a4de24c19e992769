/**
 Water supplied by tanker to customers: the records, and the rules that keep a
 customer's pending balance in step with the paid-state of that customer's
 supplies (saving a supply, and the guard on deleting one).
 */
module Models {

  datatype Option<+T> = None | Some(value: T)

  type CustomerId = nat
  type SupplyId = nat
  type TankerId = nat
  type DriverId = nat
  type CategoryId = nat

  /** A calendar date, as a day number. */
  type Date = int

  /** An amount of money in minor units. */
  type Money = int

  /** The paid-state of a supply. The stored text is compared after lower-casing,
      so every spelling of "no" is `No` and every spelling of "yes" is `Yes`. */
  datatype Paid = No | Yes

  datatype Customer = Customer(
    name: string,
    address: string,
    category: CategoryId,
    pendingAmount: Money,
    active: bool)

  datatype Supply = Supply(
    date: Date,
    customer: CustomerId,
    amount: Money,
    paid: Paid,
    tanker: TankerId,
    driver: Option<DriverId>)

  /** The result of an operation that may be refused. */
  datatype Outcome = Pass | Fail(message: string)

  const PendingNotCleared := "Before deleting make sure pending amount is cleared"

  predicate Distinct<T(==)>(s: seq<T>) {
    forall j, k :: 0 <= j < k < |s| ==> s[j] != s[k]
  }

  /** Supply `id` is stored, belongs to customer `c` and is not paid. */
  predicate UnpaidOf(supplies: map<SupplyId, Supply>, id: SupplyId, c: CustomerId) {
    id in supplies && supplies[id].customer == c && supplies[id].paid == No
  }

  /** What supply `id` adds to what customer `c` owes. */
  function Contribution(supplies: map<SupplyId, Supply>, id: SupplyId, c: CustomerId): Money {
    if UnpaidOf(supplies, id, c) then supplies[id].amount else 0
  }

  /** Some element of a non-empty set of identities. */
  ghost function Pick(ids: set<SupplyId>): (i: SupplyId)
    requires ids != {}
    ensures i in ids
  {
    var i :| i in ids; i
  }

  /** The total amount of the unpaid supplies of `c` among `ids`. */
  ghost function OwedOver(supplies: map<SupplyId, Supply>, c: CustomerId, ids: set<SupplyId>): Money
    decreases ids
  {
    if ids == {} then 0
    else
      var i := Pick(ids);
      Contribution(supplies, i, c) + OwedOver(supplies, c, ids - {i})
  }

  /** The total amount of all unpaid supplies of `c`: what `c`'s pending balance should be. */
  ghost function Owed(supplies: map<SupplyId, Supply>, c: CustomerId): Money {
    OwedOver(supplies, c, supplies.Keys)
  }

  /** The sum does not depend on which element is taken out first. */
  lemma {:induction false} OwedOverRemove(supplies: map<SupplyId, Supply>, c: CustomerId, ids: set<SupplyId>, k: SupplyId)
    requires k in ids
    ensures OwedOver(supplies, c, ids) == Contribution(supplies, k, c) + OwedOver(supplies, c, ids - {k})
    decreases ids
  {
    var i := Pick(ids);
    if i != k {
      OwedOverRemove(supplies, c, ids - {i}, k);
      OwedOverRemove(supplies, c, ids - {k}, i);
      assert ids - {i} - {k} == ids - {k} - {i};
    }
  }

  /** Two stores whose supplies among `ids` contribute alike owe alike over `ids`. */
  lemma {:induction false} OwedOverAgree(s: map<SupplyId, Supply>, t: map<SupplyId, Supply>, c: CustomerId, ids: set<SupplyId>)
    requires forall i :: i in ids ==> Contribution(s, i, c) == Contribution(t, i, c)
    ensures OwedOver(s, c, ids) == OwedOver(t, c, ids)
    decreases ids
  {
    if ids != {} {
      var i := Pick(ids);
      OwedOverAgree(s, t, c, ids - {i});
      OwedOverRemove(t, c, ids, i);
    }
  }

  /** Nothing is owed over ids none of which is an unpaid supply of `c`. */
  lemma {:induction false} OwedOverNothing(supplies: map<SupplyId, Supply>, c: CustomerId, ids: set<SupplyId>)
    requires forall i :: i in ids ==> !UnpaidOf(supplies, i, c)
    ensures OwedOver(supplies, c, ids) == 0
    decreases ids
  {
    if ids != {} {
      var i := Pick(ids);
      OwedOverNothing(supplies, c, ids - {i});
    }
  }

  /** Writing one supply record changes what `c` owes by the new record's
      contribution less the old one's. */
  lemma OwedAfterPut(supplies: map<SupplyId, Supply>, id: SupplyId, sup: Supply, c: CustomerId)
    ensures Owed(supplies[id := sup], c)
         == Owed(supplies, c) - Contribution(supplies, id, c)
            + (if sup.customer == c && sup.paid == No then sup.amount else 0)
  {
    var t := supplies[id := sup];
    OwedOverRemove(t, c, t.Keys, id);
    assert t.Keys - {id} == supplies.Keys - {id};
    OwedOverAgree(t, supplies, c, supplies.Keys - {id});
    if id in supplies {
      OwedOverRemove(supplies, c, supplies.Keys, id);
    } else {
      assert supplies.Keys - {id} == supplies.Keys;
    }
  }

  /** Removing one supply record takes its contribution off what `c` owes. */
  lemma OwedAfterRemove(supplies: map<SupplyId, Supply>, id: SupplyId, c: CustomerId)
    requires id in supplies
    ensures Owed(supplies - {id}, c) == Owed(supplies, c) - Contribution(supplies, id, c)
  {
    var t := supplies - {id};
    OwedOverRemove(supplies, c, supplies.Keys, id);
    assert t.Keys == supplies.Keys - {id};
    OwedOverAgree(t, supplies, c, t.Keys);
  }

  /** Writing `incoming` as supply `id` leaves the customer and the amount of the
      record as stored whenever that record is unpaid. A paid record adds nothing
      to what anyone owes, so its customer and amount may change freely. */
  predicate KeepsUnpaidCustomerAndAmount(supplies: map<SupplyId, Supply>, id: SupplyId, incoming: Supply) {
    id in supplies && supplies[id].paid == No ==>
      supplies[id].customer == incoming.customer && supplies[id].amount == incoming.amount
  }

  /** The stored records: customers and supplies by identity. */
  class Store {
    var customers: map<CustomerId, Customer>
    var supplies: map<SupplyId, Supply>
    /** Every save of a customer record, in order. */
    ghost var customerSaves: seq<CustomerId>

    /** Every supply refers to a stored customer (the database's foreign key). */
    ghost predicate ReferencesValid()
      reads this
    {
      forall i :: i in supplies ==> supplies[i].customer in customers
    }

    /** How far `c`'s stored pending balance is from what `c`'s unpaid supplies add up to. */
    ghost function Discrepancy(c: CustomerId): Money
      reads this
      requires c in customers
    {
      customers[c].pendingAmount - Owed(supplies, c)
    }

    /** Every customer's pending balance equals the total of that customer's unpaid supplies. */
    ghost predicate Consistent()
      reads this
    {
      ReferencesValid() && forall c :: c in customers ==> Discrepancy(c) == 0
    }

    constructor (customers: map<CustomerId, Customer>)
      ensures this.customers == customers && supplies == map[] && customerSaves == []
    {
      this.customers := customers;
      supplies := map[];
      customerSaves := [];
    }

    /** Adds `delta` to customer `c`'s pending balance and saves that customer. */
    method AdjustPending(c: CustomerId, delta: Money)
      requires c in customers
      modifies this
      ensures customers == old(customers)[c := old(customers)[c].(pendingAmount := old(customers)[c].pendingAmount + delta)]
      ensures supplies == old(supplies)
      ensures customerSaves == old(customerSaves) + [c]
    {
      customers := customers[c := customers[c].(pendingAmount := customers[c].pendingAmount + delta)];
      customerSaves := customerSaves + [c];
    }

    /** Saves supply `id` with the values `incoming`: the balance reconciliation that
        runs before the write (against the record as stored, if there is one), then
        the write. The balance moves only on creation as unpaid and on a change of
        paid-state, always by the incoming amount and on the incoming customer. */
    method Save(id: SupplyId, incoming: Supply)
      requires incoming.customer in customers
      modifies this
      ensures supplies == old(supplies)[id := incoming]
      ensures var c := incoming.customer;
        var raise := old(customers)[c := old(customers)[c].(pendingAmount := old(customers)[c].pendingAmount + incoming.amount)];
        var lower := old(customers)[c := old(customers)[c].(pendingAmount := old(customers)[c].pendingAmount - incoming.amount)];
        if id !in old(supplies) then
          if incoming.paid == No then customers == raise && customerSaves == old(customerSaves) + [c]
          else customers == old(customers) && customerSaves == old(customerSaves)
        else if old(supplies)[id].paid == incoming.paid then
          customers == old(customers) && customerSaves == old(customerSaves)
        else if incoming.paid == No then
          customers == raise && customerSaves == old(customerSaves) + [c]
        else
          customers == lower && customerSaves == old(customerSaves) + [c]
      ensures KeepsUnpaidCustomerAndAmount(old(supplies), id, incoming) ==>
        forall c :: c in customers ==> Discrepancy(c) == old(Discrepancy(c))
      ensures old(ReferencesValid()) ==> ReferencesValid()
      ensures old(Consistent()) && KeepsUnpaidCustomerAndAmount(old(supplies), id, incoming) ==> Consistent()
    {
      ghost var before := supplies;
      var c := incoming.customer;
      if id in supplies {
        var prior := supplies[id];
        if prior.paid != incoming.paid {
          if incoming.paid == No {
            AdjustPending(c, incoming.amount);
          } else {
            AdjustPending(c, -incoming.amount);
          }
        }
      } else if incoming.paid == No {
        AdjustPending(c, incoming.amount);
      }
      supplies := supplies[id := incoming];
      forall d | d in customers
        ensures Owed(supplies, d) == Owed(before, d) - Contribution(before, id, d)
                  + (if incoming.customer == d && incoming.paid == No then incoming.amount else 0)
      {
        OwedAfterPut(before, id, incoming, d);
      }
    }

    /** Deletes supply `id`, refusing while it is unpaid. Deleting a paid supply
        leaves every balance as it is. */
    method Delete(id: SupplyId) returns (outcome: Outcome)
      requires id in supplies
      modifies this
      ensures old(supplies)[id].paid == No ==> outcome == Fail(PendingNotCleared) && supplies == old(supplies)
      ensures old(supplies)[id].paid == Yes ==> outcome == Pass && supplies == old(supplies) - {id}
      ensures customers == old(customers) && customerSaves == old(customerSaves)
      ensures forall c :: c in customers ==> Discrepancy(c) == old(Discrepancy(c))
      ensures old(Consistent()) ==> Consistent()
    {
      if supplies[id].paid == No {
        return Fail(PendingNotCleared);
      }
      ghost var before := supplies;
      supplies := supplies - {id};
      forall d | d in customers
        ensures Owed(supplies, d) == Owed(before, d)
      {
        OwedAfterRemove(before, id, d);
      }
      outcome := Pass;
    }
  }

  /** Creating a supply unpaid and then saving it as paid puts every balance back
      where it was. */
  method CreateThenPay(store: Store, id: SupplyId, sup: Supply)
    requires id !in store.supplies && sup.customer in store.customers && sup.paid == No
    modifies store
    ensures store.customers == old(store.customers)
    ensures store.supplies == old(store.supplies)[id := sup.(paid := Yes)]
  {
    store.Save(id, sup);
    store.Save(id, sup.(paid := Yes));
  }

  /** Re-saving an unpaid supply with a larger amount leaves the balance where it
      was, so the balance then falls short of what the supplies add up to. */
  method AmountEditLeavesBalanceStale(store: Store, id: SupplyId, extra: Money)
    requires store.Consistent() && id in store.supplies && store.supplies[id].paid == No
    requires extra > 0
    modifies store
    ensures id in store.supplies && store.supplies[id].customer in store.customers
    ensures store.Discrepancy(store.supplies[id].customer) == -extra
  {
    var sup := store.supplies[id];
    var edited := sup.(amount := sup.amount + extra);
    store.Save(id, edited);
    OwedAfterPut(old(store.supplies), id, edited, sup.customer);
  }
}
