/**
 The admin actions over a selection of supplies: marking them all paid in one
 batch, and the totals shown on the printed statement.
 */
module Admin {
  import opened Models

  /** The selected ids are stored supplies. */
  predicate AllStored(supplies: map<SupplyId, Supply>, selection: seq<SupplyId>) {
    forall k :: 0 <= k < |selection| ==> selection[k] in supplies
  }

  /** Some selected supply is an unpaid supply of `c`. */
  predicate HasUnpaid(supplies: map<SupplyId, Supply>, selection: seq<SupplyId>, c: CustomerId) {
    exists k :: 0 <= k < |selection| && UnpaidOf(supplies, selection[k], c)
  }

  /** The total amount of the selected unpaid supplies of `c`; paid ones add nothing. */
  function UnpaidTotal(supplies: map<SupplyId, Supply>, selection: seq<SupplyId>, c: CustomerId): Money {
    if selection == [] then 0
    else UnpaidTotal(supplies, selection[..|selection| - 1], c) + Contribution(supplies, selection[|selection| - 1], c)
  }

  /** The supplies after the batch write that sets every selected one to paid. */
  function MarkPaid(supplies: map<SupplyId, Supply>, selection: seq<SupplyId>): map<SupplyId, Supply> {
    map i | i in supplies :: if i in selection then supplies[i].(paid := Yes) else supplies[i]
  }

  /** The first pass of the bulk payment: per customer, the total amount of the
      selected supplies still unpaid. A customer appears exactly when one of its
      selected supplies is unpaid. */
  method AccumulateUnpaid(supplies: map<SupplyId, Supply>, selection: seq<SupplyId>)
    returns (totals: map<CustomerId, Money>)
    requires AllStored(supplies, selection)
    ensures forall c :: c in totals <==> HasUnpaid(supplies, selection, c)
    ensures forall c :: c in totals ==> totals[c] == UnpaidTotal(supplies, selection, c)
    ensures forall c :: c !in totals ==> UnpaidTotal(supplies, selection, c) == 0
  {
    totals := map[];
    var k := 0;
    while k < |selection|
      invariant 0 <= k <= |selection|
      invariant forall c :: c in totals <==> HasUnpaid(supplies, selection[..k], c)
      invariant forall c :: c in totals ==> totals[c] == UnpaidTotal(supplies, selection[..k], c)
      invariant forall c :: c !in totals ==> UnpaidTotal(supplies, selection[..k], c) == 0
    {
      assert selection[..k + 1][..k] == selection[..k];
      assert forall c :: HasUnpaid(supplies, selection[..k + 1], c)
                     <==> HasUnpaid(supplies, selection[..k], c) || UnpaidOf(supplies, selection[k], c);
      var sup := supplies[selection[k]];
      if sup.paid == No {
        if sup.customer !in totals {
          totals := totals[sup.customer := sup.amount];
        } else {
          totals := totals[sup.customer := totals[sup.customer] + sup.amount];
        }
      }
      k := k + 1;
    }
    assert selection[..k] == selection;
  }

  /** Marks every selected supply paid with one batch write that does not run the
      per-record reconciliation, then lowers each affected customer's pending
      balance by that customer's total, saving each such customer once. */
  method MarkAsPaid(store: Store, selection: seq<SupplyId>) returns (ghost written: seq<CustomerId>)
    requires AllStored(store.supplies, selection) && Distinct(selection)
    requires forall k :: 0 <= k < |selection| ==> store.supplies[selection[k]].customer in store.customers
    modifies store
    ensures store.supplies == MarkPaid(old(store.supplies), selection)
    ensures store.customers.Keys == old(store.customers).Keys
    ensures forall c :: c in store.customers ==>
      store.customers[c] == old(store.customers)[c].(pendingAmount :=
        old(store.customers)[c].pendingAmount - UnpaidTotal(old(store.supplies), selection, c))
    ensures store.customerSaves == old(store.customerSaves) + written && Distinct(written)
    ensures forall c :: c in written <==> HasUnpaid(old(store.supplies), selection, c)
    ensures forall c :: c in store.customers ==> store.Discrepancy(c) == old(store.Discrepancy(c))
    ensures old(store.Consistent()) ==> store.Consistent()
  {
    ghost var supplies0 := store.supplies;
    ghost var customers0 := store.customers;
    ghost var saves0 := store.customerSaves;

    var totals := AccumulateUnpaid(store.supplies, selection);
    assert forall c :: c in totals ==> c in customers0;

    store.supplies := MarkPaid(store.supplies, selection);

    written := ApplyTotals(store, totals);
    assert store.supplies == MarkPaid(supplies0, selection);

    forall c | c in store.customers
      ensures store.customers[c].pendingAmount == customers0[c].pendingAmount - UnpaidTotal(supplies0, selection, c)
      ensures Owed(store.supplies, c) == Owed(supplies0, c) - UnpaidTotal(supplies0, selection, c)
    {
      MarkPaidSettles(supplies0, selection, c);
    }
  }

  /** The second pass of the bulk payment: lowers the pending balance of each
      customer in `totals` by that customer's total, saving each such customer
      once; every other customer is left alone. */
  method ApplyTotals(store: Store, totals: map<CustomerId, Money>) returns (ghost written: seq<CustomerId>)
    requires totals.Keys <= store.customers.Keys
    modifies store
    ensures store.supplies == old(store.supplies)
    ensures store.customers.Keys == old(store.customers).Keys
    ensures forall c :: c in store.customers ==>
      store.customers[c] == old(store.customers)[c].(pendingAmount :=
        old(store.customers)[c].pendingAmount - (if c in totals then totals[c] else 0))
    ensures store.customerSaves == old(store.customerSaves) + written && Distinct(written)
    ensures forall c :: c in written <==> c in totals
  {
    ghost var customers0 := store.customers;
    ghost var saves0 := store.customerSaves;
    var remaining := totals.Keys;
    written := [];
    while remaining != {}
      invariant remaining <= totals.Keys
      invariant store.supplies == old(store.supplies)
      invariant store.customers.Keys == customers0.Keys
      invariant forall c :: c in customers0 ==>
        store.customers[c] == customers0[c].(pendingAmount :=
          customers0[c].pendingAmount - (if c in totals && c !in remaining then totals[c] else 0))
      invariant store.customerSaves == saves0 + written && Distinct(written)
      invariant forall c :: c in written <==> c in totals && c !in remaining
      decreases remaining
    {
      var c :| c in remaining;
      store.AdjustPending(c, -totals[c]);
      written := written + [c];
      remaining := remaining - {c};
    }
  }

  /** The batch write lowers what `c` owes by exactly the total of `c`'s selected
      unpaid supplies: each one moves from unpaid to paid once. */
  lemma {:induction false} MarkPaidSettles(supplies: map<SupplyId, Supply>, selection: seq<SupplyId>, c: CustomerId)
    requires AllStored(supplies, selection) && Distinct(selection)
    ensures Owed(MarkPaid(supplies, selection), c) == Owed(supplies, c) - UnpaidTotal(supplies, selection, c)
  {
    if selection == [] {
      assert MarkPaid(supplies, selection) == supplies;
    } else {
      var front := selection[..|selection| - 1];
      var x := selection[|selection| - 1];
      var m := MarkPaid(supplies, front);
      MarkPaidSettles(supplies, front, c);
      assert selection == front + [x];
      assert x !in front;
      assert MarkPaid(supplies, selection) == m[x := m[x].(paid := Yes)];
      OwedAfterPut(m, x, m[x].(paid := Yes), c);
    }
  }

  /** After one batch, no selected supply is unpaid: running the action again on
      the same selection settles nothing. */
  lemma {:induction false} MarkPaidTwiceSettlesNothing(supplies: map<SupplyId, Supply>, selection: seq<SupplyId>, c: CustomerId)
    requires AllStored(supplies, selection)
    ensures !HasUnpaid(MarkPaid(supplies, selection), selection, c)
    ensures UnpaidTotal(MarkPaid(supplies, selection), selection, c) == 0
    ensures MarkPaid(MarkPaid(supplies, selection), selection) == MarkPaid(supplies, selection)
  {
    var m := MarkPaid(supplies, selection);
    UnpaidTotalOfNone(m, selection, selection, c);
  }

  /** Selected ids drawn from `pool` none of which is unpaid add up to nothing. */
  lemma {:induction false} UnpaidTotalOfNone(supplies: map<SupplyId, Supply>, selection: seq<SupplyId>, pool: seq<SupplyId>, c: CustomerId)
    requires forall k :: 0 <= k < |selection| ==> selection[k] in pool
    requires forall i :: i in pool ==> i in supplies && supplies[i].paid == Yes
    ensures UnpaidTotal(supplies, selection, c) == 0
  {
    if selection != [] {
      UnpaidTotalOfNone(supplies, selection[..|selection| - 1], pool, c);
    }
  }

  /** A selection that holds every unpaid supply of `c` totals exactly what `c` owes. */
  lemma SelectionCoveringOwed(supplies: map<SupplyId, Supply>, selection: seq<SupplyId>, c: CustomerId)
    requires AllStored(supplies, selection) && Distinct(selection)
    requires forall i :: UnpaidOf(supplies, i, c) ==> i in selection
    ensures UnpaidTotal(supplies, selection, c) == Owed(supplies, c)
  {
    var m := MarkPaid(supplies, selection);
    MarkPaidSettles(supplies, selection, c);
    OwedOverNothing(m, c, m.Keys);
  }

  /** Bulk payment over a selection holding every unpaid supply of `c` clears `c`'s balance. */
  method PayEverythingClearsBalance(store: Store, selection: seq<SupplyId>, c: CustomerId)
    requires store.Consistent() && c in store.customers
    requires AllStored(store.supplies, selection) && Distinct(selection)
    requires forall i :: UnpaidOf(store.supplies, i, c) ==> i in selection
    modifies store
    ensures store.Consistent()
    ensures c in store.customers && store.customers[c].pendingAmount == 0
  {
    SelectionCoveringOwed(store.supplies, selection, c);
    var written := MarkAsPaid(store, selection);
  }

  /** Three unpaid supplies (100, 200, 50) and one paid supply (999) of customer `a`. */
  function ThreeUnpaidOnePaid(a: CustomerId): map<SupplyId, Supply> {
    map[1 := Supply(1, a, 100, No, 0, None), 2 := Supply(2, a, 200, No, 0, None),
        3 := Supply(3, a, 50, No, 0, None), 4 := Supply(4, a, 999, Yes, 0, None)]
  }

  /** Over all four of those supplies the bulk payment settles 350 for `a`, and
      nothing for any other customer. */
  lemma ThreeUnpaidOnePaidSettles350(a: CustomerId, c: CustomerId)
    ensures UnpaidTotal(ThreeUnpaidOnePaid(a), [1, 2, 3, 4], c) == if c == a then 350 else 0
    ensures HasUnpaid(ThreeUnpaidOnePaid(a), [1, 2, 3, 4], c) <==> c == a
  {
    var s := ThreeUnpaidOnePaid(a);
    assert [1, 2, 3, 4][..3] == [1, 2, 3] && [1, 2, 3][..2] == [1, 2] && [1, 2][..1] == [1] && [1][..0] == [];
    assert UnpaidTotal(s, [1], c) == if c == a then 100 else 0;
    assert UnpaidTotal(s, [1, 2], c) == if c == a then 300 else 0;
    assert UnpaidTotal(s, [1, 2, 3], c) == if c == a then 350 else 0;
    if c == a {
      assert UnpaidOf(s, [1, 2, 3, 4][0], a);
    }
  }

  /** Running the bulk payment on those supplies lowers `a`'s balance by 350 and
      saves `a`, and only `a`, once. */
  method PayThreeUnpaidOnePaid(a: CustomerId, customer: Customer) returns (store: Store, ghost written: seq<CustomerId>)
    ensures store.customers == map[a := customer.(pendingAmount := customer.pendingAmount - 350)]
    ensures store.customerSaves == written && Distinct(written)
    ensures forall c :: c in written <==> c == a
  {
    store := new Store(map[a := customer]);
    store.supplies := ThreeUnpaidOnePaid(a);
    ThreeUnpaidOnePaidSettles350(a, a);
    forall c ensures HasUnpaid(ThreeUnpaidOnePaid(a), [1, 2, 3, 4], c) <==> c == a {
      ThreeUnpaidOnePaidSettles350(a, c);
    }
    written := MarkAsPaid(store, [1, 2, 3, 4]);
  }

  /** The total pending amount shown on the statement: the amount of every unpaid row. */
  function UnpaidSum(rows: seq<Supply>): Money {
    if rows == [] then 0
    else UnpaidSum(rows[..|rows| - 1]) + (if rows[|rows| - 1].paid == No then rows[|rows| - 1].amount else 0)
  }

  /** The selected records, in selection order. */
  function Rows(supplies: map<SupplyId, Supply>, selection: seq<SupplyId>): (rows: seq<Supply>)
    requires AllStored(supplies, selection)
    ensures |rows| == |selection|
    ensures forall k :: 0 <= k < |selection| ==> rows[k] == supplies[selection[k]]
  {
    if selection == [] then []
    else Rows(supplies, selection[..|selection| - 1]) + [supplies[selection[|selection| - 1]]]
  }

  /** The statement's total over one customer's supplies is what the bulk payment
      would take off that customer's balance. */
  lemma {:induction false} StatementTotalIsUnpaidTotal(supplies: map<SupplyId, Supply>, selection: seq<SupplyId>, c: CustomerId)
    requires AllStored(supplies, selection)
    requires forall k :: 0 <= k < |selection| ==> supplies[selection[k]].customer == c
    ensures UnpaidSum(Rows(supplies, selection)) == UnpaidTotal(supplies, selection, c)
  {
    if selection != [] {
      var front := selection[..|selection| - 1];
      StatementTotalIsUnpaidTotal(supplies, front, c);
      assert Rows(supplies, selection)[..|selection| - 1] == Rows(supplies, front);
    }
  }

  /** The statement over every supply of a consistent customer shows that
      customer's pending balance as its total. */
  lemma StatementShowsPending(store: Store, selection: seq<SupplyId>, c: CustomerId)
    requires store.Consistent() && c in store.customers
    requires AllStored(store.supplies, selection) && Distinct(selection)
    requires forall k :: 0 <= k < |selection| ==> store.supplies[selection[k]].customer == c
    requires forall i :: UnpaidOf(store.supplies, i, c) ==> i in selection
    ensures UnpaidSum(Rows(store.supplies, selection)) == store.customers[c].pendingAmount
  {
    StatementTotalIsUnpaidTotal(store.supplies, selection, c);
    SelectionCoveringOwed(store.supplies, selection, c);
  }

  /** The figures of the printed statement: the total of the unpaid rows, and the
      earliest and latest date (both absent for an empty selection). */
  method SummarizeSelection(rows: seq<Supply>)
    returns (totalPending: Money, minD: Option<Date>, maxD: Option<Date>)
    ensures totalPending == UnpaidSum(rows)
    ensures rows == [] <==> minD == None
    ensures rows == [] <==> maxD == None
    ensures rows != [] ==> minD.value <= maxD.value
    ensures rows != [] ==> exists k :: 0 <= k < |rows| && rows[k].date == minD.value
    ensures rows != [] ==> exists k :: 0 <= k < |rows| && rows[k].date == maxD.value
    ensures rows != [] ==> forall k :: 0 <= k < |rows| ==> minD.value <= rows[k].date <= maxD.value
  {
    totalPending := 0;
    minD, maxD := None, None;
    var k := 0;
    while k < |rows|
      invariant 0 <= k <= |rows|
      invariant totalPending == UnpaidSum(rows[..k])
      invariant k == 0 <==> minD == None
      invariant k == 0 <==> maxD == None
      invariant k > 0 ==> minD.value <= maxD.value
      invariant k > 0 ==> exists j :: 0 <= j < k && rows[j].date == minD.value
      invariant k > 0 ==> exists j :: 0 <= j < k && rows[j].date == maxD.value
      invariant k > 0 ==> forall j :: 0 <= j < k ==> minD.value <= rows[j].date <= maxD.value
    {
      var obj := rows[k];
      assert rows[..k + 1][..k] == rows[..k];
      if obj.paid == No {
        totalPending := totalPending + obj.amount;
      }
      if maxD == None || minD == None {
        maxD := Some(obj.date);
        minD := Some(obj.date);
      } else {
        maxD := Some(if maxD.value >= obj.date then maxD.value else obj.date);
        minD := Some(if minD.value <= obj.date then minD.value else obj.date);
      }
      k := k + 1;
    }
    assert rows[..k] == rows;
  }
}
