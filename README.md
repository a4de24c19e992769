# Water supply billing: customer balance consistency

The application records water supplied by tanker to customers. Each customer
record holds a stored `pending_amount`. It is meant to equal the total `amount`
of that customer's supplies whose paid-state is "NO". Three pieces of code keep
it there:

- **Save reconciler** (`handle_supply_save`). It runs before a supply is saved
  and compares the incoming record with the stored one:
  - creating an unpaid supply adds its amount to the customer's balance;
  - changing the paid-state adds the amount (YES to NO) or subtracts it (NO to YES);
  - anything else leaves the balance alone.
- **Deletion guard** (`handle_supply_delete`). It refuses to delete an unpaid
  supply.
- **Bulk "mark as paid" admin action** (`mark_as_paid`). It works in three steps:
  - sum the selected unpaid amounts per customer;
  - set every selected supply to paid in one batch write, which does not run the
    reconciler;
  - subtract each customer's sum from that customer's balance, once.

The read-only totals of the printed statement (`download_as_pdf`) are modelled
too.

The model has two modules:

- `Models` (`models.dfy`) holds the entities and the `Store` class. `Store` has
  two maps that its methods reassign: `customers` and `supplies`. `Save` and
  `Delete` model the two handlers.
- `Admin` (`admin.dfy`) models the admin actions over a selection (a sequence of
  supply ids).

The paid-state is compared case-insensitively in the source, so it becomes the
enum `Paid = No | Yes`. Money is an integer number of minor units.

The invariant is built from three definitions:

- `Owed(supplies, c)` is the sum of the unpaid amounts of customer `c`, taken
  over the store's set of supply ids.
- `Store.Discrepancy(c)` is the stored balance minus `Owed`.
- `Store.Consistent()` says every discrepancy is zero and every supply refers to
  a stored customer.

The operations are proved to leave every discrepancy unchanged, not only zero
ones. That also covers an opening balance typed into the customer form.

The reconciler only looks at the paid-state, and it uses the incoming customer
and amount. `Save` therefore keeps every discrepancy unless the stored record
was unpaid and the save changes its customer or its amount
(`KeepsUnpaidCustomerAndAmount`). A paid stored record adds nothing to what
anyone owes, so any edit of it is safe. A YES→NO save adds the new amount to the
new customer, which is exactly what the new record owes.
`AmountEditLeavesBalanceStale` exhibits the failing case: raising the amount of
an unpaid supply leaves the balance short by exactly the increase.

## Model

| member | source | states |
|---|---|---|
| Models.Store.Save | models.py:68-89 | new supply written. Creation as unpaid: incoming customer's balance up by the amount, one customer save. Creation as paid or unchanged paid-state: no customer changes, no save. YES→NO: balance up by the new amount. NO→YES: balance down by it. Discrepancies kept, and consistency kept, unless the stored record is unpaid and the save changes its customer or amount |
| Models.Store.AdjustPending | models.py:74-76 | one customer's balance moves by the given delta. That customer is saved once. Nothing else changes |
| Models.Store.Delete | models.py:91-96 | unpaid supply: fails with the "pending amount" message and changes nothing. Paid supply: passes and removes only that record. No balance changes and no customer is saved. Consistency kept |
| Models.OwedAfterPut | models.py:68-89 | writing one supply record changes what a customer owes by (new contribution − old contribution). This is the fact the reconciler's deltas must match |
| Models.OwedAfterRemove | models.py:91-96 | removing a record takes its contribution off what a customer owes. A paid record contributes nothing |
| Models.OwedOverRemove | models.py:41 | general fact about the owed sum behind the pending invariant (it models no code at this line): the sum does not depend on which record is taken first |
| Models.OwedOverAgree | models.py:50-56 | general fact about the owed sum behind the pending invariant (it models no code at these lines): two stores whose records contribute alike owe alike |
| Models.OwedOverNothing | models.py:50-56 | general fact about the owed sum behind the pending invariant (it models no code at these lines): a customer with no unpaid record among the ids owes nothing over them |
| Models.CreateThenPay | models.py:72-89 | creating a supply unpaid and then saving it paid leaves every customer exactly as before (round trip) |
| Models.AmountEditLeavesBalanceStale | models.py:72 | re-saving an unpaid supply with its amount raised by `extra` leaves its customer's discrepancy at −`extra`. The reconciler ignores amount edits |
| Admin.AccumulateUnpaid | admin.py:24-30 | a customer is a key of the totals exactly when one of its selected supplies is unpaid. Its value is the sum of those unpaid amounts. Every other customer's selected total is zero |
| Admin.ApplyTotals | admin.py:34-37 | each customer in the totals has its balance lowered by its own total and is saved exactly once. No other customer is touched |
| Admin.MarkAsPaid | admin.py:23-37 | selected supplies become paid and others are unchanged. Each customer's balance is lowered by exactly its selected unpaid total. The customers saved are exactly those with a selected unpaid supply, each once. Discrepancies and consistency are kept |
| Admin.MarkPaidSettles | admin.py:32 | the batch write lowers what a customer owes by exactly that customer's selected unpaid total. Each NO→YES record is counted once |
| Admin.MarkPaidTwiceSettlesNothing | admin.py:26-32 | after one batch no selected supply is unpaid. A second run totals zero, saves no customer, and leaves the supplies as they are |
| Admin.UnpaidTotalOfNone | admin.py:26 | already-paid selected supplies contribute nothing to a total |
| Admin.SelectionCoveringOwed | admin.py:24-30 | a selection holding every unpaid supply of a customer totals exactly what that customer owes |
| Admin.PayEverythingClearsBalance | admin.py:23-37 | on a consistent store, paying a selection that holds every unpaid supply of a customer brings that customer's balance to zero and keeps consistency |
| Admin.ThreeUnpaidOnePaidSettles350 | admin.py:24-30 | with unpaid supplies of 100, 200 and 50 and a paid one of 999, the customer's total is 350. Every other customer's total is 0 |
| Admin.PayThreeUnpaidOnePaid | admin.py:23-37 | on that selection the bulk payment lowers the balance by exactly 350 and saves that customer, and only that customer, once |
| Admin.SummarizeSelection | admin.py:62-73 | total pending is the sum of the unpaid rows' amounts. Both dates are absent exactly when the selection is empty. Otherwise min ≤ max, both are dates of selected rows, and every row's date lies between them |
| Admin.StatementTotalIsUnpaidTotal | admin.py:62-66 | over one customer's supplies, the statement's total equals what the bulk payment would take off that customer's balance |
| Admin.StatementShowsPending | admin.py:62-66 | on a consistent store, the statement over all of a customer's supplies shows that customer's pending balance as its total |

## Left out

- Django's ORM, persistence and signal dispatch are not modelled. The disconnect/connect of the save handler around the nested customer save is not business logic. Reconciliation is a direct call inside `Save`.
- Transactions, atomicity and concurrent updates of `pending_amount` are left out. The code has no transaction (the `transaction` import is unused) and no locking. Each modelled operation is one sequential step.
- `pending_amount` and `amount` are floats in the source. The model uses integers (minor units), so rounding is not modelled.
- Paid-state values other than some spelling of "yes" or "no" are not modelled. The source compares `.lower()`, so the spellings of each value collapse to one enum value.
- The reconciler saves the in-memory customer object attached to the supply. A stale copy of that object (aliasing with the stored row) is not modelled. The model always adjusts the stored customer.
- The deletion guard reads the paid-state of the in-memory supply instance. The model reads the stored record, so a stale instance that disagrees with its row is not modelled.
- A missing customer (a failing `Customer.objects.get`, or a supply whose customer row is gone) is excluded by preconditions: the referenced customers are stored. The database's foreign key guarantees that.
- New supply ids are chosen by the caller of `Save`. The creation path is taken exactly when the id is not stored, as when the database assigns a fresh id.
- The order in which the bulk payment visits customers follows the dictionary's insertion order in the source. The model visits them in an arbitrary order, which does not change the final balances.
- The ordering of supplies by date and the queryset order are not modelled. A selection is any sequence of distinct stored ids.
- PDF rendering is left out: the table rows (admin.py:64), styles, HTTP response and reportlab calls. The crash at admin.py:64 when a supply's driver has been deleted (`driver` is null) is left out too.
- Admin list filters, search fields, registration and the error reporting in `SupplyFilter.save_model` are UI code and are not modelled.
- `__str__`/`__repr__`, unique constraints and `on_delete` rules are enforced by the database, not by the code shown. Tanker, driver and customer category appear only as ids.
