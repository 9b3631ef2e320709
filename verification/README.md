# CRM mutations: a verified model

This project models the write side of a small CRM backend. The backend exposes customers, products and orders over GraphQL. The model covers the phone validator and the four mutations that write to the record store:

- `createCustomer`
- `bulkCreateCustomers`
- `createProduct`
- `createOrder`

Each mutation checks its conditions in a fixed order. On a failed check it raises an exception with a fixed message and inserts nothing. Otherwise it inserts records. The bulk mutation never aborts: it walks its batch in order and reports each item in one of two lists, `customers` or `errors`.

Modules:

- `Options` (options.dfy): `Option` and `Result`. An exception raised by a mutation is modelled as `Err(message)`.
- `Phone` (phone.dfy): `validate_phone`. A character scanner, proved equal to a declarative description of the strings the regular expression `^(\+\d{1,15}|\d{3}-\d{3}-\d{4})$` accepts under Python's `re.match`. `PhoneExamples` holds worked cases.
- `Records` (records.dfy): customers, products, orders and the customer input.
- `OrderTotal` (order_total.dfy): which products an order links to and what it costs. `PriceSum` is a reference definition: the sum of prices over a set of products. `Total` walks the requested ids and is proved equal to `PriceSum` of the resolved ids.
- `BulkIngest` (bulk.dfy): a pure description of the bulk loop. `Outcomes` gives one outcome per item, and the lists the mutation returns are ordered filters of it. The lemmas state what the source promises about those lists.
- `CrmStore` (store.dfy): class `Store` holds the customers, the product map, the product-id counter and the orders. Each mutation is a method that changes the store. `Valid()` is the invariant the mutations keep: emails are unique, prices are positive, stock is non-negative, and every order links an existing customer to a non-empty set of existing products with a positive total.

Modelling choices:

- Prices are integers (cents), not `Decimal`.
- A customer's id is its position in the customer sequence.
- Product ids are map keys drawn from a counter.
- Request ids are integers.
- Email lookups compare strings exactly.
- An item of the bulk batch may be null (`None`), since the batch is declared as a list of nullable inputs. Reading the email of a null item raises an AttributeError, which the loop reports like any other error.
- A stock passed as an explicit null is `None`; an omitted stock takes the default 0 before the mutation runs.
- A failing `save()` in the bulk mutation is an input: `faults[i]` is the message of the exception raised while saving item `i`. `None`, or an index past the end of `faults`, means the save succeeds. A failed save adds no customer, and its message goes to `errors`.

Phone validation, as modelled:

- The model follows Python in one detail: `$` also matches just before a single newline that ends the string. So `"+123\n"` is accepted and `"+123\n\n"` is not (`PhoneExamples.TrailingNewlineAccepted`, `PhoneExamples.TwoNewlinesRejected`).
- The model does not follow Python's `\d`, which matches any Unicode decimal digit. Here only ASCII `0`-`9` count as digits (see Left out).

Two points where the source's behaviour differs from what a reader might expect:

- A repeated email inside one batch is rejected when the email was stored before the call or an earlier occurrence was created. The check runs against the store as it stands at that moment (alx-backend-graphql_crm/crm/schema.py:106). If the email was not stored before the call and every earlier occurrence was rejected, for its phone or for a failed save, a later occurrence with a valid phone and no save fault is created. `BulkIngest.OutcomeAt` states the rule per item; `BulkIngest.RepeatedEmailRejected` states the case of an earlier occurrence that was created.
- The batch runs inside `transaction.atomic()` (alx-backend-graphql_crm/crm/schema.py:103) and every exception raised for an item is caught inside the loop. The model treats a caught failure as affecting only its own item: customers created earlier in the batch stay created. How Django's transaction handles a caught database error is not modelled (see Left out).

## Model

| member | source | states |
|---|---|---|
| `Phone.LeadingDigits` | alx-backend-graphql_crm/crm/schema.py:42 | the greedy digit run: the first `n` characters are digits and the next one, if any, is not |
| `Phone.ScanInternationalCorrect` | alx-backend-graphql_crm/crm/schema.py:42-43 | the scanner accepts exactly `+` followed by 1 to 15 digits, optionally followed by one final newline |
| `Phone.ScanLocalCorrect` | alx-backend-graphql_crm/crm/schema.py:42-43 | the scanner accepts exactly `NNN-NNN-NNNN`, optionally followed by one final newline |
| `Phone.ValidatePhone` | alx-backend-graphql_crm/crm/schema.py:39-44 | `validate_phone`; its meaning is stated by `Phone.ValidatePhoneMatchesPattern` |
| `Phone.ValidatePhoneMatchesPattern` | alx-backend-graphql_crm/crm/schema.py:40-44 | `ValidatePhone` is true exactly when the phone is absent, empty, or matches one of the two forms (both directions) |
| `PhoneExamples.AbsentOrEmptyAccepted` | alx-backend-graphql_crm/crm/schema.py:41-44 | an absent or empty phone is valid |
| `PhoneExamples.InternationalAccepted` | alx-backend-graphql_crm/crm/schema.py:42-43 | `+1234567890` is valid |
| `PhoneExamples.LocalAccepted` | alx-backend-graphql_crm/crm/schema.py:42-43 | `555-123-4567` is valid |
| `PhoneExamples.TrailingNewlineAccepted` | alx-backend-graphql_crm/crm/schema.py:42-43 | `$` matches before a final newline, so `+123\n` is valid |
| `PhoneExamples.TwoNewlinesRejected` | alx-backend-graphql_crm/crm/schema.py:42-43 | `+123\n\n` is invalid |
| `PhoneExamples.SixteenDigitsRejected` | alx-backend-graphql_crm/crm/schema.py:42-43 | 16 digits after `+` is invalid |
| `PhoneExamples.UnseparatedRejected` | alx-backend-graphql_crm/crm/schema.py:42-43 | ten digits without separators is invalid |
| `Records.EmailTaken` | alx-backend-graphql_crm/crm/schema.py:78 | the `filter(email=...).exists()` lookup (also at line 106): some stored customer has exactly that email; used by `CreateCustomer` and `BulkIngest.OutcomeAt` |
| `OrderTotal.Resolved` | alx-backend-graphql_crm/crm/schema.py:156 | the `pk__in` filter: the set of requested ids that name existing products, duplicates collapsed; its role is stated by `OrderTotal.Total`, `OrderTotal.TotalIgnoresUnknownAndRepeated` and `CrmStore.Store.CreateOrder` |
| `OrderTotal.PriceSumRemove` | alx-backend-graphql_crm/crm/schema.py:160 | the sum over a set of products can take any element first (the sum does not depend on order) |
| `OrderTotal.PriceSumPositive` | alx-backend-graphql_crm/crm/schema.py:157-160 | a non-empty set of products with positive prices has a positive total |
| `OrderTotal.SumUnseen` | alx-backend-graphql_crm/crm/schema.py:156-160 | walking the ids and skipping unknown and already seen ids sums the prices of the resolved ids outside `seen` |
| `OrderTotal.Total` | alx-backend-graphql_crm/crm/schema.py:156-160 | the order total is the price sum over the set of requested ids that name existing products |
| `OrderTotal.TotalIgnoresUnknownAndRepeated` | alx-backend-graphql_crm/crm/schema.py:156-160 | appending an unknown id or a repeated id changes neither the linked products nor the total |
| `OrderTotal.MixedRequestExample` | alx-backend-graphql_crm/crm/schema.py:156-160 | ids `[1, 7, 1, 2]` with products 1 and 2 link `{1, 2}` and cost 150 + 275 |
| `BulkIngest.DuplicateEmailMessage` | alx-backend-graphql_crm/crm/schema.py:107 | the duplicate-email message `Email <email> already exists`; used by `BulkIngest.OutcomeAt` and `BulkIngest.RepeatedEmailRejected` |
| `BulkIngest.InvalidPhoneMessage` | alx-backend-graphql_crm/crm/schema.py:110 | the invalid-phone message `Invalid phone: <phone>`; used by `BulkIngest.OutcomeAt` |
| `BulkIngest.Admit` | alx-backend-graphql_crm/crm/schema.py:105-121 | the loop body for one item; its meaning is stated by `BulkIngest.OutcomeAt` |
| `BulkIngest.Outcomes` | alx-backend-graphql_crm/crm/schema.py:104-121 | every item of the batch yields exactly one outcome |
| `BulkIngest.CreatedCustomers` | alx-backend-graphql_crm/crm/schema.py:119-123 | the returned `customers` list; stated by `BulkIngest.BulkCreatedInInputOrder`, `BulkIngest.BulkCreatedEmailsFresh` and `CrmStore.Store.BulkCreateCustomers` |
| `BulkIngest.ErrorMessages` | alx-backend-graphql_crm/crm/schema.py:107-123 | the returned `errors` list; stated by `BulkIngest.BulkErrorsInInputOrder` and `CrmStore.Store.BulkCreateCustomers` |
| `BulkIngest.CreatedPositions` | alx-backend-graphql_crm/crm/schema.py:119 | the created customers come from strictly increasing item positions whose outcome is that customer |
| `BulkIngest.ErrorPositions` | alx-backend-graphql_crm/crm/schema.py:107-121 | the error messages come from strictly increasing item positions whose outcome is that rejection |
| `BulkIngest.CreatedPositionsExact` | alx-backend-graphql_crm/crm/schema.py:119 | a position is among the created positions exactly when that item was created |
| `BulkIngest.ErrorPositionsExact` | alx-backend-graphql_crm/crm/schema.py:107-121 | a position is among the error positions exactly when that item was rejected |
| `BulkIngest.OutcomesSplit` | alx-backend-graphql_crm/crm/schema.py:104-121 | the lengths of the two lists add up to the number of outcomes |
| `BulkIngest.OutcomesPrefix` | alx-backend-graphql_crm/crm/schema.py:104 | the outcome of a prefix of the batch is the prefix of the outcomes: later items do not affect earlier ones |
| `BulkIngest.BulkStep` | alx-backend-graphql_crm/crm/schema.py:104-121 | one more item extends exactly one of the two lists by its outcome |
| `BulkIngest.OutcomeAt` | alx-backend-graphql_crm/crm/schema.py:106-121 | a null item `i` is rejected with the text of the AttributeError its email lookup raises. Otherwise item `i` is checked against the store at that moment (earlier customers plus those the batch created before `i`). The order is: email taken, then invalid phone, then save fault, then created |
| `BulkIngest.BulkAccountsForEveryItem` | alx-backend-graphql_crm/crm/schema.py:104-121 | the sizes of `customers` and `errors` add up to the size of the batch |
| `BulkIngest.BulkCreatedInInputOrder` | alx-backend-graphql_crm/crm/schema.py:104-119 | `customers` is a subsequence of the batch in input order, each entry built from its item's name, email and phone |
| `BulkIngest.BulkErrorsInInputOrder` | alx-backend-graphql_crm/crm/schema.py:104-121 | `errors` lists the messages of the rejected items, in input order |
| `BulkIngest.BulkEachItemInOneList` | alx-backend-graphql_crm/crm/schema.py:104-121 | every batch position is reported in `customers` or in `errors`, never in both, and no other position is reported |
| `BulkIngest.BulkCreatedEmailsFresh` | alx-backend-graphql_crm/crm/schema.py:106-119 | no created email was in the store before the call, created emails are pairwise distinct, and the store stays free of duplicate emails |
| `BulkIngest.RepeatedEmailRejected` | alx-backend-graphql_crm/crm/schema.py:106-108 | once an item is created, a later item with the same email fails with `Email <e> already exists` |
| `BulkIngest.NullItemExample` | alx-backend-graphql_crm/crm/schema.py:105-121 | a null item is reported in `errors` and the item after it is still created |
| `BulkIngest.ExampleBatch` | alx-backend-graphql_crm/crm/schema.py:99-123 | the batch a, a, b with phone `bad`, c creates a and c and reports the duplicate and then the invalid phone |
| `CrmStore.Store.CreateCustomer` | alx-backend-graphql_crm/crm/schema.py:77-89 | a taken email fails with `Email already exists` before the phone is looked at. Otherwise an invalid phone fails with `Invalid phone format`. Otherwise exactly one customer with the given name, email and phone is appended. A failure changes nothing, and the store invariant holds throughout |
| `CrmStore.Store.BulkCreateCustomers` | alx-backend-graphql_crm/crm/schema.py:99-123 | the loop returns exactly `BulkIngest`'s `customers` and `errors` lists, the store gains exactly the created customers in order, nothing else changes, and the store invariant holds |
| `CrmStore.Store.CreateProduct` | alx-backend-graphql_crm/crm/schema.py:132-141 | price <= 0 fails with `Price must be positive`. Otherwise a null stock fails with the TypeError text of `None < 0`, and stock < 0 fails with `Stock cannot be negative`. Otherwise exactly one product is inserted under the counter's id and the counter advances by one. A failure changes nothing, the id counter included |
| `CrmStore.Store.CreateOrder` | alx-backend-graphql_crm/crm/schema.py:150-167 | an unknown customer fails with `Invalid customer ID`. Otherwise no resolvable product id fails with `Invalid product IDs`. Otherwise exactly one order is appended, linked to exactly the resolved ids, with total equal to their price sum, which is positive |

## Left out

- `Phone.ValidatePhone`: only ASCII `0`-`9` count as digits. Python's `\d` also matches every other Unicode decimal digit (category Nd). A phone written in, say, Arabic-Indic digits is accepted by the source and rejected by the model. The table of Nd characters depends on Python's Unicode database and is not modelled.
- `CrmStore.Store.BulkCreateCustomers`: has no rollback. In Django, a database error caught inside `transaction.atomic()` marks the transaction for rollback. Later queries in the block then raise, and the whole block is rolled back on exit. The model treats a failed save as an opaque per-item error with no effect on the store, as if the transaction always committed.
- Database failures of `save()`/`create()` in the three single-record mutations are not modelled: an insert that passes the mutation's own checks always succeeds. The database's own errors (a uniqueness violation from a concurrent writer, a price too large for its decimal column, a lost connection) depend on the database and its schema, not on the mutation's logic.
- Non-numeric GraphQL ids, which make the ORM raise a conversion error instead of `Invalid customer ID`, are not modelled: ids are integers.
- `CrmStore.Store.CreateOrder`: a null entry in `product_ids` cannot be written, because request ids are integers. Django drops `None` from an `__in` list, so such an entry behaves like an unknown id, which the model already ignores.
- Prices with fractions of a cent cannot be written, because prices are integer cents.
- `order_date` (the clock), the `created`/`customer` objects' database ids, and the success message of `createCustomer` are not modelled.
- GraphQL type and input declarations, the query resolvers and their `order_by` pass-through (alx-backend-graphql_crm/crm/schema.py:16-34, 50-64, 173-198) are framework plumbing and are not part of this model.
- The cron scripts (alx-backend-graphql_crm/crm/cron.py, crm/cron.py, alx-backend-graphql_crm/crm/cron_jobs/send_order_reminders.py) are not part of this model: they do file I/O, network calls and clock reads only.
- The seeding script alx-backend-graphql_crm/seed_db.py is not part of this model: it does two unconditional inserts.
- Concurrency between requests is not modelled: each mutation runs alone against the store.
