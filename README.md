# Blood bank domain layer in Dafny

This project models the domain layer of a small desktop blood-bank
application: donors, recipients and donated blood units with their id
counters, the in-memory donor store, and the logic of the stock screen
(counting units in stock per blood group and shading rows and counts).
The shading is the logic of the two renderer classes' methods. The model
does not claim that Swing calls them for every column: the summary's count
column has class `Integer` (BloodStockView.java:85), while its renderer is
registered for `Object` (BloodStockView.java:101), and JTable looks up the
renderer by column class.

- Java `int` is `JavaTypes.Int32`. `+ 1` wraps at `INT_MAX` (`JavaTypes.Succ`).
- A date is an integer day number. "Now" is a `today` parameter.
- Each class's `private static int nextId = 1` is one `Ids.IdCounter` object.
  There is one counter per entity kind, and it is passed to the constructors.
  Its `Take` is `nextId++` and its `SetNextId` is `setNextId`.
- Fields the source never reassigns after construction are `const`: ids,
  groups, dates, personal details and the reason for a transfusion. The
  mutable fields are `BloodUnit.status`, `BloodUnit.recipientId` and
  `Recipient.dateReceived`.
- The personal details shared through the `Person` base class are the value
  `Persons.PersonInfo`. `Donor` and `Recipient` each hold one.
- `Donor` is a class. `ArrayList.remove(Object)` compares donors by
  reference, since `Donor` does not override `equals`.
- Loading the donor file is the datatype `BloodBank.LoadOutcome`: a list was
  read, there was no file, or reading failed. Saving has no effect in the model.
- `toUpperCase().trim()` is `GroupNames.Normalize`. It upper-cases ASCII
  letters. It then drops leading and trailing characters up to `' '`, as
  Java's `trim` does. `Trim` is written as a recursion that drops one such
  character at a time, first from the front and then from the back;
  `TrimSpec` shows that this is the slice Java's `trim` returns.
- `displayStock`'s loop over the units is the method `StockView.CountUnits`.
  It builds the detailed rows and the summary map together; `DisplayStock`
  then stores the rows and fills the summary column. Nothing observes the
  table between the clearing and the last `addRow`, so storing the finished
  rows in one step leaves the same state.

Behaviour one might expect but the code does not have:

- `BloodBankModel` keeps donors only. It has no unit or recipient list and
  no allocation of units to recipients. The controllers call
  `issueOneUnitToRecipient`, `getBloodUnits`, `deleteRecipientById` and
  `getRecipients`, which it does not define
  (src/com/bloodBank/controller/AddRecipientController.java:70,
  src/com/bloodBank/controller/DashboardController.java:105, 141 and 160).
- `deleteDonorById` therefore has no cascade to units.
- `setStatus` and `issueToRecipient` do not check the current status. No
  transition is one-way in the code.
- `setStatus` leaves `recipientId` as it was. So "recipientId is set iff the
  unit is issued" is not kept by the code: `setStatus(IN_STOCK)` on an issued
  unit keeps its recipient.
- `markAsReceived` can be called again and overwrites the date.
- `getBloodStock` counts donors, not units, with no status filter, keyed by
  the normalised group.
- The stock screen counts units in stock keyed by the exact group string,
  and only for the eight canonical groups.
- A unit whose expiry date is today is not expired (`today > expiryDate`).
- The stock screen's "expiring soon" test (`expiry < today + 7`) differs
  from `BloodUnit.isExpiringSoon` (`today <= expiry <= today + 7`). They
  disagree when the expiry is exactly `today + 7`, and when it has already
  passed while the unit is still in stock. `StockView.RendererVersusUnit`
  states both cases.

## Model

| member | source | states |
|---|---|---|
| `Ids.IdCounter.constructor` | src/com/bloodBank/model/BloodUnit.java:11 | a counter starts at 1, as each of the three `nextId` fields does |
| `Ids.IdCounter.Take` | src/com/bloodBank/model/BloodUnit.java:24 | `nextId++` yields the old value and advances the counter by one, wrapping at INT_MAX |
| `Ids.IdCounter.SetNextId` | src/com/bloodBank/model/BloodUnit.java:93-95 | the counter becomes exactly the given id, with no check (the same in Donor and Recipient) |
| `BloodUnits.BloodUnit.constructor` | src/com/bloodBank/model/BloodUnit.java:23-32 | the unit id is the old counter value and the counter goes up by one; donor id and group are kept; donation date is today and expiry is 42 days later; the unit is IN_STOCK with no recipient; on that day it is neither expired nor expiring soon |
| `BloodUnits.BloodUnit.SetStatus` | src/com/bloodBank/model/BloodUnit.java:66-68 | the status becomes the given one whatever it was, and the recipient is unchanged |
| `BloodUnits.BloodUnit.IssueToRecipient` | src/com/bloodBank/model/BloodUnit.java:74-77 | the status becomes ISSUED and the recipient is the given id, with no check of the prior status |
| `BloodUnits.BloodUnit.IsExpired` | src/com/bloodBank/model/BloodUnit.java:89-91 | expired iff today is at least one day after the expiry date, so a unit expiring today is not expired |
| `BloodUnits.BloodUnit.IsExpiringSoon` | src/com/bloodBank/model/BloodUnit.java:81-87 | false unless IN_STOCK; true implies not expired; true iff IN_STOCK and today <= expiry <= today + 7 |
| `BloodUnits.ExpiredStaysExpired` | src/com/bloodBank/model/BloodUnit.java:89-91 | a unit expired on one day is expired on every later day |
| `BloodUnits.ExpiryBoundaries` | src/com/bloodBank/model/BloodUnit.java:81-91 | expiry today is not expired; an IN_STOCK unit expiring today or exactly on today + 7 is expiring soon |
| `Donors.Donor.constructor` | src/com/bloodBank/model/Donor.java:15-25 | the donor id is the old counter value and the counter goes up by one; the personal details, blood group included, are stored as given |
| `Donors.ReseedThenCreate` | src/com/bloodBank/model/Donor.java:33-35 | after `setNextId(k)` the next donor gets id k and the counter moves past k |
| `Donors.CreateTwo` | src/com/bloodBank/model/Donor.java:24 | two donors created in a row get consecutive ids, which are distinct, and are distinct objects |
| `Recipients.Recipient.constructor` | src/com/bloodBank/model/Recipient.java:26-39 | the recipient id is the old counter value and the counter goes up by one; details and reason are stored as given; nothing has been received |
| `Recipients.Recipient.DidReceiveUnit` | src/com/bloodBank/model/Recipient.java:61-63 | true iff a received date is present |
| `Recipients.Recipient.MarkAsReceived` | src/com/bloodBank/model/Recipient.java:69-71 | the received date becomes today, after which the recipient has received a unit; the other fields are constants |
| `Recipients.ReseedThenCreate` | src/com/bloodBank/model/Recipient.java:75-77 | after `setNextId(k)` the next recipient gets id k, with the given details and nothing received |
| `GroupNames.ToUpperCase` | src/com/bloodBank/model/BloodBankModel.java:63 | same length, each character upper-cased (ASCII letters only) |
| `GroupNames.UpperChar` | src/com/bloodBank/model/BloodBankModel.java:63 | a lower-case ASCII letter becomes the capital 32 code points below it; every other character is kept; the result is never lower-case and is blank iff the input is |
| `GroupNames.Trim` | src/com/bloodBank/model/BloodBankModel.java:63 | no character up to `' '` at either end, and never longer than the input |
| `GroupNames.TrimCut` | src/com/bloodBank/model/BloodBankModel.java:63 | `trim` returns the slice `s[a..b]` where everything before `a` and from `b` on is blank, and the slice, if not empty, starts and ends with a non-blank |
| `GroupNames.TrimSpec` | src/com/bloodBank/model/BloodBankModel.java:63 | such cut points exist for every string, so `trim` removes exactly the leading and trailing blanks |
| `GroupNames.Normalize` | src/com/bloodBank/model/BloodBankModel.java:63 | the tally key has no blank at either end and no lower-case ASCII letter |
| `GroupNames.NormalizeSpec` | src/com/bloodBank/model/BloodBankModel.java:63 | the tally key is the slice of the upper-cased group between its leading and its trailing blanks |
| `GroupNames.NormalizeIdempotent` | src/com/bloodBank/model/BloodBankModel.java:63 | normalising a normalised group changes nothing |
| `GroupNames.NormalizeExample` | src/com/bloodBank/model/BloodBankModel.java:63 | `" ab+\t"` normalises to `"AB+"` |
| `BloodBank.RemoveFirst` | src/com/bloodBank/model/BloodBankModel.java:34 | `remove(Object)` leaves a list without that donor unchanged, and otherwise shortens it by one |
| `BloodBank.RemoveFirstAt` | src/com/bloodBank/model/BloodBankModel.java:42-50 | removing the object first found at position k cuts out exactly position k and keeps the rest in order |
| `BloodBank.FirstIndexOfId` | src/com/bloodBank/model/BloodBankModel.java:42-47 | the position the search stops at holds the id, and no earlier donor has it |
| `BloodBank.Tally` | src/com/bloodBank/model/BloodBankModel.java:62-68 | the `getOrDefault`/`put` loop gives an empty map iff there are no keys, and the last key counted is in the map; `TallyCounts` gives every key and count |
| `BloodBank.GroupKeys` | src/com/bloodBank/model/BloodBankModel.java:62-63 | one key per donor, in order: the donor's normalised group |
| `BloodBank.BloodStock` | src/com/bloodBank/model/BloodBankModel.java:58-71 | the stock is empty iff there are no donors; `BloodStockKeys` and `BloodStockValues` give its keys and counts |
| `BloodBank.CountGroup` | src/com/bloodBank/model/BloodBankModel.java:62-68 | the number of donors with a given normalised group is at most the number of donors |
| `BloodBank.MaxDonorId` | src/com/bloodBank/model/BloodBankModel.java:92-97 | the running maximum starts at 0, is at least every loaded id, and is 0 or one of them |
| `BloodBank.TallyCounts` | src/com/bloodBank/model/BloodBankModel.java:62-68 | the counting loop gives an entry exactly to the keys it has seen, each with its number of occurrences |
| `BloodBank.OccurrencesPositive` | src/com/bloodBank/model/BloodBankModel.java:62-68 | a key is seen at least once iff it is one of the keys |
| `BloodBank.TallyTotal` | src/com/bloodBank/model/BloodBankModel.java:62-68 | every key adds exactly one to the total of the counts |
| `BloodBank.BloodStockKeys` | src/com/bloodBank/model/BloodBankModel.java:58-71 | a string is a key of `getBloodStock` iff it is the normalised group of some donor |
| `BloodBank.BloodStockValues` | src/com/bloodBank/model/BloodBankModel.java:58-71 | each value is the number of donors with that normalised group, and so is never zero |
| `BloodBank.BloodStockKeysNormalized` | src/com/bloodBank/model/BloodBankModel.java:63 | every key is its own normal form |
| `BloodBank.BloodStockTotal` | src/com/bloodBank/model/BloodBankModel.java:62-68 | the values add up to the number of donors: every donor is counted once, whatever its status or group |
| `BloodBank.ReseedAboveLoaded` | src/com/bloodBank/model/BloodBankModel.java:90-99 | after a reload the next donor id is above every loaded id, unless the largest is INT_MAX, where `maxId + 1` wraps to INT_MIN |
| `BloodBank.LoadData` | src/com/bloodBank/model/BloodBankModel.java:76-101 | the result is the loaded list, or empty when there is no file or it cannot be read; a non-empty list sets the donor counter to max(0, largest id) + 1; an empty one leaves it alone |
| `BloodBank.BloodBankModel.constructor` | src/com/bloodBank/model/BloodBankModel.java:20-22 | the store starts with what `loadData` returns, with the counter re-seeded as `loadData` does |
| `BloodBank.BloodBankModel.GetDonors` | src/com/bloodBank/model/BloodBankModel.java:24-26 | the same donors in the same order, as a value separate from the store |
| `BloodBank.BloodBankModel.AddDonor` | src/com/bloodBank/model/BloodBankModel.java:28-31 | the donor is appended at the end and the earlier donors keep their places |
| `BloodBank.BloodBankModel.DeleteDonor` | src/com/bloodBank/model/BloodBankModel.java:33-36 | the first occurrence of that donor object is removed, if there is one |
| `BloodBank.BloodBankModel.DeleteDonorById` | src/com/bloodBank/model/BloodBankModel.java:38-56 | returns true iff some donor has the id; then exactly the first such donor is removed and the others keep their order; otherwise the list is unchanged |
| `BloodBank.BloodBankModel.GetBloodStock` | src/com/bloodBank/model/BloodBankModel.java:58-71 | the map the loop builds is the tally of the donors' normalised groups, which the `BloodStock*` lemmas describe |
| `JavaTypes.Succ` | src/com/bloodBank/model/BloodUnit.java:24 | `int` `+ 1`: one more below INT_MAX, INT_MIN at INT_MAX, never the same value (also `maxId + 1` at src/com/bloodBank/model/BloodBankModel.java:98) |
| `JavaTypes.GetOrDefault` | src/com/bloodBank/model/BloodBankModel.java:65 | the mapped value for a present key, the default otherwise (also src/com/bloodBank/view/BloodStockView.java:205) |
| `StockView.RowOf` | src/com/bloodBank/view/BloodStockView.java:186-193 | the row holds the unit's id, group, donor id, both dates and status, in column order |
| `StockView.RowsOf` | src/com/bloodBank/view/BloodStockView.java:184-194 | one detailed row per unit, in input order, each with the unit's id, group, donor, dates and status |
| `StockView.InitialCounts` | src/com/bloodBank/view/BloodStockView.java:177-181 | the summary map starts with exactly the eight groups A+, A-, B+, B-, AB+, AB-, O+, O-, each at 0 |
| `StockView.CountUnit` | src/com/bloodBank/view/BloodStockView.java:197-199 | one unit keeps the summary's keys; only its own group's count can change, by one if the unit is IN_STOCK and its exact group is a key |
| `StockView.StockCounts` | src/com/bloodBank/view/BloodStockView.java:177-200 | after any units the keys are exactly the eight groups and each count lies between 0 and the number of units |
| `StockView.StockCountsStep` | src/com/bloodBank/view/BloodStockView.java:184-200 | each further unit changes the summary map by `CountUnit`, in input order |
| `StockView.InStockCount` | src/com/bloodBank/view/BloodStockView.java:197-199 | the number of IN_STOCK units with exactly a given group is at most the number of units |
| `StockView.CanonicalInStock` | src/com/bloodBank/view/BloodStockView.java:197-199 | the number of IN_STOCK units with one of the eight groups is at most the number of units |
| `StockView.AllGroupsDistinct` | src/com/bloodBank/view/BloodStockView.java:178 | the eight groups are pairwise different |
| `StockView.StockCountsExact` | src/com/bloodBank/view/BloodStockView.java:184-200 | the keys stay exactly the eight groups; each count is the number of IN_STOCK units whose group equals it exactly, with no case or blank normalisation |
| `StockView.SumOverCountUnit` | src/com/bloodBank/view/BloodStockView.java:197-199 | one more unit raises the total of the eight counts by one iff it is IN_STOCK with one of the eight groups |
| `StockView.StockCountsTotal` | src/com/bloodBank/view/BloodStockView.java:184-200 | the eight counts add up to the number of IN_STOCK units with a canonical group, which is at most the number of units |
| `StockView.RowShadeOf` | src/com/bloodBank/view/BloodStockView.java:241-263 | selected rows are highlighted; otherwise EXPIRED is the expired shade, ISSUED the used shade, IN_STOCK with expiry before today + 7 the expiring shade, other IN_STOCK the normal shade |
| `StockView.RendererVersusUnit` | src/com/bloodBank/view/BloodStockView.java:237-238 | the row shade says expiring only for IN_STOCK units; it disagrees with `BloodUnit.isExpiringSoon` exactly for IN_STOCK units expiring on today + 7 or already past expiry |
| `StockView.WarningDateShownNormal` | src/com/bloodBank/view/BloodStockView.java:237 | an IN_STOCK unit expiring on today + 7 is expiring soon for the unit but is shaded normal |
| `StockView.BandOf` | src/com/bloodBank/view/BloodStockView.java:302-311 | 20 or more is high, 5 to 19 medium, 1 to 4 low, below 1 zero; the bands are disjoint and cover every count |
| `StockView.SummaryShadeOf` | src/com/bloodBank/view/BloodStockView.java:293-317 | the renderer method shades only the count column: highlighted when selected, else by its band; the group column is always plain. This is what the method returns when called, not a claim that JTable calls it for the `Integer` count column |
| `StockView.BloodStockView.constructor` | src/com/bloodBank/view/BloodStockView.java:160-167 | the detailed table is empty and the summary lists the eight groups in order, each at 0 |
| `StockView.CountUnits` | src/com/bloodBank/view/BloodStockView.java:176-200 | the loop yields one detailed row per unit in order, and the summary map `StockCounts` of those rows |
| `StockView.BloodStockView.DisplayStock` | src/com/bloodBank/view/BloodStockView.java:172-207 | earlier rows are cleared and the detailed table holds one row per unit in order; each summary row keeps its group and shows its number of IN_STOCK units with exactly that group |

## Left out

- File I/O: reading `donors.dat` with an object stream and writing it back.
  A load is a given `LoadOutcome`. A save has no effect, because the model
  keeps only the in-memory state and the source never rolls back on a
  failed save.
- Console messages from `loadData` and `saveData`.
- The Swing layout and dialogs. Colours, fonts, widths and alignment become
  symbolic shade labels.
- Controllers and `Main`: event wiring and input parsing.
- Allocation of units to recipients, the waiting list, and the unit and
  recipient stores. `BloodBankModel` defines none of them. The controllers
  that call the missing methods are not part of this model.
- `toString` formatting, and the date formatting and re-parsing in the stock
  table. The model treats a date written to the table and read back by the
  renderer as the same day.
- Unicode case mapping. `Normalize` upper-cases ASCII letters only.
- The range of `LocalDate`: day numbers are unbounded integers, so
  `plusDays(42)` never fails.
- `BloodUnits.BloodUnit.IsExpiringSoon`: the source reads the clock twice,
  once for the warning date and once inside `isExpired`. The model uses one
  `today` for both, so a call that straddles midnight is not modelled.
- `null` values: strings, donors and units are never null in the model. A
  null blood group would make `getBloodStock` throw.
- Getters: they are the `const` fields and `var` fields themselves.
- Overflow of the HashMap counts. A count never exceeds the length of the
  list it came from, so it stays within `int`.
- `StockView.SummaryShadeOf`: states the renderer's result for each
  column, not which renderer the summary table uses. JTable picks a
  renderer by column class and may paint the `Integer` count column with
  its own number renderer, so the bands may never appear on screen.
- `BloodBank.Tally`: its own ensures state only when the map is empty and
  that the last key is present. The lemma `TallyCounts` states the full key
  set and every count. Keeping them apart keeps the proof of the loop in
  `GetBloodStock` small.
- `BloodBank.BloodStock`: its own ensures state only that it is empty iff
  there are no donors. `BloodStockKeys` and `BloodStockValues` state its
  keys and counts, for the same reason.
- `StockView.BloodStockView.DisplayStock`: requires that the summary list
  the eight groups in order. The constructor sets this up and nothing else
  changes the summary's group column. Given that, each group's
  `getOrDefault(group, 0)` always finds its key.
