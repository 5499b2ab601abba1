# Shop ledger: a verified Dafny model

This project models the core of a small shop-keeping program. The program keeps:

- a cash balance;
- a warehouse of products, each with a price and a quantity;
- an append-only log of the operations applied: deposits (`saldo`), purchases (`zakup`) and sales (`sprzedaż`).

What is modelled:

- **`FileReader`** holds that state. It writes the state to a text file and reads it back.
- **`Manager.assign`** interprets one text command against the state. The commands are:
  - `saldo`: deposit an amount;
  - `sprzedaż`: sell a product;
  - `zakup`: buy a product;
  - `konto`: show the balance;
  - `lista`: list the warehouse;
  - `magazyn`: look up one product;
  - `przegląd`: show a range of the log.
- **The web view's history range check.**
- **`check_integrity`** replays a stored action log from a balance of 0. It reports whether the result matches the stored balance.

The modules, one file each:

- `Outcomes` (`outcomes.dfy`): `Option`, `Result`, and the Python exceptions that escape the code (`IndexError`, `ValueError`, and `SyntaxError` for an unreadable action line).
- `Text` (`text.dfy`): the Python string operations the code relies on:
  - `str.startswith`;
  - `str.split`, with its inverse `Join`;
  - `str.strip`;
  - `str()` and `int()`/`float()` of whole numbers.
- `Ledger` (`ledger.dfy`): the state as a value, the cash effect of an action, and `Total`, the fold of a log's cash effects.
- `Commands` (`commands.dfy`): `Exec`, a pure function for one `assign` call, split into one function per branch. It also holds the two range checks, `Run` over a sequence of commands, and the lemmas about them.
- `Storage` (`storage.dfy`): the lines `save` writes, and how `load_data` reads them. It includes the save/load round trip.
- `Engine` (`engine.dfy`): the classes `FileReader` and `Manager`. Their fields are updated in place. Every method is proved to do exactly what the matching function of `Commands` or `Storage` says.
- `Integrity` (`integrity.dfy`): `check_integrity` as a method with a loop. It is proved against the fold `Replay`. Further lemmas show that replaying the log `assign` builds always gives back the balance.

Every `assign` call either appends exactly one action and moves the balance by that action's cash effect, or changes nothing. So from the fresh state the balance always equals the fold of the log (`Commands.RunPreserves`). The integrity check therefore always passes on what the program itself produced (`Integrity.IntactAfterAnyRun`).

## Model

| member | source | states |
|---|---|---|
| Ledger.CashEffect | app.py:71-106 | Definition: what one logged action does to the balance in `assign`: +amount for `saldo` (app.py:73), +price·quantity for a sale (app.py:91), -price·quantity for a purchase (app.py:105). `Commands.ExecStep` proves every applied command moves the balance by exactly this |
| Ledger.TotalAppend | check.py:7-16 | Folding one more action onto the log adds exactly that action's cash effect: +amount for a deposit, -price·quantity for a purchase, +price·quantity for a sale |
| Commands.KindOf | app.py:70-131 | Definition: the `startswith` chain that picks the branch, tested in the source's order. `Commands.QueriesChangeNothing` and `Commands.ExecStep` state what each kind does |
| Commands.Exec | app.py:70-131 | Definition: one `assign` call on the state as a value, the new state and the reply. Its properties are `Commands.ExecStep`, `Commands.ExecPreserves`, `Commands.ExecKeepsOrder` and the per-command lemmas below. `Engine.Manager.Assign` is proved to do exactly this in place |
| Commands.DepositStep | app.py:71-74 | Definition of the `saldo` branch. Stated by `Commands.DepositApplied` |
| Commands.SaleStep | app.py:75-92 | Definition of the `sprzedaż` branch, with the name looked up before the price and quantity are parsed. Stated by `Commands.SaleOfUnknownProduct`, `Commands.SaleBeyondStock` and `Commands.SaleApplied` |
| Commands.PurchaseStep | app.py:93-106 | Definition of the `zakup` branch. Stated by `Commands.PurchaseApplied` and `Commands.TwoPurchasesThenOversell` |
| Commands.LookupStep | app.py:111-117 | Definition of the `magazyn` branch. `Commands.QueriesChangeNothing` states that it changes nothing |
| Commands.ReviewStep | app.py:118-129 | Definition of the `przegląd` branch, with start defaulting to 0 and end to the last index. Stated by `Commands.ReviewShows` and `Commands.ReviewDefaultsToWholeLog` |
| Commands.ReviewRange | app.py:120-129 | `przegląd` rejects the range exactly when start < 0 or end ≥ len(actions). Otherwise it shows the entries start..end inclusive, in order, and none when start > end |
| Commands.HistoryRange | app.py:186-190 | The web view accepts exactly when 0 ≤ start ≤ end < len(actions), and then returns exactly actions[start..end] inclusive |
| Commands.HistoryRangeStricter | app.py:187 | Every range the web view accepts, `przegląd` accepts with the same entries. The only ranges `przegląd` alone accepts (start > end) show nothing |
| Commands.DepositApplied | app.py:71-74 | `saldo,<amount>` adds amount to the balance and appends exactly `('saldo', amount)`. The warehouse and its order are unchanged |
| Commands.SaleOfUnknownProduct | app.py:75-80 | A sale naming a product not in the warehouse leaves the whole state unchanged, whatever follows the name |
| Commands.SaleBeyondStock | app.py:82-87 | A sale of more than the stored quantity leaves the whole state unchanged and reports insufficient stock |
| Commands.SaleApplied | app.py:89-92 | A sale within stock lowers that product's quantity, keeps its price and every other entry, adds price·quantity to the balance and appends exactly one sale. The stock stays ≥ 0 for every quantity it allows, negative ones included |
| Commands.PurchaseApplied | app.py:93-106 | A purchase of a known product adds to its quantity and keeps its original price. A purchase of a new product creates the entry and puts its name last. Either way the balance drops by price·quantity and exactly one purchase is appended |
| Commands.ReviewShows | app.py:118-129 | `przegląd,<start>,<end>` changes nothing and shows exactly what the range check admits, or the bad-range message with the log length |
| Commands.ReviewDefaultsToWholeLog | app.py:119-121 | `przegląd` with no fields shows the whole log: start defaults to 0 and end to the last index |
| Commands.QueriesChangeNothing | app.py:107-131 | `konto`, `lista`, `magazyn`, `przegląd` and unrecognised commands never change the state and never report an applied operation |
| Commands.ExecStep | app.py:70-131 | Every command either appends exactly one action, keeps the earlier ones and moves the balance by that action's cash effect, or leaves the state untouched |
| Commands.ExecPreserves | app.py:70-131 | `assign` keeps each warehouse key listed exactly once, keeps every earlier key in its place, and adds at most one key, a new one, last. It keeps the balance equal to the fold of the log |
| Commands.ExecKeepsOrder | app.py:99-102 | The key order after `assign` continues the one before: the old keys keep their places, and at most one key is added, last, and only one the warehouse lacked |
| Commands.RunPreserves | app.py:70-131 | From any consistent state, including the fresh one, the balance equals the fold of the log after any sequence of commands |
| Commands.TwoPurchasesThenOversell | app.py:93-106 | Two purchases of a new product at two prices accumulate its stock and keep the first price. Each charges the balance at its own price. A following sale of more than the total stock is refused and changes nothing |
| Storage.SaveLines | app.py:56-64 | Definition: the lines `save` writes, the balance line, the inventory header, one `ProductLine` per key in insertion order, the history header and one `ActionLine` per action. Its inverse is `Storage.Load`, by `Storage.SaveLoadRoundTrip` |
| Storage.ProductLine | app.py:61 | Definition of the f-string product line. Its inverse is `Storage.ParseProductLine`, by `Storage.ProductLineRoundTrip` |
| Storage.ActionLine | app.py:64 | Definition of `str(action)` for the three tuple shapes. Its inverse is `Storage.ParseActionLine`, by `Storage.ActionLineRoundTrip` |
| Storage.ParseProductLine | app.py:32-36 | Definition: the stripped line cut at ", ", each piece cut at ": ", the second half of each parsed. An IndexError or ValueError is returned as the source raises it. Stated by `Storage.ProductLineRoundTrip` |
| Storage.TupleOf | app.py:38 | Definition standing in for `eval`: the fields of the three tuple shapes, with the name's literal rejoined across ", ". Anything else is a SyntaxError. Stated by `Storage.TupleOfFields` |
| Storage.TupleOfFields | app.py:38 | The fields of any action whose name is printable, split at ", ", read back to that action, even when the name holds ", " or ": " |
| Storage.ParseActionLine | app.py:37-39 | Definition: the stripped line, in parentheses, read by `TupleOf`. Stated by `Storage.ActionLineRoundTrip` |
| Storage.AbsorbLine | app.py:30-39 | Definition of one pass of the loop of `load_data`. Stated by `Storage.AbsorbLineWellFormed`, `Storage.AbsorbProducts` and `Storage.AbsorbActions` |
| Storage.AbsorbLineWellFormed | app.py:36 | Reading one line keeps each key listed once. A product line with a known name updates that entry in place, and one with a new name puts it last |
| Storage.Load | app.py:21-41 | Definition of `load_data` on the file's lines. Stated by `Storage.LoadWellFormed`, `Storage.AbsorbStops` and `Storage.SaveLoadRoundTrip` |
| Storage.BalanceLineRoundTrip | app.py:28 | The balance line `save` writes is read back by `load_data` as the same balance |
| Storage.ProductLineRoundTrip | app.py:32-36 | A product line written as `Produkt: n, Cena: p, Ilość: q` is recognised as a product line and parses back to n, p and q, provided n holds neither ", " nor ": " |
| Storage.ActionLineRoundTrip | app.py:37-39 | An action line `save` writes is recognised as an action line and reads back to the same action, provided its name is printable. The name may hold ", " or ": " |
| Storage.AbsorbAppend | app.py:30-39 | Reading lines A then B is reading A, then, unless A raised, reading B from the state A left |
| Storage.AbsorbStops | app.py:25-39 | Once a line raises, the lines after it are not read and the state read so far stays |
| Storage.AbsorbWellFormed | app.py:30-39 | Whatever the lines hold, reading them keeps each warehouse key listed once. Every key held before keeps its place, and only keys not held before are added after them, so a repeated name keeps its first place |
| Storage.LoadWellFormed | app.py:21-41 | After `load_data`, whatever the file, each warehouse key is listed once |
| Storage.AbsorbProducts | app.py:31-36 | Reading back the product lines of distinct separable names rebuilds exactly those entries, in the same order |
| Storage.AbsorbActions | app.py:37-39 | Reading back the action lines of a log with printable names appends exactly that log, in order |
| Storage.SaveLoadRoundTrip | app.py:56-64 | `load_data` on what `save` wrote restores the balance, the warehouse with its order, and the log, from any prior state, provided every name is storable: no ", " or ": " in a product name, and nothing `repr` escapes in a logged name |
| Engine.FileReader.constructor | app.py:6-9 | A new reader has a zero balance, an empty warehouse and an empty log |
| Engine.FileReader.Save | app.py:56-64 | Produces exactly the balance line, the inventory header, one line per product in insertion order, the history header and one line per action. Read back, these lines give the same state when every name is storable |
| Engine.FileReader.WriteInventory | app.py:60-61 | The loop over the warehouse writes one product line per name, in insertion order |
| Engine.FileReader.WriteHistory | app.py:63-64 | The loop over the log writes one action line per action, in order |
| Engine.FileReader.ReadLine | app.py:31-39 | One pass of the loop updates the fields exactly as `AbsorbLine` says |
| Engine.FileReader.LoadData | app.py:21-41 | The fields afterwards, and the exception that escapes if any, are those of `Load`. Each warehouse key is listed once |
| Engine.Manager.constructor | app.py:67-68 | A new manager owns a fresh reader in the initial state |
| Engine.Manager.Assign | app.py:70-131 | Updates the reader's fields in place exactly as `Exec` says and returns its reply. It keeps the keys in step with their order and the balance equal to the fold of the log |
| Engine.Manager.Deposit | app.py:71-74 | The `saldo` branch follows `DepositStep` |
| Engine.Manager.Sell | app.py:75-92 | The `sprzedaż` branch follows `SaleStep` |
| Engine.Manager.Buy | app.py:93-106 | The `zakup` branch follows `PurchaseStep` |
| Engine.Manager.Lookup | app.py:111-117 | The `magazyn` branch changes nothing and follows `LookupStep` |
| Engine.Manager.Review | app.py:118-129 | The `przegląd` branch collects the entries one index at a time, changes nothing and follows `ReviewStep` |
| Integrity.Amount | check.py:12-16 | Definition: the details cut at commas into exactly three fields, price times quantity, a ValueError otherwise. Stated by `Integrity.AmountOfDetails` |
| Integrity.RecordEffect | check.py:9-16 | Definition of the if/elif chain for one record, with no else. Stated by `Integrity.RecordEffectOfAction` and `Integrity.UnknownTypeAddsNothing` |
| Integrity.Replay | check.py:7-16 | Definition of the loop computing the balance from 0, stopping at the first exception. Stated by `Integrity.ReplayStops` and `Integrity.ReplayOfLog`. `Integrity.CheckIntegrity` is proved against it |
| Integrity.CheckIntegrity | check.py:7-20 | Reports an exception exactly when the replay raises. Otherwise it reports intact exactly when the stored balance equals the replayed one. It changes nothing |
| Integrity.ReplayStops | check.py:8-16 | Once a record raises, the records after it do not change the outcome |
| Integrity.UnknownTypeAddsNothing | check.py:8-16 | A record whose type is none of the three adds nothing to the computed balance |
| Integrity.AmountOfDetails | check.py:12-16 | Details written as name,price,quantity, with no comma in the name, give back price·quantity |
| Integrity.RecordEffectOfAction | check.py:9-16 | The record of a logged action adds exactly that action's cash effect |
| Integrity.ReplayOfLog | check.py:7-16 | Replaying the records of a log computes the fold of the log's cash effects |
| Integrity.ExecKeepsCommaFree | app.py:75-106 | A name that `assign` logs is a comma-separated field of the command, so it holds no comma |
| Integrity.IntactAfterAnyRun | check.py:7-20 | After any sequence of commands from the fresh state, replaying the log gives exactly the balance, so the check reports intact |
| Text.SplitJoin | app.py:32 | Splitting pieces joined by a separator gives back the pieces, when no piece contains the separator |
| Text.JoinSplit | app.py:32 | Joining the pieces of a split with the separator gives back the string |
| Text.SplitConcat | app.py:38 | For a separator that cannot overlap itself, splitting `x + sep + y` is splitting `x`, then `y` |
| Text.ParseIntToString | app.py:28 | Parsing the decimal text of a number gives back the number |

## Left out

- Flask routes, templates, redirects and form parsing (app.py:1-3 and 147-193) are not modelled. The only exceptions are the pure range check of `history_range` and the command texts the routes build. The sale route (app.py:168) always writes a price of 0, so its text is `SaleCommand(name, 0, quantity)`, and a sale made there never changes the balance.
- `Manager.execute` (app.py:133-143) is not modelled: the input loop, `.lower()`, and the `save()` after every command. Printed messages become `Reply` values.
- Files become line sequences. `save` returns its lines, and `load_data` takes the file's lines, or `None` for a missing file. Lines carry no terminator: every use of a line in `load_data` either strips it or tests a prefix that cannot hold one.
- `save_data` (app.py:11-19) is not modelled separately. It appends to the file instead of overwriting it, but writes the same text as `save`, which is modelled.
- `modify` and `display` (app.py:43-54) are not modelled, because they do not work on a name-keyed warehouse. `lista` replies `ShowInventory` and nothing more.
- `eval` of action lines (app.py:38) is replaced by `TupleOf`, an explicit parser of the three tuple shapes `save` writes. The line is cut at ", " and the name's literal is rejoined from the middle fields, so names holding ", " read back. Any other Python value `eval` would accept and `load_data` would append (another tuple, a number) becomes a `SyntaxError` here, because the log holds only the three action shapes.
- Money and quantities are whole numbers, not IEEE floats. Both `float()` and `int()` are one strict parser: an optional '-', then decimal digits. It does not accept surrounding spaces, '+', underscores, a decimal point or an exponent. `str()` of a float (`250.0`) is written as `250`.
- `str.strip` removes only space, tab, newline, carriage return, vertical tab and form feed, not the other Unicode whitespace.
- Storage.SaveLoadRoundTrip: assumes storable names. A product name holding ", " or ": " is cut apart when its product line is read (app.py:32-33).
- Storage.SaveLoadRoundTrip, Storage.TupleOfFields, Storage.ActionLineRoundTrip, Storage.AbsorbActions, Storage.ActionLine and Engine.FileReader.Save: Python's `repr` escaping is not modelled. `repr` writes a name holding a single quote in double quotes, and escapes a backslash or an ASCII control character; `eval` reads all of these back. `ActionLine` writes every name as it is between single quotes, and `TupleOf` rejects a quote inside the literal. So the four lemmas named here require `Printable` logged names, with no quote, backslash or ASCII control character, and for other names `ActionLine` and `Save` differ from `str(action)`.
- Storage.ActionLine and Engine.FileReader.Save: `repr` also escapes the non-ASCII characters Python does not count as printable (C1 controls, `\xa0`, `\u200b` and the like). `ActionLine` writes them as they are, so for such names it differs from `str(action)`. `Printable` only excludes the ASCII ones.
- Lines are a sequence of strings. A name holding a line break would split its line in the real file, and the model does not capture that.
- The database layer of check.py (`FileReader.query`, `Action.query`, `db`, `app.run`; check.py:1-6 and 22-26) is not part of this model. The stored balance and the records are parameters. The record format (type plus `name,price,quantity` details) is taken from how check.py reads it; the program that writes the records is not part of this model.

Facts about the code that the model keeps as they are:

- Stock is never checked to be non-negative. A purchase or sale with a negative quantity passes. A negative purchase can leave a negative stock, and a negative sale raises the stock.
- `przegląd` does not reject start > end; it shows nothing. Only the web view rejects that range.
- `load_data` on a missing file empties the warehouse and the log but keeps the balance. It does not reset to a fresh state.
- A purchase of a known product never overwrites its stored price.
