/** What one call of `Manager.assign(command)` does (app.py:70-131), as a
    function from the state before to the state after and the reply, and the
    range check of the web history view (app.py:183-190). The class that
    mutates the fields in place is in module Engine and is proved to follow
    `Exec`. */
module Commands {
  import opened Outcomes
  import opened Text
  import opened Ledger

  /** The branch `assign` takes, decided by the first matching prefix in the
      source's order. */
  datatype Kind = Deposit | Sale | Purchase | Balance | List | Lookup | Review | Unrecognised

  function KindOf(command: string): Kind {
    if StartsWith(command, "saldo") then Deposit
    else if StartsWith(command, "sprzedaż") then Sale
    else if StartsWith(command, "zakup") then Purchase
    else if StartsWith(command, "konto") then Balance
    else if StartsWith(command, "lista") then List
    else if StartsWith(command, "magazyn") then Lookup
    else if StartsWith(command, "przegląd") then Review
    else Unrecognised
  }

  /** What `assign` reports (by printing) or lets escape. */
  datatype Reply =
    | Done                                          // a deposit, sale or purchase was applied
    | NoSuchProduct                                 // "Produkt nie istnieje w magazynie!"
    | InsufficientStock                             // "Brak wystarczającej liczby sztuk w magazynie!"
    | ShowBalance(balance: int)                     // konto
    | ShowInventory                                 // lista
    | ShowProduct(name: string, product: Product)   // magazyn
    | ShowHistory(entries: seq<Action>)             // przegląd
    | BadRange(count: nat)                          // przegląd: valid indices are 0 .. count-1
    | InvalidCommand                                // "Nieprawidłowa komenda!"
    | Failed(error: Raised)                         // an exception leaves assign

  /** `float(parts[i])` or `int(parts[i])`. */
  function Field(parts: seq<string>, i: nat): Result<int, Raised> {
    if i >= |parts| then Err(IndexError)
    else match ParseInt(parts[i])
      case None => Err(ValueError)
      case Some(v) => Ok(v)
  }

  /** The entries `przegląd` prints: rejected when `start < 0` or
      `end >= len(actions)`, otherwise `actions[start]` to `actions[end]`,
      none at all when `start > end` (app.py:123-129). */
  function ReviewRange(actions: seq<Action>, start: int, end: int): (r: Option<seq<Action>>)
    ensures r.Some? <==> 0 <= start && end < |actions|
    ensures r.Some? ==> |r.value| == (if start <= end then end - start + 1 else 0)
    ensures r.Some? ==> forall k :: 0 <= k < |r.value| ==> r.value[k] == actions[start + k]
  {
    if start < 0 || end >= |actions| then None
    else if start <= end then Some(actions[start..end + 1])
    else Some([])
  }

  /** The web view `/history/<start>/<end>`: rejected unless
      `0 <= start <= end < len(actions)`, otherwise the slice
      `actions[start:end+1]` (app.py:186-190). */
  function HistoryRange(actions: seq<Action>, start: int, end: int): (r: Option<seq<Action>>)
    ensures r.Some? <==> 0 <= start <= end < |actions|
    ensures r.Some? ==> |r.value| == end - start + 1
    ensures r.Some? ==> forall k :: 0 <= k < |r.value| ==> r.value[k] == actions[start + k]
  {
    if start < 0 || end >= |actions| || start > end then None
    else Some(actions[start..end + 1])
  }

  /** The web check is the stricter of the two: whatever it accepts,
      `przegląd` accepts with the same entries, and the one range only
      `przegląd` accepts, `start > end`, shows nothing. */
  lemma HistoryRangeStricter(actions: seq<Action>, start: int, end: int)
    ensures HistoryRange(actions, start, end).Some? ==> ReviewRange(actions, start, end) == HistoryRange(actions, start, end)
    ensures ReviewRange(actions, start, end).Some? && HistoryRange(actions, start, end).None? ==> ReviewRange(actions, start, end) == Some([])
  {
  }

  /** A sale that passed both checks (app.py:89-92). */
  function Sold(s: Ledger, name: string, price: int, quantity: int): Ledger
    requires name in s.warehouse
  {
    var product := s.warehouse[name];
    s.(warehouse := s.warehouse[name := product.(quantity := product.quantity - quantity)],
       balance := s.balance + price * quantity,
       actions := s.actions + [Sprzedaz(name, price, quantity)])
  }

  /** A purchase (app.py:99-106): an existing entry only gains stock and keeps
      its price; a new one is created with the given price. */
  function Bought(s: Ledger, name: string, price: int, quantity: int): Ledger {
    var entry := if name in s.warehouse then s.warehouse[name].(quantity := s.warehouse[name].quantity + quantity)
                 else Product(price, quantity);
    s.(warehouse := s.warehouse[name := entry],
       names := if name in s.warehouse then s.names else s.names + [name],
       balance := s.balance - price * quantity,
       actions := s.actions + [Zakup(name, price, quantity)])
  }

  /** The `saldo` branch on the command's comma-separated fields
      (app.py:71-74). */
  function DepositStep(s: Ledger, parts: seq<string>): (Ledger, Reply) {
    match Field(parts, 1)
    case Err(e) => (s, Failed(e))
    case Ok(amount) => (s.(balance := s.balance + amount, actions := s.actions + [Saldo(amount)]), Done)
  }

  /** The `sprzedaż` branch (app.py:75-92): the name is looked up before the
      price and quantity are read. */
  function SaleStep(s: Ledger, parts: seq<string>): (Ledger, Reply) {
    if |parts| < 2 then (s, Failed(IndexError))
    else if parts[1] !in s.warehouse then (s, NoSuchProduct)
    else
      match Field(parts, 2)
      case Err(e) => (s, Failed(e))
      case Ok(price) =>
        match Field(parts, 3)
        case Err(e) => (s, Failed(e))
        case Ok(quantity) =>
          if s.warehouse[parts[1]].quantity < quantity then (s, InsufficientStock)
          else (Sold(s, parts[1], price, quantity), Done)
  }

  /** The `zakup` branch (app.py:93-106). */
  function PurchaseStep(s: Ledger, parts: seq<string>): (Ledger, Reply) {
    if |parts| < 2 then (s, Failed(IndexError))
    else
      match Field(parts, 2)
      case Err(e) => (s, Failed(e))
      case Ok(price) =>
        match Field(parts, 3)
        case Err(e) => (s, Failed(e))
        case Ok(quantity) => (Bought(s, parts[1], price, quantity), Done)
  }

  /** The `magazyn` branch (app.py:111-117); a stored product is a
      non-empty dict, so `if product:` only fails for a missing name. */
  function LookupStep(s: Ledger, parts: seq<string>): Reply {
    if |parts| < 2 then Failed(IndexError)
    else if parts[1] in s.warehouse then ShowProduct(parts[1], s.warehouse[parts[1]])
    else NoSuchProduct
  }

  /** The `przegląd` branch (app.py:118-129): a missing start is 0, a
      missing end the last index. */
  function ReviewStep(s: Ledger, parts: seq<string>): Reply {
    var start := if |parts| > 1 then Field(parts, 1) else Ok(0);
    var end := if |parts| > 2 then Field(parts, 2) else Ok(|s.actions| - 1);
    if start.Err? then Failed(start.error)
    else if end.Err? then Failed(end.error)
    else
      match ReviewRange(s.actions, start.value, end.value)
      case None => BadRange(|s.actions|)
      case Some(entries) => ShowHistory(entries)
  }

  /** One call of `assign(command)`: the state afterwards and the reply. */
  function Exec(s: Ledger, command: string): (Ledger, Reply) {
    var parts := Split(command, ",");
    match KindOf(command)
    case Deposit => DepositStep(s, parts)
    case Sale => SaleStep(s, parts)
    case Purchase => PurchaseStep(s, parts)
    case Balance => (s, ShowBalance(s.balance))
    case List => (s, ShowInventory)
    case Lookup => (s, LookupStep(s, parts))
    case Review => (s, ReviewStep(s, parts))
    case Unrecognised => (s, InvalidCommand)
  }

  /** A sequence of `assign` calls. */
  function Run(s: Ledger, commands: seq<string>): Ledger
    decreases |commands|
  {
    if commands == [] then s else Run(Exec(s, commands[0]).0, commands[1..])
  }

  /** The command texts `assign` is given, keyword and fields joined by
      commas, as the web routes build them with f-strings (app.py:160, 168,
      175). The sale route always writes a price of 0, so its text is
      `SaleCommand(name, 0, quantity)` and a sale made there never changes
      the balance. */
  function DepositCommand(amount: int): string {
    Join(["saldo", IntToString(amount)], ",")
  }

  function SaleCommand(name: string, price: int, quantity: int): string {
    Join(["sprzedaż", name, IntToString(price), IntToString(quantity)], ",")
  }

  function PurchaseCommand(name: string, price: int, quantity: int): string {
    Join(["zakup", name, IntToString(price), IntToString(quantity)], ",")
  }

  function ReviewCommand(start: int, end: int): string {
    Join(["przegląd", IntToString(start), IntToString(end)], ",")
  }

  /** A four-field command splits back into its fields, so the name and
      the two numbers `assign` reads are the ones written. */
  lemma FourFields(keyword: string, name: string, price: int, quantity: int)
    requires ',' !in keyword && ',' !in name
    ensures Split(Join([keyword, name, IntToString(price), IntToString(quantity)], ","), ",")
            == [keyword, name, IntToString(price), IntToString(quantity)]
    ensures Field([keyword, name, IntToString(price), IntToString(quantity)], 2) == Ok(price)
    ensures Field([keyword, name, IntToString(price), IntToString(quantity)], 3) == Ok(quantity)
  {
    var fields := [keyword, name, IntToString(price), IntToString(quantity)];
    FreeOfHead(keyword, ",");
    FreeOfHead(name, ",");
    NumeralFree(price, ",");
    NumeralFree(quantity, ",");
    SplitJoin(fields, ",");
    ParseIntToString(price);
    ParseIntToString(quantity);
  }

  /** A two-field command splits back into its fields, so the number
      `assign` reads is the one written. */
  lemma TwoFields(keyword: string, amount: int)
    requires ',' !in keyword
    ensures Split(Join([keyword, IntToString(amount)], ","), ",") == [keyword, IntToString(amount)]
    ensures Field([keyword, IntToString(amount)], 1) == Ok(amount)
  {
    FreeOfHead(keyword, ",");
    NumeralFree(amount, ",");
    SplitJoin([keyword, IntToString(amount)], ",");
    ParseIntToString(amount);
  }

  /** `saldo,<amount>` adds the amount to the balance and logs exactly
      `('saldo', amount)`; the warehouse is untouched (app.py:71-74). */
  lemma DepositApplied(s: Ledger, amount: int)
    ensures Exec(s, DepositCommand(amount))
            == (s.(balance := s.balance + amount, actions := s.actions + [Saldo(amount)]), Done)
  {
    TwoFields("saldo", amount);
    assert KindOf(DepositCommand(amount)) == Deposit;
  }

  /** A sale naming a product the warehouse lacks is refused before its price
      and quantity are even read: whatever follows the name, nothing changes
      (app.py:76-80). */
  lemma SaleOfUnknownProduct(s: Ledger, name: string, rest: string)
    requires ',' !in name && name !in s.warehouse
    ensures Exec(s, "sprzedaż," + name + "," + rest) == (s, NoSuchProduct)
  {
    var command := "sprzedaż," + name + "," + rest;
    assert command == "sprzedaż" + "," + (name + "," + rest);
    FreeOfHead("sprzedaż", ",");
    FreeBeforeOf("sprzedaż", ",");
    SplitAround("sprzedaż", ",", name + "," + rest);
    FreeOfHead(name, ",");
    FreeBeforeOf(name, ",");
    SplitAround(name, ",", rest);
    assert command[1] == 'p';
    assert KindOf(command) == Sale;
  }

  /** A sale asking for more than is in stock is refused and changes nothing
      (app.py:82-87). */
  lemma SaleBeyondStock(s: Ledger, name: string, price: int, quantity: int)
    requires ',' !in name && name in s.warehouse && s.warehouse[name].quantity < quantity
    ensures Exec(s, SaleCommand(name, price, quantity)) == (s, InsufficientStock)
  {
    FourFields("sprzedaż", name, price, quantity);
    assert SaleCommand(name, price, quantity)[1] == 'p';
    assert KindOf(SaleCommand(name, price, quantity)) == Sale;
  }

  /** A sale within stock lowers that product's quantity, keeps its stored
      price and every other entry, adds `price * quantity` to the balance and
      logs exactly one `('sprzedaż', name, price, quantity)` (app.py:89-92).
      Since the quantity sold is at most the stock, the stock never goes
      negative by a sale, whatever the sign of the quantity. */
  lemma SaleApplied(s: Ledger, name: string, price: int, quantity: int)
    requires ',' !in name && name in s.warehouse && quantity <= s.warehouse[name].quantity
    ensures var (t, reply) := Exec(s, SaleCommand(name, price, quantity));
      && reply == Done
      && t.warehouse == s.warehouse[name := Product(s.warehouse[name].price, s.warehouse[name].quantity - quantity)]
      && t.names == s.names
      && t.balance == s.balance + price * quantity
      && t.actions == s.actions + [Sprzedaz(name, price, quantity)]
      && t.warehouse[name].quantity >= 0
  {
    FourFields("sprzedaż", name, price, quantity);
    assert SaleCommand(name, price, quantity)[1] == 'p';
    assert KindOf(SaleCommand(name, price, quantity)) == Sale;
  }

  /** A purchase of a known product adds to its quantity and keeps its
      original price; of a new one, creates the entry with the given price
      and quantity. Either way the balance drops by `price * quantity` and
      exactly one `('zakup', name, price, quantity)` is logged
      (app.py:99-106). */
  lemma PurchaseApplied(s: Ledger, name: string, price: int, quantity: int)
    requires ',' !in name
    ensures var (t, reply) := Exec(s, PurchaseCommand(name, price, quantity));
      && reply == Done
      && (name in s.warehouse ==>
            t.warehouse == s.warehouse[name := Product(s.warehouse[name].price, s.warehouse[name].quantity + quantity)]
            && t.names == s.names)
      && (name !in s.warehouse ==>
            t.warehouse == s.warehouse[name := Product(price, quantity)]
            && t.names == s.names + [name])
      && t.balance == s.balance - price * quantity
      && t.actions == s.actions + [Zakup(name, price, quantity)]
  {
    FourFields("zakup", name, price, quantity);
    var command := PurchaseCommand(name, price, quantity);
    assert command[1] == 'a' && command[0] == 'z';
    assert KindOf(command) == Purchase;
  }

  lemma ReviewCommandSplits(start: int, end: int)
    ensures KindOf(ReviewCommand(start, end)) == Review
    ensures Split(ReviewCommand(start, end), ",") == ["przegląd", IntToString(start), IntToString(end)]
  {
    var fields := ["przegląd", IntToString(start), IntToString(end)];
    FreeOfHead("przegląd", ",");
    NumeralFree(start, ",");
    NumeralFree(end, ",");
    SplitJoin(fields, ",");
    var command := ReviewCommand(start, end);
    assert command[0] == 'p' && command[1] == 'r' && command[2] == 'z';
  }

  /** `przegląd,<start>,<end>` changes nothing and shows exactly the entries
      the range check admits (app.py:118-129). */
  lemma ReviewShows(s: Ledger, start: int, end: int)
    ensures Exec(s, ReviewCommand(start, end))
            == (s, match ReviewRange(s.actions, start, end)
                   case None => BadRange(|s.actions|)
                   case Some(entries) => ShowHistory(entries))
  {
    ReviewCommandSplits(start, end);
    ParseIntToString(start);
    ParseIntToString(end);
  }

  /** A `przegląd` command without fields — a bare `przegląd` in
      particular — shows the whole log (app.py:120-121). */
  lemma ReviewDefaultsToWholeLog(s: Ledger, command: string)
    requires KindOf(command) == Review && ',' !in command
    ensures Exec(s, command) == (s, ShowHistory(s.actions))
  {
    FreeOfHead(command, ",");
    SplitWhole(command, ",");
    assert s.actions[0..|s.actions|] == s.actions;
  }

  /** The queries and unrecognised commands never change the state
      (app.py:107-131). */
  lemma QueriesChangeNothing(s: Ledger, command: string)
    requires KindOf(command) in {Balance, List, Lookup, Review, Unrecognised}
    ensures Exec(s, command).0 == s && Exec(s, command).1 != Done
  {
  }

  /** Every command is either applied — exactly one action appended, nothing
      removed or reordered, and the balance moved by exactly that action's
      cash effect — or leaves the whole state untouched. */
  lemma ExecStep(s: Ledger, command: string)
    ensures var (t, reply) := Exec(s, command);
      if reply == Done then
        && |t.actions| == |s.actions| + 1
        && t.actions[..|s.actions|] == s.actions
        && t.balance == s.balance + CashEffect(t.actions[|s.actions|])
      else t == s
  {
  }

  /** `assign` keeps the warehouse keys and their insertion order in step,
      and keeps the balance equal to what the log accounts for. */
  lemma ExecPreserves(s: Ledger, command: string)
    requires WellFormed(s)
    ensures WellFormed(Exec(s, command).0)
    ensures KeepsOrder(s, Exec(s, command).0) && |Exec(s, command).0.names| <= |s.names| + 1
    ensures Consistent(s) ==> Consistent(Exec(s, command).0)
  {
    var (t, reply) := Exec(s, command);
    ExecStep(s, command);
    if reply == Done {
      var a := t.actions[|s.actions|];
      assert t.actions == s.actions + [a];
      TotalAppend(s.actions, a);
    }
    ExecKeepsOrder(s, command);
  }

  lemma ExecKeepsOrder(s: Ledger, command: string)
    ensures KeepsOrder(s, Exec(s, command).0) && |Exec(s, command).0.names| <= |s.names| + 1
  {
    var t := Exec(s, command).0;
    if |t.names| > |s.names| {
      assert t.names[|s.names|..] == [t.names[|s.names|]];
    } else {
      assert t.names[|s.names|..] == [];
    }
  }

  /** Starting from any well-formed, consistent state — in particular the
      fresh one — the balance equals the fold of the log after any sequence
      of `assign` calls. */
  lemma {:induction false} RunPreserves(s: Ledger, commands: seq<string>)
    requires WellFormed(s) && Consistent(s)
    ensures WellFormed(Run(s, commands)) && Consistent(Run(s, commands))
    decreases |commands|
  {
    if commands != [] {
      ExecPreserves(s, commands[0]);
      RunPreserves(Exec(s, commands[0]).0, commands[1..]);
    }
  }

  lemma RunTwo(s: Ledger, first: string, second: string)
    ensures Run(s, [first, second]) == Exec(Exec(s, first).0, second).0
  {
    var s1 := Exec(s, first).0;
    assert [first, second][1..] == [second];
    assert Run(s, [first, second]) == Run(s1, [second]);
    assert [second][1..] == [];
    assert Run(s1, [second]) == Run(Exec(s1, second).0, []);
  }

  /** Two purchases of one product, new at first, accumulate its stock and
      each charge the balance at its own price, while the stored price stays
      the first one; a sale of more than the accumulated stock is then
      refused. With `Widget`, 250, 10, 250 and 5 this is the stock of 15 and
      the balance of -3750 after `zakup,Widget,250,10` and
      `zakup,Widget,250,5`. */
  lemma {:induction false} TwoPurchasesThenOversell(name: string, price: int, first: int, price2: int, second: int, salePrice: int)
    requires ',' !in name
    ensures var s := Run(Initial, [PurchaseCommand(name, price, first), PurchaseCommand(name, price2, second)]);
      && s.warehouse == map[name := Product(price, first + second)]
      && s.balance == -(price * first) - price2 * second
      && s.actions == [Zakup(name, price, first), Zakup(name, price2, second)]
      && Exec(s, SaleCommand(name, salePrice, first + second + 1)) == (s, InsufficientStock)
  {
    var c1, c2 := PurchaseCommand(name, price, first), PurchaseCommand(name, price2, second);
    var s1 := Exec(Initial, c1).0;
    FirstPurchase(name, price, first);
    SecondPurchase(s1, name, price, first, price2, second);
    RunTwo(Initial, c1, c2);
    SaleBeyondStock(Exec(s1, c2).0, name, salePrice, first + second + 1);
  }

  lemma FirstPurchase(name: string, price: int, quantity: int)
    requires ',' !in name
    ensures var s := Exec(Initial, PurchaseCommand(name, price, quantity)).0;
      s == Ledger(-(price * quantity), map[name := Product(price, quantity)], [name], [Zakup(name, price, quantity)])
  {
    PurchaseApplied(Initial, name, price, quantity);
  }

  lemma SecondPurchase(s: Ledger, name: string, price: int, first: int, price2: int, second: int)
    requires ',' !in name
    requires s == Ledger(-(price * first), map[name := Product(price, first)], [name], [Zakup(name, price, first)])
    ensures var t := Exec(s, PurchaseCommand(name, price2, second)).0;
      && t.warehouse == map[name := Product(price, first + second)]
      && t.balance == -(price * first) - price2 * second
      && t.actions == [Zakup(name, price, first), Zakup(name, price2, second)]
  {
    PurchaseApplied(s, name, price2, second);
  }
}
