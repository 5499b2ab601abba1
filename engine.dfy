/** The two classes of app.py: `FileReader`, whose fields hold the shop's
    state and which writes and reads it as lines of text (app.py:5-64), and
    `Manager`, whose `assign` changes that state in place (app.py:66-131).
    Each method is proved to do exactly what the functions of modules
    Commands and Storage say. */
module Engine {
  import opened Outcomes
  import opened Text
  import opened Ledger
  import opened Commands
  import opened Storage

  class FileReader {
    var balance: int
    var warehouse: map<string, Product>
    /** The warehouse's keys in insertion order, which a Python dict keeps. */
    var names: seq<string>
    var actions: seq<Action>

    /** The fields as one value. */
    function State(): Ledger
      reads this
    {
      Ledger(balance, warehouse, names, actions)
    }

    predicate Valid()
      reads this
    {
      WellFormed(State())
    }

    /** An empty warehouse, an empty log and a zero balance (app.py:6-9). */
    constructor ()
      ensures State() == Initial && Valid()
    {
      balance := 0;
      warehouse := map[];
      names := [];
      actions := [];
    }

    /** The lines `save` writes (app.py:56-64): the balance, the products in
        insertion order, the log in order. Read back, they give the state
        they were written from whenever every name is storable. */
    method Save() returns (lines: seq<string>)
      requires Valid()
      ensures lines == SaveLines(State())
      ensures Storable(State()) ==> Load(State(), Some(lines)) == (State(), None)
    {
      var products := WriteInventory();
      var logged := WriteHistory();
      lines := [BalanceLine(balance)] + ([InventoryHeader] + products + ([HistoryHeader] + logged));
      if Storable(State()) {
        SaveLoadRoundTrip(State(), State());
      }
    }

    /** The loop over the warehouse's items in `save` (app.py:60-61). */
    method WriteInventory() returns (products: seq<string>)
      requires Valid()
      ensures products == ProductLines(warehouse, names)
    {
      products := [];
      var i := 0;
      while i < |names|
        invariant 0 <= i <= |names|
        invariant products == ProductLines(warehouse, names[..i])
      {
        ProductLinesExtend(warehouse, names, i);
        products := products + [ProductLine(names[i], warehouse[names[i]])];
        i := i + 1;
      }
      assert names[..i] == names;
    }

    /** The loop over the log in `save` (app.py:63-64). */
    method WriteHistory() returns (logged: seq<string>)
      ensures logged == ActionLines(actions)
    {
      logged := [];
      var j := 0;
      while j < |actions|
        invariant 0 <= j <= |actions|
        invariant logged == ActionLines(actions[..j])
      {
        ActionLinesExtend(actions, j);
        logged := logged + [ActionLine(actions[j])];
        j := j + 1;
      }
      assert actions[..j] == actions;
    }

    /** One pass of the loop in `load_data` (app.py:31-39): a product line
        sets its entry, an action line is appended to the log, anything else
        is skipped. */
    method ReadLine(line: string) returns (error: Option<Raised>)
      modifies this
      ensures (State(), error) == AbsorbLine(old(State()), line)
    {
      error := None;
      if StartsWith(line, "Produkt") {
        match ParseProductLine(line)
        case Err(e) =>
          error := Some(e);
        case Ok((name, product)) =>
          if name !in warehouse {
            names := names + [name];
          }
          warehouse := warehouse[name := product];
      } else if StartsWith(line, "(") {
        match ParseActionLine(line)
        case Err(e) =>
          error := Some(e);
        case Ok(a) =>
          actions := actions + [a];
      }
    }

    /** `load_data` (app.py:21-41) on the file's lines, or on a missing file
        (`None`). An exception it lets escape is returned as `error`; the
        fields keep what was read before it. */
    method LoadData(file: Option<seq<string>>) returns (error: Option<Raised>)
      modifies this
      ensures (State(), error) == Load(old(State()), file)
      ensures Valid()
    {
      ghost var prior := State();
      warehouse := map[];
      names := [];
      actions := [];
      LoadWellFormed(prior, file);
      if file.None? {
        return None;
      }
      var lines := file.value;
      if |lines| == 0 {
        return Some(IndexError);
      }
      var parts := Split(lines[0], ":");
      if |parts| < 2 {
        return Some(IndexError);
      }
      var parsed := ParseInt(Strip(parts[1]));
      if parsed.None? {
        return Some(ValueError);
      }
      balance := parsed.value;
      ghost var start := State();
      error := None;
      var i := 1;
      while i < |lines| && error.None?
        invariant 1 <= i <= |lines|
        invariant (State(), error) == Absorb(start, lines[1..i])
      {
        assert lines[1..i + 1] == lines[1..i] + [lines[i]];
        assert lines[1..i + 1][..i - 1] == lines[1..i];
        error := ReadLine(lines[i]);
        i := i + 1;
      }
      assert lines[1..] == lines[1..i] + lines[i..];
      if error.Some? {
        AbsorbStops(start, lines[1..i], lines[i..]);
      } else {
        assert lines[1..i] == lines[1..];
      }
    }
  }

  class Manager {
    const reader: FileReader

    constructor ()
      ensures fresh(reader) && reader.State() == Initial && reader.Valid()
    {
      reader := new FileReader();
    }

    /** One command (app.py:70-131), proved to do what `Exec` says: the
        reader's fields afterwards and the reply are `Exec`'s. It therefore
        keeps the warehouse keys in step with their order, and keeps the
        balance equal to what the log accounts for. */
    method Assign(command: string) returns (reply: Reply)
      requires reader.Valid()
      modifies reader
      ensures (reader.State(), reply) == Exec(old(reader.State()), command)
      ensures reader.Valid()
      ensures Consistent(old(reader.State())) ==> Consistent(reader.State())
    {
      ExecPreserves(reader.State(), command);
      var parts := Split(command, ",");
      if StartsWith(command, "saldo") {
        reply := Deposit(parts);
      } else if StartsWith(command, "sprzedaż") {
        reply := Sell(parts);
      } else if StartsWith(command, "zakup") {
        reply := Buy(parts);
      } else if StartsWith(command, "konto") {
        reply := ShowBalance(reader.balance);
      } else if StartsWith(command, "lista") {
        reply := ShowInventory;
      } else if StartsWith(command, "magazyn") {
        reply := Lookup(parts);
      } else if StartsWith(command, "przegląd") {
        reply := Review(parts);
      } else {
        reply := InvalidCommand;
      }
    }

    /** The `saldo` branch (app.py:72-74). */
    method Deposit(parts: seq<string>) returns (reply: Reply)
      modifies reader
      ensures (reader.State(), reply) == DepositStep(old(reader.State()), parts)
    {
      var amount := Field(parts, 1);
      if amount.Err? {
        return Failed(amount.error);
      }
      reader.balance := reader.balance + amount.value;
      reader.actions := reader.actions + [Saldo(amount.value)];
      reply := Done;
    }

    /** The `sprzedaż` branch (app.py:76-92). */
    method Sell(parts: seq<string>) returns (reply: Reply)
      modifies reader
      ensures (reader.State(), reply) == SaleStep(old(reader.State()), parts)
    {
      if |parts| < 2 {
        return Failed(IndexError);
      }
      var name := parts[1];
      if name !in reader.warehouse {
        return NoSuchProduct;
      }
      var price := Field(parts, 2);
      if price.Err? {
        return Failed(price.error);
      }
      var quantity := Field(parts, 3);
      if quantity.Err? {
        return Failed(quantity.error);
      }
      var product := reader.warehouse[name];
      if product.quantity < quantity.value {
        return InsufficientStock;
      }
      var total := price.value * quantity.value;
      reader.warehouse := reader.warehouse[name := product.(quantity := product.quantity - quantity.value)];
      reader.balance := reader.balance + total;
      reader.actions := reader.actions + [Sprzedaz(name, price.value, quantity.value)];
      reply := Done;
    }

    /** The `zakup` branch (app.py:94-106). */
    method Buy(parts: seq<string>) returns (reply: Reply)
      modifies reader
      ensures (reader.State(), reply) == PurchaseStep(old(reader.State()), parts)
    {
      if |parts| < 2 {
        return Failed(IndexError);
      }
      var name := parts[1];
      var price := Field(parts, 2);
      if price.Err? {
        return Failed(price.error);
      }
      var quantity := Field(parts, 3);
      if quantity.Err? {
        return Failed(quantity.error);
      }
      if name in reader.warehouse {
        var product := reader.warehouse[name];
        reader.warehouse := reader.warehouse[name := product.(quantity := product.quantity + quantity.value)];
      } else {
        reader.warehouse := reader.warehouse[name := Product(price.value, quantity.value)];
        reader.names := reader.names + [name];
      }
      var total := price.value * quantity.value;
      reader.balance := reader.balance - total;
      reader.actions := reader.actions + [Zakup(name, price.value, quantity.value)];
      reply := Done;
    }

    /** The `magazyn` branch (app.py:112-117); it changes nothing. */
    method Lookup(parts: seq<string>) returns (reply: Reply)
      ensures reply == LookupStep(reader.State(), parts)
    {
      if |parts| < 2 {
        return Failed(IndexError);
      }
      var name := parts[1];
      if name in reader.warehouse {
        reply := ShowProduct(name, reader.warehouse[name]);
      } else {
        reply := NoSuchProduct;
      }
    }

    /** The `przegląd` branch (app.py:119-129): the entries are collected
        one index at a time, as the source prints them; it changes nothing. */
    method Review(parts: seq<string>) returns (reply: Reply)
      ensures reply == ReviewStep(reader.State(), parts)
    {
      var start := if |parts| > 1 then Field(parts, 1) else Ok(0);
      var end := if |parts| > 2 then Field(parts, 2) else Ok(|reader.actions| - 1);
      if start.Err? {
        return Failed(start.error);
      }
      if end.Err? {
        return Failed(end.error);
      }
      var first, last := start.value, end.value;
      if first < 0 || last >= |reader.actions| {
        return BadRange(|reader.actions|);
      }
      var entries := [];
      var i := first;
      while i <= last
        invariant first <= last ==> first <= i <= last + 1 && entries == reader.actions[first..i]
        invariant first > last ==> entries == []
      {
        entries := entries + [reader.actions[i]];
        i := i + 1;
      }
      reply := ShowHistory(entries);
    }
  }
}
