/** The text `FileReader.save` writes (app.py:56-64) and what
    `FileReader.load_data` makes of it (app.py:21-41), with the file replaced
    by its list of lines (without line terminators). Action lines are read by
    an explicit parser of the three tuple shapes `save` writes, where the
    source evaluates the line as Python. */
module Storage {
  import opened Outcomes
  import opened Text
  import opened Ledger

  const InventoryHeader := "Stan magazynu:"
  const HistoryHeader := "Historia operacji:"

  /** `"Saldo konta: " + str(balance)`. */
  function BalanceLine(balance: int): string {
    "Saldo konta: " + IntToString(balance)
  }

  /** `key + ": " + value`. */
  function Labelled(key: string, value: string): string {
    key + ": " + value
  }

  /** `f"Produkt: {name}, Cena: {price}, Ilość: {quantity}"`. */
  function ProductLine(name: string, p: Product): string {
    Join([Labelled("Produkt", name), Labelled("Cena", IntToString(p.price)), Labelled("Ilość", IntToString(p.quantity))], ", ")
  }

  /** The elements of an action tuple as Python's `repr` writes them: the
      strings in single quotes, the numbers in decimal. */
  function ActionFields(a: Action): seq<string> {
    match a
    case Saldo(amount) => ["'saldo'", IntToString(amount)]
    case Zakup(name, price, quantity) => ["'zakup'", "'" + name + "'", IntToString(price), IntToString(quantity)]
    case Sprzedaz(name, price, quantity) => ["'sprzedaż'", "'" + name + "'", IntToString(price), IntToString(quantity)]
  }

  /** `str(action)` for an action tuple. */
  function ActionLine(a: Action): string {
    "(" + Join(ActionFields(a), ", ") + ")"
  }

  /** One product line per name, in the given order. */
  function ProductLines(warehouse: map<string, Product>, names: seq<string>): seq<string>
    requires forall n :: n in names ==> n in warehouse
  {
    if names == [] then []
    else ProductLines(warehouse, names[..|names| - 1]) + [ProductLine(names[|names| - 1], warehouse[names[|names| - 1]])]
  }

  /** One action line per action, in log order. */
  function ActionLines(actions: seq<Action>): seq<string> {
    if actions == [] then []
    else ActionLines(actions[..|actions| - 1]) + [ActionLine(actions[|actions| - 1])]
  }

  lemma ProductLinesExtend(warehouse: map<string, Product>, names: seq<string>, i: nat)
    requires i < |names| && forall n :: n in names ==> n in warehouse
    ensures ProductLines(warehouse, names[..i + 1])
            == ProductLines(warehouse, names[..i]) + [ProductLine(names[i], warehouse[names[i]])]
  {
    assert names[..i + 1][..i] == names[..i];
  }

  lemma ActionLinesExtend(actions: seq<Action>, i: nat)
    requires i < |actions|
    ensures ActionLines(actions[..i + 1]) == ActionLines(actions[..i]) + [ActionLine(actions[i])]
  {
    assert actions[..i + 1][..i] == actions[..i];
  }

  /** The inventory part `save` writes: the header, then one line per
      product. */
  function InventoryLines(s: Ledger): seq<string>
    requires forall n :: n in s.names ==> n in s.warehouse
  {
    [InventoryHeader] + ProductLines(s.warehouse, s.names)
  }

  /** The history part `save` writes: the header, then one line per action. */
  function HistoryLines(s: Ledger): seq<string> {
    [HistoryHeader] + ActionLines(s.actions)
  }

  /** Everything `save` writes, line by line. */
  function SaveLines(s: Ledger): seq<string>
    requires forall n :: n in s.names ==> n in s.warehouse
  {
    [BalanceLine(s.balance)] + (InventoryLines(s) + HistoryLines(s))
  }

  /** The reading of a product line (app.py:32-36): the stripped line cut at
      ", ", each piece cut at ": ", the second half of each taken. */
  function ParseProductLine(line: string): Result<(string, Product), Raised> {
    var parts := Split(Strip(line), ", ");
    var nameParts := Split(parts[0], ": ");
    if |nameParts| < 2 || |parts| < 2 then Err(IndexError)
    else
      var priceParts := Split(parts[1], ": ");
      if |priceParts| < 2 then Err(IndexError)
      else if ParseInt(priceParts[1]).None? then Err(ValueError)
      else if |parts| < 3 then Err(IndexError)
      else
        var quantityParts := Split(parts[2], ": ");
        if |quantityParts| < 2 then Err(IndexError)
        else if ParseInt(quantityParts[1]).None? then Err(ValueError)
        else Ok((nameParts[1], Product(ParseInt(priceParts[1]).value, ParseInt(quantityParts[1]).value)))
  }

  /** A string literal as `repr` writes it: in single quotes, none inside. */
  predicate Quoted(f: string) {
    |f| >= 2 && f[0] == '\'' && f[|f| - 1] == '\'' && '\'' !in f[1..|f| - 1]
  }

  /** The tuple the ", "-separated fields of an action line spell, for the
      three shapes `save` writes; anything else is a syntax error. A quoted
      name may itself hold ", ", so every field between the tag and the two
      numbers is joined back into the name's literal. The literal ends at
      its closing quote, so a name holding a quote is not read back. */
  function TupleOf(fields: seq<string>): Result<Action, Raised> {
    if |fields| == 2 && fields[0] == "'saldo'" && ParseInt(fields[1]).Some? then
      Ok(Saldo(ParseInt(fields[1]).value))
    else if |fields| >= 4 && (fields[0] == "'zakup'" || fields[0] == "'sprzedaż'") then
      var literal := Join(fields[1..|fields| - 2], ", ");
      var price := ParseInt(fields[|fields| - 2]);
      var quantity := ParseInt(fields[|fields| - 1]);
      if Quoted(literal) && price.Some? && quantity.Some? then
        var name := literal[1..|literal| - 1];
        Ok(if fields[0] == "'zakup'" then Zakup(name, price.value, quantity.value)
           else Sprzedaz(name, price.value, quantity.value))
      else Err(SyntaxError)
    else Err(SyntaxError)
  }

  /** The reading of an action line: a parenthesised tuple whose
      ", "-separated fields `TupleOf` accepts. */
  function ParseActionLine(line: string): Result<Action, Raised> {
    var t := Strip(line);
    if |t| < 2 || t[0] != '(' || t[|t| - 1] != ')' then Err(SyntaxError)
    else TupleOf(Split(t[1..|t| - 1], ", "))
  }

  /** The loop body of `load_data` for one line after the first: product
      lines go into the warehouse (a repeated name overwrites the entry but
      keeps its place), action lines onto the log, other lines are skipped. */
  function AbsorbLine(s: Ledger, line: string): (Ledger, Option<Raised>) {
    if StartsWith(line, "Produkt") then
      match ParseProductLine(line)
      case Err(e) => (s, Some(e))
      case Ok((name, product)) =>
        (s.(warehouse := s.warehouse[name := product],
            names := if name in s.warehouse then s.names else s.names + [name]), None)
    else if StartsWith(line, "(") then
      match ParseActionLine(line)
      case Err(e) => (s, Some(e))
      case Ok(a) => (s.(actions := s.actions + [a]), None)
    else (s, None)
  }

  /** The loop of `load_data` over `lines`, stopping at the first line that
      raises; what was read before it stays. */
  function Absorb(s: Ledger, lines: seq<string>): (Ledger, Option<Raised>)
    decreases |lines|
  {
    if lines == [] then (s, None)
    else
      var (t, e) := Absorb(s, lines[..|lines| - 1]);
      if e.Some? then (t, e) else AbsorbLine(t, lines[|lines| - 1])
  }

  /** `load_data` started in state `s` on a file with the given lines, or on
      a missing file (`None`): the warehouse and the log are emptied first,
      the balance is only replaced once the first line has been read. */
  function Load(s: Ledger, file: Option<seq<string>>): (Ledger, Option<Raised>) {
    var cleared := s.(warehouse := map[], names := [], actions := []);
    match file
    case None => (cleared, None)
    case Some(lines) =>
      if lines == [] then (cleared, Some(IndexError))
      else
        var parts := Split(lines[0], ":");
        if |parts| < 2 then (cleared, Some(IndexError))
        else
          (match ParseInt(Strip(parts[1]))
           case None => (cleared, Some(ValueError))
           case Some(balance) => Absorb(cleared.(balance := balance), lines[1..]))
  }

  /** A name that a product line carries intact: no ", " or ": " to cut it
      apart when the line is read back. */
  predicate Separable(name: string) {
    Free(name, ", ") && Free(name, ": ")
  }

  /** A name that `repr` writes as is between single quotes: no quote, no
      backslash and no ASCII control character, which `repr` would escape. */
  predicate Printable(name: string) {
    forall k :: 0 <= k < |name| ==> name[k] != '\'' && name[k] != '\\' && name[k] >= ' ' && name[k] != '\U{007F}'
  }

  /** Every name in the warehouse can be read back from its product line,
      and every name in the log from its action line. */
  predicate Storable(s: Ledger) {
    && (forall n :: n in s.warehouse ==> Separable(n))
    && (forall a :: a in s.actions && !a.Saldo? ==> Printable(a.name))
  }

  /** The first line gives back the balance it was written from. */
  lemma BalanceLineRoundTrip(balance: int)
    ensures |Split(BalanceLine(balance), ":")| >= 2
    ensures ParseInt(Strip(Split(BalanceLine(balance), ":")[1])) == Some(balance)
  {
    var digits := IntToString(balance);
    assert BalanceLine(balance) == Join(["Saldo konta", " " + digits], ":");
    FreeOfHead("Saldo konta", ":");
    NumeralLacks(digits, ':');
    FreeOfHead(" " + digits, ":");
    SplitJoin(["Saldo konta", " " + digits], ":");
    StripBlankThen(digits);
    ParseIntToString(balance);
  }

  lemma LabelledNumberSplits(key: string, n: int)
    requires ':' !in key && ',' !in key
    ensures Free(Labelled(key, IntToString(n)), ", ")
    ensures Split(Labelled(key, IntToString(n)), ": ") == [key, IntToString(n)]
  {
    var digits := IntToString(n);
    NumeralLacks(digits, ',');
    NumeralLacks(digits, ':');
    FreeOfHead(Labelled(key, digits), ", ");
    FreeOfHead(key, ": ");
    FreeOfHead(digits, ": ");
    assert Labelled(key, digits) == Join([key, digits], ": ");
    SplitJoin([key, digits], ": ");
  }

  /** How `load_data` reads a line once it is known how the line and its
      pieces split. */
  lemma ParseProductLineOf(line: string, a: string, b: string, c: string, name: string, p: Product)
    requires Split(Strip(line), ", ") == [a, b, c]
    requires Split(a, ": ") == ["Produkt", name]
    requires Split(b, ": ") == ["Cena", IntToString(p.price)]
    requires Split(c, ": ") == ["Ilość", IntToString(p.quantity)]
    ensures ParseProductLine(line) == Ok((name, p))
  {
    ParseIntToString(p.price);
    ParseIntToString(p.quantity);
  }

  /** A product line is its three labelled pieces joined by ", ", and is
      stripped to itself. */
  lemma ProductLineShape(name: string, p: Product)
    ensures var line := ProductLine(name, p);
      && line == Labelled("Produkt", name) + ", " + Labelled("Cena", IntToString(p.price)) + ", " + Labelled("Ilość", IntToString(p.quantity))
      && StartsWith(line, "Produkt") && Strip(line) == line
  {
    var a := Labelled("Produkt", name);
    var b := Labelled("Cena", IntToString(p.price));
    var c := Labelled("Ilość", IntToString(p.quantity));
    var line := ProductLine(name, p);
    assert [a, b, c][1..] == [b, c] && [b, c][1..] == [c];
    assert Join([b, c], ", ") == b + ", " + c;
    assert line == a + ", " + b + ", " + c;
    assert line[..7] == "Produkt";
    assert line[|line| - 1] == IntToString(p.quantity)[|IntToString(p.quantity)| - 1];
    StripBlankThen(line);
  }

  /** Three ", "-free pieces joined by ", " split back into them. */
  lemma SplitThree(a: string, b: string, c: string)
    requires Free(a, ", ") && Free(b, ", ") && Free(c, ", ")
    ensures Split(a + ", " + b + ", " + c, ", ") == [a, b, c]
  {
    var parts := [a, b, c];
    assert parts[1..] == [b, c] && parts[1..][1..] == [c];
    assert Join([b, c], ", ") == b + ", " + c;
    assert Join(parts, ", ") == a + ", " + (b + ", " + c);
    assert a + ", " + (b + ", " + c) == a + ", " + b + ", " + c;
    assert forall k :: 0 <= k < |parts| ==> parts[k] == a || parts[k] == b || parts[k] == c;
    SplitJoin(parts, ", ");
  }

  lemma NamePieceFree(name: string)
    requires Free(name, ", ")
    ensures Free(Labelled("Produkt", name), ", ")
  {
    FreeOfHead("Produkt: ", ", ");
    FreeConcat("Produkt: ", name, ", ");
    assert Labelled("Produkt", name) == "Produkt: " + name;
  }

  lemma ProductLineSplits(name: string, p: Product)
    requires Free(name, ", ")
    ensures StartsWith(ProductLine(name, p), "Produkt")
    ensures Split(Strip(ProductLine(name, p)), ", ")
            == [Labelled("Produkt", name), Labelled("Cena", IntToString(p.price)), Labelled("Ilość", IntToString(p.quantity))]
  {
    ProductLineShape(name, p);
    NamePieceFree(name);
    LabelledNumberSplits("Cena", p.price);
    LabelledNumberSplits("Ilość", p.quantity);
    SplitThree(Labelled("Produkt", name), Labelled("Cena", IntToString(p.price)), Labelled("Ilość", IntToString(p.quantity)));
  }

  lemma NameSplits(name: string)
    requires Free(name, ": ")
    ensures Split(Labelled("Produkt", name), ": ") == ["Produkt", name]
  {
    FreeOfHead("Produkt", ": ");
    assert Labelled("Produkt", name) == Join(["Produkt", name], ": ");
    SplitJoin(["Produkt", name], ": ");
  }

  /** A product line is recognised as one and gives back the name, price and
      quantity it was written from, provided the name holds neither ", " nor
      ": " (app.py:61 and 32-36). */
  lemma ProductLineRoundTrip(name: string, p: Product)
    requires Free(name, ", ") && Free(name, ": ")
    ensures StartsWith(ProductLine(name, p), "Produkt")
    ensures ParseProductLine(ProductLine(name, p)) == Ok((name, p))
  {
    ProductLineSplits(name, p);
    NameSplits(name);
    LabelledNumberSplits("Cena", p.price);
    LabelledNumberSplits("Ilość", p.quantity);
    ParseProductLineOf(ProductLine(name, p), Labelled("Produkt", name), Labelled("Cena", IntToString(p.price)),
                       Labelled("Ilość", IntToString(p.quantity)), name, p);
  }

  /** A printable name in single quotes is a quoted literal of that name. */
  lemma QuotedName(name: string)
    requires Printable(name)
    ensures var literal := "'" + name + "'";
      Quoted(literal) && literal[1..|literal| - 1] == name
  {
    var literal := "'" + name + "'";
    assert literal[1..|literal| - 1] == name;
    assert forall k :: 0 <= k < |name| ==> name[k] != '\'';
  }

  /** A parenthesised text is stripped to itself and starts with "(" only. */
  lemma Parenthesised(inner: string)
    ensures var line := "(" + inner + ")";
      StartsWith(line, "(") && !StartsWith(line, "Produkt") &&
      Strip(line) == line && line[1..|line| - 1] == inner
  {
    var line := "(" + inner + ")";
    assert line[0] == '(' && line[|line| - 1] == ')';
    assert line[..1] == "(";
    assert "Produkt"[0] == 'P';
    StripBlankThen(line);
  }

  /** The fields of a purchase or sale split back into the tag, the pieces
      of the name's literal and the two numbers. */
  lemma TradeSplits(tag: string, literal: string, price: int, quantity: int)
    requires ',' !in tag
    ensures Split(Join([tag, literal, IntToString(price), IntToString(quantity)], ", "), ", ")
            == [tag] + Split(literal, ", ") + [IntToString(price), IntToString(quantity)]
  {
    var p, q := IntToString(price), IntToString(quantity);
    var fields := [tag, literal, p, q];
    assert fields[1..] == [literal, p, q] && fields[1..][1..] == [p, q] && fields[1..][1..][1..] == [q];
    assert Join([p, q], ", ") == p + ", " + q;
    assert Join(fields, ", ") == tag + ", " + (literal + ", " + (p + ", " + q));
    FreeOfHead(tag, ", ");
    FreeBeforeOf(tag, ", ");
    SplitAround(tag, ", ", literal + ", " + (p + ", " + q));
    SplitConcat(literal, ", ", p + ", " + q);
    NumeralFree(price, ", ");
    NumeralFree(quantity, ", ");
    SplitJoin([p, q], ", ");
  }

  /** The fields of a purchase or sale of a printable name spell it back. */
  lemma TradeTuple(tag: string, name: string, price: int, quantity: int)
    requires tag == "'zakup'" || tag == "'sprzedaż'"
    requires Printable(name)
    ensures TupleOf(Split(Join([tag, "'" + name + "'", IntToString(price), IntToString(quantity)], ", "), ", "))
            == Ok(if tag == "'zakup'" then Zakup(name, price, quantity) else Sprzedaz(name, price, quantity))
  {
    var literal := "'" + name + "'";
    var p, q := IntToString(price), IntToString(quantity);
    assert tag[0] == '\'' && ',' !in tag;
    TradeSplits(tag, literal, price, quantity);
    var pieces := Split(literal, ", ");
    var fields := [tag] + pieces + [p, q];
    assert fields[0] == tag && fields[|fields| - 2] == p && fields[|fields| - 1] == q;
    assert fields[1..|fields| - 2] == pieces;
    JoinSplit(literal, ", ");
    QuotedName(name);
    ParseIntToString(price);
    ParseIntToString(quantity);
  }

  /** The fields of any action whose name is printable spell that action. */
  lemma TupleOfFields(a: Action)
    requires a.Saldo? || Printable(a.name)
    ensures TupleOf(Split(Join(ActionFields(a), ", "), ", ")) == Ok(a)
  {
    match a
    case Saldo(amount) =>
      FreeOfHead("'saldo'", ", ");
      NumeralFree(amount, ", ");
      SplitJoin(ActionFields(a), ", ");
      ParseIntToString(amount);
    case Zakup(name, price, quantity) =>
      TradeTuple("'zakup'", name, price, quantity);
    case Sprzedaz(name, price, quantity) =>
      TradeTuple("'sprzedaż'", name, price, quantity);
  }

  /** An action line is recognised as one and gives back the action it was
      written from, provided the product name in it is printable. */
  lemma ActionLineRoundTrip(a: Action)
    requires a.Saldo? || Printable(a.name)
    ensures StartsWith(ActionLine(a), "(") && !StartsWith(ActionLine(a), "Produkt")
    ensures ParseActionLine(ActionLine(a)) == Ok(a)
  {
    Parenthesised(Join(ActionFields(a), ", "));
    TupleOfFields(a);
  }

  /** Reading `first + rest` is reading `first`, then, unless that raised,
      reading `rest` from where it left off. */
  lemma {:induction false} AbsorbAppend(s: Ledger, first: seq<string>, rest: seq<string>)
    ensures Absorb(s, first + rest)
            == (var (t, e) := Absorb(s, first); if e.Some? then (t, e) else Absorb(t, rest))
    decreases |rest|
  {
    if rest == [] {
      assert first + rest == first;
    } else {
      var init := rest[..|rest| - 1];
      assert (first + rest)[..|first + rest| - 1] == first + init;
      assert (first + rest)[|first + rest| - 1] == rest[|rest| - 1];
      AbsorbAppend(s, first, init);
    }
  }

  /** Once a line has raised, nothing after it is read. */
  lemma AbsorbStops(s: Ledger, first: seq<string>, rest: seq<string>)
    requires Absorb(s, first).1.Some?
    ensures Absorb(s, first + rest) == Absorb(s, first)
  {
    AbsorbAppend(s, first, rest);
  }

  /** Reading a line keeps the warehouse keys listed once, and the order of
      first insertion: a product line with a known name updates the entry
      where it stands, one with a new name puts it last. */
  lemma AbsorbLineWellFormed(s: Ledger, line: string)
    requires WellFormed(s)
    ensures var t := AbsorbLine(s, line).0;
      WellFormed(t) && KeepsOrder(s, t) && |t.names| <= |s.names| + 1
  {
    var t := AbsorbLine(s, line).0;
    if |t.names| > |s.names| {
      assert t.names[|s.names|..] == [t.names[|s.names|]];
    }
  }

  /** Whatever the file holds, `load_data` leaves each warehouse key listed
      exactly once in the order of first insertion: the keys read earlier
      keep their places, and a repeated name keeps its first one. */
  lemma {:induction false} AbsorbWellFormed(s: Ledger, lines: seq<string>)
    requires WellFormed(s)
    ensures var t := Absorb(s, lines).0;
      WellFormed(t) && KeepsOrder(s, t)
    decreases |lines|
  {
    if lines == [] {
      assert s.names[|s.names|..] == [];
    } else {
      AbsorbWellFormed(s, lines[..|lines| - 1]);
      var t := Absorb(s, lines[..|lines| - 1]).0;
      AbsorbLineWellFormed(t, lines[|lines| - 1]);
      KeepsOrderTrans(s, t, AbsorbLine(t, lines[|lines| - 1]).0);
    }
  }

  lemma LoadWellFormed(s: Ledger, file: Option<seq<string>>)
    ensures WellFormed(Load(s, file).0)
  {
    match file
    case None =>
    case Some(lines) =>
      if lines != [] && |Split(lines[0], ":")| >= 2 {
        match ParseInt(Strip(Split(lines[0], ":")[1]))
        case None =>
        case Some(balance) =>
          AbsorbWellFormed(Ledger(balance, map[], [], []), lines[1..]);
      }
  }

  /** A line that is neither a product nor an action is skipped. */
  lemma AbsorbSkips(s: Ledger, line: string)
    requires !StartsWith(line, "Produkt") && !StartsWith(line, "(")
    ensures Absorb(s, [line]) == (s, None)
  {
    assert [line][..0] == [];
  }

  lemma HeadersAreSkipped()
    ensures !StartsWith(InventoryHeader, "Produkt") && !StartsWith(InventoryHeader, "(")
    ensures !StartsWith(HistoryHeader, "Produkt") && !StartsWith(HistoryHeader, "(")
  {
    assert InventoryHeader[0] == 'S' && HistoryHeader[0] == 'H';
  }

  /** A product line of a separable name that is not yet in the warehouse
      adds the product and puts the name last. */
  lemma AbsorbProductLine(s: Ledger, name: string, p: Product)
    requires Separable(name) && name !in s.warehouse
    ensures AbsorbLine(s, ProductLine(name, p))
            == (s.(warehouse := s.warehouse[name := p], names := s.names + [name]), None)
  {
    ProductLineRoundTrip(name, p);
  }

  lemma RestrictionGrows(warehouse: map<string, Product>, names: seq<string>)
    requires |names| > 0 && forall n :: n in names ==> n in warehouse
    ensures (map n | n in names[..|names| - 1] :: warehouse[n])[names[|names| - 1] := warehouse[names[|names| - 1]]]
            == map n | n in names :: warehouse[n]
  {
    assert names == names[..|names| - 1] + [names[|names| - 1]];
  }

  /** Reading back the product lines of distinct separable names rebuilds the
      warehouse restricted to those names, in the same order. */
  lemma {:induction false} AbsorbProducts(s: Ledger, warehouse: map<string, Product>, names: seq<string>)
    requires s.warehouse == map[] && s.names == []
    requires forall i, j :: 0 <= i < j < |names| ==> names[i] != names[j]
    requires forall n :: n in names ==> n in warehouse && Separable(n)
    ensures Absorb(s, ProductLines(warehouse, names))
            == (s.(warehouse := map n | n in names :: warehouse[n], names := names), None)
    decreases |names|
  {
    if names != [] {
      var init := names[..|names| - 1];
      var last := names[|names| - 1];
      assert init + [last] == names;
      AbsorbProducts(s, warehouse, init);
      var lines := ProductLines(warehouse, names);
      assert lines[..|lines| - 1] == ProductLines(warehouse, init);
      assert lines[|lines| - 1] == ProductLine(last, warehouse[last]);
      var m := map n | n in init :: warehouse[n];
      assert last !in m;
      AbsorbProductLine(s.(warehouse := m, names := init), last, warehouse[last]);
      RestrictionGrows(warehouse, names);
    }
  }

  /** An action line with a printable name is appended to the log. */
  lemma AbsorbActionLine(s: Ledger, a: Action)
    requires a.Saldo? || Printable(a.name)
    ensures AbsorbLine(s, ActionLine(a)) == (s.(actions := s.actions + [a]), None)
  {
    ActionLineRoundTrip(a);
  }

  /** Reading back the action lines of actions with printable names appends
      exactly those actions, in order. */
  lemma {:induction false} AbsorbActions(s: Ledger, actions: seq<Action>)
    requires forall a :: a in actions && !a.Saldo? ==> Printable(a.name)
    ensures Absorb(s, ActionLines(actions)) == (s.(actions := s.actions + actions), None)
    decreases |actions|
  {
    if actions == [] {
      assert s.actions + actions == s.actions;
    } else {
      var init := actions[..|actions| - 1];
      var last := actions[|actions| - 1];
      assert init + [last] == actions;
      assert forall a :: a in init ==> a in actions;
      AbsorbActions(s, init);
      var lines := ActionLines(actions);
      assert lines[..|lines| - 1] == ActionLines(init);
      assert lines[|lines| - 1] == ActionLine(last);
      AbsorbActionLine(s.(actions := s.actions + init), last);
      assert s.actions + init + [last] == s.actions + actions;
    }
  }

  /** Once the first line gives the balance, loading is reading the other
      lines into an empty warehouse and log. */
  lemma LoadAfterBalance(prior: Ledger, lines: seq<string>, balance: int)
    requires |lines| >= 1 && |Split(lines[0], ":")| >= 2
    requires ParseInt(Strip(Split(lines[0], ":")[1])) == Some(balance)
    ensures Load(prior, Some(lines)) == Absorb(Ledger(balance, map[], [], []), lines[1..])
  {
  }

  /** Reading the inventory part: the header, then the product lines. */
  lemma AbsorbInventory(s: Ledger)
    requires WellFormed(s) && Storable(s)
    ensures Absorb(Ledger(s.balance, map[], [], []), InventoryLines(s)) == (Ledger(s.balance, s.warehouse, s.names, []), None)
  {
    var start := Ledger(s.balance, map[], [], []);
    AbsorbAppend(start, [InventoryHeader], ProductLines(s.warehouse, s.names));
    HeadersAreSkipped();
    AbsorbSkips(start, InventoryHeader);
    AbsorbProducts(start, s.warehouse, s.names);
    assert (map n | n in s.names :: s.warehouse[n]) == s.warehouse;
  }

  /** Reading the history part: the header, then the action lines. */
  lemma AbsorbHistory(s: Ledger)
    requires Storable(s)
    ensures Absorb(Ledger(s.balance, s.warehouse, s.names, []), HistoryLines(s)) == (s, None)
  {
    var stocked := Ledger(s.balance, s.warehouse, s.names, []);
    AbsorbAppend(stocked, [HistoryHeader], ActionLines(s.actions));
    HeadersAreSkipped();
    AbsorbSkips(stocked, HistoryHeader);
    AbsorbActions(stocked, s.actions);
    assert [] + s.actions == s.actions;
  }

  /** Reading two runs of lines one after the other. */
  lemma AbsorbThen(s: Ledger, first: seq<string>, t: Ledger, rest: seq<string>, u: Ledger)
    requires Absorb(s, first) == (t, None) && Absorb(t, rest) == (u, None)
    ensures Absorb(s, first + rest) == (u, None)
  {
    AbsorbAppend(s, first, rest);
  }

  /** `load_data` on what `save` wrote restores the balance, the warehouse
      with its order, and the log, whatever state it starts from, provided
      every name is storable. */
  lemma SaveLoadRoundTrip(prior: Ledger, s: Ledger)
    requires WellFormed(s) && Storable(s)
    ensures Load(prior, Some(SaveLines(s))) == (s, None)
  {
    var lines := SaveLines(s);
    var rest := InventoryLines(s) + HistoryLines(s);
    assert lines[0] == BalanceLine(s.balance) && lines[1..] == rest;
    BalanceLineRoundTrip(s.balance);
    LoadAfterBalance(prior, lines, s.balance);
    AbsorbInventory(s);
    AbsorbHistory(s);
    AbsorbThen(Ledger(s.balance, map[], [], []), InventoryLines(s), Ledger(s.balance, s.warehouse, s.names, []), HistoryLines(s), s);
  }
}
