/** `check_integrity` of check.py: replay the stored action records from a
    balance of 0 and compare the result with the stored balance. The database
    query that supplies the records and the balance is replaced by the
    method's parameters. */
module Integrity {
  import opened Outcomes
  import opened Text
  import opened Ledger
  import opened Commands

  /** One stored action: its type and its details text, which is the amount
      for `saldo` and `name,price,quantity` for `zakup` and `sprzedaż`. */
  datatype Record = Record(actionType: string, details: string)

  /** `_, price, quantity = details.split(',')` followed by
      `float(price) * int(quantity)` (check.py:12-13 and 15-16): anything but
      exactly three fields, or a field that is not a number, raises. */
  function Amount(details: string): Result<int, Raised> {
    var fields := Split(details, ",");
    if |fields| != 3 then Err(ValueError)
    else if ParseInt(fields[1]).None? || ParseInt(fields[2]).None? then Err(ValueError)
    else Ok(ParseInt(fields[1]).value * ParseInt(fields[2]).value)
  }

  /** What one record adds to the computed balance (check.py:9-16); a type
      the if/elif chain does not name adds nothing. */
  function RecordEffect(r: Record): Result<int, Raised> {
    if r.actionType == "saldo" then
      (match ParseInt(r.details)
       case None => Err(ValueError)
       case Some(amount) => Ok(amount))
    else if r.actionType == "zakup" then
      (match Amount(r.details)
       case Err(e) => Err(e)
       case Ok(total) => Ok(-total))
    else if r.actionType == "sprzedaż" then Amount(r.details)
    else Ok(0)
  }

  /** The computed balance: 0, then each record's effect added in order; the
      first record that raises ends the replay (check.py:7-16). */
  function Replay(records: seq<Record>): Result<int, Raised>
    decreases |records|
  {
    if records == [] then Ok(0)
    else
      match Replay(records[..|records| - 1])
      case Err(e) => Err(e)
      case Ok(sum) =>
        match RecordEffect(records[|records| - 1])
        case Err(e) => Err(e)
        case Ok(effect) => Ok(sum + effect)
  }

  /** `check_integrity` given the stored balance and records: the verdict is
      `Ok(true)` for "Integralność danych została zachowana", `Ok(false)`
      for the integrity error, or the exception the replay raised. It reads
      its inputs and changes nothing. */
  method CheckIntegrity(balance: int, records: seq<Record>) returns (verdict: Result<bool, Raised>)
    ensures verdict.Err? <==> Replay(records).Err?
    ensures verdict.Err? ==> verdict.error == Replay(records).error
    ensures verdict.Ok? ==> (verdict.value <==> balance == Replay(records).value)
  {
    var calculated := 0;
    var i := 0;
    while i < |records|
      invariant 0 <= i <= |records|
      invariant Replay(records[..i]) == Ok(calculated)
    {
      assert records[..i + 1][..i] == records[..i];
      var effect := RecordEffect(records[i]);
      if effect.Err? {
        ReplayStops(records[..i + 1], records[i + 1..]);
        assert records[..i + 1] + records[i + 1..] == records;
        return Err(effect.error);
      }
      calculated := calculated + effect.value;
      i := i + 1;
    }
    assert records[..i] == records;
    verdict := Ok(balance == calculated);
  }

  /** Once a record has raised, the records after it do not matter. */
  lemma {:induction false} ReplayStops(first: seq<Record>, rest: seq<Record>)
    requires Replay(first).Err?
    ensures Replay(first + rest) == Replay(first)
    decreases |rest|
  {
    if rest == [] {
      assert first + rest == first;
    } else {
      var init := rest[..|rest| - 1];
      assert (first + rest)[..|first + rest| - 1] == first + init;
      ReplayStops(first, init);
    }
  }

  /** A record of a type the chain does not name leaves the computed balance
      as it was (check.py:8-16 has no else). */
  lemma UnknownTypeAddsNothing(records: seq<Record>, r: Record)
    requires r.actionType != "saldo" && r.actionType != "zakup" && r.actionType != "sprzedaż"
    ensures Replay(records + [r]) == Replay(records)
  {
    assert (records + [r])[..|records|] == records;
  }

  /** The record the shop's action `a` is stored as. */
  function ToRecord(a: Action): Record {
    match a
    case Saldo(amount) => Record("saldo", IntToString(amount))
    case Zakup(name, price, quantity) => Record("zakup", name + "," + IntToString(price) + "," + IntToString(quantity))
    case Sprzedaz(name, price, quantity) => Record("sprzedaż", name + "," + IntToString(price) + "," + IntToString(quantity))
  }

  function Records(actions: seq<Action>): (records: seq<Record>)
    ensures |records| == |actions|
  {
    seq(|actions|, i requires 0 <= i < |actions| => ToRecord(actions[i]))
  }

  /** Every product name in the log is free of commas. */
  predicate CommaFree(actions: seq<Action>) {
    forall a :: a in actions && !a.Saldo? ==> ',' !in a.name
  }

  /** The details of a purchase or sale give back its price times quantity. */
  lemma AmountOfDetails(name: string, price: int, quantity: int)
    requires ',' !in name
    ensures Amount(name + "," + IntToString(price) + "," + IntToString(quantity)) == Ok(price * quantity)
  {
    var fields := [name, IntToString(price), IntToString(quantity)];
    assert fields[1..] == [IntToString(price), IntToString(quantity)];
    assert fields[1..][1..] == [IntToString(quantity)];
    assert Join(fields[1..], ",") == IntToString(price) + "," + IntToString(quantity);
    assert Join(fields, ",") == name + "," + IntToString(price) + "," + IntToString(quantity);
    FreeOfHead(name, ",");
    NumeralFree(price, ",");
    NumeralFree(quantity, ",");
    SplitJoin(fields, ",");
    ParseIntToString(price);
    ParseIntToString(quantity);
  }

  /** A stored action adds exactly its cash effect. */
  lemma RecordEffectOfAction(a: Action)
    requires a.Saldo? || ',' !in a.name
    ensures RecordEffect(ToRecord(a)) == Ok(CashEffect(a))
  {
    match a
    case Saldo(amount) =>
      ParseIntToString(amount);
    case Zakup(name, price, quantity) =>
      AmountOfDetails(name, price, quantity);
    case Sprzedaz(name, price, quantity) =>
      AmountOfDetails(name, price, quantity);
  }

  /** The records of a log with one more action are its records with one
      more record. */
  lemma RecordsAppend(init: seq<Action>, last: Action)
    ensures Records(init + [last]) == Records(init) + [ToRecord(last)]
  {
    var records := Records(init + [last]);
    assert forall i :: 0 <= i < |init| ==> records[i] == Records(init)[i];
  }

  /** Replay of one more record, when the replay so far and the record both
      succeed. */
  lemma ReplayAppend(records: seq<Record>, r: Record, sum: int, effect: int)
    requires Replay(records) == Ok(sum) && RecordEffect(r) == Ok(effect)
    ensures Replay(records + [r]) == Ok(sum + effect)
  {
    assert (records + [r])[..|records|] == records;
  }

  /** A comma-free log with one more action: both parts are comma-free. */
  lemma CommaFreeParts(init: seq<Action>, last: Action)
    requires CommaFree(init + [last])
    ensures CommaFree(init) && (last.Saldo? || ',' !in last.name)
  {
    assert last in init + [last];
    assert forall a :: a in init ==> a in init + [last];
  }

  /** The inductive step of `ReplayOfLog`: one more action keeps the replay
      equal to the fold. */
  lemma ReplayOfLogStep(init: seq<Action>, last: Action)
    requires Replay(Records(init)) == Ok(Total(init))
    requires last.Saldo? || ',' !in last.name
    ensures Replay(Records(init + [last])) == Ok(Total(init + [last]))
  {
    RecordEffectOfAction(last);
    RecordsAppend(init, last);
    ReplayAppend(Records(init), ToRecord(last), Total(init), CashEffect(last));
    TotalAppend(init, last);
  }

  /** Replaying the records of a log computes the balance the log accounts
      for. */
  lemma {:induction false} ReplayOfLog(actions: seq<Action>)
    requires CommaFree(actions)
    ensures Replay(Records(actions)) == Ok(Total(actions))
    decreases |actions|
  {
    if actions != [] {
      var init := actions[..|actions| - 1];
      var last := actions[|actions| - 1];
      assert init + [last] == actions;
      CommaFreeParts(init, last);
      ReplayOfLog(init);
      ReplayOfLogStep(init, last);
    }
  }

  /** A name `assign` logs is a comma-separated field of the command, so it
      holds no comma. */
  lemma ExecKeepsCommaFree(s: Ledger, command: string)
    requires CommaFree(s.actions)
    ensures CommaFree(Exec(s, command).0.actions)
  {
    var (t, reply) := Exec(s, command);
    ExecStep(s, command);
    if reply == Done {
      var parts := Split(command, ",");
      SplitPartsFree(command, ",");
      if |parts| >= 2 {
        FreeOfChar(parts[1], ',');
      }
      assert t.actions == s.actions + [t.actions[|s.actions|]];
    }
  }

  lemma {:induction false} RunKeepsCommaFree(s: Ledger, commands: seq<string>)
    requires CommaFree(s.actions)
    ensures CommaFree(Run(s, commands).actions)
    decreases |commands|
  {
    if commands != [] {
      ExecKeepsCommaFree(s, commands[0]);
      RunKeepsCommaFree(Exec(s, commands[0]).0, commands[1..]);
    }
  }

  /** After any sequence of `assign` calls from the fresh state, the
      integrity check on the resulting balance and log finds them in
      agreement. */
  lemma IntactAfterAnyRun(commands: seq<string>)
    ensures var s := Run(Initial, commands);
      Replay(Records(s.actions)) == Ok(s.balance)
  {
    RunPreserves(Initial, commands);
    RunKeepsCommaFree(Initial, commands);
    ReplayOfLog(Run(Initial, commands).actions);
  }
}
