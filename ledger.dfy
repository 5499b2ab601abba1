/** The shop's state as a value: the balance, the warehouse and the action
    log that `FileReader` holds (app.py:5-9), and the cash effect of each
    logged action. Amounts are whole numbers of the smallest currency unit. */
module Ledger {

  /** One warehouse entry, the dict `{'price': ..., 'quantity': ...}`. */
  datatype Product = Product(price: int, quantity: int)

  /** One entry of the action log, the tuples `('saldo', amount)`,
      `('zakup', name, price, quantity)` (a purchase) and
      `('sprzedaż', name, price, quantity)` (a sale). */
  datatype Action =
    | Saldo(amount: int)
    | Zakup(name: string, price: int, quantity: int)
    | Sprzedaz(name: string, price: int, quantity: int)

  /** The fields of a `FileReader`. `names` is the order in which the
      warehouse's keys were first inserted: Python dicts keep it, and `save`
      writes the products in that order. */
  datatype Ledger = Ledger(balance: int, warehouse: map<string, Product>, names: seq<string>, actions: seq<Action>)

  /** `names` lists each warehouse key exactly once. */
  predicate WellFormed(s: Ledger) {
    && (forall i, j :: 0 <= i < j < |s.names| ==> s.names[i] != s.names[j])
    && (forall n :: n in s.names ==> n in s.warehouse)
    && (forall n :: n in s.warehouse ==> n in s.names)
  }

  /** The key order of `t` continues that of `s`: every key of `s` keeps its
      place, and only keys `s` lacked come after them. A Python dict keeps
      this order: assigning to an existing key updates it where it stands, a
      new key goes last. */
  predicate KeepsOrder(s: Ledger, t: Ledger) {
    && s.names <= t.names
    && (forall n :: n in t.names[|s.names|..] ==> n !in s.warehouse)
  }

  lemma KeepsOrderTrans(s: Ledger, t: Ledger, u: Ledger)
    requires WellFormed(s) && WellFormed(t)
    requires KeepsOrder(s, t) && KeepsOrder(t, u)
    ensures KeepsOrder(s, u)
  {
    forall n | n in u.names[|s.names|..] ensures n !in s.warehouse {
      var k :| 0 <= k < |u.names[|s.names|..]| && u.names[|s.names|..][k] == n;
      var i := |s.names| + k;
      assert u.names[i] == n;
      if i < |t.names| {
        assert t.names[i] == u.names[i];
        assert t.names[|s.names|..][k] == n;
        assert n in t.names[|s.names|..];
      } else {
        assert u.names[|t.names|..][i - |t.names|] == n;
        assert n in u.names[|t.names|..];
        assert n !in t.warehouse;
        assert forall j :: 0 <= j < |s.names| ==> t.names[j] == s.names[j];
      }
    }
  }

  /** The state of a fresh `FileReader` (app.py:6-9). */
  const Initial := Ledger(0, map[], [], [])

  /** What one logged action does to the balance. */
  function CashEffect(a: Action): int {
    match a
    case Saldo(amount) => amount
    case Zakup(_, price, quantity) => -(price * quantity)
    case Sprzedaz(_, price, quantity) => price * quantity
  }

  /** The balance the log accounts for: 0 plus every action's cash effect,
      in log order. */
  function Total(actions: seq<Action>): int {
    if actions == [] then 0 else CashEffect(actions[0]) + Total(actions[1..])
  }

  /** The balance is exactly what the log accounts for. */
  predicate Consistent(s: Ledger) {
    s.balance == Total(s.actions)
  }

  /** Appending one action adds its cash effect to the total. */
  lemma {:induction false} TotalAppend(actions: seq<Action>, a: Action)
    ensures Total(actions + [a]) == Total(actions) + CashEffect(a)
  {
    if actions != [] {
      assert (actions + [a])[1..] == actions[1..] + [a];
      TotalAppend(actions[1..], a);
    }
  }
}
