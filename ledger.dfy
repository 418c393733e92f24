/**
 * What the transaction log means for the balances: the signed effect of one
 * record on one user's balance in one currency, the replay of the log in
 * creation order, the total supply held in wallets, and the facts the
 * handlers rely on to keep every balance justified by the log.
 *
 * The effect follows what the handlers do, not only who is named on a record:
 * a `transfer` debits its sender and credits its recipient, a `purchase`
 * debits its buyer, a `deposit` credits its target and leaves the
 * administrator it names untouched, and `money_creation` moves no balance.
 */
module Ledger {
  import opened Wrappers
  import opened Schema
  import opened Storage

  /** The signed change record `t` stands for on the balance of `u` in currency `c`. */
  function Effect(t: Transaction, u: nat, c: Currency): (d: int)
    ensures d != 0 ==> Involves(t, u) && t.currency == c
    ensures t.txType == MoneyCreation ==> d == 0
  {
    if t.currency != c then 0
    else match t.txType
      case Transfer =>
        (if t.toUserId == Some(u) then t.amount else 0) - (if t.fromUserId == Some(u) then t.amount else 0)
      case Purchase => if t.fromUserId == Some(u) then -t.amount else 0
      case Deposit => if t.toUserId == Some(u) then t.amount else 0
      case MoneyCreation => 0
  }

  /** The balance the log justifies for `u` in `c`: every effect, taken in creation order, from 0. */
  function Replay(txs: seq<Transaction>, u: nat, c: Currency): int {
    if txs == [] then 0 else Effect(txs[0], u, c) + Replay(txs[1..], u, c)
  }

  lemma {:induction false} ReplayAppend(txs: seq<Transaction>, t: Transaction, u: nat, c: Currency)
    ensures Replay(txs + [t], u, c) == Replay(txs, u, c) + Effect(t, u, c)
  {
    if txs == [] {
      assert ([] + [t])[1..] == [];
    } else {
      assert (txs + [t])[1..] == txs[1..] + [t];
      ReplayAppend(txs[1..], t, u, c);
    }
  }

  /** A user no record names has a replayed balance of 0. */
  lemma {:induction false} ReplayUninvolved(txs: seq<Transaction>, u: nat, c: Currency)
    requires forall i :: 0 <= i < |txs| ==> !Involves(txs[i], u)
    ensures Replay(txs, u, c) == 0
  {
    if txs != [] {
      assert !Involves(txs[0], u);
      ReplayUninvolved(txs[1..], u, c);
    }
  }

  /** Replaying only the records a selection keeps gives the same balance, when it keeps every record naming `u`. */
  lemma {:induction false} ReplaySelection(txs: seq<Transaction>, keep: Transaction -> bool, u: nat, c: Currency)
    requires forall t :: keep(t) <==> Involves(t, u)
    ensures Replay(SelectNewestFirst(txs, keep), u, c) == Replay(txs, u, c)
  {
    if txs != [] {
      var n := |txs| - 1;
      var last := txs[n];
      var rest := SelectNewestFirst(txs[..n], keep);
      ReplaySelection(txs[..n], keep, u, c);
      assert txs == txs[..n] + [last];
      ReplayAppend(txs[..n], last, u, c);
      assert SelectNewestFirst(txs, keep) == (if keep(last) then [last] else []) + rest;
      if keep(last) {
        assert ([last] + rest)[1..] == rest;
      } else {
        assert Effect(last, u, c) == 0;
        assert [] + rest == rest;
      }
    }
  }

  /** The history a user is shown (`getTransactionsByUserId`) replays to the same balance as the whole log. */
  lemma HistoryReplaysBalance(db: DatabaseStorage, u: nat, c: Currency)
    ensures Replay(db.GetTransactionsByUserId(u), u, c) == Replay(db.transactions, u, c)
  {
    ReplaySelection(db.transactions, InvolvesUser(u), u, c);
  }

  /** The money held in all wallets in currency `c`. */
  function Supply(ws: seq<Wallet>, c: Currency): int {
    if ws == [] then 0 else Balance(ws[0], c) + Supply(ws[1..], c)
  }

  lemma {:induction false} SupplyUpdate(ws: seq<Wallet>, i: nat, w: Wallet, c: Currency)
    requires i < |ws|
    ensures Supply(ws[i := w], c) == Supply(ws, c) - Balance(ws[i], c) + Balance(w, c)
  {
    if i == 0 {
      assert ws[i := w][1..] == ws[1..];
    } else {
      assert ws[i := w][1..] == ws[1..][i - 1 := w];
      SupplyUpdate(ws[1..], i - 1, w, c);
    }
  }

  /** Every wallet's balances are what the log replays to for its owner. */
  ghost predicate BalancesJustified(ws: seq<Wallet>, txs: seq<Transaction>) {
    forall u, c :: 0 <= u < |ws| ==> Balance(ws[u], c) == Replay(txs, u, c)
  }

  ghost predicate Solvent(ws: seq<Wallet>) {
    forall u, c :: 0 <= u < |ws| ==> Balance(ws[u], c) >= 0
  }

  /** A record keeps the balances justified when every wallet moves by exactly the record's effect. */
  lemma RecordKeepsJustified(ws: seq<Wallet>, ws': seq<Wallet>, txs: seq<Transaction>, t: Transaction)
    requires BalancesJustified(ws, txs)
    requires |ws'| == |ws|
    requires forall u, c :: 0 <= u < |ws| ==> Balance(ws'[u], c) == Balance(ws[u], c) + Effect(t, u, c)
    ensures BalancesJustified(ws', txs + [t])
  {
    forall u, c | 0 <= u < |ws'| ensures Balance(ws'[u], c) == Replay(txs + [t], u, c) {
      ReplayAppend(txs, t, u, c);
    }
  }

  /**
   * Transfer: debiting the sender and crediting a different recipient by the
   * same amount, with one `transfer` record between them, keeps every balance
   * justified, keeps a sender who could cover the amount solvent, and leaves
   * the supply of every currency unchanged.
   */
  lemma TransferKeepsLedger(ws: seq<Wallet>, txs: seq<Transaction>, t: Transaction, debited: Wallet, credited: Wallet)
    requires BalancesJustified(ws, txs) && Solvent(ws)
    requires t.txType == Transfer && t.fromUserId.Some? && t.toUserId.Some?
    requires t.fromUserId.value < |ws| && t.toUserId.value < |ws| && t.fromUserId != t.toUserId
    requires Balance(ws[t.fromUserId.value], t.currency) >= t.amount
    requires AddToBalance(ws[t.fromUserId.value], t.currency, -t.amount) == Some(debited)
    requires AddToBalance(ws[t.toUserId.value], t.currency, t.amount) == Some(credited)
    requires t.amount > 0
    ensures var ws' := ws[t.fromUserId.value := debited][t.toUserId.value := credited];
      BalancesJustified(ws', txs + [t]) && Solvent(ws') && forall c :: Supply(ws', c) == Supply(ws, c)
  {
    var s, r := t.fromUserId.value, t.toUserId.value;
    var ws' := ws[s := debited][r := credited];
    forall u, c | 0 <= u < |ws| ensures Balance(ws'[u], c) == Balance(ws[u], c) + Effect(t, u, c) {
      if c != t.currency {
        assert Balance(debited, c) == Balance(ws[s], c) && Balance(credited, c) == Balance(ws[r], c) by {
          assert c == OtherCurrency(t.currency);
        }
      }
    }
    RecordKeepsJustified(ws, ws', txs, t);
    TransferConserves(ws, s, r, t.currency, t.amount, debited, credited);
  }

  /**
   * Moving `amount` of `c` from wallet `s` to a different wallet `r`, when `s`
   * holds at least that much, keeps every balance non-negative and the supply
   * of every currency unchanged, whatever the log says.
   */
  lemma TransferConserves(ws: seq<Wallet>, s: nat, r: nat, c: Currency, amount: int, debited: Wallet, credited: Wallet)
    requires Solvent(ws) && s < |ws| && r < |ws| && s != r && 0 < amount <= Balance(ws[s], c)
    requires AddToBalance(ws[s], c, -amount) == Some(debited)
    requires AddToBalance(ws[r], c, amount) == Some(credited)
    ensures var ws' := ws[s := debited][r := credited];
      Solvent(ws') && forall k :: Supply(ws', k) == Supply(ws, k)
  {
    var ws' := ws[s := debited][r := credited];
    forall u, k | 0 <= u < |ws'| ensures Balance(ws'[u], k) >= 0 {
      if (u == s || u == r) && k != c {
        assert k == OtherCurrency(c);
      }
    }
    forall k ensures Supply(ws', k) == Supply(ws, k) {
      SupplyUpdate(ws, s, debited, k);
      SupplyUpdate(ws[s := debited], r, credited, k);
      if k != c {
        assert k == OtherCurrency(c);
      }
    }
  }

  /** Moving one balance of one wallet to a value that is not negative keeps every balance non-negative. */
  lemma UpdateKeepsSolvent(ws: seq<Wallet>, i: nat, c: Currency, delta: int, w: Wallet)
    requires Solvent(ws) && i < |ws| && Balance(ws[i], c) + delta >= 0
    requires AddToBalance(ws[i], c, delta) == Some(w)
    ensures Solvent(ws[i := w])
  {
    var ws' := ws[i := w];
    forall u, k | 0 <= u < |ws'| ensures Balance(ws'[u], k) >= 0 {
      if u == i && k != c {
        assert k == OtherCurrency(c);
      }
    }
  }

  /** Moving one balance of one wallet by `delta` moves the supply of that currency by `delta` and no other. */
  lemma UpdateSupply(ws: seq<Wallet>, i: nat, c: Currency, delta: int, w: Wallet)
    requires i < |ws| && AddToBalance(ws[i], c, delta) == Some(w)
    ensures Supply(ws[i := w], c) == Supply(ws, c) + delta
    ensures Supply(ws[i := w], OtherCurrency(c)) == Supply(ws, OtherCurrency(c))
  {
    SupplyUpdate(ws, i, w, c);
    SupplyUpdate(ws, i, w, OtherCurrency(c));
  }

  /**
   * Purchase: debiting the buyer by the price, with one `purchase` record,
   * keeps every balance justified, keeps a buyer who could pay solvent, and
   * lowers the supply of the product's currency by exactly the price.
   */
  lemma PurchaseKeepsLedger(ws: seq<Wallet>, txs: seq<Transaction>, t: Transaction, debited: Wallet)
    requires BalancesJustified(ws, txs) && Solvent(ws)
    requires t.txType == Purchase && t.fromUserId.Some? && t.fromUserId.value < |ws|
    requires Balance(ws[t.fromUserId.value], t.currency) >= t.amount
    requires AddToBalance(ws[t.fromUserId.value], t.currency, -t.amount) == Some(debited)
    ensures var ws' := ws[t.fromUserId.value := debited];
      && BalancesJustified(ws', txs + [t]) && Solvent(ws')
      && Supply(ws', t.currency) == Supply(ws, t.currency) - t.amount
      && Supply(ws', OtherCurrency(t.currency)) == Supply(ws, OtherCurrency(t.currency))
  {
    var b := t.fromUserId.value;
    var ws' := ws[b := debited];
    forall u, c | 0 <= u < |ws| ensures Balance(ws'[u], c) == Balance(ws[u], c) + Effect(t, u, c) {
      if c != t.currency {
        assert c == OtherCurrency(t.currency);
      }
    }
    RecordKeepsJustified(ws, ws', txs, t);
    UpdateKeepsSolvent(ws, b, t.currency, -t.amount, debited);
    UpdateSupply(ws, b, t.currency, -t.amount, debited);
  }

  /**
   * Admin credit: crediting the target, with one `deposit` record from the
   * administrator to the target, keeps every balance justified (the
   * administrator is not debited) and raises the supply by the amount.
   */
  lemma DepositKeepsLedger(ws: seq<Wallet>, txs: seq<Transaction>, t: Transaction, credited: Wallet)
    requires BalancesJustified(ws, txs) && Solvent(ws)
    requires t.txType == Deposit && t.toUserId.Some? && t.toUserId.value < |ws| && t.amount > 0
    requires AddToBalance(ws[t.toUserId.value], t.currency, t.amount) == Some(credited)
    ensures var ws' := ws[t.toUserId.value := credited];
      && BalancesJustified(ws', txs + [t]) && Solvent(ws')
      && Supply(ws', t.currency) == Supply(ws, t.currency) + t.amount
      && Supply(ws', OtherCurrency(t.currency)) == Supply(ws, OtherCurrency(t.currency))
  {
    var r := t.toUserId.value;
    var ws' := ws[r := credited];
    forall u, c | 0 <= u < |ws| ensures Balance(ws'[u], c) == Balance(ws[u], c) + Effect(t, u, c) {
      if c != t.currency {
        assert c == OtherCurrency(t.currency);
      }
    }
    RecordKeepsJustified(ws, ws', txs, t);
    UpdateKeepsSolvent(ws, r, t.currency, t.amount, credited);
    UpdateSupply(ws, r, t.currency, t.amount, credited);
  }

  /** Money creation: a `money_creation` record justifies the unchanged wallets, whoever it names. */
  lemma MintKeepsLedger(ws: seq<Wallet>, txs: seq<Transaction>, t: Transaction)
    requires BalancesJustified(ws, txs)
    requires t.txType == MoneyCreation
    ensures BalancesJustified(ws, txs + [t])
  {
    RecordKeepsJustified(ws, ws, txs, t);
  }

  /** A new user's zero wallet is justified by a log that never names it. */
  lemma NewWalletKeepsLedger(ws: seq<Wallet>, txs: seq<Transaction>, w: Wallet)
    requires BalancesJustified(ws, txs) && Solvent(ws)
    requires Balance(w, FC) == 0 && Balance(w, USD) == 0
    requires forall i :: 0 <= i < |txs| ==> !Involves(txs[i], |ws|)
    ensures BalancesJustified(ws + [w], txs) && Solvent(ws + [w])
  {
    forall c ensures Replay(txs, |ws|, c) == 0 {
      ReplayUninvolved(txs, |ws|, c);
    }
    forall u, c | 0 <= u < |ws + [w]| ensures Balance((ws + [w])[u], c) == Replay(txs, u, c) {
      if u < |ws| {
        assert (ws + [w])[u] == ws[u];
      } else {
        assert (ws + [w])[u] == w;
        match c { case FC => case USD => }
      }
    }
  }
}
