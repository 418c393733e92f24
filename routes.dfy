/**
 * The balance-changing handlers of the HTTP API (server/routes.ts): transfer,
 * purchase, money creation and admin credit, with the authentication and
 * administrator gates in front of them.
 *
 * Each handler is a pure check, which runs the guards in the order the
 * handler does and either refuses the request or yields a plan, followed by
 * a method that runs the plan's storage calls one after another. A verified
 * bearer token is represented by the user id it carries. The store is the
 * only state. `Justified` says the store is valid, every balance is what the
 * transaction log replays to, no balance is negative, and every record is
 * `completed`. The transfer handler as written breaks it when the credit to
 * the recipient overflows, so the handlers of the program as written run on
 * any valid store with no negative balance, keep that, and keep `Justified`
 * when it held before. The corrected transfer handler keeps `Justified` itself.
 */
module Routes {
  import opened Wrappers
  import opened Schema
  import opened Storage
  import opened Ledger

  /** Why a request was refused; `Status` gives the HTTP status the handler answers with. */
  datatype Failure =
    | Unauthorized
    | AdminRequired
    | InvalidInput
    | RecipientNotFound
    | SelfTransfer
    | InsufficientFunds
    | ProductNotFound
    | OutOfStock
    | UserNotFound
    | StorageFailed(cause: DbError, status: int)

  function Status(f: Failure): int {
    match f
    case Unauthorized => 401
    case AdminRequired => 403
    case InvalidInput => 400
    case RecipientNotFound => 404
    case SelfTransfer => 400
    case InsufficientFunds => 400
    case ProductNotFound => 404
    case OutOfStock => 400
    case UserNotFound => 404
    case StorageFailed(_, status) => status
  }

  /** The identity `authenticateToken` attaches to the request. */
  datatype Caller = Caller(id: nat, email: string, role: Role)

  ghost predicate Justified(db: DatabaseStorage)
    reads db
  {
    && db.Valid()
    && BalancesJustified(db.wallets, db.transactions)
    && Solvent(db.wallets)
    && forall i :: 0 <= i < |db.transactions| ==> db.transactions[i].status == CompletedStatus
  }

  /** In a justified store, the history a user is shown (newest first) adds up to the user's balance, which is never negative. */
  lemma BalanceIsHistory(db: DatabaseStorage, u: nat, c: Currency)
    requires Justified(db) && u < |db.users|
    ensures Balance(db.wallets[u], c) == Replay(db.GetTransactionsByUserId(u), u, c) >= 0
  {
    HistoryReplaysBalance(db, u, c);
  }

  // ----- text the handlers store -----

  function DigitChar(d: nat): char
    requires d < 10
  {
    "0123456789"[d]
  }

  function Digits(n: nat): string {
    if n < 10 then [DigitChar(n)] else Digits(n / 10) + [DigitChar(n % 10)]
  }

  /** How JavaScript prints an amount of `cents` hundredths (`${amount}`): no trailing zeros. */
  function NumberText(cents: nat): string {
    var whole, frac := cents / 100, cents % 100;
    Digits(whole) +
      if frac == 0 then ""
      else if frac % 10 == 0 then "." + [DigitChar(frac / 10)]
      else "." + [DigitChar(frac / 10), DigitChar(frac % 10)]
  }

  /** How the database returns a numeric(12, 2) value: always two decimals. */
  function DecimalText(cents: int): string {
    var m: nat := if cents < 0 then -cents else cents;
    (if cents < 0 then "-" else "") + Digits(m / 100) + "." + [DigitChar(m % 100 / 10), DigitChar(m % 10)]
  }

  // ----- gates -----

  /** `authenticateToken` once the token is verified: the user must exist and must not be blocked. */
  function Authenticate(db: DatabaseStorage, callerId: nat): (r: Result<Caller, Failure>)
    requires db.Valid()
    reads db
    ensures r.Ok? <==> callerId < |db.users| && !db.users[callerId].isBlocked
    ensures r.Ok? ==> r.value == Caller(callerId, db.users[callerId].email, db.users[callerId].role)
    ensures r.Err? ==> r.error == Unauthorized
  {
    match db.GetUserById(callerId)
    case None => Err(Unauthorized)
    case Some(user) =>
      if user.isBlocked then Err(Unauthorized) else Ok(Caller(user.id, user.email, user.role))
  }

  /** `authenticateToken` followed by `requireAdmin`. */
  function AuthenticateAdmin(db: DatabaseStorage, callerId: nat): (r: Result<Caller, Failure>)
    requires db.Valid()
    reads db
    ensures r.Ok? <==> callerId < |db.users| && !db.users[callerId].isBlocked && db.users[callerId].role == Admin
    ensures r.Ok? ==> r.value.id == callerId && r.value.role == Admin
    ensures Authenticate(db, callerId).Err? ==> r == Err(Unauthorized)
    ensures Authenticate(db, callerId).Ok? && db.users[callerId].role != Admin ==> r == Err(AdminRequired)
  {
    match Authenticate(db, callerId)
    case Err(e) => Err(e)
    case Ok(caller) => if caller.role != Admin then Err(AdminRequired) else Ok(caller)
  }

  // ----- transfer -----

  datatype TransferPlan = TransferPlan(sender: User, recipient: User, amount: int, currency: Currency)

  /**
   * The guards of `POST /api/transfer`, in order: authentication, the input
   * schema, the recipient's existence, no transfer to oneself, and a balance
   * covering the amount. A plan is produced only when all of them pass.
   */
  function CheckTransfer(db: DatabaseStorage, callerId: nat, recipientEmail: string, amount: int, currency: string)
    : (r: Result<TransferPlan, Failure>)
    requires db.Valid()
    reads db
    ensures r.Ok? ==> callerId < |db.users| && !db.users[callerId].isBlocked && r.value.sender == db.users[callerId]
    ensures r.Ok? ==> r.value.recipient in db.users && r.value.recipient.email == recipientEmail
    ensures r.Ok? ==> r.value.recipient.id < |db.users| && r.value.recipient.id != callerId
    ensures r.Ok? ==> r.value.amount == amount && amount > 0 && CurrencyName(r.value.currency) == currency
    ensures r.Ok? ==> Balance(db.wallets[callerId], r.value.currency) >= amount
    ensures Authenticate(db, callerId).Err? ==> r == Err(Unauthorized)
    ensures Authenticate(db, callerId).Ok? && ParseTransfer(recipientEmail, amount, currency).None? ==>
              r == Err(InvalidInput)
    ensures Authenticate(db, callerId).Ok? && ParseTransfer(recipientEmail, amount, currency).Some? ==>
              && (db.GetUserByEmail(recipientEmail).None? ==> r == Err(RecipientNotFound))
              && (db.GetUserByEmail(recipientEmail) == Some(db.users[callerId]) ==> r == Err(SelfTransfer))
    ensures Authenticate(db, callerId).Ok? && ParseTransfer(recipientEmail, amount, currency).Some? &&
            db.GetUserByEmail(recipientEmail).Some? && db.GetUserByEmail(recipientEmail).value.id != callerId ==>
              var c := ParseTransfer(recipientEmail, amount, currency).value.currency;
              && (r.Ok? <==> Balance(db.wallets[callerId], c) >= amount)
              && (r.Err? ==> r == Err(InsufficientFunds))
              && (r.Ok? ==> r.value == TransferPlan(db.users[callerId], db.GetUserByEmail(recipientEmail).value, amount, c))
    ensures r.Err? && r.error == InsufficientFunds ==>
              Balance(db.wallets[callerId], ParseTransfer(recipientEmail, amount, currency).value.currency) < amount
    ensures r.Err? ==> r.error in {Unauthorized, InvalidInput, RecipientNotFound, SelfTransfer, InsufficientFunds}
  {
    match Authenticate(db, callerId)
    case Err(e) => Err(e)
    case Ok(caller) =>
      match ParseTransfer(recipientEmail, amount, currency)
      case None => Err(InvalidInput)
      case Some(input) =>
        var sender := db.GetUserById(caller.id).value;
        match db.GetUserByEmail(input.recipientEmail)
        case None => Err(RecipientNotFound)
        case Some(recipient) =>
          if sender.id == recipient.id then Err(SelfTransfer)
          else
            var wallet := db.GetWalletByUserId(sender.id).value;
            if Balance(wallet, input.currency) < input.amount then Err(InsufficientFunds)
            else Ok(TransferPlan(sender, recipient, input.amount, input.currency))
  }

  function TransferRecord(p: TransferPlan): NewTransaction {
    NewTransaction(Transfer, Some(p.sender.id), Some(p.recipient.id), p.amount, p.currency,
                   Some("Transfert vers " + p.recipient.email), None, None)
  }

  function TransferNotice(p: TransferPlan): NewNotification
    requires p.amount >= 0
  {
    NewNotification(p.recipient.id, "Transfert reçu",
                    "Vous avez reçu " + NumberText(p.amount) + " " + CurrencyName(p.currency) + " de " + p.sender.email,
                    None)
  }

  /** True when crediting the recipient still fits the balance column. */
  predicate CreditFits(ws: seq<Wallet>, p: TransferPlan)
    requires p.recipient.id < |ws|
  {
    FitsDecimal(Balance(ws[p.recipient.id], p.currency) + p.amount)
  }

  /**
   * The storage calls of a checked transfer, in the handler's order: debit the
   * sender, credit the recipient, record, notify. Each call commits on its
   * own, so when the credit fails the debit has already happened.
   */
  method ApplyTransfer(db: DatabaseStorage, p: TransferPlan) returns (r: Result<Transaction, Failure>)
    requires db.Valid() && Solvent(db.wallets)
    requires p.sender.id < |db.users| && p.recipient.id < |db.users| && p.sender.id != p.recipient.id
    requires p.amount > 0 && Balance(db.wallets[p.sender.id], p.currency) >= p.amount
    modifies db
    ensures db.Valid() && Solvent(db.wallets)
    ensures old(Justified(db)) && CreditFits(old(db.wallets), p) ==> Justified(db)
    ensures db.users == old(db.users) && db.products == old(db.products)
    ensures var debited := AddToBalance(old(db.wallets)[p.sender.id], p.currency, -p.amount).value;
      if CreditFits(old(db.wallets), p) then
        && r == Ok(TransactionRow(|old(db.transactions)|, TransferRecord(p)))
        && db.wallets == old(db.wallets)[p.sender.id := debited]
                                        [p.recipient.id := AddToBalance(old(db.wallets)[p.recipient.id], p.currency, p.amount).value]
        && db.transactions == old(db.transactions) + [r.value]
        && db.notifications == old(db.notifications) + [NotificationRow(|old(db.notifications)|, TransferNotice(p))]
        && forall k :: Supply(db.wallets, k) == Supply(old(db.wallets), k)
      else
        && r == Err(StorageFailed(NumericOverflow, 400))
        && db.wallets == old(db.wallets)[p.sender.id := debited]
        && db.transactions == old(db.transactions) && db.notifications == old(db.notifications)
  {
    ghost var ws, txs, justified := db.wallets, db.transactions, Justified(db);
    var s, t := p.sender.id, p.recipient.id;
    var debit := db.UpdateWalletBalance(s, p.currency, -p.amount);
    var credit := db.UpdateWalletBalance(t, p.currency, p.amount);
    ghost var debited := AddToBalance(ws[s], p.currency, -p.amount).value;
    if credit.Err? {
      UpdateKeepsSolvent(ws, s, p.currency, -p.amount, debited);
      return Err(StorageFailed(credit.error, 400));
    }
    var tx := db.CreateTransaction(TransferRecord(p));
    var note := db.CreateNotification(TransferNotice(p));
    ghost var credited := AddToBalance(ws[t], p.currency, p.amount).value;
    TransferConserves(ws, s, t, p.currency, p.amount, debited, credited);
    if justified {
      TransferKeepsLedger(ws, txs, tx.value, debited, credited);
    }
    r := Ok(tx.value);
  }

  /**
   * `POST /api/transfer`, as written: the guards, then the storage calls one by
   * one. A credit the recipient's balance column cannot hold fails after the
   * sender has been debited, with no record of it.
   */
  method PostTransferAsWritten(db: DatabaseStorage, callerId: nat, recipientEmail: string, amount: int, currency: string)
    returns (r: Result<Transaction, Failure>)
    requires db.Valid() && Solvent(db.wallets)
    modifies db
    ensures db.Valid() && Solvent(db.wallets)
    ensures db.users == old(db.users) && db.products == old(db.products)
    ensures var chk := old(CheckTransfer(db, callerId, recipientEmail, amount, currency));
      && (chk.Err? ==> r == Err(chk.error) && unchanged(db))
      && (chk.Ok? ==>
            var p := chk.value;
            var debited := AddToBalance(old(db.wallets)[callerId], p.currency, -amount).value;
            if CreditFits(old(db.wallets), p) then
              && (old(Justified(db)) ==> Justified(db))
              && r == Ok(TransactionRow(|old(db.transactions)|, TransferRecord(p)))
              && db.wallets == old(db.wallets)
                   [callerId := debited][p.recipient.id := AddToBalance(old(db.wallets)[p.recipient.id], p.currency, amount).value]
              && db.transactions == old(db.transactions) + [r.value]
              && db.notifications == old(db.notifications) + [NotificationRow(|old(db.notifications)|, TransferNotice(p))]
            else
              && r == Err(StorageFailed(NumericOverflow, 400))
              && db.wallets == old(db.wallets)[callerId := debited]
              && db.transactions == old(db.transactions) && db.notifications == old(db.notifications))
  {
    var chk := CheckTransfer(db, callerId, recipientEmail, amount, currency);
    if chk.Err? {
      return Err(chk.error);
    }
    r := ApplyTransfer(db, chk.value);
  }

  /**
   * `POST /api/transfer` with its two balance updates committed as one unit:
   * a credit that does not fit refuses the whole transfer before anything
   * changes. Every other case is the handler's own behaviour.
   */
  method PostTransfer(db: DatabaseStorage, callerId: nat, recipientEmail: string, amount: int, currency: string)
    returns (r: Result<Transaction, Failure>)
    requires Justified(db)
    modifies db
    ensures Justified(db)
    ensures r.Err? ==> unchanged(db)
    ensures var chk := old(CheckTransfer(db, callerId, recipientEmail, amount, currency));
      && (chk.Err? ==> r == Err(chk.error))
      && (chk.Ok? && !CreditFits(old(db.wallets), chk.value) ==> r == Err(StorageFailed(NumericOverflow, 400)))
      && (chk.Ok? && CreditFits(old(db.wallets), chk.value) ==>
            var p := chk.value;
            && r == Ok(TransactionRow(|old(db.transactions)|, TransferRecord(p)))
            && db.transactions == old(db.transactions) + [r.value]
            && db.notifications == old(db.notifications) + [NotificationRow(|old(db.notifications)|, TransferNotice(p))]
            && db.wallets == old(db.wallets)
                 [callerId := AddToBalance(old(db.wallets)[callerId], p.currency, -amount).value]
                 [p.recipient.id := AddToBalance(old(db.wallets)[p.recipient.id], p.currency, amount).value])
    ensures r.Ok? ==>
      var c, t := r.value.currency, r.value.toUserId.value;
      && r.value.txType == Transfer && r.value.fromUserId == Some(callerId) && t != callerId
      && r.value.amount == amount && r.value.status == CompletedStatus
      && Balance(db.wallets[callerId], c) == Balance(old(db.wallets)[callerId], c) - amount >= 0
      && Balance(db.wallets[t], c) == Balance(old(db.wallets)[t], c) + amount
      && Balance(db.wallets[callerId], OtherCurrency(c)) == Balance(old(db.wallets)[callerId], OtherCurrency(c))
      && Balance(db.wallets[t], OtherCurrency(c)) == Balance(old(db.wallets)[t], OtherCurrency(c))
      && (forall u :: 0 <= u < |db.wallets| && u != callerId && u != t ==> db.wallets[u] == old(db.wallets)[u])
      && (forall k :: Supply(db.wallets, k) == Supply(old(db.wallets), k))
      && db.users == old(db.users) && db.products == old(db.products)
      && |db.notifications| == |old(db.notifications)| + 1 && db.notifications[|db.notifications| - 1].userId == t
  {
    var chk := CheckTransfer(db, callerId, recipientEmail, amount, currency);
    if chk.Err? {
      return Err(chk.error);
    }
    if !CreditFits(db.wallets, chk.value) {
      return Err(StorageFailed(NumericOverflow, 400));
    }
    r := ApplyTransfer(db, chk.value);
  }

  // ----- purchase -----

  datatype PurchasePlan = PurchasePlan(buyer: Caller, product: Product)

  /**
   * The guards of `POST /api/products/:id/purchase`, in order: authentication,
   * the product's existence, stock above 0, and a balance in the product's
   * currency covering the price. Whether the product is active is not checked.
   */
  function CheckPurchase(db: DatabaseStorage, callerId: nat, productId: nat): (r: Result<PurchasePlan, Failure>)
    requires db.Valid()
    reads db
    ensures r.Ok? ==> callerId < |db.users| && !db.users[callerId].isBlocked && r.value.buyer.id == callerId
    ensures r.Ok? ==> productId < |db.products| && r.value.product == db.products[productId]
    ensures r.Ok? ==> r.value.product.stock > 0
    ensures r.Ok? ==> Balance(db.wallets[callerId], r.value.product.currency) >= r.value.product.price
    ensures Authenticate(db, callerId).Err? ==> r == Err(Unauthorized)
    ensures Authenticate(db, callerId).Ok? && productId >= |db.products| ==> r == Err(ProductNotFound)
    ensures Authenticate(db, callerId).Ok? && productId < |db.products| && db.products[productId].stock <= 0 ==>
              r == Err(OutOfStock)
    ensures Authenticate(db, callerId).Ok? && productId < |db.products| && db.products[productId].stock > 0 ==>
              var product := db.products[productId];
              && (r.Ok? <==> Balance(db.wallets[callerId], product.currency) >= product.price)
              && (r.Err? ==> r == Err(InsufficientFunds))
              && (r.Ok? ==> r.value == PurchasePlan(Authenticate(db, callerId).value, product))
    ensures r.Err? ==> r.error in {Unauthorized, ProductNotFound, OutOfStock, InsufficientFunds}
  {
    match Authenticate(db, callerId)
    case Err(e) => Err(e)
    case Ok(caller) =>
      match db.GetProductById(productId)
      case None => Err(ProductNotFound)
      case Some(product) =>
        if product.stock <= 0 then Err(OutOfStock)
        else
          var wallet := db.GetWalletByUserId(caller.id).value;
          if Balance(wallet, product.currency) < product.price then Err(InsufficientFunds)
          else Ok(PurchasePlan(caller, product))
  }

  function PurchaseRecord(p: PurchasePlan): NewTransaction {
    NewTransaction(Purchase, Some(p.buyer.id), None, p.product.price, p.product.currency,
                   Some("Achat: " + p.product.name), Some(p.product.id), None)
  }

  function PurchaseNotice(p: PurchasePlan): NewNotification {
    NewNotification(p.buyer.id, "Achat confirmé",
                    "Vous avez acheté " + p.product.name + " pour " + DecimalText(p.product.price) + " "
                      + CurrencyName(p.product.currency),
                    None)
  }

  /**
   * The storage calls of a checked purchase, in the handler's order: debit the
   * buyer by the price, take one item from stock, record, notify. Only the
   * debit can fail (a negative price can push the balance past its column),
   * and it is the first change.
   */
  method ApplyPurchase(db: DatabaseStorage, p: PurchasePlan) returns (r: Result<Transaction, Failure>)
    requires db.Valid() && Solvent(db.wallets)
    requires p.buyer.id < |db.users| && p.product.id < |db.products| && db.products[p.product.id] == p.product
    requires p.product.stock > 0 && Balance(db.wallets[p.buyer.id], p.product.currency) >= p.product.price
    modifies db
    ensures db.Valid() && Solvent(db.wallets)
    ensures old(Justified(db)) ==> Justified(db)
    ensures r.Err? ==> unchanged(db)
    ensures var b, c, price := p.buyer.id, p.product.currency, p.product.price;
      var debited := AddToBalance(old(db.wallets)[b], c, -price);
      && (debited.None? ==> r == Err(StorageFailed(NumericOverflow, 500)))
      && (debited.Some? ==>
            && r == Ok(TransactionRow(|old(db.transactions)|, PurchaseRecord(p)))
            && db.wallets == old(db.wallets)[b := debited.value]
            && db.products == old(db.products)[p.product.id := p.product.(stock := p.product.stock - 1)]
            && db.transactions == old(db.transactions) + [r.value]
            && db.notifications == old(db.notifications) + [NotificationRow(|old(db.notifications)|, PurchaseNotice(p))]
            && Supply(db.wallets, c) == Supply(old(db.wallets), c) - price
            && Supply(db.wallets, OtherCurrency(c)) == Supply(old(db.wallets), OtherCurrency(c)))
    ensures db.users == old(db.users)
  {
    ghost var ws, txs, justified := db.wallets, db.transactions, Justified(db);
    var debit := db.UpdateWalletBalance(p.buyer.id, p.product.currency, -p.product.price);
    if debit.Err? {
      return Err(StorageFailed(debit.error, 500));
    }
    var tx := RecordPurchase(db, p);
    ghost var debited := AddToBalance(ws[p.buyer.id], p.product.currency, -p.product.price).value;
    UpdateKeepsSolvent(ws, p.buyer.id, p.product.currency, -p.product.price, debited);
    UpdateSupply(ws, p.buyer.id, p.product.currency, -p.product.price, debited);
    if justified {
      PurchaseKeepsLedger(ws, txs, tx, debited);
    }
    r := Ok(tx);
  }

  /** The calls that follow a successful debit: take one item from stock, record the purchase, notify the buyer. */
  method RecordPurchase(db: DatabaseStorage, p: PurchasePlan) returns (tx: Transaction)
    requires db.Valid()
    requires p.buyer.id < |db.users| && p.product.id < |db.products| && db.products[p.product.id] == p.product
    requires p.product.stock > 0
    modifies db
    ensures db.Valid()
    ensures tx == TransactionRow(|old(db.transactions)|, PurchaseRecord(p)) && tx.status == CompletedStatus
    ensures db.users == old(db.users) && db.wallets == old(db.wallets)
    ensures db.products == old(db.products)[p.product.id := p.product.(stock := p.product.stock - 1)]
    ensures db.transactions == old(db.transactions) + [tx]
    ensures db.notifications == old(db.notifications) + [NotificationRow(|old(db.notifications)|, PurchaseNotice(p))]
  {
    var stock := db.UpdateProductStock(p.product.id, 1);
    var created := db.CreateTransaction(PurchaseRecord(p));
    var note := db.CreateNotification(PurchaseNotice(p));
    tx := created.value;
  }

  /** `POST /api/products/:id/purchase`: the guards, then the storage calls. */
  method PostPurchase(db: DatabaseStorage, callerId: nat, productId: nat) returns (r: Result<Transaction, Failure>)
    requires db.Valid() && Solvent(db.wallets)
    modifies db
    ensures db.Valid() && Solvent(db.wallets)
    ensures old(Justified(db)) ==> Justified(db)
    ensures r.Err? ==> unchanged(db)
    ensures var chk := old(CheckPurchase(db, callerId, productId));
      && (chk.Err? ==> r == Err(chk.error))
      && (chk.Ok? ==>
            var price, c := chk.value.product.price, chk.value.product.currency;
            var debited := AddToBalance(old(db.wallets)[callerId], c, -price);
            && (debited.None? ==> r == Err(StorageFailed(NumericOverflow, 500)))
            && (debited.Some? ==>
                  && r == Ok(TransactionRow(|old(db.transactions)|, PurchaseRecord(chk.value)))
                  && db.wallets == old(db.wallets)[callerId := debited.value]
                  && db.products == old(db.products)[productId := old(db.products)[productId].(stock := old(db.products)[productId].stock - 1)]
                  && db.transactions == old(db.transactions) + [r.value]
                  && db.notifications == old(db.notifications) + [NotificationRow(|old(db.notifications)|, PurchaseNotice(chk.value))]))
    ensures r.Ok? ==>
      var c := r.value.currency;
      && r.value.txType == Purchase && r.value.fromUserId == Some(callerId) && r.value.toUserId.None?
      && r.value.productId == Some(productId) && r.value.amount == old(db.products)[productId].price
      && Balance(db.wallets[callerId], c) == Balance(old(db.wallets)[callerId], c) - r.value.amount >= 0
      && Balance(db.wallets[callerId], OtherCurrency(c)) == Balance(old(db.wallets)[callerId], OtherCurrency(c))
      && db.products[productId].stock == old(db.products)[productId].stock - 1
      && Supply(db.wallets, c) == Supply(old(db.wallets), c) - r.value.amount
      && db.users == old(db.users)
      && |db.notifications| == |old(db.notifications)| + 1 && db.notifications[|db.notifications| - 1].userId == callerId
  {
    var chk := CheckPurchase(db, callerId, productId);
    if chk.Err? {
      return Err(chk.error);
    }
    r := ApplyPurchase(db, chk.value);
  }

  // ----- money creation -----

  /** The guards of `POST /api/admin/create-money`: an administrator, a positive amount, a known currency. */
  function CheckCreateMoney(db: DatabaseStorage, callerId: nat, amount: int, currency: string)
    : (r: Result<CreateMoneyInput, Failure>)
    requires db.Valid()
    reads db
    ensures r.Ok? ==> callerId < |db.users| && db.users[callerId].role == Admin && !db.users[callerId].isBlocked
    ensures r.Ok? ==> r.value.amount == amount > 0 && CurrencyName(r.value.currency) == currency
    ensures AuthenticateAdmin(db, callerId).Err? ==> r == Err(AuthenticateAdmin(db, callerId).error)
    ensures AuthenticateAdmin(db, callerId).Ok? && ParseCreateMoney(amount, currency).None? ==> r == Err(InvalidInput)
    ensures AuthenticateAdmin(db, callerId).Ok? && ParseCreateMoney(amount, currency).Some? ==>
              r == Ok(ParseCreateMoney(amount, currency).value)
  {
    match AuthenticateAdmin(db, callerId)
    case Err(e) => Err(e)
    case Ok(_) =>
      match ParseCreateMoney(amount, currency)
      case None => Err(InvalidInput)
      case Some(input) => Ok(input)
  }

  function MintRecord(adminId: nat, m: CreateMoneyInput): NewTransaction
    requires m.amount >= 0
  {
    NewTransaction(MoneyCreation, Some(adminId), None, m.amount, m.currency,
                   Some("Création de monnaie électronique: " + NumberText(m.amount) + " " + CurrencyName(m.currency)),
                   None, None)
  }

  /**
   * `POST /api/admin/create-money`: records a `money_creation` by the
   * administrator and credits no wallet.
   */
  method PostCreateMoney(db: DatabaseStorage, callerId: nat, amount: int, currency: string)
    returns (r: Result<Transaction, Failure>)
    requires db.Valid() && Solvent(db.wallets)
    modifies db
    ensures db.Valid() && Solvent(db.wallets)
    ensures old(Justified(db)) ==> Justified(db)
    ensures db.wallets == old(db.wallets) && db.users == old(db.users) && db.products == old(db.products)
    ensures db.notifications == old(db.notifications)
    ensures r.Err? ==> unchanged(db)
    ensures var chk := old(CheckCreateMoney(db, callerId, amount, currency));
      && (chk.Err? ==> r == Err(chk.error))
      && (chk.Ok? && !FitsDecimal(amount) ==> r == Err(StorageFailed(NumericOverflow, 400)))
      && (chk.Ok? && FitsDecimal(amount) ==>
            && r == Ok(TransactionRow(|old(db.transactions)|, MintRecord(callerId, chk.value)))
            && db.transactions == old(db.transactions) + [r.value])
    ensures r.Ok? ==> r.value.txType == MoneyCreation && r.value.fromUserId == Some(callerId) && r.value.toUserId.None?
  {
    var chk := CheckCreateMoney(db, callerId, amount, currency);
    if chk.Err? {
      return Err(chk.error);
    }
    ghost var txs, justified := db.transactions, Justified(db);
    var tx := db.CreateTransaction(MintRecord(callerId, chk.value));
    if tx.Err? {
      return Err(StorageFailed(tx.error, 400));
    }
    if justified {
      MintKeepsLedger(db.wallets, txs, tx.value);
    }
    r := Ok(tx.value);
  }

  // ----- admin credit -----

  datatype CreditPlan = CreditPlan(admin: Caller, target: User, amount: int, currency: Currency)

  /**
   * The guards of `POST /api/admin/credit-account`: an administrator, the input
   * schema, then the target's existence.
   */
  function CheckCreditAccount(db: DatabaseStorage, callerId: nat, userEmail: string, amount: int, currency: string)
    : (r: Result<CreditPlan, Failure>)
    requires db.Valid()
    reads db
    ensures r.Ok? ==> callerId < |db.users| && db.users[callerId].role == Admin && !db.users[callerId].isBlocked
    ensures r.Ok? ==> r.value.admin.id == callerId
    ensures r.Ok? ==> r.value.target in db.users && r.value.target.email == userEmail && r.value.target.id < |db.users|
    ensures r.Ok? ==> r.value.amount == amount > 0 && CurrencyName(r.value.currency) == currency
    ensures AuthenticateAdmin(db, callerId).Err? ==> r == Err(AuthenticateAdmin(db, callerId).error)
    ensures AuthenticateAdmin(db, callerId).Ok? && ParseCreditAccount(userEmail, amount, currency).None? ==>
              r == Err(InvalidInput)
    ensures AuthenticateAdmin(db, callerId).Ok? && ParseCreditAccount(userEmail, amount, currency).Some? ==>
              db.GetUserByEmail(userEmail).None? ==> r == Err(UserNotFound)
    ensures AuthenticateAdmin(db, callerId).Ok? && ParseCreditAccount(userEmail, amount, currency).Some? &&
            db.GetUserByEmail(userEmail).Some? ==>
              r == Ok(CreditPlan(AuthenticateAdmin(db, callerId).value, db.GetUserByEmail(userEmail).value, amount,
                                 ParseCreditAccount(userEmail, amount, currency).value.currency))
  {
    match AuthenticateAdmin(db, callerId)
    case Err(e) => Err(e)
    case Ok(admin) =>
      match ParseCreditAccount(userEmail, amount, currency)
      case None => Err(InvalidInput)
      case Some(input) =>
        match db.GetUserByEmail(input.userEmail)
        case None => Err(UserNotFound)
        case Some(user) => Ok(CreditPlan(admin, user, input.amount, input.currency))
  }

  function DepositRecord(p: CreditPlan): NewTransaction {
    NewTransaction(Deposit, Some(p.admin.id), Some(p.target.id), p.amount, p.currency,
                   Some("Dépôt manuel par administrateur"), None, None)
  }

  function DepositNotice(p: CreditPlan): NewNotification
    requires p.amount >= 0
  {
    NewNotification(p.target.id, "Dépôt effectué",
                    "Vous avez effectué un dépôt de " + NumberText(p.amount) + " " + CurrencyName(p.currency), None)
  }

  /**
   * The storage calls of a checked admin credit, in the handler's order:
   * credit the target (no debit anywhere), record a `deposit` from the
   * administrator to the target, notify the target. Only the credit can fail,
   * when the balance column cannot hold the result.
   */
  method ApplyCredit(db: DatabaseStorage, p: CreditPlan) returns (r: Result<Transaction, Failure>)
    requires db.Valid() && Solvent(db.wallets)
    requires p.admin.id < |db.users| && p.target.id < |db.users| && p.amount > 0
    modifies db
    ensures db.Valid() && Solvent(db.wallets)
    ensures old(Justified(db)) ==> Justified(db)
    ensures r.Err? ==> unchanged(db)
    ensures db.users == old(db.users) && db.products == old(db.products)
    ensures var credited := AddToBalance(old(db.wallets)[p.target.id], p.currency, p.amount);
      && (credited.None? ==> r == Err(StorageFailed(NumericOverflow, 400)))
      && (credited.Some? ==>
            && r == Ok(TransactionRow(|old(db.transactions)|, DepositRecord(p)))
            && db.wallets == old(db.wallets)[p.target.id := credited.value]
            && db.transactions == old(db.transactions) + [r.value]
            && db.notifications == old(db.notifications) + [NotificationRow(|old(db.notifications)|, DepositNotice(p))]
            && Supply(db.wallets, p.currency) == Supply(old(db.wallets), p.currency) + p.amount
            && Supply(db.wallets, OtherCurrency(p.currency)) == Supply(old(db.wallets), OtherCurrency(p.currency)))
  {
    ghost var ws, txs, justified := db.wallets, db.transactions, Justified(db);
    var credit := db.UpdateWalletBalance(p.target.id, p.currency, p.amount);
    if credit.Err? {
      return Err(StorageFailed(credit.error, 400));
    }
    var tx := db.CreateTransaction(DepositRecord(p));
    var note := db.CreateNotification(DepositNotice(p));
    ghost var credited := AddToBalance(ws[p.target.id], p.currency, p.amount).value;
    UpdateKeepsSolvent(ws, p.target.id, p.currency, p.amount, credited);
    UpdateSupply(ws, p.target.id, p.currency, p.amount, credited);
    if justified {
      DepositKeepsLedger(ws, txs, tx.value, credited);
    }
    r := Ok(tx.value);
  }

  /** `POST /api/admin/credit-account`: the guards, then the storage calls. */
  method PostCreditAccount(db: DatabaseStorage, callerId: nat, userEmail: string, amount: int, currency: string)
    returns (r: Result<Transaction, Failure>)
    requires db.Valid() && Solvent(db.wallets)
    modifies db
    ensures db.Valid() && Solvent(db.wallets)
    ensures old(Justified(db)) ==> Justified(db)
    ensures r.Err? ==> unchanged(db)
    ensures db.users == old(db.users) && db.products == old(db.products)
    ensures var chk := old(CheckCreditAccount(db, callerId, userEmail, amount, currency));
      && (chk.Err? ==> r == Err(chk.error))
      && (chk.Ok? ==>
            var p := chk.value;
            var credited := AddToBalance(old(db.wallets)[p.target.id], p.currency, amount);
            && (credited.None? ==> r == Err(StorageFailed(NumericOverflow, 400)))
            && (credited.Some? ==>
                  && r == Ok(TransactionRow(|old(db.transactions)|, DepositRecord(p)))
                  && db.wallets == old(db.wallets)[p.target.id := credited.value]
                  && db.transactions == old(db.transactions) + [r.value]
                  && db.notifications == old(db.notifications) + [NotificationRow(|old(db.notifications)|, DepositNotice(p))]))
    ensures r.Ok? ==>
      var c, t := r.value.currency, r.value.toUserId.value;
      && r.value.txType == Deposit && r.value.fromUserId == Some(callerId) && r.value.amount == amount
      && Balance(db.wallets[t], c) == Balance(old(db.wallets)[t], c) + amount
      && Balance(db.wallets[t], OtherCurrency(c)) == Balance(old(db.wallets)[t], OtherCurrency(c))
      && (forall u :: 0 <= u < |db.wallets| && u != t ==> db.wallets[u] == old(db.wallets)[u])
      && Supply(db.wallets, c) == Supply(old(db.wallets), c) + amount
  {
    var chk := CheckCreditAccount(db, callerId, userEmail, amount, currency);
    if chk.Err? {
      return Err(chk.error);
    }
    r := ApplyCredit(db, chk.value);
  }

  // ----- accounts -----

  /**
   * `createUser` on a justified store (as registration calls it) keeps it
   * justified: the new wallet holds 0 of each currency, and no record can name
   * a user that did not exist when it was written.
   */
  method AddUser(db: DatabaseStorage, u: NewUser) returns (r: Result<User, DbError>)
    requires Justified(db)
    modifies db
    ensures Justified(db)
    ensures (exists v :: v in old(db.users) && v.email == u.email) ==> r == Err(UniqueViolation) && unchanged(db)
    ensures (forall v :: v in old(db.users) ==> v.email != u.email) ==>
      && r == Ok(UserRow(|old(db.users)|, u))
      && db.users == old(db.users) + [r.value]
      && db.wallets == old(db.wallets) + [WalletRow(|old(db.users)|)]
    ensures db.products == old(db.products) && db.transactions == old(db.transactions)
    ensures db.notifications == old(db.notifications)
  {
    ghost var ws := db.wallets;
    r := db.CreateUser(u);
    if r.Ok? {
      forall i | 0 <= i < |db.transactions| ensures !Involves(db.transactions[i], |ws|) {
        assert RefersToExisting(db.transactions[i], |ws|, |db.products|);
      }
      NewWalletKeepsLedger(ws, db.transactions, WalletRow(|ws|));
    }
  }

  // ----- the partial transfer -----

  function Account(email: string, role: Option<Role>): NewUser {
    NewUser(email, "hash", None, None, role, None)
  }

  /** A store with an administrator and two clients, none blocked, every balance at 0 and an empty log. */
  method OpenAccounts(admin: string, sender: string, recipient: string) returns (db: DatabaseStorage)
    requires admin != sender && admin != recipient && sender != recipient
    ensures fresh(db) && Justified(db)
    ensures |db.users| == 3 && db.users[0].role == Admin && !db.users[0].isBlocked
    ensures db.users[1].email == sender && !db.users[1].isBlocked && db.users[2].email == recipient
    ensures db.wallets == [WalletRow(0), WalletRow(1), WalletRow(2)] && db.transactions == []
  {
    db := new DatabaseStorage();
    var first := AddUser(db, Account(admin, Some(Admin)));
    var second := AddUser(db, Account(sender, None));
    var third := AddUser(db, Account(recipient, None));
  }

  /** In a store whose first user is an unblocked administrator, crediting an existing user passes every guard. */
  lemma CreditAccepted(db: DatabaseStorage, target: nat, email: string, amount: int)
    requires db.Valid() && 0 < |db.users| && db.users[0].role == Admin && !db.users[0].isBlocked
    requires target < |db.users| && db.users[target].email == email && ValidEmail(email) && amount > 0
    ensures CheckCreditAccount(db, 0, email, amount, "FC") ==
              Ok(CreditPlan(Caller(0, db.users[0].email, Admin), db.users[target], amount, FC))
  {
  }

  /** The second user, unblocked and holding 1.00 FC, sending it to the third passes every guard. */
  lemma TransferAccepted(db: DatabaseStorage, recipient: string)
    requires db.Valid() && |db.users| == 3 && !db.users[1].isBlocked
    requires db.users[2].email == recipient && ValidEmail(recipient) && db.wallets[1].balanceFC == 100
    ensures CheckTransfer(db, 1, recipient, 100, "FC") == Ok(TransferPlan(db.users[1], db.users[2], 100, FC))
  {
  }

  /** A non-empty local part and a domain with a '.', joined by the only '@', is a well-formed address. */
  lemma EmailJoined(local: string, domain: string)
    requires local != [] && '@' !in local && '@' !in domain && '.' in domain
    ensures ValidEmail(local + "@" + domain)
  {
    var s := local + "@" + domain;
    var i := |local|;
    assert s[..i] == local && s[i] == '@' && s[i + 1..] == domain;
  }

  lemma WitnessEmails()
    ensures ValidEmail("alice@wallet.cd") && ValidEmail("bob@wallet.cd")
  {
    assert "wallet.cd"[6] == '.';
    EmailJoined("alice", "wallet.cd");
    assert "alice" + "@" + "wallet.cd" == "alice@wallet.cd";
    EmailJoined("bob", "wallet.cd");
    assert "bob" + "@" + "wallet.cd" == "bob@wallet.cd";
  }

  /** The first user, an unblocked administrator, credits `amount` FC to the user at `target`. */
  method CreditStep(db: DatabaseStorage, target: nat, email: string, amount: int)
    requires db.Valid() && Solvent(db.wallets) && 0 < |db.users| && db.users[0].role == Admin && !db.users[0].isBlocked
    requires target < |db.users| && db.users[target].email == email && ValidEmail(email) && amount > 0
    requires FitsDecimal(db.wallets[target].balanceFC + amount)
    modifies db
    ensures db.Valid() && Solvent(db.wallets) && db.users == old(db.users)
    ensures old(Justified(db)) ==> Justified(db)
    ensures db.wallets == old(db.wallets)[target := old(db.wallets[target]).(balanceFC := old(db.wallets[target].balanceFC) + amount)]
    ensures db.transactions == old(db.transactions) +
      [TransactionRow(|old(db.transactions)|,
                      DepositRecord(CreditPlan(Caller(0, old(db.users[0].email), Admin), old(db.users[target]), amount, FC)))]
  {
    CreditAccepted(db, target, email, amount);
    var credited := PostCreditAccount(db, 0, email, amount, "FC");
  }

  /** The store after crediting the sender 1.00 FC and the recipient one cent short of the balance column's limit. */
  method FundAccounts(admin: string, sender: string, recipient: string) returns (db: DatabaseStorage)
    requires admin != sender && admin != recipient && sender != recipient
    requires ValidEmail(sender) && ValidEmail(recipient)
    ensures fresh(db) && Justified(db)
    ensures |db.users| == 3 && db.users[0].role == Admin && !db.users[0].isBlocked
    ensures db.users[1].email == sender && !db.users[1].isBlocked && db.users[2].email == recipient
    ensures db.wallets == [WalletRow(0), Wallet(1, 100, 0), Wallet(2, DecimalLimit - 1, 0)]
    ensures |db.transactions| == 2
  {
    db := OpenAccounts(admin, sender, recipient);
    CreditStep(db, 1, sender, 100);
    CreditStep(db, 2, recipient, DecimalLimit - 1);
  }

  /**
   * The transfer handler as written, sending 1.00 FC from the second user to
   * the third, who holds one cent less than the balance column's limit: the
   * sender is debited, the credit overflows, and nothing is recorded.
   */
  method OverflowingTransfer(db: DatabaseStorage, recipient: string) returns (response: Result<Transaction, Failure>)
    requires db.Valid() && Solvent(db.wallets) && |db.users| == 3 && !db.users[1].isBlocked
    requires db.users[2].email == recipient && ValidEmail(recipient)
    requires db.wallets == [WalletRow(0), Wallet(1, 100, 0), Wallet(2, DecimalLimit - 1, 0)]
    modifies db
    ensures response == Err(StorageFailed(NumericOverflow, 400))
    ensures db.Valid() && Solvent(db.wallets) && db.users == old(db.users)
    ensures db.wallets == [WalletRow(0), Wallet(1, 0, 0), Wallet(2, DecimalLimit - 1, 0)]
    ensures db.transactions == old(db.transactions)
  {
    TransferAccepted(db, recipient);
    assert !CreditFits(db.wallets, TransferPlan(db.users[1], db.users[2], 100, FC));
    assert AddToBalance(Wallet(1, 100, 0), FC, -100) == Some(Wallet(1, 0, 0));
    response := PostTransferAsWritten(db, 1, recipient, 100, "FC");
  }

  /**
   * A run of the transfer handler as written that debits the sender and then
   * fails: the recipient holds one cent less than the balance column's limit,
   * so crediting it 1.00 FC overflows after the sender's 1.00 FC is gone. The
   * request is refused with 400, the sender's balance is 0, the log holds only
   * the two credits from before, and replaying it still gives the sender 1.00 FC.
   */
  method PartialTransfer(admin: string, sender: string, recipient: string)
    returns (response: Result<Transaction, Failure>, senderBalance: int, records: nat, loggedBalance: int)
    requires admin != sender && admin != recipient && sender != recipient
    requires ValidEmail(sender) && ValidEmail(recipient)
    ensures response == Err(StorageFailed(NumericOverflow, 400))
    ensures senderBalance == 0 && records == 2
    ensures loggedBalance == 100 && senderBalance != loggedBalance
  {
    var db := FundAccounts(admin, sender, recipient);
    assert Balance(db.wallets[1], FC) == Replay(db.transactions, 1, FC);
    response := OverflowingTransfer(db, recipient);
    senderBalance := db.wallets[1].balanceFC;
    records := |db.transactions|;
    loggedBalance := Replay(db.transactions, 1, FC);
  }

  /**
   * The store the partial transfer leaves still serves the next request: the
   * administrator credits the sender 1.00 FC, which brings the sender's balance
   * back to 1.00 FC although the log now replays it to 2.00 FC.
   */
  method CreditAfterPartialTransfer(admin: string, sender: string, recipient: string)
    returns (senderBalance: int, loggedBalance: int)
    requires admin != sender && admin != recipient && sender != recipient
    requires ValidEmail(sender) && ValidEmail(recipient)
    ensures senderBalance == 100 && loggedBalance == 200
  {
    var db := FundAccounts(admin, sender, recipient);
    assert Balance(db.wallets[1], FC) == Replay(db.transactions, 1, FC);
    ghost var txs := db.transactions;
    var response := OverflowingTransfer(db, recipient);
    CreditStep(db, 1, sender, 100);
    ReplayAppend(txs, db.transactions[2], 1, FC);
    senderBalance := db.wallets[1].balanceFC;
    loggedBalance := Replay(db.transactions, 1, FC);
  }

  /** The partial transfer, between three concrete accounts. */
  method PartialTransferWitness()
    returns (response: Result<Transaction, Failure>, senderBalance: int, records: nat, loggedBalance: int)
    ensures response == Err(StorageFailed(NumericOverflow, 400))
    ensures senderBalance == 0 && records == 2
    ensures loggedBalance == 100 && senderBalance != loggedBalance
  {
    WitnessEmails();
    response, senderBalance, records, loggedBalance := PartialTransfer("admin@wallet.cd", "alice@wallet.cd", "bob@wallet.cd");
  }
}
