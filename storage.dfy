/**
 * The storage layer (server/storage.ts): the five tables of the database as
 * sequences in a `DatabaseStorage` object, the row-level updates and inserts
 * the handlers call, and the select queries as functions of the tables.
 *
 * A failing SQL statement changes nothing and surfaces as a `DbError`: a value
 * too wide for its column (`NumericOverflow`), a second user with the same
 * email (`UniqueViolation`), a reference to a row that does not exist
 * (`ForeignKeyViolation`).
 */
module Storage {
  import opened Wrappers
  import opened Schema

  datatype DbError = NumericOverflow | UniqueViolation | ForeignKeyViolation

  /** Position of the first row a `WHERE` condition selects, as `const [row] = await db.select()...` reads it. */
  function FirstWhere<T>(rows: seq<T>, matches: T -> bool): (r: Option<nat>)
    ensures r.Some? ==> r.value < |rows| && matches(rows[r.value])
    ensures r.Some? ==> forall j :: 0 <= j < r.value ==> !matches(rows[j])
    ensures r.None? ==> forall j :: 0 <= j < |rows| ==> !matches(rows[j])
  {
    if rows == [] then None
    else if matches(rows[0]) then Some(0)
    else match FirstWhere(rows[1..], matches)
      case None => None
      case Some(k) => Some(k + 1)
  }

  /** The rows a `WHERE` condition selects, ordered `desc(createdAt)`: the latest insert first. */
  function SelectNewestFirst<T(!new)>(rows: seq<T>, matches: T -> bool): (r: seq<T>)
    ensures forall x :: x in r <==> x in rows && matches(x)
  {
    if rows == [] then []
    else
      var last := rows[|rows| - 1];
      assert rows == rows[..|rows| - 1] + [last];
      (if matches(last) then [last] else []) + SelectNewestFirst(rows[..|rows| - 1], matches)
  }

  ghost predicate Ascending<T>(rows: seq<T>, key: T -> int) {
    forall i, j :: 0 <= i < j < |rows| ==> key(rows[i]) < key(rows[j])
  }

  ghost predicate Descending<T>(rows: seq<T>, key: T -> int) {
    forall i, j :: 0 <= i < j < |rows| ==> key(rows[i]) > key(rows[j])
  }

  /** Rows whose key is their position are in ascending key order. */
  lemma PositionsAscend<T>(rows: seq<T>, key: T -> int)
    requires forall i :: 0 <= i < |rows| ==> key(rows[i]) == i
    ensures Ascending(rows, key)
  {
  }

  /** Rows stored in ascending key order come back from a selection in descending key order. */
  lemma {:induction false} NewestFirstDescends<T(!new)>(rows: seq<T>, matches: T -> bool, key: T -> int)
    requires Ascending(rows, key)
    ensures Descending(SelectNewestFirst(rows, matches), key)
  {
    if rows != [] {
      var n := |rows| - 1;
      var init := rows[..n];
      var rest := SelectNewestFirst(init, matches);
      assert Ascending(init, key) by {
        forall i, j | 0 <= i < j < |init| ensures key(init[i]) < key(init[j]) {
          assert init[i] == rows[i] && init[j] == rows[j];
        }
      }
      NewestFirstDescends(init, matches, key);
      forall x | x in rest ensures key(x) < key(rows[n]) {
        var i :| 0 <= i < |init| && init[i] == x;
        assert rows[i] == x;
      }
    }
  }

  /** The wallet after `balance<currency> + delta`; the other balance is never touched. */
  function AddToBalance(w: Wallet, c: Currency, delta: int): (r: Option<Wallet>)
    ensures r.Some? <==> FitsDecimal(Balance(w, c) + delta)
    ensures r.Some? ==> r.value.userId == w.userId && Balance(r.value, c) == Balance(w, c) + delta
    ensures r.Some? ==> Balance(r.value, OtherCurrency(c)) == Balance(w, OtherCurrency(c))
  {
    var b := Balance(w, c) + delta;
    if !FitsDecimal(b) then None
    else match c
      case FC => Some(w.(balanceFC := b))
      case USD => Some(w.(balanceUSD := b))
  }

  /** The condition of `getTransactionsByUserId`: the user sent or received the record. */
  predicate Involves(t: Transaction, userId: nat) {
    t.fromUserId == Some(userId) || t.toUserId == Some(userId)
  }

  function InvolvesUser(userId: nat): Transaction -> bool {
    (t: Transaction) => Involves(t, userId)
  }

  /** Every user, product or transaction a transaction row refers to exists. */
  predicate RefersToExisting(t: Transaction, userCount: nat, productCount: nat) {
    && (t.fromUserId.Some? ==> t.fromUserId.value < userCount)
    && (t.toUserId.Some? ==> t.toUserId.value < userCount)
    && (t.productId.Some? ==> t.productId.value < productCount)
  }

  class DatabaseStorage {
    var users: seq<User>
    var wallets: seq<Wallet>
    var products: seq<Product>
    var transactions: seq<Transaction>
    var notifications: seq<Notification>

    /** Users: ids are positions, emails are unique. */
    ghost predicate UsersValid()
      reads this
    {
      && (forall i :: 0 <= i < |users| ==> users[i].id == i)
      && (forall i, j :: 0 <= i < j < |users| ==> users[i].email != users[j].email)
    }

    /** One wallet per user, at the user's position, balances within numeric(12, 2). */
    ghost predicate WalletsValid()
      reads this
    {
      && |wallets| == |users|
      && forall i :: 0 <= i < |wallets| ==>
           wallets[i].userId == i && FitsDecimal(wallets[i].balanceFC) && FitsDecimal(wallets[i].balanceUSD)
    }

    ghost predicate ProductsValid()
      reads this
    {
      forall i :: 0 <= i < |products| ==>
        products[i].id == i && FitsDecimal(products[i].price) && FitsInteger(products[i].stock)
    }

    ghost predicate TransactionsValid()
      reads this
    {
      forall i :: 0 <= i < |transactions| ==>
        && transactions[i].id == i
        && FitsDecimal(transactions[i].amount)
        && RefersToExisting(transactions[i], |users|, |products|)
    }

    ghost predicate NotificationsValid()
      reads this
    {
      forall i :: 0 <= i < |notifications| ==> notifications[i].id == i && notifications[i].userId < |users|
    }

    /**
     * The integrity the store keeps: unique emails and existing references
     * (keys of the schema), values within their column types, one wallet per
     * user (which no constraint forces: `CreateUser` always creates it), and
     * ids that are row positions (a convention of this model).
     */
    ghost predicate Valid()
      reads this
    {
      UsersValid() && WalletsValid() && ProductsValid() && TransactionsValid() && NotificationsValid()
    }

    constructor ()
      ensures Valid()
      ensures users == [] && wallets == [] && products == [] && transactions == [] && notifications == []
    {
      users, wallets, products, transactions, notifications := [], [], [], [], [];
    }

    // ----- queries -----

    /** `getUserById`: ids are positions. */
    function GetUserById(id: nat): (r: Option<User>)
      reads this
      ensures r.Some? <==> id < |users|
      ensures r.Some? ==> r.value in users
      ensures UsersValid() && r.Some? ==> r.value.id == id
    {
      if id < |users| then Some(users[id]) else None
    }

    /** `getUserByEmail`: the user with that email, if there is one. */
    function GetUserByEmail(email: string): (r: Option<User>)
      reads this
      ensures r.Some? ==> r.value in users && r.value.email == email
      ensures r.None? ==> forall u :: u in users ==> u.email != email
    {
      match FirstWhere(users, (u: User) => u.email == email)
      case Some(i) => Some(users[i])
      case None => None
    }

    /** `getWalletByUserId`: in a valid store, the wallet of an existing user is the one at its position. */
    function GetWalletByUserId(userId: nat): (r: Option<Wallet>)
      reads this
      ensures r.Some? ==> r.value in wallets && r.value.userId == userId
      ensures r.None? ==> forall w :: w in wallets ==> w.userId != userId
      ensures WalletsValid() ==> (r.Some? <==> userId < |users|)
      ensures WalletsValid() && userId < |users| ==> r == Some(wallets[userId])
    {
      match FirstWhere(wallets, (w: Wallet) => w.userId == userId)
      case Some(i) => Some(wallets[i])
      case None =>
        assert WalletsValid() && userId < |users| ==> wallets[userId].userId == userId;
        None
    }

    function GetProductById(id: nat): (r: Option<Product>)
      reads this
      ensures r.Some? <==> id < |products|
      ensures r.Some? ==> r.value in products
      ensures ProductsValid() && r.Some? ==> r.value.id == id
    {
      if id < |products| then Some(products[id]) else None
    }

    /** `getAllProducts`: exactly the active products, the newest first. */
    function GetAllProducts(): (r: seq<Product>)
      reads this
      ensures forall p :: p in r <==> p in products && p.isActive
      ensures ProductsValid() ==> forall i, j :: 0 <= i < j < |r| ==> r[i].id > r[j].id
    {
      var key, active := (p: Product) => p.id, (p: Product) => p.isActive;
      assert ProductsValid() ==> Descending(SelectNewestFirst(products, active), key) by {
        if ProductsValid() {
          PositionsAscend(products, key);
          NewestFirstDescends(products, active, key);
        }
      }
      SelectNewestFirst(products, active)
    }

    /** `getTransactionsByUserId`: exactly the records the user sent or received, the newest first. */
    function GetTransactionsByUserId(userId: nat): (r: seq<Transaction>)
      reads this
      ensures forall t :: t in r <==> t in transactions && (t.fromUserId == Some(userId) || t.toUserId == Some(userId))
      ensures TransactionsValid() ==> forall i, j :: 0 <= i < j < |r| ==> r[i].id > r[j].id
    {
      var key := (t: Transaction) => t.id;
      assert TransactionsValid() ==> Descending(SelectNewestFirst(transactions, InvolvesUser(userId)), key) by {
        if TransactionsValid() {
          PositionsAscend(transactions, key);
          NewestFirstDescends(transactions, InvolvesUser(userId), key);
        }
      }
      SelectNewestFirst(transactions, InvolvesUser(userId))
    }

    // ----- inserts -----

    /** `createUser`: inserts the user (refused for a taken email), then its wallet. */
    method CreateUser(u: NewUser) returns (r: Result<User, DbError>)
      requires Valid()
      modifies this
      ensures Valid()
      ensures (exists v :: v in old(users) && v.email == u.email) ==> r == Err(UniqueViolation) && unchanged(this)
      ensures (forall v :: v in old(users) ==> v.email != u.email) ==>
        && r == Ok(UserRow(|old(users)|, u))
        && users == old(users) + [r.value]
        && wallets == old(wallets) + [WalletRow(r.value.id)]
        && products == old(products) && transactions == old(transactions) && notifications == old(notifications)
      ensures r.Ok? ==> r.value.role == u.role.GetOr(Client) && r.value.isBlocked == u.isBlocked.GetOr(false)
      ensures r.Ok? ==> GetWalletByUserId(r.value.id) == Some(Wallet(r.value.id, 0, 0))
    {
      if GetUserByEmail(u.email).Some? {
        return Err(UniqueViolation);
      }
      var user := UserRow(|users|, u);
      users := users + [user];
      var w := CreateWallet(user.id);
      r := Ok(user);
    }

    /** `createWallet`: a wallet with both balances at 0, for an existing user. */
    method CreateWallet(userId: nat) returns (r: Result<Wallet, DbError>)
      modifies this
      ensures userId < |old(users)| ==> r == Ok(WalletRow(userId)) && wallets == old(wallets) + [r.value]
      ensures userId >= |old(users)| ==> r == Err(ForeignKeyViolation) && wallets == old(wallets)
      ensures r.Ok? ==> Balance(r.value, FC) == 0 && Balance(r.value, USD) == 0
      ensures users == old(users) && products == old(products)
      ensures transactions == old(transactions) && notifications == old(notifications)
    {
      if userId >= |users| {
        return Err(ForeignKeyViolation);
      }
      var w := WalletRow(userId);
      wallets := wallets + [w];
      r := Ok(w);
    }

    /** `createProduct`: the defaults fill in currency, stock and the active flag. */
    method CreateProduct(p: NewProduct) returns (r: Result<Product, DbError>)
      requires Valid()
      modifies this
      ensures Valid()
      ensures var row := ProductRow(|old(products)|, p);
        if FitsDecimal(row.price) && FitsInteger(row.stock)
        then r == Ok(row) && products == old(products) + [row]
        else r == Err(NumericOverflow) && products == old(products)
      ensures r.Ok? ==> r.value.currency == p.currency.GetOr(FC) && r.value.stock == p.stock.GetOr(0)
      ensures r.Ok? ==> r.value.isActive == p.isActive.GetOr(true)
      ensures users == old(users) && wallets == old(wallets)
      ensures transactions == old(transactions) && notifications == old(notifications)
    {
      var row := ProductRow(|products|, p);
      if !FitsDecimal(row.price) || !FitsInteger(row.stock) {
        return Err(NumericOverflow);
      }
      products := products + [row];
      r := Ok(row);
    }

    /** `createTransaction`: appends one record; the records already there are never touched. */
    method CreateTransaction(t: NewTransaction) returns (r: Result<Transaction, DbError>)
      requires Valid()
      modifies this
      ensures Valid()
      ensures !FitsDecimal(t.amount) ==> r == Err(NumericOverflow)
      ensures FitsDecimal(t.amount) && !RefersToExisting(TransactionRow(0, t), |old(users)|, |old(products)|) ==>
                r == Err(ForeignKeyViolation)
      ensures FitsDecimal(t.amount) && RefersToExisting(TransactionRow(0, t), |old(users)|, |old(products)|) ==> r.Ok?
      ensures r.Err? ==> unchanged(this)
      ensures r.Ok? ==> r.value == TransactionRow(|old(transactions)|, t)
      ensures r.Ok? ==> transactions == old(transactions) + [r.value]
      ensures r.Ok? ==> r.value.status == t.status.GetOr("completed")
      ensures users == old(users) && wallets == old(wallets) && products == old(products)
      ensures notifications == old(notifications)
    {
      if !FitsDecimal(t.amount) {
        return Err(NumericOverflow);
      }
      var row := TransactionRow(|transactions|, t);
      if !RefersToExisting(row, |users|, |products|) {
        return Err(ForeignKeyViolation);
      }
      transactions := transactions + [row];
      r := Ok(row);
    }

    /** `createNotification`: appends one unread notification for an existing user. */
    method CreateNotification(n: NewNotification) returns (r: Result<Notification, DbError>)
      requires Valid()
      modifies this
      ensures Valid()
      ensures n.userId >= |old(users)| ==> r == Err(ForeignKeyViolation) && notifications == old(notifications)
      ensures n.userId < |old(users)| ==>
        r == Ok(NotificationRow(|old(notifications)|, n)) && notifications == old(notifications) + [r.value]
      ensures r.Ok? ==> r.value.isRead == n.isRead.GetOr(false)
      ensures r.Err? ==> unchanged(this)
      ensures users == old(users) && wallets == old(wallets) && products == old(products)
      ensures transactions == old(transactions)
    {
      if n.userId >= |users| {
        return Err(ForeignKeyViolation);
      }
      var row := NotificationRow(|notifications|, n);
      notifications := notifications + [row];
      r := Ok(row);
    }

    // ----- updates -----

    /**
     * `updateWalletBalance`: `balance<currency> = balance<currency> + delta` on the
     * wallet of `userId`. There is no sufficiency check: only the column's
     * precision can refuse the delta.
     */
    method UpdateWalletBalance(userId: nat, currency: Currency, delta: int) returns (r: Result<(), DbError>)
      requires Valid()
      modifies this
      ensures Valid()
      ensures userId >= |old(users)| ==> r.Ok? && wallets == old(wallets)
      ensures userId < |old(users)| ==>
        var w := AddToBalance(old(wallets)[userId], currency, delta);
        if w.Some?
        then r.Ok? && wallets == old(wallets)[userId := w.value]
        else r == Err(NumericOverflow) && wallets == old(wallets)
      ensures r.Err? ==> unchanged(this)
      ensures users == old(users) && products == old(products)
      ensures transactions == old(transactions) && notifications == old(notifications)
    {
      var i := FirstWhere(wallets, (w: Wallet) => w.userId == userId);
      if i.None? {
        return Ok(());
      }
      assert i.value == userId;
      var w := AddToBalance(wallets[i.value], currency, delta);
      if w.None? {
        return Err(NumericOverflow);
      }
      wallets := wallets[i.value := w.value];
      r := Ok(());
    }

    /** `updateProductStock`: `stock = stock - quantity` on that product only. */
    method UpdateProductStock(id: nat, quantity: int) returns (r: Result<(), DbError>)
      requires Valid()
      modifies this
      ensures Valid()
      ensures id >= |old(products)| ==> r.Ok? && products == old(products)
      ensures id < |old(products)| ==>
        var stock := old(products)[id].stock - quantity;
        if FitsInteger(stock)
        then r.Ok? && products == old(products)[id := old(products)[id].(stock := stock)]
        else r == Err(NumericOverflow) && products == old(products)
      ensures r.Err? ==> unchanged(this)
      ensures users == old(users) && wallets == old(wallets)
      ensures transactions == old(transactions) && notifications == old(notifications)
    {
      if id >= |products| {
        return Ok(());
      }
      var stock := products[id].stock - quantity;
      if !FitsInteger(stock) {
        return Err(NumericOverflow);
      }
      products := products[id := products[id].(stock := stock)];
      r := Ok(());
    }

    /** `markNotificationAsRead`: sets the read flag of that notification only. */
    method MarkNotificationAsRead(id: nat)
      requires Valid()
      modifies this
      ensures Valid()
      ensures notifications ==
        if id < |old(notifications)| then old(notifications)[id := old(notifications)[id].(isRead := true)]
        else old(notifications)
      ensures users == old(users) && wallets == old(wallets) && products == old(products)
      ensures transactions == old(transactions)
    {
      if id < |notifications| {
        notifications := notifications[id := notifications[id].(isRead := true)];
      }
    }
  }
}
