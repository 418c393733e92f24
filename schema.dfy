/**
 * The wallet platform's tables, enumerations, column defaults and request
 * validators (shared/schema.ts).
 *
 * Money columns are numeric(12, 2) and are modelled as whole cents; a value
 * needing more than 12 digits does not fit the column. Record ids are the
 * positions of the rows in their tables, and `createdAt` is the order of
 * insertion.
 */
module Schema {
  import opened Wrappers

  datatype Role = Admin | Client
  datatype Currency = FC | USD
  datatype TxType = Deposit | Transfer | Purchase | MoneyCreation

  /** numeric(12, 2) holds at most 12 digits, two of them after the point. */
  const DecimalLimit: int := 1_000_000_000_000

  predicate FitsDecimal(cents: int) {
    -DecimalLimit < cents < DecimalLimit
  }

  /** The range of a Postgres `integer` column. */
  const IntegerMin: int := -0x8000_0000
  const IntegerMax: int := 0x7fff_ffff

  predicate FitsInteger(n: int) {
    IntegerMin <= n <= IntegerMax
  }

  const CompletedStatus: string := "completed"
  const MinPasswordLength: nat := 6

  // ----- rows -----

  datatype User = User(
    id: nat,
    email: string,
    password: string,
    firstName: Option<string>,
    lastName: Option<string>,
    role: Role,
    isBlocked: bool)

  datatype Wallet = Wallet(userId: nat, balanceFC: int, balanceUSD: int)

  datatype Product = Product(
    id: nat,
    name: string,
    description: Option<string>,
    price: int,
    currency: Currency,
    stock: int,
    imageUrl: Option<string>,
    isActive: bool)

  datatype Transaction = Transaction(
    id: nat,
    txType: TxType,
    fromUserId: Option<nat>,
    toUserId: Option<nat>,
    amount: int,
    currency: Currency,
    description: Option<string>,
    productId: Option<nat>,
    status: string)

  datatype Notification = Notification(
    id: nat,
    userId: nat,
    title: string,
    message: string,
    isRead: bool)

  /** The balance column a currency selects. */
  function Balance(w: Wallet, c: Currency): int {
    match c
    case FC => w.balanceFC
    case USD => w.balanceUSD
  }

  function OtherCurrency(c: Currency): Currency {
    match c
    case FC => USD
    case USD => FC
  }

  // ----- insert shapes: a missing column takes its default -----

  datatype NewUser = NewUser(
    email: string,
    password: string,
    firstName: Option<string>,
    lastName: Option<string>,
    role: Option<Role>,
    isBlocked: Option<bool>)

  datatype NewProduct = NewProduct(
    name: string,
    description: Option<string>,
    price: int,
    currency: Option<Currency>,
    stock: Option<int>,
    imageUrl: Option<string>,
    isActive: Option<bool>)

  datatype NewTransaction = NewTransaction(
    txType: TxType,
    fromUserId: Option<nat>,
    toUserId: Option<nat>,
    amount: int,
    currency: Currency,
    description: Option<string>,
    productId: Option<nat>,
    status: Option<string>)

  datatype NewNotification = NewNotification(
    userId: nat,
    title: string,
    message: string,
    isRead: Option<bool>)

  function UserRow(id: nat, u: NewUser): User {
    User(id, u.email, u.password, u.firstName, u.lastName, u.role.GetOr(Client), u.isBlocked.GetOr(false))
  }

  function WalletRow(userId: nat): Wallet {
    Wallet(userId, 0, 0)
  }

  function ProductRow(id: nat, p: NewProduct): Product {
    Product(id, p.name, p.description, p.price, p.currency.GetOr(FC), p.stock.GetOr(0), p.imageUrl, p.isActive.GetOr(true))
  }

  function TransactionRow(id: nat, t: NewTransaction): Transaction {
    Transaction(id, t.txType, t.fromUserId, t.toUserId, t.amount, t.currency, t.description, t.productId,
                t.status.GetOr(CompletedStatus))
  }

  function NotificationRow(id: nat, n: NewNotification): Notification {
    Notification(id, n.userId, n.title, n.message, n.isRead.GetOr(false))
  }

  /** A row built from an insert that leaves every defaulted column out carries the schema's defaults. */
  lemma ColumnDefaults(id: nat, u: NewUser, p: NewProduct, t: NewTransaction, n: NewNotification)
    requires u.role.None? && u.isBlocked.None?
    requires p.currency.None? && p.stock.None? && p.isActive.None?
    requires t.status.None?
    requires n.isRead.None?
    ensures UserRow(id, u).role == Client && !UserRow(id, u).isBlocked
    ensures Balance(WalletRow(id), FC) == 0 && Balance(WalletRow(id), USD) == 0
    ensures ProductRow(id, p).currency == FC && ProductRow(id, p).stock == 0 && ProductRow(id, p).isActive
    ensures TransactionRow(id, t).status == "completed"
    ensures !NotificationRow(id, n).isRead
  {
  }

  // ----- validators -----

  function CurrencyName(c: Currency): string {
    match c
    case FC => "FC"
    case USD => "USD"
  }

  /** `z.enum(["FC", "USD"])`: the currency is one of exactly two names. */
  function ParseCurrency(s: string): (r: Option<Currency>)
    ensures r.Some? <==> s == "FC" || s == "USD"
    ensures r.Some? ==> CurrencyName(r.value) == s
  {
    if s == "FC" then Some(FC)
    else if s == "USD" then Some(USD)
    else None
  }

  lemma CurrencyNamesRoundTrip(c: Currency, s: string)
    ensures ParseCurrency(CurrencyName(c)) == Some(c)
    ensures ParseCurrency(s) == Some(c) <==> s == CurrencyName(c)
  {
  }

  /**
   * An address with exactly one '@', a non-empty local part, and a domain
   * holding a '.' (a coarse form of `z.string().email()`).
   */
  predicate ValidEmail(s: string) {
    exists i :: 0 < i < |s| - 1 && s[i] == '@' && '@' !in s[..i] && '@' !in s[i + 1..] && '.' in s[i + 1..]
  }

  datatype LoginInput = LoginInput(email: string, password: string)
  datatype RegisterInput = RegisterInput(email: string, password: string, firstName: string, lastName: string)
  datatype TransferInput = TransferInput(recipientEmail: string, amount: int, currency: Currency)
  datatype CreateMoneyInput = CreateMoneyInput(amount: int, currency: Currency)
  datatype CreditAccountInput = CreditAccountInput(userEmail: string, amount: int, currency: Currency)

  /** `loginSchema.parse`: a well-formed email and a password of at least six characters. */
  function ParseLogin(email: string, password: string): (r: Option<LoginInput>)
    ensures r.Some? <==> ValidEmail(email) && |password| >= 6
    ensures r.Some? ==> r.value == LoginInput(email, password)
  {
    if ValidEmail(email) && |password| >= MinPasswordLength then Some(LoginInput(email, password)) else None
  }

  /** `registerSchema.parse`: as for login, and both names non-empty. */
  function ParseRegister(email: string, password: string, firstName: string, lastName: string): (r: Option<RegisterInput>)
    ensures r.Some? <==> ValidEmail(email) && |password| >= 6 && firstName != [] && lastName != []
    ensures r.Some? ==> r.value == RegisterInput(email, password, firstName, lastName)
  {
    if ValidEmail(email) && |password| >= MinPasswordLength && |firstName| >= 1 && |lastName| >= 1
    then Some(RegisterInput(email, password, firstName, lastName))
    else None
  }

  /** `transferSchema.parse`: a well-formed recipient email, a positive amount, a known currency. */
  function ParseTransfer(recipientEmail: string, amount: int, currency: string): (r: Option<TransferInput>)
    ensures r.Some? <==> ValidEmail(recipientEmail) && amount > 0 && (currency == "FC" || currency == "USD")
    ensures r.Some? ==> r.value.recipientEmail == recipientEmail && r.value.amount == amount
    ensures r.Some? ==> CurrencyName(r.value.currency) == currency
  {
    var c := ParseCurrency(currency);
    if ValidEmail(recipientEmail) && amount > 0 && c.Some?
    then Some(TransferInput(recipientEmail, amount, c.value))
    else None
  }

  /** `createMoneySchema.parse`: a positive amount and a known currency. */
  function ParseCreateMoney(amount: int, currency: string): (r: Option<CreateMoneyInput>)
    ensures r.Some? <==> amount > 0 && (currency == "FC" || currency == "USD")
    ensures r.Some? ==> r.value.amount == amount && CurrencyName(r.value.currency) == currency
  {
    var c := ParseCurrency(currency);
    if amount > 0 && c.Some? then Some(CreateMoneyInput(amount, c.value)) else None
  }

  /** `creditAccountSchema.parse`: a well-formed target email, a positive amount, a known currency. */
  function ParseCreditAccount(userEmail: string, amount: int, currency: string): (r: Option<CreditAccountInput>)
    ensures r.Some? <==> ValidEmail(userEmail) && amount > 0 && (currency == "FC" || currency == "USD")
    ensures r.Some? ==> r.value.userEmail == userEmail && r.value.amount == amount
    ensures r.Some? ==> CurrencyName(r.value.currency) == currency
  {
    var c := ParseCurrency(currency);
    if ValidEmail(userEmail) && amount > 0 && c.Some?
    then Some(CreditAccountInput(userEmail, amount, c.value))
    else None
  }
}
