/**
 * The shop ledger of main.ts: accounts, items, vouchers and the purchase
 * history, kept in four collections of the key-value store, and the
 * endpoints that read them, check their conditions and write them back.
 * The store is a `Shop` object with one map per collection; each endpoint is
 * a method that takes the authenticated session user (when it needs one) and
 * returns `Ok(payload)` or the failure the handler answers with.
 */
module Ledger {
  import opened Base
  import opened Text

  // ---------------------------------------------------------------------------
  // Records

  /** `["users", u]`: the password hash and salt are opaque text here. */
  datatype User = User(username: string, hash: string, salt: string, balance: int)

  /** `["items", id]`: the price is kept as the text the admin entered. */
  datatype Item = Item(name: string, price: string, stock: seq<string>)

  /** `["vouchers", code]` */
  datatype Voucher = Voucher(amount: int, limit: int, used: int)

  /** `["history", user, timestamp]`: one per purchase. */
  datatype HistoryEntry = HistoryEntry(itemName: string, code: string, price: string, date: string)

  /** An item as the listing shows it: its stock replaced by the number of codes left. */
  datatype ItemListing = ItemListing(name: string, price: string, stock: nat)

  /** The answers an endpoint gives instead of its payload. */
  datatype Failure =
    | UserExists          // register: "Exists"
    | UserNotFound        // admin top-up: "User not found"
    | SelfTransfer        // transfer: "Cannot send to self"
    | InvalidAmount       // transfer: "Invalid amount"
    | InsufficientBalance // transfer and buy: "Insufficient Balance"
    | ReceiverNotFound    // transfer: "Receiver not found"
    | InvalidVoucher      // redeem: "Invalid Voucher"
    | VoucherFullyUsed    // redeem: "Voucher Fully Used"
    | ItemNotFound        // buy: "Item not found"
    | OutOfStock          // buy: "Out of Stock!"
    | InvalidPrice        // buy: the stored price holds no digit

  datatype Result<T> = Ok(value: T) | Err(failure: Failure)

  /** What a successful redemption writes back, and the amount credited. */
  datatype Redemption = Redemption(amount: int, users: map<string, User>, vouchers: map<string, Voucher>)

  /** What a successful purchase writes back, and the code handed out. */
  datatype Sale = Sale(
    code: string,
    users: map<string, User>,
    items: map<string, Item>,
    history: map<(string, int), HistoryEntry>)

  // ---------------------------------------------------------------------------
  // Balances over all accounts

  /** The sum of all account balances. */
  ghost function TotalBalance(users: map<string, User>): int
    decreases |users|
  {
    if users == map[] then 0
    else
      var u :| u in users;
      users[u].balance + TotalBalance(users - {u})
  }

  /** The sum can be taken with any account first. */
  lemma {:induction false} TotalBalanceRemove(users: map<string, User>, u: string)
    requires u in users
    ensures TotalBalance(users) == users[u].balance + TotalBalance(users - {u})
    decreases |users|
  {
    var v :| v in users && TotalBalance(users) == users[v].balance + TotalBalance(users - {v});
    if v != u {
      TotalBalanceRemove(users - {v}, u);
      TotalBalanceRemove(users - {u}, v);
      assert users - {v} - {u} == users - {u} - {v};
    }
  }

  /** Writing one account changes the sum by the difference of its balances. */
  lemma {:induction false} TotalBalanceUpdate(users: map<string, User>, u: string, user: User)
    ensures TotalBalance(users[u := user])
         == TotalBalance(users) - (if u in users then users[u].balance else 0) + user.balance
  {
    TotalBalanceRemove(users[u := user], u);
    if u in users {
      TotalBalanceRemove(users, u);
      assert users[u := user] - {u} == users - {u};
    } else {
      assert users[u := user] - {u} == users;
    }
  }

  /** No account holds a negative balance. */
  ghost predicate NonNegative(users: map<string, User>) {
    forall u :: u in users ==> users[u].balance >= 0
  }

  /** Every voucher has been used at most as often as its limit allows. */
  ghost predicate WithinLimits(vouchers: map<string, Voucher>) {
    forall c :: c in vouchers ==> 0 <= vouchers[c].used <= vouchers[c].limit
  }

  /** Every account is stored under its own name, which has no upper-case letter. */
  ghost predicate AccountsKeyed(users: map<string, User>) {
    forall u :: u in users ==> users[u].username == u && NoUpper(u)
  }

  /** Every item is stored under the id of its own name. */
  ghost predicate ItemsKeyed(items: map<string, Item>) {
    forall id :: id in items ==> Slug(items[id].name) == id
  }

  /** Every history entry belongs to a known account. */
  ghost predicate HistoryOwned(history: map<(string, int), HistoryEntry>, names: set<string>) {
    forall k :: k in history ==> k.0 in names
  }

  /** The listing form of an item (main.ts:126-127). */
  function Listed(item: Item): ItemListing {
    ItemListing(item.name, item.price, |item.stock|)
  }

  /** The store's order on string key parts: lexicographic by character code. */
  predicate KeyLess(a: string, b: string) {
    if a == [] then b != []
    else b != [] && (a[0] < b[0] || (a[0] == b[0] && KeyLess(a[1..], b[1..])))
  }

  /** The elements of `s` in reverse order (`history.reverse()`, main.ts:254). */
  function Reverse<T>(s: seq<T>): (r: seq<T>)
    ensures |r| == |s|
    ensures forall i :: 0 <= i < |s| ==> r[i] == s[|s| - 1 - i]
  {
    if s == [] then [] else Reverse(s[1..]) + [s[0]]
  }

  // ---------------------------------------------------------------------------
  // The decision each endpoint takes on the records it has read: the new
  // records to write back, or the failure it answers with.

  /** Register: the lower-cased name must be free; the new account starts at 0. */
  function RegisterStep(users: map<string, User>, username: string, hash: string, salt: string)
    : (r: Result<map<string, User>>)
    ensures r.Err? <==> Lower(username) in users
    ensures r.Err? ==> r.failure == UserExists
    ensures r.Ok? ==>
      var u := Lower(username);
      && r.value.Keys == users.Keys + {u}
      && r.value[u] == User(u, hash, salt, 0)
      && (forall v :: v in users ==> r.value[v] == users[v])
    ensures r.Ok? && AccountsKeyed(users) ==> AccountsKeyed(r.value)
    ensures r.Ok? && NonNegative(users) ==> NonNegative(r.value)
  {
    var u := Lower(username);
    if u in users then Err(UserExists) else Ok(users[u := User(u, hash, salt, 0)])
  }

  /** Registering adds no money. */
  lemma RegisterKeepsTotal(users: map<string, User>, username: string, hash: string, salt: string)
    requires RegisterStep(users, username, hash, salt).Ok?
    ensures TotalBalance(RegisterStep(users, username, hash, salt).value) == TotalBalance(users)
  {
    TotalBalanceUpdate(users, Lower(username), User(Lower(username), hash, salt, 0));
  }

  /** Admin top-up: the named account must exist; `amount` is added whatever its sign. */
  function TopUpStep(users: map<string, User>, username: string, amount: int): (r: Result<map<string, User>>)
    ensures r.Err? <==> Lower(username) !in users
    ensures r.Err? ==> r.failure == UserNotFound
    ensures r.Ok? ==>
      var u := Lower(username);
      && r.value.Keys == users.Keys
      && r.value[u] == users[u].(balance := users[u].balance + amount)
      && (forall v :: v in users && v != u ==> r.value[v] == users[v])
    ensures r.Ok? && AccountsKeyed(users) ==> AccountsKeyed(r.value)
    ensures r.Ok? && NonNegative(users) && amount >= 0 ==> NonNegative(r.value)
  {
    var u := Lower(username);
    if u !in users then Err(UserNotFound)
    else Ok(users[u := users[u].(balance := users[u].balance + amount)])
  }

  /** A top-up adds exactly `amount` to the money held by all accounts. */
  lemma TopUpAddsToTotal(users: map<string, User>, username: string, amount: int)
    requires TopUpStep(users, username, amount).Ok?
    ensures TotalBalance(TopUpStep(users, username, amount).value) == TotalBalance(users) + amount
  {
    var u := Lower(username);
    TotalBalanceUpdate(users, u, users[u].(balance := users[u].balance + amount));
  }

  /**
   * Transfer from the session user: the checks run in the handler's order
   * (self, amount, funds, receiver) and the first that fails decides.
   */
  function TransferStep(users: map<string, User>, session: string, receiver: string, amount: int)
    : (r: Result<map<string, User>>)
    requires session in users
    ensures r == Err(SelfTransfer) <==> Lower(receiver) == session
    ensures r == Err(InvalidAmount) <==> Lower(receiver) != session && amount <= 0
    ensures r == Err(InsufficientBalance) <==>
      Lower(receiver) != session && amount > 0 && users[session].balance < amount
    ensures r == Err(ReceiverNotFound) <==>
      && Lower(receiver) != session && amount > 0 && users[session].balance >= amount
      && Lower(receiver) !in users
    ensures r.Err? ==> r.failure in {SelfTransfer, InvalidAmount, InsufficientBalance, ReceiverNotFound}
    ensures r.Ok? ==>
      var to := Lower(receiver);
      && to in users && to != session
      && r.value.Keys == users.Keys
      && r.value[session] == users[session].(balance := users[session].balance - amount)
      && r.value[to] == users[to].(balance := users[to].balance + amount)
      && (forall v :: v in users && v != session && v != to ==> r.value[v] == users[v])
      && r.value[session].balance >= 0
    ensures r.Ok? && AccountsKeyed(users) ==> AccountsKeyed(r.value)
    ensures r.Ok? && NonNegative(users) ==> NonNegative(r.value)
  {
    var to := Lower(receiver);
    if to == session then Err(SelfTransfer)
    else if amount <= 0 then Err(InvalidAmount)
    else if users[session].balance < amount then Err(InsufficientBalance)
    else if to !in users then Err(ReceiverNotFound)
    else
      var sender, recipient := users[session], users[to];
      Ok(users[session := sender.(balance := sender.balance - amount)]
              [to := recipient.(balance := recipient.balance + amount)])
  }

  /** A transfer moves money between two accounts and creates or destroys none. */
  lemma TransferKeepsTotal(users: map<string, User>, session: string, receiver: string, amount: int)
    requires session in users && TransferStep(users, session, receiver, amount).Ok?
    ensures TotalBalance(TransferStep(users, session, receiver, amount).value) == TotalBalance(users)
  {
    var to := Lower(receiver);
    var sender, recipient := users[session], users[to];
    var debited := users[session := sender.(balance := sender.balance - amount)];
    TotalBalanceUpdate(users, session, sender.(balance := sender.balance - amount));
    TotalBalanceUpdate(debited, to, recipient.(balance := recipient.balance + amount));
  }

  /** Redeem: the voucher must exist and have a use left; one use credits its amount. */
  function RedeemStep(users: map<string, User>, vouchers: map<string, Voucher>, session: string, code: string)
    : (r: Result<Redemption>)
    requires session in users
    ensures r == Err(InvalidVoucher) <==> code !in vouchers
    ensures r == Err(VoucherFullyUsed) <==> code in vouchers && vouchers[code].used >= vouchers[code].limit
    ensures r.Err? ==> r.failure in {InvalidVoucher, VoucherFullyUsed}
    ensures r.Ok? ==>
      && code in vouchers
      && var v, u := vouchers[code], users[session];
      && v.used < v.limit
      && r.value.amount == v.amount
      && r.value.users == users[session := u.(balance := u.balance + v.amount)]
      && r.value.vouchers == vouchers[code := v.(used := v.used + 1)]
    ensures r.Ok? ==> r.value.users.Keys == users.Keys
    ensures r.Ok? && AccountsKeyed(users) ==> AccountsKeyed(r.value.users)
    ensures r.Ok? && WithinLimits(vouchers) ==> WithinLimits(r.value.vouchers)
    ensures r.Ok? && NonNegative(users) && r.value.amount >= 0 ==> NonNegative(r.value.users)
  {
    if code !in vouchers then Err(InvalidVoucher)
    else
      var voucher := vouchers[code];
      if voucher.used >= voucher.limit then Err(VoucherFullyUsed)
      else
        var user := users[session];
        Ok(Redemption(
          voucher.amount,
          users[session := user.(balance := user.balance + voucher.amount)],
          vouchers[code := voucher.(used := voucher.used + 1)]))
  }

  /** A redemption adds exactly the voucher's amount to the money held by all accounts. */
  lemma RedeemAddsToTotal(users: map<string, User>, vouchers: map<string, Voucher>, session: string, code: string)
    requires session in users && RedeemStep(users, vouchers, session, code).Ok?
    ensures var red := RedeemStep(users, vouchers, session, code).value;
      TotalBalance(red.users) == TotalBalance(users) + red.amount
  {
    var user, voucher := users[session], vouchers[code];
    var credited := user.(balance := user.balance + voucher.amount);
    assert RedeemStep(users, vouchers, session, code).value.users == users[session := credited];
    TotalBalanceUpdate(users, session, credited);
  }

  /** How many of `redeemers`, redeeming `code` one after another, succeed. */
  function Redemptions(users: map<string, User>, vouchers: map<string, Voucher>, redeemers: seq<string>, code: string)
    : nat
    requires forall i :: 0 <= i < |redeemers| ==> redeemers[i] in users
    decreases |redeemers|
  {
    if redeemers == [] then 0
    else
      match RedeemStep(users, vouchers, redeemers[0], code)
      case Err(_) => Redemptions(users, vouchers, redeemers[1..], code)
      case Ok(red) => 1 + Redemptions(red.users, red.vouchers, redeemers[1..], code)
  }

  function Min(a: int, b: int): int {
    if a <= b then a else b
  }

  /**
   * A voucher with `limit - used` uses left serves exactly that many of a
   * queue of redeemers, or all of them if they are fewer.
   */
  lemma {:induction false} RedemptionsUpToLimit(
    users: map<string, User>, vouchers: map<string, Voucher>, redeemers: seq<string>, code: string)
    requires forall i :: 0 <= i < |redeemers| ==> redeemers[i] in users
    requires code in vouchers && 0 <= vouchers[code].used <= vouchers[code].limit
    ensures Redemptions(users, vouchers, redeemers, code)
         == Min(|redeemers|, vouchers[code].limit - vouchers[code].used)
    decreases |redeemers|
  {
    if redeemers != [] {
      var step := RedeemStep(users, vouchers, redeemers[0], code);
      if step.Ok? {
        RedemptionsUpToLimit(step.value.users, step.value.vouchers, redeemers[1..], code);
      } else {
        RedemptionsUpToLimit(users, vouchers, redeemers[1..], code);
      }
    }
  }

  /**
   * Buy: the item must exist, have stock, carry a price with digits and be
   * affordable; the sale hands out the first code, debits the price and logs
   * the purchase under `(session, now)`.
   */
  function BuyStep(
    users: map<string, User>, items: map<string, Item>, history: map<(string, int), HistoryEntry>,
    session: string, itemName: string, now: int, date: string)
    : (r: Result<Sale>)
    requires session in users
    ensures r == Err(ItemNotFound) <==> Slug(itemName) !in items
    ensures r == Err(OutOfStock) <==> Slug(itemName) in items && items[Slug(itemName)].stock == []
    ensures r == Err(InvalidPrice) <==>
      && Slug(itemName) in items && items[Slug(itemName)].stock != []
      && ParsePrice(items[Slug(itemName)].price).None?
    ensures r == Err(InsufficientBalance) <==>
      && Slug(itemName) in items && items[Slug(itemName)].stock != []
      && ParsePrice(items[Slug(itemName)].price).Some?
      && users[session].balance < ParsePrice(items[Slug(itemName)].price).value
    ensures r.Err? ==> r.failure in {ItemNotFound, OutOfStock, InvalidPrice, InsufficientBalance}
    ensures r.Ok? ==>
      && Slug(itemName) in items
      && var id := Slug(itemName);
      && var item, u := items[id], users[session];
      && ParsePrice(item.price).Some?
      && var price := ParsePrice(item.price).value;
      && r.value.items == items[id := item.(stock := item.stock[1..])]
      && item.stock == [r.value.code] + r.value.items[id].stock
      && u.balance >= price
      && r.value.users == users[session := u.(balance := u.balance - price)]
      && r.value.history == history[(session, now) := HistoryEntry(item.name, r.value.code, item.price, date)]
    ensures r.Ok? ==> r.value.users.Keys == users.Keys && r.value.items.Keys == items.Keys
  {
    var id := Slug(itemName);
    if id !in items then Err(ItemNotFound)
    else
      var item := items[id];
      if item.stock == [] then Err(OutOfStock)
      else
        var user := users[session];
        var price := ParsePrice(item.price);
        if price.None? then Err(InvalidPrice)
        else if user.balance < price.value then Err(InsufficientBalance)
        else
          var code := item.stock[0];
          assert item.stock == [code] + item.stock[1..];
          Ok(Sale(
            code,
            users[session := user.(balance := user.balance - price.value)],
            items[id := item.(stock := item.stock[1..])],
            history[(session, now) := HistoryEntry(item.name, code, item.price, date)]))
  }

  /**
   * A purchase keeps every account under its own lower-case name with a
   * non-negative balance, every item under the id of its name, and every
   * history entry owned by an account.
   */
  lemma BuyKeepsInvariants(
    users: map<string, User>, items: map<string, Item>, history: map<(string, int), HistoryEntry>,
    session: string, itemName: string, now: int, date: string)
    requires session in users && BuyStep(users, items, history, session, itemName, now, date).Ok?
    ensures var sale := BuyStep(users, items, history, session, itemName, now, date).value;
      && (AccountsKeyed(users) ==> AccountsKeyed(sale.users))
      && (ItemsKeyed(items) ==> ItemsKeyed(sale.items))
      && (NonNegative(users) ==> NonNegative(sale.users))
      && (HistoryOwned(history, users.Keys) ==> HistoryOwned(sale.history, sale.users.Keys))
  {
  }

  /** A purchase takes exactly the item's price out of the money held by all accounts. */
  lemma BuyDebitsTotal(
    users: map<string, User>, items: map<string, Item>, history: map<(string, int), HistoryEntry>,
    session: string, itemName: string, now: int, date: string)
    requires session in users && BuyStep(users, items, history, session, itemName, now, date).Ok?
    ensures var sale := BuyStep(users, items, history, session, itemName, now, date).value;
      TotalBalance(sale.users) == TotalBalance(users) - ParsePrice(items[Slug(itemName)].price).value
  {
    var user := users[session];
    var price := ParsePrice(items[Slug(itemName)].price).value;
    var debited := user.(balance := user.balance - price);
    assert BuyStep(users, items, history, session, itemName, now, date).value.users == users[session := debited];
    TotalBalanceUpdate(users, session, debited);
  }

  /** What a run of purchases leaves behind: the codes handed out, in order, and the records. */
  datatype Run = Run(
    codes: seq<string>,
    users: map<string, User>,
    items: map<string, Item>,
    history: map<(string, int), HistoryEntry>)

  /**
   * The purchases of `itemName` by `buyers` (each a session user and the
   * clock reading of the request), one after another.
   */
  function Purchases(
    users: map<string, User>, items: map<string, Item>, history: map<(string, int), HistoryEntry>,
    buyers: seq<(string, int)>, itemName: string, date: string)
    : (run: Run)
    requires forall i :: 0 <= i < |buyers| ==> buyers[i].0 in users
    ensures run.users.Keys == users.Keys && run.items.Keys == items.Keys
    ensures |run.codes| <= |buyers|
    decreases |buyers|
  {
    if buyers == [] then Run([], users, items, history)
    else
      match BuyStep(users, items, history, buyers[0].0, itemName, buyers[0].1, date)
      case Err(_) => Purchases(users, items, history, buyers[1..], itemName, date)
      case Ok(sale) =>
        var rest := Purchases(sale.users, sale.items, sale.history, buyers[1..], itemName, date);
        Run([sale.code] + rest.codes, rest.users, rest.items, rest.history)
  }

  /**
   * However many purchases of an item run, the codes handed out followed by
   * the stock left are exactly the stock there was: every code goes to at
   * most one buyer, in stock order, and none is lost.
   */
  lemma {:induction false} PurchasesHandOutStock(
    users: map<string, User>, items: map<string, Item>, history: map<(string, int), HistoryEntry>,
    buyers: seq<(string, int)>, itemName: string, date: string)
    requires forall i :: 0 <= i < |buyers| ==> buyers[i].0 in users
    requires Slug(itemName) in items
    ensures var run := Purchases(users, items, history, buyers, itemName, date);
      run.codes + run.items[Slug(itemName)].stock == items[Slug(itemName)].stock
    decreases |buyers|
  {
    if buyers != [] {
      var id := Slug(itemName);
      var step := BuyStep(users, items, history, buyers[0].0, itemName, buyers[0].1, date);
      if step.Ok? {
        var sale := step.value;
        PurchasesHandOutStock(sale.users, sale.items, sale.history, buyers[1..], itemName, date);
        var rest := Purchases(sale.users, sale.items, sale.history, buyers[1..], itemName, date);
        assert [sale.code] + rest.codes + rest.items[id].stock == [sale.code] + (rest.codes + rest.items[id].stock);
      } else {
        PurchasesHandOutStock(users, items, history, buyers[1..], itemName, date);
      }
    }
  }

  // ---------------------------------------------------------------------------
  // The store

  class Shop {
    var users: map<string, User>
    var items: map<string, Item>
    var vouchers: map<string, Voucher>
    var history: map<(string, int), HistoryEntry>

    /**
     * What every endpoint keeps: an account is stored under its own
     * (lower-case) name and a history entry under the name of an existing
     * account. It is an invariant each method preserves; no endpoint needs
     * it to do its work. (That an item is stored under the id of its own
     * name, `ItemsKeyed`, is kept too: see AddItem and BuyKeepsInvariants.)
     */
    ghost predicate Valid()
      reads this
    {
      AccountsKeyed(users) && HistoryOwned(history, users.Keys)
    }

    /** An empty store. */
    constructor ()
      ensures Valid()
      ensures users == map[] && items == map[] && vouchers == map[] && history == map[]
    {
      users, items, vouchers, history := map[], map[], map[], map[];
    }

    /** POST /api/auth/register. */
    method Register(username: string, hash: string, salt: string) returns (r: Result<()>)
      requires Valid()
      modifies this
      ensures Valid()
      ensures var step := RegisterStep(old(users), username, hash, salt);
        if step.Ok? then r == Ok(()) && users == step.value
        else r == Err(step.failure) && users == old(users)
      ensures items == old(items) && vouchers == old(vouchers) && history == old(history)
    {
      var u := Lower(username);
      var check := if u in users then Some(users[u]) else None;
      if check.Some? {
        return Err(UserExists);
      }
      users := users[u := User(u, hash, salt, 0)];
      r := Ok(());
    }

    /** POST /api/admin/topup. */
    method AdminTopUp(username: string, amount: int) returns (r: Result<()>)
      requires Valid()
      modifies this
      ensures Valid()
      ensures var step := TopUpStep(old(users), username, amount);
        if step.Ok? then r == Ok(()) && users == step.value
        else r == Err(step.failure) && users == old(users)
      ensures items == old(items) && vouchers == old(vouchers) && history == old(history)
    {
      var u := Lower(username);
      if u !in users {
        return Err(UserNotFound);
      }
      var user := users[u];
      user := user.(balance := user.balance + amount);
      users := users[u := user];
      r := Ok(());
    }

    /** POST /api/admin/create-voucher: a fresh voucher, replacing any voucher with that code. */
    method CreateVoucher(code: string, amount: int, limit: int) returns (r: Result<()>)
      requires Valid()
      modifies this
      ensures Valid()
      ensures r == Ok(())
      ensures vouchers == old(vouchers)[code := Voucher(amount, limit, 0)]
      ensures users == old(users) && items == old(items) && history == old(history)
      ensures old(WithinLimits(vouchers)) && limit >= 0 ==> WithinLimits(vouchers)
    {
      vouchers := vouchers[code := Voucher(amount, limit, 0)];
      r := Ok(());
    }

    /** POST /api/add-item: stores the item under the id of its name, replacing any item with that id. */
    method AddItem(name: string, price: string, stock: seq<string>) returns (r: Result<()>)
      requires Valid()
      modifies this
      ensures Valid()
      ensures r == Ok(())
      ensures items == old(items)[Slug(name) := Item(name, price, stock)]
      ensures users == old(users) && vouchers == old(vouchers) && history == old(history)
      ensures old(ItemsKeyed(items)) ==> ItemsKeyed(items)
    {
      var id := Slug(name);
      items := items[id := Item(name, price, stock)];
      r := Ok(());
    }

    /** POST /api/transfer from the session user. */
    method Transfer(session: string, receiver: string, amount: int) returns (r: Result<()>)
      requires Valid() && session in users
      modifies this
      ensures Valid()
      ensures var step := TransferStep(old(users), session, receiver, amount);
        if step.Ok? then r == Ok(()) && users == step.value
        else r == Err(step.failure) && users == old(users)
      ensures items == old(items) && vouchers == old(vouchers) && history == old(history)
    {
      var receiverName := Lower(receiver);
      if receiverName == session {
        return Err(SelfTransfer);
      }
      if amount <= 0 {
        return Err(InvalidAmount);
      }
      var sender := users[session];
      if sender.balance < amount {
        return Err(InsufficientBalance);
      }
      if receiverName !in users {
        return Err(ReceiverNotFound);
      }
      var recipient := users[receiverName];
      sender := sender.(balance := sender.balance - amount);
      recipient := recipient.(balance := recipient.balance + amount);
      users := users[session := sender];
      users := users[receiverName := recipient];
      r := Ok(());
    }

    /** POST /api/redeem by the session user; answers with the amount credited. */
    method Redeem(session: string, code: string) returns (r: Result<int>)
      requires Valid() && session in users
      modifies this
      ensures Valid()
      ensures var step := RedeemStep(old(users), old(vouchers), session, code);
        if step.Ok? then r == Ok(step.value.amount) && users == step.value.users && vouchers == step.value.vouchers
        else r == Err(step.failure) && users == old(users) && vouchers == old(vouchers)
      ensures items == old(items) && history == old(history)
    {
      if code !in vouchers {
        return Err(InvalidVoucher);
      }
      var voucher := vouchers[code];
      if voucher.used >= voucher.limit {
        return Err(VoucherFullyUsed);
      }
      var user := users[session];
      user := user.(balance := user.balance + voucher.amount);
      voucher := voucher.(used := voucher.used + 1);
      users := users[session := user];
      vouchers := vouchers[code := voucher];
      r := Ok(voucher.amount);
    }

    /**
     * POST /api/buy by the session user; answers with the code handed out.
     * `now` and `date` are the handler's clock readings.
     */
    method Buy(session: string, itemName: string, now: int, date: string) returns (r: Result<string>)
      requires Valid() && session in users
      modifies this
      ensures Valid()
      ensures var step := BuyStep(old(users), old(items), old(history), session, itemName, now, date);
        if step.Ok? then
          && r == Ok(step.value.code)
          && users == step.value.users && items == step.value.items && history == step.value.history
        else
          r == Err(step.failure) && users == old(users) && items == old(items) && history == old(history)
      ensures vouchers == old(vouchers)
    {
      ghost var step := BuyStep(users, items, history, session, itemName, now, date);
      var itemId := Slug(itemName);
      if itemId !in items {
        return Err(ItemNotFound);
      }
      var item := items[itemId];
      if |item.stock| == 0 {
        return Err(OutOfStock);
      }
      var user := users[session];
      var price := ParsePrice(item.price);
      if price.None? {
        return Err(InvalidPrice);
      }
      if user.balance < price.value {
        return Err(InsufficientBalance);
      }
      var purchasedCode := item.stock[0];
      item := item.(stock := item.stock[1..]);
      user := user.(balance := user.balance - price.value);
      assert step == Ok(Sale(purchasedCode, users[session := user], items[itemId := item],
        history[(session, now) := HistoryEntry(item.name, purchasedCode, item.price, date)]));
      BuyKeepsInvariants(users, items, history, session, itemName, now, date);
      items := items[itemId := item];
      users := users[session := user];
      history := history[(session, now) := HistoryEntry(item.name, purchasedCode, item.price, date)];
      r := Ok(purchasedCode);
    }

    /**
     * GET /api/items: every item in the store's key order, stock replaced by
     * its count. `ids` is the order in which the store enumerates the item
     * keys.
     */
    method ListItems(ids: seq<string>) returns (listing: seq<ItemListing>)
      requires forall i, j :: 0 <= i < j < |ids| ==> KeyLess(ids[i], ids[j])
      requires forall id :: id in ids <==> id in items
      ensures |listing| == |ids|
      ensures forall i :: 0 <= i < |ids| ==> listing[i] == Listed(items[ids[i]])
      ensures forall id :: id in items ==> Listed(items[id]) in listing
    {
      listing := [];
      var k := 0;
      while k < |ids|
        invariant 0 <= k <= |ids|
        invariant |listing| == k
        invariant forall i :: 0 <= i < k ==> listing[i] == Listed(items[ids[i]])
      {
        var item := items[ids[k]];
        listing := listing + [Listed(item)];
        k := k + 1;
      }
      forall id | id in items ensures Listed(items[id]) in listing {
        var i :| 0 <= i < |ids| && ids[i] == id;
        assert listing[i] == Listed(items[id]);
      }
    }

    /**
     * GET /api/history: the session user's purchases, newest first. `times`
     * is the order in which the store enumerates the user's history keys:
     * ascending timestamps.
     */
    method ListHistory(session: string, times: seq<int>) returns (entries: seq<HistoryEntry>)
      requires forall i, j :: 0 <= i < j < |times| ==> times[i] < times[j]
      requires forall i :: 0 <= i < |times| ==> (session, times[i]) in history
      requires forall t :: (session, t) in history ==> t in times
      ensures |entries| == |times|
      ensures forall i :: 0 <= i < |times| ==> entries[i] == history[(session, times[|times| - 1 - i])]
    {
      var ascending: seq<HistoryEntry> := [];
      var k := 0;
      while k < |times|
        invariant 0 <= k <= |times|
        invariant |ascending| == k
        invariant forall i :: 0 <= i < k ==> ascending[i] == history[(session, times[i])]
      {
        ascending := ascending + [history[(session, times[k])]];
        k := k + 1;
      }
      entries := Reverse(ascending);
    }
  }

  /** An item added under a name is found, and sold, by buying that same name. */
  method AddThenBuy(shop: Shop, session: string, name: string, price: string, stock: seq<string>, now: int, date: string)
    returns (r: Result<string>)
    requires shop.Valid() && session in shop.users
    requires stock != [] && ParsePrice(price).Some?
    requires shop.users[session].balance >= ParsePrice(price).value
    modifies shop
    ensures shop.Valid()
    ensures r == Ok(stock[0])
    ensures Slug(name) in shop.items && shop.items[Slug(name)].stock == stock[1..]
  {
    var _ := shop.AddItem(name, price, stock);
    r := shop.Buy(session, name, now, date);
  }

  // ---------------------------------------------------------------------------
  // The purchase debit as the handler computes it

  /**
   * The balance check and debit of the buy handler with JavaScript numbers:
   * None when the check refuses the purchase, otherwise the balance written
   * back.
   */
  function DebitAsWritten(balance: int, price: string): (r: Option<JsNumber>)
    ensures ParsePrice(price).Some? ==>
      && (r.None? <==> balance < ParsePrice(price).value)
      && (r.Some? ==> r.value == Finite(balance - ParsePrice(price).value))
    ensures ParsePrice(price).None? ==> r == Some(NaN)
  {
    var p := ParseIntAsWritten(price);
    if JsLess(Finite(balance), p) then None else Some(JsMinus(Finite(balance), p))
  }

  /** A price without digits passes the balance check and leaves NaN as the balance. */
  lemma {:induction false} DigitFreePriceCorruptsBalance(balance: int)
    ensures DebitAsWritten(balance, "free") == Some(NaN)
  {
    assert NoDigit("free");
  }
}
