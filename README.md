# Digital-code shop ledger, in Dafny

A model of the server of a small shop that sells digital codes (game
top-up codes, gift cards) for an internal currency. The server keeps four
collections in a key-value store:

- accounts: a lower-case user name, a password hash and salt, and a balance;
- items: a display name, a price as entered text, and the stock of codes still for sale;
- vouchers: an amount, a use limit and a use count;
- the purchase history: one record per purchase, keyed by user and timestamp.

Its endpoints register accounts, let an administrator top up balances and
create vouchers, let anyone add items and list them, and let a signed-in
user transfer money, redeem a voucher, buy an item and list their own
history.
A separate helper module keeps a second per-user balance and adds to it
with a read, check-version and commit loop.

The project has four modules:

- `Base` (`base.dfy`): the `Option` type.
- `Text` (`text.dfy`): how the server derives an item id from a display name and a
  price from its text, and the JavaScript number semantics of the price path.
- `Ledger` (`ledger.dfy`): the store as a `Shop` object with one map per collection.
  Each endpoint is a method that updates the maps in place. The register,
  admin top-up, transfer, redeem and buy methods are each proved equal to a
  pure *step* function of the records they read: the step function decides
  the failure answered, or the records written back. Voucher creation, item
  creation and the two listings state their new state or result directly.
  The lemmas beside the steps state:
  - which failure each endpoint answers, in the handler's order;
  - that register adds exactly one account and no other endpoint creates or drops one;
  - how the sum of all balances moves;
  - that a voucher serves exactly its remaining uses;
  - that a run of purchases hands out the stock, code by code, in order.
- `BalanceStore` (`balance_store.dfy`): a versioned store with a compare-and-set
  commit, and the balance reader and the retrying top-up written against it.

How the code treats balances and commits:

- The admin top-up adds any amount, negative ones included. So "balances are never
  negative" is proved only for the operations that keep it: transfer and buy
  always, top-up and redeem for a non-negative amount.
- Transfer, redeem and buy write their records with separate plain writes, not
  one version-checked commit. Each is modelled as one sequential update.
- The version-checked retry exists only in the helper module's top-up. Its
  balance lives under a key of its own, not in the account record.
- The helper's top-up creates the balance for a user who has none. It does not
  fail for an unknown user.

## Model

| member | source | states |
|---|---|---|
| Text.Lower | main.ts:62 | Lower-casing keeps the length. It leaves no upper-case letter, changes each upper-case letter to its lower-case partner, and leaves every other character alone |
| Text.LowerOfLowercase | main.ts:149 | A name with no upper-case letter is its own lower-case form |
| Text.LowerIdempotent | main.ts:167 | Lower-casing twice is lower-casing once, and lower-casing adds no whitespace |
| Text.SkipSpace | main.ts:142 | Dropping a whitespace run gives a suffix: everything dropped is whitespace and the rest starts with a non-space character |
| Text.CollapseSpace | main.ts:142 | Replacing whitespace runs by `_` leaves no whitespace, never lengthens the name, and leaves a name without whitespace as it was |
| Text.CollapseSpaceOfLeadingRun | main.ts:142 | A whitespace run at the start of a name, up to text not starting with whitespace, becomes exactly one `_` |
| Text.CollapseSpaceOfRun | main.ts:142 | A maximal whitespace run between text without whitespace and text not starting with whitespace becomes exactly one `_`, with the text before it kept |
| Text.LowerAppend | main.ts:142 | Lower-casing distributes over concatenation |
| Text.SkipSpaceLower | main.ts:142 | Skipping a whitespace run and lower-casing can be done in either order |
| Text.CollapseSpaceLower | main.ts:142 | Collapsing whitespace runs and lower-casing can be done in either order |
| Text.Slug | main.ts:142 | An item id has no whitespace and no upper-case letter, and is no longer than the display name |
| Text.SlugOfTwoWords | main.ts:142 | Two words without whitespace, split by any whitespace run, get the id of both words lower-cased and joined by one `_` ("Gift Card" and "gift   card" both give "gift_card") |
| Text.SlugOfLower | main.ts:217 | A name and its lower-case form get the same id, so buying under another letter case finds the item added |
| Text.SlugOfId | main.ts:217 | A name that is already an id maps to itself, so buying by id finds the item |
| Text.SlugIdempotent | main.ts:142 | Deriving the id of an id changes nothing |
| Text.DigitsOnly | main.ts:227 | Removing non-digits leaves only digits and never lengthens the text. It leaves nothing exactly when the text has no digit, and leaves an all-digit text unchanged |
| Text.DigitsOnlyAppend | main.ts:227 | The digits of a concatenation are the concatenated digits |
| Text.ParsePrice | main.ts:227 | A price has no value exactly when its text has no digit. An all-digit text reads as its decimal value |
| Text.ParsePriceOfDigits | main.ts:227 | A price is read from its digits alone: removing the non-digits first gives the same price |
| Text.ParsePriceJoinsDigitGroups | main.ts:227 | Digit groups split by text without digits are joined before they are read: "12.50" reads as 1250 and "1,000" as 1000 |
| Text.DecimalValueOfDecimal | main.ts:227 | Reading back the decimal digits of n gives n |
| Text.ParsePriceOfDecorated | main.ts:227 | A number with digit-free text around it, such as a currency sign, parses to that number |
| Text.ParseIntAsWritten | main.ts:227 | JavaScript `parseInt` of the digit-only text is NaN exactly when the price has no digit. Otherwise it is the parsed price |
| Ledger.Reverse | main.ts:254 | Reversing keeps the length and puts element i at position n-1-i |
| Ledger.RegisterStep | main.ts:62-67 | Registration fails with "Exists" exactly when the lower-cased name is taken. Otherwise it adds exactly that account, with balance 0, and keeps every other account. It preserves accounts being keyed by their own lower-case names and non-negative balances |
| Ledger.RegisterKeepsTotal | main.ts:67 | Registering leaves the sum of all balances unchanged |
| Ledger.TopUpStep | main.ts:149-154 | The admin top-up fails with "User not found" exactly when the lower-cased name has no account. Otherwise it adds the amount to that account alone. It keeps balances non-negative for a non-negative amount |
| Ledger.TopUpAddsToTotal | main.ts:153 | A top-up raises the sum of all balances by exactly the amount |
| Ledger.TransferStep | main.ts:167-185 | One if-and-only-if per failure, in handler order: self transfer, non-positive amount, insufficient balance, unknown receiver. On success the sender is debited, the receiver credited, every other account is unchanged, and the sender stays non-negative |
| Ledger.TransferKeepsTotal | main.ts:181-185 | A transfer creates and destroys no money |
| Ledger.RedeemStep | main.ts:195-208 | The voucher fails as invalid exactly when it is absent, and as fully used exactly when its uses reached the limit. Otherwise one use credits the voucher amount to the session user and counts the use. Use counts stay within limits |
| Ledger.RedeemAddsToTotal | main.ts:203-207 | A redemption raises the sum of all balances by exactly the voucher's amount |
| Ledger.RedemptionsUpToLimit | main.ts:199-205 | A queue of redeemers of one voucher gets exactly min(queue length, limit - used) successful redemptions |
| Ledger.BuyStep | main.ts:217-244 | One if-and-only-if per failure, in handler order: item not found, out of stock, no digit in the price, insufficient balance. On success the first code is handed out and removed from the stock, the price is debited, and the purchase is logged under (user, time) |
| Ledger.BuyKeepsInvariants | main.ts:231-244 | A purchase keeps the four store invariants: accounts keyed by their own lower-case names, items keyed by their slug, non-negative balances, history owned by existing accounts |
| Ledger.BuyDebitsTotal | main.ts:229-236 | A purchase lowers the sum of all balances by exactly the parsed price |
| Ledger.Purchases | main.ts:213-247 | A run of purchases keeps the set of accounts and of items and hands out at most one code per buyer |
| Ledger.PurchasesHandOutStock | main.ts:231-232 | The codes a run of purchases hands out, followed by the stock left, are exactly the original stock: no code goes to two buyers and none is lost |
| Ledger.Shop.constructor | main.ts:4 | An empty store satisfies the store invariant |
| Ledger.Shop.Register | main.ts:60-68 | The register endpoint writes the accounts `RegisterStep` gives, or answers its failure and writes nothing |
| Ledger.Shop.AdminTopUp | main.ts:147-156 | The admin top-up endpoint writes what `TopUpStep` gives, or answers its failure and writes nothing |
| Ledger.Shop.CreateVoucher | main.ts:158-162 | Stores a fresh voucher with no uses, replacing any voucher with that code. It keeps uses within limits for a non-negative limit |
| Ledger.Shop.AddItem | main.ts:140-145 | Stores the item under the id of its name and replaces any item with that id. Items stay keyed by their slug |
| Ledger.Shop.Transfer | main.ts:164-188 | The transfer endpoint writes what `TransferStep` gives, or answers its failure and writes nothing |
| Ledger.Shop.Redeem | main.ts:190-211 | The redeem endpoint writes what `RedeemStep` gives and answers the amount, or answers its failure and writes nothing |
| Ledger.Shop.Buy | main.ts:213-247 | The buy endpoint writes what `BuyStep` gives and answers the code, or answers its failure and writes nothing |
| Ledger.Shop.ListItems | main.ts:122-131 | The listing has one entry per stored item, in the store's key order, each the item with its stock replaced by its count. The key order is `Ledger.KeyLess`, character by character |
| Ledger.Shop.ListHistory | main.ts:249-255 | The session user's history, newest first: entry i is the record at the i-th latest timestamp |
| Ledger.AddThenBuy | main.ts:217-219 | An item added under a display name is found by buying that same name: the buyer gets its first code and the rest stays in stock |
| Ledger.DebitAsWritten | main.ts:227-233 | The balance check and debit as JavaScript computes them. They use `Text.JsLess` and `Text.JsMinus`, JavaScript's `<` and `-`, which give false and NaN on a NaN side. They agree with the parsed price when the price has digits; a digit-free price passes the check and writes NaN |
| Ledger.DigitFreePriceCorruptsBalance | main.ts:227-233 | With price text "free", any balance passes the check and becomes NaN |
| BalanceStore.BalanceKey | src/utils/db.ts:5 | A user's balance key has three parts, the user id in the middle |
| BalanceStore.Kv.constructor | src/utils/db.ts:2 | An opened store is empty and consistent |
| BalanceStore.Kv.VersionOf | src/utils/db.ts:22 | In a consistent store an entry has a version exactly when it holds a value, and every version was handed out before the store's clock |
| BalanceStore.Kv.Get | src/utils/db.ts:17 | A read returns the stored value and its version, both absent when there is no entry |
| BalanceStore.Kv.CommitChecked | src/utils/db.ts:21-24 | A checked commit succeeds exactly when the entry's version is the one read. It then writes the value with a new, larger version and changes nothing else; otherwise it changes nothing |
| BalanceStore.Kv.GetUserBalance | src/utils/db.ts:4-8 | The user's stored balance, or 0 when there is none |
| BalanceStore.Kv.TopUpUserBalance | src/utils/db.ts:10-29 | Succeeds exactly for a positive amount. On success it stores the earlier balance (0 if none) plus the amount under a new version; otherwise it changes nothing |
| BalanceStore.TopUpThenRead | src/utils/db.ts:16-28 | A successful top-up read back gives the earlier balance plus the amount |

## Left out

- HTTP routing, static files, cookies and the session look-up (main.ts:34-58, 89-93) are not modelled. The signed-in user arrives as a parameter. The "Unauthorized"/"Login Required" answers for a missing session are not modelled.
- The admin gate (main.ts:39-45) is not modelled: the admin operations take no caller. The gate covers only paths under `/api/admin/`, so `/api/add-item` is not admin-only.
- The existence of the session user's account is a precondition. The handlers read that record without checking it.
- Login, password change and `/api/me` (main.ts:71-118) and the admin listing of raw account records (main.ts:133-138) are left out. They check passwords or copy records; they decide no ledger state.
- Password hashing is an input: hash and salt are opaque text.
- `Date.now()` and `toLocaleString()` are the `now` and `date` parameters of `Shop.Buy`.
- Request bodies are taken as already-decoded fields. Amounts and limits are mathematical integers.
- A non-numeric amount or limit (NaN after `parseInt`) is not modelled. Neither are numbers beyond 2^53, where JavaScript loses precision.
- Lower-casing and whitespace cover ASCII only. Unicode case mapping and the non-ASCII characters of `\s` are not modelled.
- Concurrency is not modelled. Each handler runs alone, and its two or three separate writes are one update.
- BalanceStore.Kv.TopUpUserBalance: with no other writer its loop commits on the first round. Another writer could make a round fail and be retried; that interference is not modelled.
- Ledger.Shop.ListItems and Ledger.Shop.ListHistory: the order in which the store enumerates keys is an input. It is described by a precondition (strictly increasing keys, ascending timestamps), not derived from the store's byte ordering of keys.
- Items are records with a name, a price text and a list of codes. A stored item without a stock list is not modelled; the listing would show 0 and buying would fail at run time.
- Ledger.Shop.Valid: keeping items under the id of their own name is not part of the class invariant. It is stated instead on `Shop.AddItem` and `BuyKeepsInvariants`.
- Two purchases by one user at the same millisecond write the same history key, and the second replaces the first. The model keeps this behaviour and proves nothing against it.
- The two balance pages are not part of this model; they only call into the modelled helpers. src/routes/balance.tsx shows the helper balance of the fixed user id "guest_user_42". src/routes/admin/topup.tsx takes the user id from a form field and reads the amount with `parseFloat`. It calls the helper's top-up only for a non-empty user id and an amount above 0.
- The generated route manifest (fresh.gen.ts) holds no logic and is not part of this model.

## Findings

| source | as written | input that shows it | evidently intended | confidence | as-written member | corrected member |
|---|---|---|---|---|---|---|
| main.ts:227-233 | The price is `parseInt` of the price text with its non-digits removed. A price with no digit gives NaN; `balance < NaN` is false, so the purchase goes through and `balance - NaN` stores NaN as the balance | an item whose price is "free", bought by any user with stock left | A price with no digits is refused and nothing is written | medium, not executed | Ledger.DigitFreePriceCorruptsBalance | Ledger.BuyStep |
