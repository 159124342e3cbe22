# crypted bot core in Dafny

A model of the core of the crypted Telegram bot, a wallet bot that issues crypto checks and
bills. The model covers what happens to every update the bot receives:

- **Routing.** The dispatcher routes the update to its handler. It records the sender in the
  `users` collection.
- **The navigation chain.** The handler extends or cuts back the user's chain of selected
  triggers (`selected`), stored in the per-user `states` collection.
- **The answer.** Free text is remapped to the user-input trigger. The stored response record
  for the trigger is looked up and sent as the answer.
- **Validators.** The input validators check amounts and addresses typed by the user. Each
  one rolls back the chain and commits the accepted value. Depending on the validator it
  creates a check or a bill, holds funds, or sends coins.

The model also covers the support code the core relies on:

- the trigger registry built over the `Triggers` class hierarchy;
- the bot settings document with its default limits;
- stored inline keyboards;
- the `timed_cache` decorator;
- the unique voucher codes;
- the fiat value of a stored check or bill.

Each MongoDB collection the core changes in place is a class with a map or sequence field:
`StateStore`, `UserTable`, `VoucherTable`, `KeyboardTable`, `SettingsTable`, `HoldLedger`.
The same goes for the dispatcher's handler table, the decorator's cache and the Telegram bot
(`Bot` records the deletes, sends and answers it was asked for).

Every method that changes a store is proved against a function of the old state:
- `Put` for `set_state`;
- `Respond` / `Navigate` / `Answer` for `_handle_response`;
- `CheckAmount`, `BillAmount`, `WithdrawAddress`, `WithdrawAmount` and `LegacyAmount` for the
  validators;
- `CallStep` for the cache.

The lemmas beside each function state what the source promises of it.

A Python exception is modelled as the `Raised(e)` case of a `Result`. When the source reaches
an exception, the model follows the same path: a missing attribute, a key that is absent, a
call with the wrong arity, `None` where a value is used.

Modules, one per source file:

| module | models |
|---|---|
| `Wrappers`, `Json`, `Decimals` | results, Python exceptions, JSON/dict values, `_remove_none_values`, `Decimal` rounding |
| `State` | database/state.py |
| `Users` | database/user.py |
| `Vouchers`, `Checks`, `Bills` | database/check.py and database/bill.py |
| `BotSettings` | database/bot_settings.py |
| `Keyboard` | database/keyboard.py |
| `Triggers` | triggers.py |
| `Utils` | utils.py |
| `Cache` | decorators.py |
| `Mixins` | mixins/base.py |
| `ValidatorBase` | validators/base.py |
| `WalletValidators` | validators/wallet.py |
| `LegacyValidators` | context/validators/wallet.py |
| `Dispatcher` | dispatcher.py, with telegram.py's calls and main.py's registrations |

## Model

| member | source | states |
|---|---|---|
| Json.RemoveNone | dispatcher.py:33-40 | `_remove_none_values` keeps the kind of every value; it keeps exactly the dict keys whose value is not `None`; a value is `None` only if its input was |
| Json.NonNullMembers | dispatcher.py:38 | the list filter keeps exactly the items that are not `None` |
| Json.RemoveNoneIsNoneFree | dispatcher.py:33-40 | the result holds no `None` inside any list or dict |
| Json.RemoveNoneKeepsNoneFree | dispatcher.py:33-40 | a value without nested `None` comes back unchanged |
| Json.RemoveNoneFixedPoint | dispatcher.py:33-40 | the cleaned value is a fixed point of the cleaning |
| Json.RemoveNoneIdempotent | dispatcher.py:33-40 | cleaning twice is cleaning once |
| Json.NonNullAppend | dispatcher.py:38 | the list filter works item by item and keeps order: filtering a concatenation filters each part |
| Json.RemoveNoneKeepsValues | dispatcher.py:33-40 | a kept dict value stays under its key, cleaned; a list keeps its non-`None` items in order, each cleaned; any other value is returned unchanged |
| State.Get | database/state.py:7-9 | `get_state` returns the value under a non-empty key, `{}` for a missing record or key, and the whole record for a falsy key |
| State.Put | database/state.py:11-18 | after `set_state` the key holds the value, the user has a record, and no other user's record changes |
| State.GetAfterPut | database/state.py:7-18 | a value written under a key is what `get_state` then reads |
| State.PutKeepsOtherKeys | database/state.py:11-18 | writing one key leaves the user's other keys readable as before |
| State.PutCreatesRecord | database/state.py:11-18 | a user's first write creates a record of the user id and the written key |
| State.PutKeepsOtherUsers | database/state.py:7-18 | a write for one user changes nothing another user reads |
| State.PutDocument | database/state.py:11-18 | the record after a write is the old record with the key set, or a new one |
| State.PutLastWriteWins | database/state.py:11-18 | of two writes to the same key the last one wins and the first leaves no trace |
| State.PutCommutes | database/state.py:11-18 | writes to two different keys commute |
| State.StateStore.SetState | database/state.py:11-18 | the collection becomes `Put` of the old collection |
| Users.SenderId | database/user.py:30-43 | the id is taken from the message, else the callback query, else the inline query, else the chosen result, and none without any of them; a message without a sender raises AttributeError |
| Users.GetUser | database/user.py:30-43 | `get_user` returns the document stored under the sender's id, `None` when there is none or no update part carries a sender, and raises exactly when the sender lookup does |
| Users.UserFields | database/user.py:15-22 | the upsert sets exactly six fields, with `user_id` the sender's id and `updated_at` the message date |
| Users.UserWrite | database/user.py:5-28 | a message or callback query writes the sender's fields stamped with the message date; a message without a sender, or a callback query without a message, raises AttributeError; other updates write nothing |
| Users.WrittenThenRead | database/user.py:5-43 | after `update_or_create_user`, `get_user` finds the document just written for the same update |
| Users.WriteKeepsKeyedById | database/user.py:5-28 | the upsert keeps every document stored under the id it holds |
| Users.UserTable.UpdateOrCreateUser | database/user.py:5-28 | the collection gains or updates exactly the sender's document; it raises exactly when `UserWrite` does and is otherwise unchanged |
| Users.UserTable.GetUserDoc | database/user.py:30-43 | the lookup returns `GetUser` of the current documents, and the found document holds the sender's id |
| Users.Added | validators/wallet.py:40-42 | adding to a hold changes only that user's hold in that currency, starting from zero |
| Users.AddedCommute | validators/wallet.py:40-42 | holds added in either order give the same holds |
| Users.HoldLedger.Add | validators/wallet.py:40-42 | the holds become `Added` of the old holds |
| Vouchers.UserIdOf | database/check.py:21 | `user.get('user_id')`: the id, or `None` without one |
| Vouchers.ToJson | database/check.py:19-27 | the inserted dict has exactly the six record fields, with the amount as its text and the code |
| Vouchers.FindByCode | database/check.py:32-33 | the found record is stored and has the code; nothing is found exactly when no record has it |
| Vouchers.FindByUser | database/check.py:35-37 | the user's records, each as often as it is stored, and no record of anyone else |
| Vouchers.FirstWithCode | database/check.py:39-41 | the index of the first record with the code, or -1 when none has it |
| Vouchers.DeleteFirst | database/check.py:39-41 | `delete_one` removes the first record with the code and keeps the others in order |
| Vouchers.FindAndDeleteAgree | database/check.py:32-41 | the record `find_one` returns for a code is the one `delete_one` removes |
| Vouchers.InsertedFoundByUser | database/check.py:14-37 | a record just inserted is among its user's records |
| Vouchers.VoucherTable.Create | database/check.py:14-30 | exactly the new record is appended |
| Vouchers.VoucherTable.DeleteByCode | database/check.py:39-41 | the collection becomes `DeleteFirst`; at most one record goes, and one goes exactly when `find_one` finds one |
| Checks.CreateCheck | database/check.py:14-30 | a new check has status `new`, the given amount, currency, user id and time, and a 12-character code, and is appended to the checks |
| Bills.CreateBill | database/bill.py:13-29 | a new bill has status `new`, the given amount, currency, user id and time, and a 12-character code, and is appended to the bills |
| BotSettings.TriggerKey | database/bot_settings.py:10-22 | `Triggers.<name>` is the attribute found along the MRO; a missing one raises AttributeError |
| BotSettings.DefaultSettingsRaises | database/bot_settings.py:9-26 | the default record cannot be built, because `Triggers.ETH` is not defined |
| BotSettings.DefaultLimitsOrdered | database/bot_settings.py:9-26 | in the default limits every currency's minimum lies below its maximum |
| BotSettings.DefaultPerPage | database/bot_settings.py:27-29 | the default pagination shows five items per page |
| BotSettings.SettingsTable.GetOrCreate | database/bot_settings.py:5-36 | the stored record is returned unchanged; without one the default is inserted and returned, or its error is raised with nothing inserted |
| BotSettings.GetOrCreateWithoutSettings | database/bot_settings.py:5-36 | with the trigger classes as defined, a bot without settings gets AttributeError and nothing is inserted |
| Keyboard.Chars | database/keyboard.py:10-11 | a loop over a string goes through its one-character strings, in order |
| Keyboard.At | database/keyboard.py:11 | `button[0]` / `button[1]`: a list gives its item and a string its character, IndexError past the end; a dict raises KeyError and any other value TypeError |
| Keyboard.ButtonOf | database/keyboard.py:11 | a pair gives a button exactly when it is a list or string of at least two elements, labelled by element 0 and carrying element 1; shorter ones raise IndexError, a dict KeyError(0), anything else TypeError |
| Keyboard.ButtonsOf | database/keyboard.py:11 | the buttons of a row succeed exactly when every pair does, one button per pair in order |
| Keyboard.RowOf | database/keyboard.py:10-12 | a list row becomes as many buttons as it has pairs, in order; an empty string or dict row gives no buttons; a non-empty string row, or a dict row with a key shorter than two characters, raises IndexError; a value that is not iterable raises TypeError |
| Keyboard.RowsOf | database/keyboard.py:10-12 | the markup succeeds exactly when every row does, one row per stored row in order |
| Keyboard.MarkupShape | database/keyboard.py:10-12 | the markup has the stored shape: the same rows, list rows with the same button counts and contents, every other row empty |
| Keyboard.FindKeyboard | database/keyboard.py:5-7 | the found keyboard is stored under the id; nothing is found exactly when no stored keyboard has it |
| Keyboard.StoredRows | database/keyboard.py:10 | the rows the loop goes through: a list's items, a string's characters; a value that is not iterable raises TypeError |
| Keyboard.MarkupFrom | database/keyboard.py:9-14 | the stored `buttons` turned into markup: a list row by row; a string is empty markup when empty and IndexError otherwise; a dict raises IndexError for a key other than `""`, else gives one empty row for `""` or no rows; the markup is the rows of `StoredRows`, or its error |
| Keyboard.KeyboardTable.GetKeyboard | database/keyboard.py:4-16 | no markup without a stored keyboard, otherwise the stored `buttons` turned into markup by `MarkupFrom`, a row at a time |
| Keyboard.KeyboardTable.Call | database/keyboard.py:4 | a call without exactly one positional argument raises TypeError; one argument gives `get_keyboard` |
| Keyboard.RowsFailFrom | database/keyboard.py:10-12 | once a prefix of the rows fails, the whole keyboard fails with that error |
| Keyboard.RowsFirstFails | database/keyboard.py:10-12 | a first row that raises makes the whole keyboard raise with its error |
| Triggers.GetAllTriggers | triggers.py:29-37 | the loop collects, class by class along the MRO, every non-dunder, non-callable attribute value |
| Triggers.CollectedMembers | triggers.py:29-37 | a value is collected exactly when some class of the MRO other than `object` holds it under a collected name |
| Triggers.CollectedAppend | triggers.py:29-37 | collecting over two MRO parts is the concatenation of collecting over each |
| Triggers.RegistryStartsWithOwn | triggers.py:1-37 | the registry begins with `Triggers`' own triggers |
| Triggers.RegistryListing | triggers.py:1-37 | the registry lists the triggers of the six classes in MRO order |
| Triggers.RegistryMembership | triggers.py:1-37 | which texts are registered triggers and which (the currency names, the empty text) are not |
| Triggers.RegistryRepeatsWallet | triggers.py:1-37 | the wallet trigger is collected twice, from `Triggers` and from `WalletTriggers` |
| Triggers.FirstOwner | triggers.py:1-27 | the first class along the MRO whose own dictionary has the name: it has it and no class before it does; -1 when none has it |
| Triggers.LookupAttr | triggers.py:1-27 | attribute lookup returns the value in the first class along the MRO that defines the name, no class before it defining it; none exactly when no class defines it |
| Triggers.CurrencyAttrMissing | triggers.py:1-27 | `ETH` and `TRX` are defined by no class of the MRO |
| Triggers.TriggerAttributes | triggers.py:1-27 | `Triggers.BTC` and `Triggers.TON` resolve through the base class; `Triggers.ETH` and `Triggers.TRX` do not resolve |
| Utils.EncodeFullGroups | utils.py:14-19 | URL-safe base64 of whole 3-byte groups has four symbols per group and no padding |
| Utils.EncodeAppend | utils.py:14-19 | encoding splits over whole groups |
| Utils.UniqueCodeShape | utils.py:14-19 | the code is 12 URL-safe symbols encoding the first nine bytes of the UUID |
| Utils.Decode | utils.py:14-19 | decoding reads four symbols per group and refuses anything else |
| Utils.DecodeEncode | utils.py:14-19 | decoding undoes the encoding of whole groups |
| Utils.UniqueCodeDecodes | utils.py:14-19 | the code decodes to the first nine bytes of the UUID, so distinct prefixes give distinct codes |
| Utils.GetUnit | utils.py:22-30 | a unit class for exactly the configured currencies, ValueError otherwise |
| Utils.GetUnitInverse | utils.py:22-30 | `get_unit` gives the unit of exactly the currency asked for |
| Cache.CacheKey | decorators.py:10 | the key is the class name of the first argument, IndexError without arguments |
| Cache.Fresh | decorators.py:14-17 | a stored result is served exactly when it was stored less than `seconds` ago |
| Cache.CallStep | decorators.py:8-22 | a fresh entry is served without a call; otherwise the function runs and a result (not an exception) is stored with the time |
| Cache.StaleAtExpiry | decorators.py:14-17 | an entry exactly `seconds` old is stale and the function runs again |
| Cache.StoredThenServed | decorators.py:8-22 | a result just stored is served, without a call, to a later call with the same key within the period |
| Cache.RaisingLeavesCache | decorators.py:18-22 | a call that raises leaves the cache as it was |
| Cache.TimedCache.Call | decorators.py:4-25 | the cache and call count become what `CallStep` says, and the result is its result |
| Decimals.Round2 | mixins/base.py:20 | `round(d, 2)` is in whole cents and within half a cent |
| Decimals.Round2Exact | mixins/base.py:20 | a value already in cents is left as it is |
| Decimals.Round2Idempotent | mixins/base.py:20 | rounding twice is rounding once |
| Decimals.Round2HalfEven | mixins/base.py:20 | ties go to the even cent: 0.125 to 0.12 and 0.135 to 0.14 |
| Decimals.Round2TiesToEven | mixins/base.py:20 | for every value: a tie goes to the even cent, half a cent away; any other value to the strictly nearest cent |
| Decimals.FloatLiteralsAboveDecimals | database/bot_settings.py:10-16 | the binary64 bounds lie just above the decimals they are written as |
| Mixins.RateOf | mixins/base.py:19 | the currency's rate, or 0 without one |
| Mixins.FiatValue | mixins/base.py:18-20 | the fiat value is in cents and within half a cent of amount times rate |
| Mixins.Searched | mixins/base.py:16 | the checks exactly for the `check` trigger, the bills otherwise |
| Mixins.GetModelAmountInFiat | mixins/base.py:14-20 | the record with the code and its fiat value; without one TypeError |
| Mixins.FiatOf | mixins/base.py:17-20 | the pair is the found record and its rounded fiat value; no record raises TypeError |
| Mixins.LookupChoice | mixins/base.py:14-20 | a `check` trigger never reads the bills and any other trigger never the checks |
| Mixins.FiatExactWhenCents | mixins/base.py:20 | a product already in cents is the fiat value itself |
| Mixins.FiatIsRounded | mixins/base.py:20 | the fiat value is unchanged by rounding again |
| ValidatorBase.ChainJson | validators/base.py:12 | a chain is stored as a list of the same strings |
| ValidatorBase.ChainJsonInjective | validators/base.py:12-15 | different chains are stored as different values |
| ValidatorBase.FromEnd | validators/wallet.py:17 | `selected[-k]`, IndexError for a shorter chain |
| ValidatorBase.Rollback | validators/base.py:9-12 | an empty chain raises IndexError; a chain is rewritten without its last element exactly when that element is not a registered trigger |
| ValidatorBase.Written | validators/base.py:9-12 | `clear_chain` writes one chain exactly when it rolls back |
| ValidatorBase.Commit | validators/base.py:14-15 | the committed chain ends with the value and otherwise equals the snapshot |
| ValidatorBase.CommitAfterRollback | validators/base.py:9-15 | a commit after a rollback is the commit alone |
| ValidatorBase.AfterWritesAppend | validators/base.py:9-15 | writing two batches of chains is writing their concatenation |
| ValidatorBase.AfterWritesLast | validators/base.py:9-15 | after a batch the stored chain is the last written |
| ValidatorBase.AfterWritesOthers | validators/base.py:9-15 | a user's chain writes leave every other user's state unchanged |
| ValidatorBase.CommitOverwritesRollback | validators/base.py:9-15 | a commit overwrites any earlier rollback |
| ValidatorBase.Inserted | validators/wallet.py:37 | the inserted records: the created one if there is one |
| ValidatorBase.Within | validators/wallet.py:35 | the chained comparison holds exactly when both bounds are numbers and the value lies between them; a non-number bound that is compared raises TypeError, and one that is never compared (the lower comparison already failed) does not |
| ValidatorBase.ClearChain | validators/base.py:9-12 | the store becomes the rollback written; an empty chain raises IndexError |
| ValidatorBase.UpdateChain | validators/base.py:14-15 | the store gets the committed chain |
| ValidatorBase.DefaultValidator.Validate | validators/base.py:17-18 | the answer is the fixed prefix followed by the input |
| WalletValidators.AmountLookups | validators/wallet.py:21-32 | the limits and balance lookups succeed exactly when all three keys are present, and give the error text's arguments |
| WalletValidators.CheckIssued | validators/wallet.py:36-51 | after the check is stored, the amount plus network fee is held exactly when the currency has a fee |
| WalletValidators.CheckAmountAccepts | validators/wallet.py:13-54 | a check is created exactly when the amount lies within the limits, bounds included; it is new, of the chain's currency and for the amount, and the chain is committed with the amount; otherwise the error text is the answer and only the rollback is written |
| WalletValidators.CheckAmountIssues | validators/wallet.py:35-51 | an amount within the limits stores a new check, commits the chain with the amount and holds the amount plus the currency's network fee |
| WalletValidators.CheckAmountRefuses | validators/wallet.py:21-54 | input that is no number or lies outside the limits gets the error text, writes only the rollback and holds nothing |
| WalletValidators.CheckAnswer | validators/wallet.py:43-51 | the success answer is the check template with the check and its value in fiat, and it fails exactly when the profile has no wallet currency |
| WalletValidators.CheckAmountSameRejection | validators/wallet.py:33-54 | input that is not a number and an out-of-bounds amount get the same answer and effects |
| WalletValidators.BillAmountAccepts | validators/wallet.py:57-94 | a bill is created exactly when the amount lies strictly between the limits; nothing is held or sent |
| WalletValidators.BoundsDiffer | validators/wallet.py:35-80 | an amount at a bound is accepted for a check and refused for a bill |
| WalletValidators.WithdrawAddressCommits | validators/wallet.py:97-115 | a valid address is committed to the chain and answered with the amount prompt showing the wallet's balance, or KeyError after the commit when the wallet has no balance; an invalid one leaves only the rollback and gets the fixed error text |
| WalletValidators.WithdrawAmountSends | validators/wallet.py:118-140 | coins are sent exactly when the balance suffices and the amount is within the limits |
| WalletValidators.WithdrawRollbackStands | validators/wallet.py:124-127 | when the balance check raises, the rollback stands and nothing else happens |
| WalletValidators.CoinNetwork.SendCoins | validators/wallet.py:136 | the transfer is recorded and the outcome returned |
| WalletValidators.CheckAmountValidator.Validate | validators/wallet.py:13-54 | the stores end as `CheckAmount` says: chain writes, inserted check, hold |
| WalletValidators.CheckAmountValidator.Accept | validators/wallet.py:36-51 | the accepted amount is committed, the check stored and the hold placed as `CheckIssued` says |
| WalletValidators.CheckAmountValidator.HoldAndAnswer | validators/wallet.py:38-51 | the hold and answer are as `CheckIssued` says |
| WalletValidators.BillAmountValidator.Validate | validators/wallet.py:57-94 | the stores end as `BillAmount` says |
| WalletValidators.WithdrawAddressValidator.Validate | validators/wallet.py:97-115 | the chain store ends as `WithdrawAddress` says |
| WalletValidators.WithdrawAmountValidator.Validate | validators/wallet.py:118-140 | the chain store and transfers end as `WithdrawAmount` says |
| LegacyValidators.ErrorText | context/validators/wallet.py:16-21 | the error text shows the currency and the fixed balance |
| LegacyValidators.SuccessText | context/validators/wallet.py:31-36 | the success text shows the record and the fixed fiat amount, currency and bot name |
| LegacyValidators.LegacyAccepts | context/validators/wallet.py:7-39 | a record is created exactly when the chain names a currency and the amount lies strictly between the fixed bounds |
| LegacyValidators.LegacyAccepted | context/validators/wallet.py:24-36 | an amount strictly within the fixed bounds stores a new record, commits the chain with the amount and answers with the success text, holding nothing |
| LegacyValidators.LegacyRejects | context/validators/wallet.py:16-39 | rejected input is answered with the error text after only the rollback |
| LegacyValidators.LegacyRollbackFirst | context/validators/wallet.py:9-17 | the rollback is written first, and a chain too short for a currency stops there |
| LegacyValidators.LegacyEdgesRefused | context/validators/wallet.py:13-24 | the amounts 0.001 and 2 are both refused |
| LegacyValidators.LegacySameBounds | context/validators/wallet.py:7-73 | the check and bill validators accept the same inputs and write the same chains |
| LegacyValidators.CheckAmountValidator.Validate | context/validators/wallet.py:8-39 | the stores end as `LegacyAmount` says for a check |
| LegacyValidators.BillAmountValidator.Validate | context/validators/wallet.py:42-73 | the stores end as `LegacyAmount` says for a bill |
| Dispatcher.IndexOf | dispatcher.py:102 | `selected.index(trigger)` is the first position holding the trigger |
| Dispatcher.Advance | dispatcher.py:101-105 | the new chain ends with the trigger, which occurs nowhere before; it is a prefix of the old chain when the trigger was there, else the old chain plus the trigger |
| Dispatcher.AdvanceCases | dispatcher.py:101-105 | the cut is through the trigger's first occurrence, and an absent trigger is appended |
| Dispatcher.AdvanceIdempotent | dispatcher.py:101-105 | pressing the same trigger twice is pressing it once |
| Dispatcher.AdvanceKeepsNoDup | dispatcher.py:101-105 | a chain without repeats stays without repeats |
| Dispatcher.AdvanceHoldsTriggerOnce | dispatcher.py:101-105 | the trigger occurs exactly once in the new chain |
| Dispatcher.FindFrom | dispatcher.py:101-103 | substring search finds the first occurrence, or reports that there is none |
| Dispatcher.ChainStep | dispatcher.py:99-105 | a stored list advances; a string is cut at the trigger's first occurrence; a dict or any other value raises |
| Dispatcher.RegistryHoldsStrings | triggers.py:29-37 | the registry holds only strings, so a missing text is never a trigger |
| Dispatcher.Remap | dispatcher.py:112-114 | a registered trigger answers as itself, anything else as user input; the result is always registered |
| Dispatcher.RemapIdempotent | dispatcher.py:112-114 | remapping twice is remapping once |
| Dispatcher.Before | dispatcher.py:148 | the first field of the split is the longest prefix without a separator |
| Dispatcher.After | dispatcher.py:149 | the text splits into the prefix, the separator and the rest |
| Dispatcher.PyInt | dispatcher.py:149 | `int()` fails only with ValueError |
| Dispatcher.PyIntOfText | dispatcher.py:149 | `int(str(p)) == p` |
| Dispatcher.NumeralOfDigits | dispatcher.py:149 | the digits of a number read back as the number |
| Dispatcher.ParseCallback | dispatcher.py:146-149 | no payload raises TypeError; a payload without a separator is page 1; otherwise the trigger before the first separator and the page read between it and the next |
| Dispatcher.CallbackRoundTrip | dispatcher.py:148-149 | a payload built as trigger, separator, page (plus more fields) parses back to the trigger and page |
| Dispatcher.ContextOf | dispatcher.py:77-81 | a missing module raises; a missing class gives `{}`; a class is built with `page` and raises when it does not take it |
| Dispatcher.MarkupOf | dispatcher.py:83-87 | as `ContextOf`, giving the class's `rm()`, `None` without a class |
| Dispatcher.ResponseFor | dispatcher.py:116-129 | no truthy response record gives the not-found text; any answer from a record comes from its context and text, and never from a keyboard id |
| Dispatcher.KeyboardIdRaises | dispatcher.py:123-124 | a record with a keyboard id raises TypeError, since `get_keyboard` gets two arguments |
| Dispatcher.DefaultContextRaises | dispatcher.py:119-120 | a record naming no context raises TypeError, because the default context takes no `page` |
| Dispatcher.UserOf | dispatcher.py:91-93 | the sender's stored document, TypeError when there is none |
| Dispatcher.Deleted | dispatcher.py:93-95 | the last message is deleted exactly when a truthy one is stored |
| Dispatcher.Answer | dispatcher.py:116-133 | the answer is sent exactly when it is built, and Telegram's message id is stored; a failed answer sends and stores nothing |
| Dispatcher.Navigate | dispatcher.py:98-133 | without a last-trigger key it raises with nothing written |
| Dispatcher.Respond | dispatcher.py:76-133 | `_handle_response` answers no callback query |
| Dispatcher.DeletesOnlyStoredMessage | dispatcher.py:91-95 | the old message is deleted exactly when the user is found and has a truthy last message |
| Dispatcher.StoresSentMessageId | dispatcher.py:131-132 | after an answer the stored last-message id is the one Telegram returned |
| Dispatcher.StoresRawChainAnswersRemapped | dispatcher.py:98-129 | the chain is advanced by the raw text and the answer is for the remapped trigger; under a `LAST_TRIGGER` key that is truthy and not `last_message`, the raw trigger is stored |
| Dispatcher.StoredListAdvances | dispatcher.py:99-107 | a stored chain list is advanced by the raw trigger |
| Dispatcher.MissingLastTriggerRaises | dispatcher.py:98 | with `States` as defined, every answer raises AttributeError after the delete, with nothing written |
| Dispatcher.NoChainRaises | dispatcher.py:99-105 | a user without a stored chain gets `{}`; `trigger in {}` is false, and `{} + [trigger]` raises TypeError |
| Dispatcher.OtherUsersUntouched | dispatcher.py:76-133 | an answer changes no other user's state |
| Dispatcher.NavigateKeepsOtherUsers | dispatcher.py:98-133 | storing the trigger and the chain and answering for one user keeps every other user's state |
| Dispatcher.MessageOutcome | dispatcher.py:137-141 | a message is answered from its own text; no message raises AttributeError |
| Dispatcher.CallbackOutcome | dispatcher.py:145-153 | the trigger parsed from the payload is answered, and the query is acknowledged only after a successful answer; a payload that does not parse raises its error and nothing else happens; the page is parsed but not used, since `ctx()` ignores it |
| Dispatcher.Bot.DeleteLastMessage | telegram.py:4-8 | one delete is recorded and nothing else |
| Dispatcher.Bot.SendMessage | dispatcher.py:127-129 | one send is recorded and Telegram's reply returned |
| Dispatcher.Bot.AnswerCallbackQuery | telegram.py:10-14 | one answer is recorded and nothing else |
| Dispatcher.BuildReply | dispatcher.py:118-129 | the reply is `ResponseFor` over the stored keyboards |
| Dispatcher.HandleResponse | dispatcher.py:76-133 | the state store and bot end as `Respond` says |
| Dispatcher.DeleteAndNavigate | dispatcher.py:92-133 | the last stored message is deleted exactly when it is truthy, then the state store and bot end as `Navigate` says |
| Dispatcher.NavigateAndAnswer | dispatcher.py:98-133 | the state store and bot end as `Navigate` says |
| Dispatcher.AnswerAndRecord | dispatcher.py:116-133 | the answer is sent and the id of the message sent is stored, as `Answer` says; the user is returned |
| Dispatcher.HandleMessage | dispatcher.py:137-141 | the stores and bot end as `MessageOutcome` says |
| Dispatcher.HandleCallbackQuery | dispatcher.py:145-153 | the stores and bot end as `CallbackOutcome` says |
| Dispatcher.Choose | dispatcher.py:63-69 | the handler of the message's class, else the callback query's, else none |
| Dispatcher.MainRouting | main.py:16-18 | with main.py's registrations every message and callback query has its handler, and nothing else does |
| Dispatcher.RoutedMessageAnswersText | dispatcher.py:63-73 | a routed message is answered from its text, against the users as just written |
| Dispatcher.CustomDispatcher.RegisterHandler | dispatcher.py:42-43 | a later registration replaces an earlier one for the same class |
| Dispatcher.CustomDispatcher.ProcessUpdate | dispatcher.py:63-73 | without a handler nothing happens; otherwise the sender is recorded first and the handler's outcome follows |

## Left out

- Telegram, HTTP and MongoDB I/O are not modelled as I/O. The collections are in-memory maps and sequences, and the bot records its calls.
- The webhook entry points `handle_webhook` and `set_webhook` are left out, and so are logging and `_custom_serializer`. Only `_remove_none_values` is kept.
- Concurrency and `await` ordering are not modelled. Each handler runs to completion on its own.
- database/response.py is not part of this model. Response records are the `responses` map of `Dispatcher.Env`.
- The context classes under context/ are not part of this model. They are a catalogue `Env.contexts` that gives, per dotted path:
  - whether the class exists;
  - whether it takes `page`;
  - its `ctx()`;
  - its `rm()`.
- `ctx()` does not depend on the page, and the module/class split of the dotted path is not modelled.
- `str.format` rendering is not modelled. An answer is the template with its arguments (`Rendered`), so a missing placeholder's KeyError does not appear. The same holds for `render_template`.
- `send_message` is called by dispatcher.py but is not defined in telegram.py. It is modelled as `Bot.SendMessage`, with Telegram's reply as a parameter.
- `States` (database/state.py:3-5) defines no `LAST_TRIGGER`. `Env.lastTriggerKey` is `None` for the class as defined, and a key can be supplied to study the path beyond it.
- Dispatcher.ResponseFor: a stored keyboard is never used. `get_keyboard` takes one argument but is called with two, so any truthy `keyboard_id` raises TypeError. The precedence of a stored keyboard over the context's `rm()` is therefore unreachable and not stated.
- Dispatcher.PyInt: only ASCII whitespace and ASCII digits are accepted. Python's `int()` also accepts Unicode whitespace and digits.
- Dispatcher.ResponseFor: a context value that is not a string is refused with TypeError instead of being formatted. Dispatcher.BuildReply does the same.
- Dispatcher.UserOf: a stored user document whose `user_id` is not an integer is treated as missing it.
- The `selected()` of a validator's context is taken as an input snapshot of the stored chain. context/base.py's loading of it is not modelled.
- context/validators/base.py is not part of this model. The legacy validators use the chain operations of validators/base.py.
- `update_user_hold` is imported by validators/wallet.py but not defined in database/user.py. It is modelled as `HoldLedger.Add`, which adds to the user's hold.
- `Decimal` parsing and `str()` are taken as input: `parsed: Option<Decimal>`, with `None` for InvalidOperation. NaN and Infinity give the same answer as unparsable input, and the 28-digit precision is not modelled.
- Float constants are compared as their exact binary64 values. Rates and fees are exact decimals.
- Keyboard.RowOf: a dict row whose keys all have two or more characters gives, in Python, one button per key in the dict's insertion order. Documents are maps without key order here, so the model raises TypeError for such a row instead of building those buttons. Every other dict row is modelled exactly, because its outcome does not depend on key order.
- Keyboard.KeyboardTable.GetKeyboard: inherits the Keyboard.RowOf gap for a stored list holding a dict row whose keys all have two or more characters. A string or dict `buttons` value is modelled exactly.
- WalletValidators.CheckIssued / WalletValidators.CheckAmountValidator.Accept: the check's rate is `Decimal(rate)` of the float rate (validators/wallet.py:46), its exact binary64 value, while mixins/base.py:19 takes `Decimal(str(rate))`. The model uses the same decimal rate for both, so it does not capture a cent that differs because of the float's binary tail.
- Keyboard.ButtonOf: a label or payload of any value gives a button. aiogram's `InlineKeyboardButton` validates `text` and `callback_data` as strings, and would raise a validation error for a stored number or list there, which the model does not.
- Dates are integer seconds. MongoDB's `_id`, query operators and pydantic models are not modelled.
- The unit SDK calls `validate_address`, `has_sufficient_balance` and `send_coins` are parameters: their outcome is an input. Network fees come from a map.
- `BOT_NAME` and `gettext` are parameters. `gettext` is the identity.
- The UUID behind a unique code is an input of 16 bytes, so its randomness is not modelled.
- Time in `timed_cache` is a parameter `now`.
- units/, rates.py, database/rates.py, mainstream.py and the remaining context modules are outside this model.
