# 0xFeather wallet: a Dafny model of its key provisioning, wallet session and sign-in logic

0xFeather is a web wallet. Each signed-in user holds one Ethereum account. The server
stores an address and a private key for each user. The browser restores a signing
wallet from that pair, or generates a new pair and asks the server to store it. The
browser then tracks the balance and the transaction count, lists past transfers and
sends ETH. This project models the decision logic behind that. It has four parts.

- **Key provisioning** (`wallet_route.dfy`, module `WalletRoute`). This is the
  `POST /api/wallet` handler. A `UserTable` object owns the user table as a
  `map<UserId, UserRecord>`. Its `Post` method answers one request and updates the
  table in place. The pure function `Provision` states the same step on values, and
  `Post` is proved equal to it. Lemmas about `Provision` cover the rejections, the single
  update, the frame and what happens over a whole sequence of later requests.
- **Wallet session** (`wallet_session.dfy`, module `WalletSession`). The React state of
  the `Wallet` component becomes the fields of a `Session` object. Its handlers are
  methods that update those fields:
  - the loader (`LoadWallet`, with `SaveWallet`);
  - the balance refresh (`FetchBalance`, `AttachProvider`);
  - the transfer procedure (`StartTransfer` up to the first `await`, `CompleteTransfer`
    after the transaction settles, and `Transfer` for both together);
  - the QR scan handler (`ScanRecipient`).

  Effects visible outside the component are also fields: toasts shown, save requests
  sent, keys generated and payments submitted. Three pure parts are functions:
  - the validation chain (`Validate`);
  - the `isNaN(parseFloat(x))` test, written as a string predicate (`ParseFloatIsNaN`);
  - the first-match classifier of failed transfers (`ClassifyFailure`).
- **Transaction list** (`transactions_list.dfy`, module `TransactionsList`). This part
  has pure rules only:
  - the case-insensitive classifier (Self / Received / Sent / Unknown) and its icon;
  - when opening the dialog fetches;
  - the order in which the list is shown;
  - the Refresh button.
- **Sign-in** (`auth.dfy`, module `Auth`). It models the credentials check `authorize`
  and the `jwt` and `session` callbacks. Objects that the source builds by spreading are
  maps from property name to value.
- `js.dfy` (module `Js`) holds the JavaScript semantics the other modules rely on:
  - truthiness of a string that may be null;
  - `toLowerCase`;
  - `includes`, proved equal to "occurs at some index";
  - `Number.prototype.toString` of a nonce, proved to round-trip through its decimal value.

Effects outside the code become inputs:
- `ethers` key derivation is a function parameter `string -> Option<string>`;
- the random key is a parameter;
- balance and nonce reads, the server's reply to a save, and the outcome of sending and
  confirming a transaction are datatype parameters;
- database faults are the messages of the errors they throw;
- bcrypt's `compare` is a function parameter.

Points where the code behaves in ways a reader might not expect, which the model follows:
- **Returned row.** The handler returns the whole updated row, password included
  (`src/app/api/wallet/route.ts:38-47`).
- **Restore condition.** The loader restores only when BOTH stored fields are truthy. It
  rebuilds the wallet from the key alone and never compares the derived address with the stored one
  (`src/components/Wallet.tsx:63-66`).
- **Amount check.** It does not check for a positive decimal. Any text that `parseFloat`
  can read a number from at its start passes, including `-5` and `1abc`
  (`src/components/Wallet.tsx:174`). Such an amount then reaches `ethers.parseEther`
  inside the `try` (`src/components/Wallet.tsx:182-185`). When that throws, nothing is
  sent and the catch block reports the classified error.
- **After a failed transfer.** The recipient and amount keep their values. Only a
  successful transfer clears them (`src/components/Wallet.tsx:189-190`).
- **Key-pair invariant.** The stored pair is not kept both-present or both-absent. The
  handler overwrites a row that holds only one of the two fields. A body that omits a
  key, or sends an empty string, can leave a half-written or falsy pair
  (`src/app/api/wallet/route.ts:28-41`).
- **Concurrent transfers.** Nothing in the code serialises them. The only protection is
  the disabled button, so the model states "not transferring" as a precondition of
  `StartTransfer` and `Transfer`.

## Model

| member | source | states |
|---|---|---|
| `WalletRoute.Provision` | src/app/api/wallet/route.ts:5-60 | On any request, no row is added or removed. Only the addressed row can change, and only in its two key fields. Every non-200 answer leaves the table unchanged. |
| `WalletRoute.UserTable.Post` | src/app/api/wallet/route.ts:5-60 | The in-place handler gives the same response and new table as `Provision`. A refusal writes nothing. A 200 means the user existed without a key pair, the row got both fields in one update, and the payload carries the updated row. |
| `WalletRoute.WithKeys` | src/app/api/wallet/route.ts:38-41 | The single update keeps the id, email and password. A submitted string lands in its field. |
| `WalletRoute.UnknownUserRejected` | src/app/api/wallet/route.ts:12-26 | An id with no row gets 400 "User Not Found", and the table is unchanged. |
| `WalletRoute.ProvisionedUserRejected` | src/app/api/wallet/route.ts:28-34 | A user whose two fields are both non-empty gets 400, and the table is unchanged. |
| `WalletRoute.FaultsAnswer500` | src/app/api/wallet/route.ts:51-58 | An unparsable body, a failing lookup or a failing update gives 500 with the error's message and no write. |
| `WalletRoute.ProvisionWritesBoth` | src/app/api/wallet/route.ts:37-49 | A user without a key pair gets both submitted values written, and the response is 200 "User updated successfully" with the updated row. |
| `WalletRoute.HalfProvisionedOverwritten` | src/app/api/wallet/route.ts:28 | A user holding only one of the two fields is not protected: both fields are overwritten. |
| `WalletRoute.ProvisionedStaysProvisioned` | src/app/api/wallet/route.ts:28-41 | Once a user is provisioned, take any later sequence of requests, with requests for other users interleaved. Every request for that user is refused with 400 or 500. That user's row stays as it is, and no row is added or removed. |
| `WalletRoute.SecondProvisionRefused` | src/app/api/wallet/route.ts:28-41 | Idempotence: after one successful write of two non-empty strings, every request for that user handled after that write completed is refused, whatever other users' requests come in between. That user's row never changes again. |
| `WalletRoute.EmptyKeysNotIdempotent` | src/app/api/wallet/route.ts:28 | Because the guard tests truthiness, writing two empty strings succeeds and the next request succeeds too. |
| `WalletSession.Session.constructor` | src/components/Wallet.tsx:27-34 | A freshly mounted session has no wallet, balance, count or inputs. No dialog is open, nothing is transferring, and nothing has been shown or sent. |
| `WalletSession.Session.SaveWallet` | src/components/Wallet.tsx:39-59 | Exactly one request is sent, carrying the wallet's address and key under the user's id. A refused save only adds a toast with the server's message. |
| `WalletSession.Session.LoadWallet` | src/components/Wallet.tsx:61-73 | A user with both fields gets the wallet rebuilt from the stored key: no key generated, no save, no toast. Otherwise exactly one key is generated and its wallet set, with exactly one save carrying that address and key. A refused save only adds a toast, and the wallet stays set. |
| `WalletSession.LoadProvisionedUser` | src/components/Wallet.tsx:61-67 | Loading a provisioned user on a new session generates no key and sends no save request. |
| `WalletSession.LoadNewUser` | src/components/Wallet.tsx:69-72 | Loading a user without a key pair on a new session generates one key and sends exactly one save carrying it. The wallet is that key's wallet. |
| `WalletSession.SavedKeyRestoredLater` | src/components/Wallet.tsx:61-72 | A save the handler accepts, of a non-empty key and address, makes any later session of that user take the restore path with the same key. |
| `WalletSession.Session.FetchBalance` | src/components/Wallet.tsx:114-128 | Nothing changes without a connected wallet with an address, or when a read fails. Otherwise the balance becomes the formatted balance and the count the decimal string of the nonce. |
| `WalletSession.Session.AttachProvider` | src/components/Wallet.tsx:130-137 | An unattached wallet gets attached, and that run changes no balance because its read still sees the old wallet. An attached wallet with an address has its balance and count set from a successful read. Every other case leaves the balance and count unchanged. |
| `WalletSession.Session.StartTransfer` | src/components/Wallet.tsx:157-185 | Without a connected wallet with an address, nothing happens. A validation failure shows exactly that check's message and submits nothing. An amount `parseEther` rejects submits nothing: the classified error is shown and `isTransferring` ends false. Otherwise `isTransferring` becomes true and exactly one payment with the entered recipient and amount is submitted. |
| `WalletSession.Session.CompleteTransfer` | src/components/Wallet.tsx:182-216 | On confirmation the balance is refreshed, both inputs become null, the dialog closes and "Transaction successful!" is shown. On an error the classified message is shown and the inputs, dialog and balance are kept. `isTransferring` is false afterwards on both paths. |
| `WalletSession.Session.Transfer` | src/components/Wallet.tsx:157-217 | `isTransferring` is false on every exit. A silent guard changes nothing. Otherwise exactly one toast is shown. A validation failure or a `parseEther` rejection submits nothing and keeps the inputs, dialog and balance. An accepted amount submits one payment. If it is confirmed, the inputs are cleared, the dialog closes and the balance is refreshed. If it fails, the classified message is shown and everything else is kept. |
| `WalletSession.Session.ScanRecipient` | src/components/wallet/qr-code-reader.tsx:54-59 | A non-empty scanned text becomes the recipient, closes the reader and opens the transfer dialog. Anything else changes nothing. |
| `WalletSession.Validate` | src/components/Wallet.tsx:161-179 | The three checks run in fixed order and the first failure decides: a missing or empty recipient, then a missing or empty amount, then an amount with no numeric prefix. The result is no error exactly when all three pass. |
| `WalletSession.TrimStartRemovesWhiteSpace` | src/components/Wallet.tsx:174 | `parseFloat` skips exactly the leading run of JavaScript white space and line terminators. |
| `WalletSession.LeadingWhiteSpaceIgnored` | src/components/Wallet.tsx:174 | Leading white space never changes whether the amount test passes. |
| `WalletSession.TrailingTextIgnored` | src/components/Wallet.tsx:174 | Text appended after a readable number never makes the test fail, so "1abc" passes. |
| `WalletSession.AcceptedAmounts` | src/components/Wallet.tsx:174 | The test accepts "1abc", "-5", "0", " .5" and "-Infinity": it checks neither positivity nor trailing text. |
| `WalletSession.RefusedAmounts` | src/components/Wallet.tsx:174 | The test refuses "notanumber", ".", blank text and "+-1". |
| `WalletSession.ClassifyFailure` | src/components/Wallet.tsx:197-213 | First match wins. A message containing "network does not support ENS " gives the address message. Otherwise one containing "insufficient funds" gives the funds message. Anything else gives "try again later". |
| `WalletSession.ClassifyByOccurrence` | src/components/Wallet.tsx:198-208 | The same classification stated by position: the address message exactly when the ENS text occurs at some index. The funds message exactly when it does not occur and the funds text does. |
| `WalletSession.FundsMessageClassified` | src/components/Wallet.tsx:203-208 | Any message containing the funds text somewhere, and not the ENS text, is classified as missing funds. |
| `WalletSession.FailureToast` | src/components/Wallet.tsx:198-213 | A failed transfer is reported as one of three fixed destructive messages, never the raw error text. |
| `TransactionsList.ClassificationTable` | src/components/wallet/transactions-list.tsx:35-53 | With a null or empty current address the result is Unknown. Otherwise Self when both sides match, ignoring case, Received when only `to` matches, Sent when only `from` matches, and Unknown when neither does. |
| `TransactionsList.ClassificationIgnoresCase` | src/components/wallet/transactions-list.tsx:41-43 | Changing the letter case of any of the three addresses leaves the classification unchanged. |
| `TransactionsList.SelfTransferDetected` | src/components/wallet/transactions-list.tsx:45-49 | A transfer from the wallet's address to itself is Self, even when one side is written in upper case. Self wins over Received and Sent. |
| `TransactionsList.TransactionIcon` | src/components/wallet/transactions-list.tsx:55-62 | The up arrow appears exactly for Sent and the down arrow exactly for Received. Self and Unknown get no icon. |
| `TransactionsList.OpeningFetchesUntilFetched` | src/components/wallet/transactions-list.tsx:136-140 | Opening the dialog fetches exactly while nothing has been fetched, and closing never fetches. Loading does not stop it, so reopening during the first fetch fetches again. |
| `TransactionsList.CardFor` | src/components/wallet/transactions-list.tsx:64-76 | A card shows its transfer, classified against the wallet address, with the icon of that classification. |
| `TransactionsList.CardsFor` | src/components/wallet/transactions-list.tsx:176-182 | One card per transfer, in the same order. |
| `TransactionsList.DisplayedList` | src/components/wallet/transactions-list.tsx:169-190 | While loading, two skeleton cards are shown. Otherwise all incoming transfers are shown in order, followed by all outgoing ones in order. |
| `TransactionsList.NoDeduplication` | src/components/wallet/transactions-list.tsx:176-189 | Each transfer is shown as often as it occurs in the two lists together, so a transfer present in both lists is shown twice. |
| `TransactionsList.RefreshOnlyAfterFetch` | src/components/wallet/transactions-list.tsx:195-209 | With the dialog open, exactly one of two things holds: opening fetches, or a Refresh button is shown. A click fetches exactly when a fetch has completed and none is running; the button then reads "Refresh". During a refetch it is disabled and reads "Refreshing". |
| `Auth.Authorize` | src/lib/auth.ts:26-46 | A user is returned only when the credentials and a non-empty email exist, the lookup answers, a row has that email, a password was given, and the comparison with that row's hash succeeds. The row returned is the looked-up row. |
| `Auth.NoEmailNoUser` | src/lib/auth.ts:28-29 | Missing credentials or a missing or empty email give null. |
| `Auth.UnknownEmailNoUser` | src/lib/auth.ts:31-41 | An email with no row gives null. |
| `Auth.ErrorsGiveNull` | src/lib/auth.ts:42-45 | A throwing lookup, or a comparison that throws on a missing password, gives null and never a user. |
| `Auth.UserIffPasswordMatches` | src/lib/auth.ts:37-39 | For a known email, the user's row is returned exactly when the password comparison succeeds. |
| `Auth.Jwt` | src/lib/auth.ts:67-76 | With a user, the token gains `id` equal to the user's id and keeps every other property. Without a user, the token is returned unchanged. |
| `Auth.Session` | src/lib/auth.ts:58-66 | The session keeps all its other properties. Its `user` has exactly the old user's properties plus `id`. Every one except `id` is kept, and `id` becomes `token.id`. |
| `Auth.SignInCarriesId` | src/lib/auth.ts:58-76 | After `jwt` with a user and then `session`, the session's user id is the signed-in user's id. |
| `Js.CaseVariantSameLower` | src/components/wallet/transactions-list.tsx:41-43 | Strings that differ only in letter case lower-case to the same string. |
| `Js.ToLowerIdempotent` | src/components/wallet/transactions-list.tsx:41-43 | Lower-casing twice is the same as lower-casing once. |
| `Js.IncludesIff` | src/components/Wallet.tsx:198-203 | `includes` holds exactly when the substring occurs at some index. |
| `Js.NatToString` | src/components/Wallet.tsx:127 | The rendered nonce is a non-empty string of decimal digits with no leading zero. |
| `Js.NatToStringInjective` | src/components/Wallet.tsx:127 | Different nonces are rendered as different strings. |
| `Js.NatToStringRoundTrip` | src/components/Wallet.tsx:127 | Reading the rendered digits back gives the nonce, so the count shown loses nothing. |

## Left out

- The transaction-history proxy `src/app/api/wallet/transactions/route.ts` is not part of this model. It is an HTTP call to an external indexing API. The list is modelled from the `incoming`/`outgoing` data it receives.
- `fetchTransactions` (`src/components/Wallet.tsx:100-112`) only logs its result, so it changes no state. Its 15-second polling timer (`src/components/Wallet.tsx:146-155`) is timing, not state.
- The block listener (`src/components/Wallet.tsx:139-143`) re-runs `FetchBalance` on each new block. Event-loop scheduling, and the fact that the listener is never unsubscribed, are not modelled.
- All `ethers` calls are inputs and are not modelled: key generation, key-to-address derivation, `connect`, `getBalance`, `getTransactionCount`, `formatEther`, `parseEther`, `sendTransaction` and `wait`. `parseEther` enters as a function from the amount to the message it throws, or to nothing when it accepts the amount. Which amounts it accepts, and the wei/ether conversion, are not modelled.
- The `setTimeout` delays are not modelled: the transfer dialog closes 500 ms after success, and the list dialog closes 200 ms after it is asked to. The model applies the effect at once.
- The save request is fire-and-forget. `SaveWallet` applies the server's reply at the point of the call, so how the reply interleaves with later events is not modelled.
- WalletRoute.UserTable.Post: each request is modelled as one atomic step, and requests are handled one after another. In the source, the lookup (`src/app/api/wallet/route.ts:15`) and the update (`src/app/api/wallet/route.ts:38`) are separate awaits, and the update does not recheck the key fields. Two overlapping first requests for one user, such as two tabs mounting at once, can both read the empty row and both pass the guard. Both then write, and the later key pair silently replaces the earlier one. The idempotence lemmas hold only for requests handled after a write completed.
- WalletSession.Session.StartTransfer: serialisation of transfers is a precondition (`!isTransferring`), not a proved property, because only the disabled button in `src/components/wallet/transfer-dialog.tsx:43-45,79` enforces it.
- A request without an `Authorization` header makes Prisma throw on the null id, which leads to a 500. The model represents this through the lookup fault input, not as a separate header state.
- A body field that is neither a string nor null (a number, an object) makes the Prisma update throw. The model represents this through the update fault input.
- Prisma's automatic `createdAt`/`updatedAt` columns are not modelled. The row keeps only id, email, password and the two key fields.
- `toLowerCase` is modelled for ASCII letters only. Addresses are hexadecimal, and full Unicode case mapping is outside the model.
- `NatToString` renders every nonce in plain decimal. JavaScript switches to exponent notation from 10^21 upward, far beyond any real nonce.
- A failed transfer whose error has no `message` makes the catch block itself throw, so no toast is shown. The model takes the message as a string.
- Spreading a string-valued `session.user` (which copies index keys) is not modelled. Spreading any other non-object copies nothing, as modelled.
- These parts of `src/lib/auth.ts` are configuration and are not modelled: the environment check (lines 8-16), the provider's form fields, the pages and the session strategy (lines 18-56). bcrypt `compare` stays an uninterpreted parameter.
- The component's second, identical `saveWallet` (`src/components/Wallet.tsx:78-98`) is not called by the loader. It is modelled once, as `SaveWallet`.
- Rendering, theming, the clipboard and QR display, the sign-up form and the mongoose schema carry no decision logic and are not modelled.
