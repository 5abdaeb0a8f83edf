# Cashr: verified model of its money and key protocols

Cashr is a desktop wallet and Nostr signer. Five of its protocols decide when money
moves, when a key is used, and what survives a crash. This project models them in Dafny
and proves what holds over every run, with every interleaving and every crash point the
model admits. `dafny verify dfyconfig.toml` checks all of it.

## How it is laid out

| file | models |
|---|---|
| `Prelude` | optional values, `u64` arithmetic, two facts about finite sets |
| `NwcProtocol`, `NwcStore`, `NwcPayments`, `NwcService` | Nostr Wallet Connect (NIP-47): freshness and deadline, the durable tables, the pay_invoice protocol with crashes, the service object and its waiting loops |
| `WalletReviews` | payment reviews: one-shot handles, spend ceilings, the lock that races with recording |
| `NamePurchase`, `NameWallet` | the username purchase: the journal as a machine with crashes, then the commands as they write |
| `Migration` | the namespace conversion of wallet databases, resumable after a crash at any write |
| `RelayAuth`, `RelaySession`, `RelayConnection` | the NIP-42 session as a machine and as the object, reconnect backoff and heartbeat |
| `SignerPolicy`, `SignerStorage`, `SignerPairings`, `SignerSession` | the NIP-46 signer: rules, tables, concurrent connects, the request loop |
| `Receiving`, `QuoteSync` | collecting paid quotes with a persisted backoff; fetching every page of a provider's quotes |

Two shapes recur. What the source does by updating an object is a class whose methods are
proved against specification functions, or whose ghost history records each call as
steps of a machine. What interleaves or crashes is a machine: a state (durable part,
volatile part, history), steps as a datatype, `Enabled` and `Next`, and `Run`, a sequence
of states from a fresh start. Invariants are stated per object, kept by one lemma per
group of steps, and carried to every state of a run by induction. A step is a stretch of
source code that runs without yielding between two writes, awaits or lock operations.

Outside the model, and entered as parameters or as steps that may happen at any time:
clocks, randomness (fresh names), signatures, the user, relays, mints, the name provider,
and the payment library. Of the payment library the name purchase takes for granted: an operation
id is never reused; a token exists only after `confirm` got that far; the provider can
redeem only a token it was sent; a revocation succeeds only on a token nobody redeemed,
and its money is then back; recovery resolves a reserved operation to nothing, and an
interrupted swap to a token or to nothing. Of SQLite: a statement or transaction is atomic
and durable once it returns. Of the file system, for the conversion: renaming and
re-encrypting are atomic, and a wrong password does not open. Slot names and passwords
are hashes taken as injective.

## Where the code and its intent part

- **Admission once.** A request id is admitted as new at most once exactly when admission
  follows validation within 271 seconds (`AdmittedAtMostOnce`); `LateAdmission` is the
  run that fails at 272.
- **Rate limit at clock zero.** `now - 60` saturates, so at clock 0 rows of that very
  second are not counted (`FloodAtClockZero`). The limit is a sliding window exactly for
  clocks past zero (`RateLimitIsSliding`).
- **Amount overflow.** A quote of more than `u64::MAX / 1000` sats with an amountless
  invoice passes validation (`OverflowAccepted`); acceptance is sound exactly below that
  (`AcceptedIsSound`).
- **Wait after a lasting session.** The wait after n short sessions in a row is
  min(2^(n-1), 60) seconds exactly when no session of 30 seconds or more came before
  them, or n is at least 7, where the cap applies anyway (`BackoffIsCappedPower`). A
  lasting session's own wait doubles the backoff once more: one such session, then one
  that fails at once, wait 2 seconds (`WaitAfterLastingSession`).
- **Backoff at the end of the clock.** The collection delay holds exactly when it ends
  within `u64` (`DelayHoldsUnlessSaturated`).
- **Revocation while a prompt is open.** The signer looks a client up before it prompts
  and not again, so a request approved after its client was revoked is carried out
  (`RevokedButSigned`), and a rule to be remembered is stored for it. That happens
  exactly when the user was asked, revoked or removed the client meanwhile, and said yes
  (`UsedAfterRevocationWhen`, `OperationUsesRevoked`). From the tables alone: revocation
  is certain to stop a request exactly when no trusted client of its key has a rule table
  that leaves the scope to the user (`RevocationStopsUse`).
- **Two pairings with one secret.** A client's own URI can be pasted twice, also for two
  accounts, and nothing keeps its secret unique. Then a connect may be refused though a
  row admits it, and a success leaves the other row usable (`SameSecretTwice`). Whichever
  row the lookup finds, a connect succeeds just when some row admits it, exactly when all
  usable rows with that secret agree on the sender (`ConnectIsDetermined`); the secret is
  used up exactly when no other usable row holds it (`SecretIsUsedUp`).

## Model

| member | source | states |
|---|---|---|
| NwcProtocol.ValidExactly | src-tauri/src/nwc/protocol.rs:51-69 | valid exactly if a verified request of this client to this wallet, made since pairing, at most 30 s ahead, under 300 s old, with one recipient tag and no expiration passed |
| NwcProtocol.ValidUntilDeadline | src-tauri/src/nwc/protocol.rs:51-75 | an event accepted now is valid later exactly until its deadline, which is after now and at most 330 s ahead |
| NwcStore.Store.Add | src-tauri/src/nwc/store.rs:89-99 | adds a connection unless 16 are live or the id is taken |
| NwcStore.Store.Revoke | src-tauri/src/nwc/store.rs:114-123 | revokes a live connection of that account, else fails and changes nothing |
| NwcStore.Store.RevokeAccount | src-tauri/src/nwc/store.rs:124-131 | afterwards exactly the live connections of other accounts are live |
| NwcStore.Store.Begin | src-tauri/src/nwc/store.rs:132-160 | drops exactly the answered rows over 600 s old; replay if the id is left, limited if 60 rows of this connection are under 60 s old, else new; inserts a row only for new |
| NwcStore.Store.Finish | src-tauri/src/nwc/store.rs:170-177 | stores the response of an existing row, touches no other |
| NwcStore.Store.Claim | src-tauri/src/nwc/store.rs:178-183 | only the first claim of an identity and payment hash succeeds; no claim is ever changed |
| NwcStore.NextRemembers | src-tauri/src/nwc/store.rs:132-177 | an admitted row stays in the table for 600 s, through pruning and replies |
| NwcStore.AdmittedAtMostOnce | src-tauri/src/nwc/store.rs:132-160 | over all runs of deliveries and replies an id is admitted as new at most once, if and only if admission follows validation within 271 s |
| NwcStore.LateAdmission | src-tauri/src/nwc/protocol.rs:51-68 | with any larger delay there is a run that admits one id twice |
| NwcStore.SlidingWindow | src-tauri/src/nwc/store.rs:132-160 | over any run with pruning, no half-open minute holds more than 60 new admissions of one connection |
| NwcStore.FloodAtClockZero | src-tauri/src/nwc/store.rs:146-155 | at clock zero any number of requests is admitted |
| NwcStore.RateLimitIsSliding | src-tauri/src/nwc/store.rs:132-160 | the limit holds for all runs of clocks from a start on, if and only if that start is past zero |
| NwcPayments.RunKeeps | src-tauri/src/nwc/mod.rs:362-650 | the invariants of tasks, gate, prompts and ledger hold in every state of every run with crashes |
| NwcPayments.ConfirmationIsAuthorized | src-tauri/src/nwc/mod.rs:572-628 | whenever a payment is confirmed its connection is live, its wallet exists, the gate is held, the claim is durable and its own, the admission was new, and the user allowed that prompt exactly once |
| NwcPayments.ConfirmedInTime | src-tauri/src/nwc/mod.rs:519-603 | the last check before each confirmation read a clock below the expiry of its prompt, which is within the request's deadline and 120 s of the prompt, with the wallet unlocked and on file and the connection live |
| NwcPayments.ExpiryWasShown | src-tauri/src/nwc/mod.rs:519-582 | the expiry an approval is held to is the one its prompt was shown with |
| NwcPayments.AllowedInTime | src-tauri/src/nwc/mod.rs:72-92 | every yes taken came before its prompt's expiry, with the wallet unlocked and the connection live |
| NwcPayments.PaidAtMostOnce | src-tauri/src/nwc/mod.rs:592-628 | two confirmations in one run never share identity and payment hash, over all connections, duplicates, locks and restarts |
| NwcPayments.ResponseWrittenOnce | src-tauri/src/nwc/mod.rs:368-393 | between admission and pruning a stored response never changes |
| NwcPayments.RevokedNeverPays | src-tauri/src/nwc/mod.rs:251-281 | after a connection is revoked no confirmation is ever for it |
| NwcPayments.RevokedNeverAllowed | src-tauri/src/nwc/mod.rs:72-92 | after a connection is revoked no yes to a prompt of it is ever taken |
| NwcPayments.RevokedThroughout | src-tauri/src/nwc/store.rs:114-131 | revocation is permanent over every run |
| NwcPayments.AtMostSixteenHandlers | src-tauri/src/nwc/relay.rs:94 | at most 16 requests are being handled in any state of any run |
| NwcPayments.AttemptsGrow | src-tauri/src/nwc/mod.rs:620-628 | what was confirmed stays confirmed, through crashes too |
| NwcService.Service.Enter | src-tauri/src/nwc/mod.rs:362-384 | a request is handled only for a live connection and not while a copy of it is being handled; one step of the payment machine |
| NwcService.Service.Begin | src-tauri/src/nwc/mod.rs:385-393 | admits durably; a replay that has its response ends there with exactly that response; steps of the machine |
| NwcService.Service.Finish | src-tauri/src/nwc/mod.rs:486-492 | stores the response and drops the guard, and no response was stored before |
| NwcService.Service.Show | src-tauri/src/nwc/mod.rs:496-560 | the prompt is open until the review's expiry, the request's deadline and two minutes at most; one step of the machine |
| NwcService.Service.Answer | src-tauri/src/nwc/mod.rs:72-92 | a yes counts only while unlocked, unexpired and not revoked; an answer that counts takes the prompt off the list by one step of the machine, one that does not changes nothing |
| NwcService.Service.Resolve | src-tauri/src/nwc/mod.rs:561-582 | approved just when the waiting loop heard a permitted yes; either way the prompt is off the list; steps of the machine |
| NwcService.Service.Settle | src-tauri/src/nwc/mod.rs:583-628 | under the gate confirms if and only if the clock is below the expiry, the account unlocked and on file, the connection live, and the identity and hash unclaimed; then the claim is durable and nothing was confirmed before for them |
| NwcService.Service.RevokeConnection | src-tauri/src/nwc/mod.rs:252-281 | needs the wallet unlocked and a live connection of it; revokes it and drops exactly its prompts, by gated steps of the machine |
| NwcService.Service.RemoveAccount | src-tauri/src/commands.rs:125-139 | exactly the other accounts' connections, prompts and identities are left, by gated steps of the machine |
| NwcService.WaitForApproval | src-tauri/src/nwc/mod.rs:653-673 | approved if and only if the first thing to arrive is a yes, permitted then and at every turn before |
| NwcService.WaitForUnlock | src-tauri/src/nwc/mod.rs:394-415 | proceeds if and only if the vault is held before the deadline, revocation or removal is seen |
| WalletReviews.WalletService.BeginReview | src-tauri/src/wallet.rs:962-998 | the ceiling is the amount, fee and fee reserve of the melt prepared for the review; it carries the lock epoch it began in; an overflow or an expired quote gives none |
| WalletReviews.CeilingIsTheReviewedSum | src-tauri/src/wallet.rs:975-1090 | a melt no dearer in any part than the reviewed one is within the ceiling, at equality too; one whose sum is larger is not |
| WalletReviews.WalletService.RecordReview | src-tauri/src/wallet.rs:415-428 | drops expired reviews, then records under a fresh handle if fewer than 32 are left and no lock came since the review began; never more than 32 |
| WalletReviews.WalletService.Lock | src-tauri/src/wallet.rs:430-444 | moves the epoch and empties the reviews; two steps of the machine, a returned lock afterwards |
| WalletReviews.WalletService.LimitReview | src-tauri/src/wallet.rs:1157-1166 | only ever lowers the expiry of one review |
| WalletReviews.WalletService.CancelReview | src-tauri/src/wallet.rs:1168-1174 | removes that review and no other |
| WalletReviews.WalletService.PayReviewed | src-tauri/src/wallet.rs:1054-1092 | consumes the handle whatever happens; confirms if and only if account, mint, invoice still valid and unchanged, amount plus fee plus fee reserve at most the maximum, expiry, unlock and epoch all hold; a confirmation is within its review as shown and the first of its handle |
| WalletReviews.RunKeepsInv | src-tauri/src/wallet.rs:415-444 | the invariants hold in every state of every interleaving |
| WalletReviews.SpendsWithinReview | src-tauri/src/wallet.rs:1054-1092 | each handle is confirmed at most once; each confirmation is of the account, mint and invoice shown, its amount plus fee plus fee reserve at most the maximum shown, in time, unlocked, in the same epoch |
| WalletReviews.LockClearsReviews | src-tauri/src/wallet.rs:415-444 | never more than 32 reviews; once a lock returned, none from before it is stored or inserted |
| WalletReviews.NoConfirmationAcrossLock | src-tauri/src/wallet.rs:1054-1092 | from the moment a lock moved the epoch, nothing reviewed earlier is confirmed |
| NamePurchase.RunKeeps | src-tauri/src/wallet/username.rs:295-506 | in every state of every run a live operation is the one the record names, and is hidden from the token list |
| NamePurchase.OneLivePurchase | src-tauri/src/wallet/username.rs:372-432 | at most one purchase token exists that was not given back; the record names it, with its mint and amount |
| NamePurchase.PaidAtMostOnce | src-tauri/src/wallet/username.rs:295-355 | over all interleavings and crashes the provider redeems at most one purchase, and its record is never removed |
| NamePurchase.OnlyTheJournaledTokenIsSent | src-tauri/src/wallet/username.rs:315-343 | a token reaches the provider only if the durable record names it and says submitted |
| NamePurchase.SecondSwapOnlyAfterReturn | src-tauri/src/wallet/username.rs:469-506 | between two swaps the first record was removed, and its operation had been refunded or cancelled |
| NamePurchase.NamedUntilReturned | src-tauri/src/wallet/username.rs:482-506 | one step keeps the record naming its operation, or removes it with the money back |
| NamePurchase.FateIsFinal | src-tauri/src/wallet/username.rs:482-502 | begun, redeemed and returned operations stay so |
| NameWallet.Wallet.Refresh | src-tauri/src/wallet/username.rs:114-135 | confirms a record the provider's name matches, makes a confirmed one if there is none, else leaves it |
| NameWallet.Wallet.StoredToken | src-tauri/src/wallet.rs:2087-2109 | only a created operation of the recorded mint and amount has a token to send |
| NameWallet.Wallet.SettleOwned | src-tauri/src/wallet/username.rs:302-314 | a name already ours gives an unsent token back before it is recorded |
| NameWallet.Wallet.SendToken | src-tauri/src/wallet/username.rs:333-353 | the submission is durable before the token is sent; acceptance is recorded after |
| NameWallet.Wallet.SubmitPurchase | src-tauri/src/wallet/username.rs:295-355 | succeeds if and only if the provider answers and either the name is ours with nothing unsent or its token revoked, or the recorded token is pending at the recorded mint and amount; an error changes nothing durable |
| NameWallet.Wallet.Pay | src-tauri/src/wallet/username.rs:391-421 | the record and the marker are written before the swap; a declined reservation is cancelled |
| NameWallet.Wallet.ClaimName | src-tauri/src/wallet/username.rs:358-440 | exactly when a claim succeeds and what it records and sends; it never starts over a record, and whatever it reserves is cancelled or named by the record it leaves |
| NameWallet.Wallet.RetryName | src-tauri/src/wallet/username.rs:443-466 | exactly when a retry succeeds; it makes no operation, keeps the recorded one, and sends no other token |
| NameWallet.Wallet.Recover | src-tauri/src/wallet/username.rs:484-489 | what recovery makes of the operation, and that a failed one changes nothing |
| NameWallet.Wallet.TakeBack | src-tauri/src/wallet/username.rs:484-505 | succeeds if and only if recovery worked and the pending token's revocation is granted, or it was refunded, or nothing was submitted and no token is left; it is then refunded or cancelled |
| NameWallet.Wallet.ReclaimName | src-tauri/src/wallet/username.rs:469-514 | removes the record if and only if it is unconfirmed, the provider answers with another address, and its money is or can be taken back |
| Migration.Wallets.ConvertDatabase | src-tauri/src/migration.rs:340-388 | tries the current key first; ends with the current key and tables, or refuses a database that cannot be converted |
| Migration.Wallets.PlaceFile | src-tauri/src/migration.rs:416-440 | moves a database to the slot of its seed and mint, never over another, and the active pointer with it |
| Migration.Wallets.ConvertWallets | src-tauri/src/migration.rs:389-445 | every write keeps the end the directory is heading for; a finished pass is that end; a well-formed directory is never refused |
| Migration.Wallets.Convert | src-tauri/src/migration.rs:276-317 | does nothing once completed, completes only at the end, and only if no two databases belonged in one place |
| Migration.Wallets.ConvertThroughCrashes | src-tauri/src/migration.rs:276-445 | runs cut after any numbers of writes and then a finished one reach the end of the starting directory |
| Migration.PreviousIsWellFormed | src-tauri/src/migration.rs:389-423 | a directory as the previous version left it, of distinct seeds and mints, may be converted |
| Migration.OneEnd | src-tauri/src/migration.rs:389-445 | that end is unique, so it is also where one uninterrupted run goes |
| Migration.NothingLost | src-tauri/src/migration.rs:340-388 | at the end every database is there with its seed, mint, words and contents, under the current key, in its slot |
| Migration.SameWalletActive | src-tauri/src/migration.rs:426-441 | the active slot names a wallet at the end if and only if it named that wallet at the start |
| Migration.NoConflict | src-tauri/src/migration.rs:419-423 | a finished run met no two databases with one place |
| RelayAuth.LiveKeeps | crates/relay-transport/src/auth.rs:206-208 | expiry keeps exactly the entries under 60 s old, in order |
| RelayAuth.NextKeepsQueue | crates/relay-transport/src/auth.rs:76-150 | every branch keeps at most 16 entries, in send order |
| RelayAuth.OneAuthPerChallenge | crates/relay-transport/src/auth.rs:158-198 | between two signatures a different challenge was installed |
| RelayAuth.AtMostThreeAuths | crates/relay-transport/src/auth.rs:174-185 | at most 3 AUTH messages per socket |
| RelayAuth.PendingIsCurrent | crates/relay-transport/src/auth.rs:90-117 | the pending attempt was signed for the challenge installed now |
| RelayAuth.AuthenticatedForCurrentChallenge | crates/relay-transport/src/auth.rs:104-117 | authenticated only after an OK with status true for the AUTH event signed for the challenge installed now |
| RelayAuth.NotPending | crates/relay-transport/src/auth.rs:98-117 | after the challenge changed, the attempt timed out or was answered, its id is not pending until signed again |
| RelayAuth.StaleAckIgnored | crates/relay-transport/src/auth.rs:90-198 | over any run since, the answer to that attempt takes no branch and sends nothing |
| RelayAuth.RetriesAreBounded | crates/relay-transport/src/auth.rs:118-225 | each publication is sent at most twice, the subscription re-sent at most once, the queue at most 16 and in order |
| RelayAuth.WaitingWasRefused | crates/relay-transport/src/auth.rs:118-132 | whatever waits for a retry was refused by an OK with status false that asks for authentication |
| RelayAuth.WaitingIsPublished | crates/relay-transport/src/auth.rs:217-223 | a retry publishes every entry that waits, and marks it |
| RelayAuth.OthersStay | crates/relay-transport/src/auth.rs:217-223 | and leaves every other as it is |
| RelayAuth.RetryIsJustified | crates/relay-transport/src/auth.rs:206-225 | a retry happens only while authenticated, for entries refused before and under 60 s old |
| RelayAuth.AccessErrorKept | crates/relay-transport/src/auth.rs:104-150 | a publication or subscription failure is never erased by an AUTH success |
| RelaySession.RelaySession.Publish | crates/relay-transport/src/auth.rs:76-88 | one publication, a run step, the oldest entry dropped at 16 |
| RelaySession.RelaySession.ExpireEvents | crates/relay-transport/src/auth.rs:206-208 | keeps exactly the live entries |
| RelaySession.RelaySession.Retry | crates/relay-transport/src/auth.rs:210-225 | sends what waits, once, and leaves nothing waiting |
| RelaySession.RelaySession.Receive | crates/relay-transport/src/auth.rs:90-156 | takes exactly the branches of the machine, and changes the fields, errors, queue and output as the message's own fields say; only an OK with status true for the pending attempt authenticates |
| RelaySession.TakesInFields | crates/relay-transport/src/auth.rs:90-156 | per message, both ways: OK true and false for the pending attempt, for a queued event retried or not, CLOSED, and challenges |
| RelaySession.OnlyAYesAuthenticates | crates/relay-transport/src/auth.rs:110-118 | whoever becomes authenticated got an OK with status true for the pending attempt |
| RelaySession.PastIsRun | crates/relay-transport/src/auth.rs:76-225 | every history of calls is a run of the machine |
| RelaySession.RelaySession.Tick | crates/relay-transport/src/auth.rs:158-198 | signs if and only if a challenge is installed, not attempted, not authenticated, fewer than three were signed and signing works; an attempt of 15 s is dropped |
| RelayConnection.Run | crates/relay-transport/src/connection.rs:65-90 | the wait after each session, for every sequence of session lengths |
| RelayConnection.WaitIsCappedPower | crates/relay-transport/src/connection.rs:65-90 | that wait is min(2^n, 60) seconds |
| RelayConnection.ShortSessions | crates/relay-transport/src/connection.rs:74-88 | how n counts sessions under 30 s, first ones and those after a lasting one |
| RelayConnection.BackoffIsCappedPower | crates/relay-transport/src/connection.rs:65-90 | the wait after n short sessions is min(2^(n-1), 60) s if and only if none of 30 s came before, or n is at least 7 |
| RelayConnection.WaitAfterLastingSession | crates/relay-transport/src/connection.rs:83-88 | a sequence where it is not |
| RelayConnection.PingOnlyAfterItsPong | crates/relay-transport/src/connection.rs:117-165 | between two pings the first one's payload was echoed; the next carries the next number, a full interval later |
| RelayConnection.Outstanding | crates/relay-transport/src/connection.rs:130-150 | until its pong comes, the deadline stands and no other ping is sent |
| RelayConnection.StalePongIgnored | crates/relay-transport/src/connection.rs:139-150 | a stale or unsolicited pong changes nothing |
| RelayConnection.SilenceDisconnects | crates/relay-transport/src/connection.rs:117-138 | a ping not echoed ends the socket at the next timer, no sooner than 10 s |
| RelayConnection.PayloadInjective | crates/relay-transport/src/connection.rs:125-146 | big-endian ping payloads tell ids apart |
| RelayConnection.Heartbeat.OnPong | crates/relay-transport/src/connection.rs:139-150 | the fields move as the machine says |
| RelayConnection.Heartbeat.OnTimer | crates/relay-transport/src/connection.rs:121-138 | disconnects if a pong is due, else pings with the next number |
| SignerPolicy.FindSays | crates/signer-core/src/policy.rs:113-118 | with one rule per scope, the rule found is the only one for its scope, and none is found only where none exists |
| SignerPolicy.AllowedExactlyWhen | crates/signer-core/src/policy.rs:96-118 | deny-all, then the exact kind, then the whole method, then allow-all decide; in terms of which rules exist, in any order |
| SignerPolicy.OrderIrrelevant | crates/signer-core/src/policy.rs:96-118 | with one rule per scope the order of rows does not matter |
| SignerStorage.OpKeeps | crates/signer-core/src/storage/clients.rs:15-183 | every client operation keeps: removed implies revoked, revoked implies no app-wide flag, never both flags, one row per key |
| SignerStorage.RevokedForGood | crates/signer-core/src/storage/clients.rs:15-183 | under every sequence of operations a revoked key stays revoked, from the same moment, without flags |
| SignerStorage.Storage.UpsertClient | crates/signer-core/src/storage/clients.rs:15-42 | lists a known client again without lifting its revocation, or inserts a new one |
| SignerStorage.Storage.SetAllowAll | crates/signer-core/src/storage/clients.rs:83-99 | only a listed client of that account; clears deny-all |
| SignerStorage.Storage.DenyActions | crates/signer-core/src/storage/clients.rs:101-112 | only a listed client of that account; clears allow-all |
| SignerStorage.Storage.ForgetRules | crates/signer-core/src/storage/clients.rs:114-133 | flags and rules of a listed client go together; it has no rule left |
| SignerStorage.Storage.RevokeClient | crates/signer-core/src/storage/clients.rs:135-162 | once, with flags and rules; it has no rule left |
| SignerStorage.Storage.RemoveClient | crates/signer-core/src/storage/clients.rs:164-183 | revokes if need be, keeps earlier times, drops flags and every rule |
| SignerStorage.OthersKeepRules | crates/signer-core/src/storage/clients.rs:114-183 | dropping one client's rules leaves every other client's, in order |
| SignerStorage.Storage.SetRule | crates/signer-core/src/storage/policies.rs:51-67 | exactly one decision for that scope afterwards, every other rule as before |
| SignerStorage.Storage.ClearRule | crates/signer-core/src/storage/policies.rs:69-79 | that rule and no other is gone |
| SignerStorage.Storage.PolicyOf | crates/signer-core/src/storage/policies.rs:14-48 | exactly the client's rules; its own allow-all as allow-all and deny-all as deny-all, only while it is listed; unique scopes |
| SignerStorage.RulesUnique | crates/signer-core/src/storage/policies.rs:14-48 | a client's rules never share a scope |
| SignerStorage.Storage.UsablePairing | crates/signer-core/src/storage/pairings.rs:96-109 | finds an unconsumed, unexpired pairing with that secret if there is one |
| SignerStorage.Storage.ConsumePairing | crates/signer-core/src/storage/pairings.rs:111-125 | consumes once, binding the client |
| SignerStorage.Storage.PrunePairings | crates/signer-core/src/storage/pairings.rs:128-135 | keeps exactly the unconsumed, unexpired ones |
| SignerPairings.RunKeepsInv | crates/signer-core/src/session.rs:318-372 | the invariants hold in every state of concurrent connects interleaved at storage calls |
| SignerPairings.SecretsAreOneShot | crates/signer-core/src/session.rs:318-372 | each pairing row admits at most one connect, for its own account, its bound client if any, and a lookup before expiry |
| SignerPairings.ListedOnlyByConnect | crates/signer-core/src/session.rs:350-358 | a client row appears or is listed again only by such a success |
| SignerSession.Session.Handle | crates/signer-core/src/session.rs:147-212 | a repeat within the window gets the same answer and nothing else happens; any other request has exactly the effects of its dispatch, and its reply if it could be sealed; no answered request is dispatched again within the window |
| SignerSession.Session.Dispatch | crates/signer-core/src/session.rs:251-312 | per kind of request the reply, every table afterwards, and exactly one activity row but for an answered ping; the key is used if and only if the sender is a client in good standing with a grant |
| SignerSession.Session.Connect | crates/signer-core/src/session.rs:318-372 | for the usable row the lookup found: admits exactly if it is of this account and sender, consumes it, lists the client, logs it; a refusal changes nothing |
| SignerSession.Session.Authorize | crates/signer-core/src/session.rs:375-405 | stored rules decide, else the user; one row with matching verdict and source; the tables change only under a prompt |
| SignerSession.Session.Ask | crates/signer-core/src/session.rs:407-475 | the tables afterwards are what the user made of them meanwhile, and a remembered answer sets the one rule of its scope; an error or silence grants nothing |
| SignerSession.GoodUntilWithdrawn | crates/signer-core/src/storage/clients.rs:83-183 | under any changes a client keeps its row and loses its standing exactly by being revoked or removed |
| SignerSession.UsedAfterRevocationWhen | crates/signer-core/src/session.rs:286-310 | the key is used for a sender no longer trusted if and only if the user was asked, revoked or removed it meanwhile, and said yes |
| SignerSession.OperationUsesRevoked | crates/signer-core/src/session.rs:286-475 | the same of what a dispatched operation does |
| SignerSession.RevocationStopsUse | crates/signer-core/src/session.rs:286-310 | from the tables alone: no answer and no change makes that happen if and only if the request needs no prompt |
| SignerSession.RevokedButSigned | crates/signer-core/src/session.rs:407-446 | an input where it happens |
| SignerSession.ConnectIsDetermined | crates/signer-core/src/session.rs:329-347 | every lookup result gives success just when some row admits, if and only if all usable rows with the secret agree on the sender |
| SignerSession.SecretIsUsedUp | crates/signer-core/src/storage/pairings.rs:96-125 | a success leaves no usable row with the secret if and only if there was no other |
| SignerSession.SameSecretTwice | crates/signer-core/src/pairing.rs:133-152 | one client secret stored for two accounts, where both fail |
| SignerSession.TurnedAway | crates/signer-core/src/session.rs:288-297 | a missing or revoked client has no other row to be trusted by |
| SignerSession.FlagsAndRowsDecide | crates/signer-core/src/storage/policies.rs:14-48 | what a client's policy allows and denies, in its own flags and rows |
| SignerSession.DenyAllRefuses | crates/signer-core/src/session.rs:375-405 | a client with deny-all never executes and is logged as denied by policy |
| SignerSession.AllowAllExecutes | crates/signer-core/src/session.rs:375-405 | one with allow-all and no rule executes without a prompt, logged as allowed by policy |
| SignerSession.UncoveredIsAsked | crates/signer-core/src/session.rs:375-475 | one with neither is prompted; only a yes executes; verdict and source follow the answer |
| SignerSession.RememberedIsTheRule | crates/signer-core/src/session.rs:433-437 | an answer to be remembered is afterwards the one rule of its scope; any other adds none |
| SignerSession.UnlistedFlagsDecideNothing | crates/signer-core/src/session.rs:288-297 | a revoked or removed client is refused and logged whatever its flags |
| SignerSession.DenyActionsStops | crates/signer-core/src/storage/clients.rs:101-112 | after a successful deny-actions every operation of that client is refused |
| SignerSession.AllowAllGrants | crates/signer-core/src/storage/clients.rs:83-99 | after a successful allow-all its operations without a rule are served |
| SignerSession.ConnectedBy | crates/signer-core/src/session.rs:318-372 | a success has a row with that secret, unused, unexpired, of that account and client or of none; it is used up and the sender listed |
| SignerSession.RefusedBecause | crates/signer-core/src/session.rs:318-347 | the only reasons for a refusal |
| SignerSession.DispatchKeepsCache | crates/signer-core/src/session.rs:574-590 | the cache holds every young answer, and answered requests are spaced by the window |
| Receiving.Collector.Handle | src-tauri/src/wallet/receiving.rs:74-101 | one quote's record and gain, in its own record and outcome; the others are untouched |
| Receiving.Collector.Collect | src-tauri/src/wallet/receiving.rs:67-103 | visits in order until locked, totals what was issued, leaves the rest |
| Receiving.TotalIsSum | src-tauri/src/wallet/receiving.rs:82-88 | the total is the sum of the gains, saturating |
| Receiving.GainIs | src-tauri/src/wallet/receiving.rs:70-93 | a quote adds what was issued if it was tried and collected, else nothing; tried unless blocked or too early, or manually |
| Receiving.VisitIsSteps | src-tauri/src/wallet/receiving.rs:74-101 | a visited quote goes through exactly the machine's steps |
| Receiving.ShiftIsExact | src-tauri/src/wallet/receiving.rs:22-30 | the capped shift is min(60 * 2^(k-1), 1800) for every k |
| Receiving.BackoffSurvivesCrashes | src-tauri/src/wallet/receiving.rs:22-103 | a background attempt starts at least that long after the k-th, even if the process died mid-attempt |
| Receiving.BackoffIsExact | src-tauri/src/wallet/receiving.rs:22-76 | a background attempt may start if and only if that delay is over and the last failure was not definitive; a manual one always may |
| Receiving.DelayHoldsUnlessSaturated | src-tauri/src/wallet/receiving.rs:22-33 | the delay is enforced if and only if it ends within `u64` |
| Receiving.RejectionWaitsForUser | src-tauri/src/wallet/receiving.rs:31-33 | after a definitive failure the next attempt is manual |
| QuoteSync.ValidatedExactly | src-tauri/src/npubcash.rs:276-315 | both ways, which quotes are stored and which skipped; any other is an error |
| QuoteSync.AcceptedIsSound | src-tauri/src/npubcash.rs:276-315 | an accepted quote has this mint, sats, an amount and its own mainnet invoice, if and only if its amount in millisats fits `u64` |
| QuoteSync.OverflowAccepted | src-tauri/src/npubcash.rs:305-313 | an accepted quote that does not |
| QuoteSync.KeptAreValid | src-tauri/src/npubcash.rs:353-361 | whatever is kept of some quotes is one of them, validated, under the normalised mint |
| QuoteSync.KeptOne | src-tauri/src/npubcash.rs:353-361 | a single quote is kept just when it passes |
| QuoteSync.KeptConcat | src-tauri/src/npubcash.rs:341-367 | what is kept of two stretches is what is kept of each, in order |
| QuoteSync.StorePage | src-tauri/src/npubcash.rs:353-361 | stores exactly the quotes that pass, up to the first bad one, and stops there |
| QuoteSync.SyncQuotes | src-tauri/src/npubcash.rs:335-369 | terminates against any provider; finished or not, everything stored was fetched and validated; a finished pass over a stable provider examined each position once; a reliable one is always finished |

## Left out

- User interface, tray, window, Tauri command plumbing, Keychain, LocalAuthentication, notification delivery: foreign calls.
- Cryptography, bech32, NIP-04 and NIP-44, BOLT11 and BIP-39 parsing, HTTP and DNS: parameters, or identities compared for equality.
- SQLite and SQLCipher internals, storage errors inside a command: a statement either happens or the command stops there; in the NWC machine a claim that fails to be recorded is treated as refused.
- The payment library's sagas and mint calls: steps of the environment with the assumptions stated above.
- Ids, keys, secrets and mints are integers compared for equality, not strings; lengths and formats are not modelled except in quote validation and event tags.
- The lock epoch is an unbounded counter: 2^64 locks in one process are not modelled.
- One clock reading per relay call, in milliseconds, where the source reads the clock at several places of one call.
- Cashu and name reviews (`cashu_approvals`, `name_approvals`) and the tray's vault-only lock: the map invariant is not claimed for them.
- Receiving.Collector.Collect: the history sorting and the wording of failures are not modelled; they decide nothing.
- NwcService.Service.Show: the notification and the window that accompany a prompt are not modelled.
- NwcService.Service.Resolve: what the handler saw while it waited is given as turns, tied to the machine at the end only.
- WalletReviews.WalletService.BeginReview: the first invoice check and the mint's quote that precede a review are not modelled.
- NwcPayments.PaidAtMostOnce: covers the NWC path only; paying by hand does not claim payment hashes.
- Migration.Wallets.Convert: one identity; the other identities' databases in the directory, the preserved NWC transport keys and the marker's namespace check are not modelled.
- The copy or rename of a previous data directory that precedes the conversion: whole-directory file operations.
- SignerSession.Session.Handle: one account handled serially, with the vault held; requests deferred while locked are not modelled.
- SignerSession.Session.Ask: while a prompt is open the user may approve, deny, forget, revoke and remove clients and edit rules; a new pairing, or a connect served at the same time, is not modelled there.
- SignerSession.Session.Dispatch: what an operation computes is not modelled, only whether it is carried out.
- Account deletion's cascade over clients and pairings; `touch_client` timestamps; request previews.
- NameWallet.Wallet.ClaimName: the review that precedes it is summed up in its terms (valid, same price, affordable).
