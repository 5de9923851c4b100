# Social-messaging backend: accounts, friends and messages

This project models the account, friend and message logic of a small Express/Mongoose
backend. Users register and get a six-digit code by mail. They verify their email with
that code, log in for a JWT, manage a friend list keyed by a shareable friend code, and
send each other text messages.

The two Mongo collections are one in-memory store, the class `Backend.Store`. It holds
a map from user ids to user records (`users`) and the message log (`messages`). Each
route handler is one method of that class. A method runs the route's checks in the
route's order. It then either answers with the route's error status and leaves the
store as it was, or updates the store and answers. `Store.Valid()` is the invariant all
handlers keep:
- ids come from the allocator;
- email and friend code are unique;
- every account has its required fields and a hashed password;
- an account holds a code exactly while it is unverified;
- friend lists and messages refer to existing accounts.

Every handler that writes `users` (register, verify, add friend, remove friend) also
ensures `Evolves(old(users), users)`: no account disappears, name, email, password and
friend code never change, and `isVerified` only goes from false to true. Login, the
current-user lookup, history and send cannot change `users` at all: it is outside what
they may modify.

Modules, one per source component:
- `UserSchema` (models/User.js): the record, the `required` and `unique` rules, the
  `isVerified` default and the pre-save hook.
- `MessageSchema` (models/Message.js): the record and its `required` text.
- `Gate` (`authenticateToken`): the Authorization-header rule.
- `Codes`: the decimal rendering of the verification code.
- `Friends`: push and filter on a friend list.
- `Chat`: the `$or` filter shared by the history query and the purge.
- `Backend`: the store and its handlers.
- `Scenario`: a client that walks through register, verify, login, add friend, send,
  history and remove friend using only the handlers' contracts.

Outside collaborators become parameters or choices:
- bcrypt is symbolic. A digest is the term `Digest(of, salt)`. `Compare` accepts exactly
  the plaintext that was hashed. A run of bcrypt either yields a salt or fails
  (`Bcrypt`).
- `jwt.sign` and `jwt.verify` are function parameters (`sign`, `verify`). Expiry and the
  secret live inside `verify`.
- Whether nodemailer delivers (`mailSent`) and whether `deleteMany` completes (`purged`)
  are boolean parameters.
- The friend code drawn by `Math.random` is a parameter.
- The clock value for a message timestamp is a parameter (`now`).
- The verification code is an arbitrary choice in [100000, 999999] made inside
  `Register`.

Where the code departs from the system's intended design, the model follows the code:
- Verifying again after a successful verify answers 400 "User is already verified". The
  already-verified check comes before the code comparison, so the replayed code is
  never compared.
- Login answers `{ token, user }` and add-friend answers `{ newFriend }` with the whole
  stored record, password digest included. Only `GET /user` drops the password. The
  model's `Session` and `NewFriend` bodies carry the full `User`. Login only succeeds
  for a verified account, whose code was cleared when it was verified, so only
  add-friend can expose a pending verification code (that of an unverified friend).
- Message text that is empty or missing fails schema validation. The route's catch turns
  that into 500, not a separate validation status.
- The history query sorts on `createdAt`, which the Message schema does not have (its
  field is `timestamp`). Every document then has the same (missing) sort key, and
  MongoDB leaves the order of documents with equal keys unspecified. The program
  promises no order here; the model chooses store order.

## Model

| member | source | states |
|---|---|---|
| Gate.FirstOccurrence | routes/auth.js:12 | finds the first position at or after `from` where the pattern occurs, with no occurrence before it; None exactly when it occurs nowhere |
| Gate.ReplaceFirst | routes/auth.js:12 | a string in which the pattern occurs nowhere is returned unchanged; for an occurrence with none before it, exactly that occurrence is replaced and the rest kept |
| Gate.StripsLeadingScheme | routes/auth.js:12 | a header "Bearer " + t yields the token t, whatever t holds |
| Gate.OnlyFirstSchemeRemoved | routes/auth.js:12 | "Bearer Bearer t" yields "Bearer t": only the first occurrence goes |
| Gate.KeepsHeaderWithoutScheme | routes/auth.js:12 | a header that does not contain "Bearer " goes to the verifier as it is |
| Gate.Authenticate | routes/auth.js:11-23 | 403 (Denied) for exactly three headers: absent, empty and "Bearer " alone; for "Bearer <t>" with t non-empty, 401 (Rejected) exactly when verify fails on t, and otherwise the id verify decodes from t; a header without the scheme is verified as it is |
| Gate.TokenShape | routes/auth.js:12 | stripping "Bearer " leaves nothing exactly for the empty header and for "Bearer " alone, and leaves the rest of a header that starts with the scheme |
| Gate.MissingTokenDenied | routes/auth.js:12-13 | no header, an empty header and "Bearer " alone are all refused with 403 before verifying |
| Gate.IssuedTokenAdmitted | routes/auth.js:15-18 | a non-empty token that the verifier decodes to id, sent as "Bearer <token>", admits exactly id |
| UserSchema.NewUser | models/User.js:4-12 | a new document starts unverified, with an empty friend list and the given name, email, plaintext password, friend code and code; it passes the `required` checks exactly when name, email, password and friend code are all non-empty |
| UserSchema.Compare | routes/auth.js:113 | bcrypt.compare accepts exactly when the stored value is what hashing the given plaintext yields under some salt; a password stored as plaintext is refused even when it matches |
| UserSchema.PreSave | models/User.js:14-25 | the save fails exactly on a hashing error; no field but the password ever changes; an unmodified password is kept; a modified one is replaced by a digest that differs from it and that compare accepts for the original plaintext and no other |
| UserSchema.HashedPasswordVerifies | models/User.js:18-19 | a stored digest never equals the plaintext, compare accepts the original plaintext and no other, and every other field is kept |
| Codes.Decimal | routes/auth.js:43 | `toString()` of a number is a non-empty string of decimal digits |
| Codes.ValueOfDecimal | routes/auth.js:43 | reading the rendered digits back gives the number again |
| Codes.DecimalInjective | routes/auth.js:85 | distinct codes render as distinct strings, so the string comparison tells codes apart |
| Codes.DecimalLength | routes/auth.js:43 | a number with k + 1 digits renders as k + 1 characters without a leading zero |
| Codes.SixDigitCode | routes/auth.js:43 | every code in [100000, 999999] is a six-digit string with no leading zero |
| Friends.Push | routes/auth.js:137 | the friend's id goes at the end, the length grows by one, earlier entries are unchanged, and the id's count grows by one even if it was present |
| Friends.RemoveAll | routes/auth.js:151 | the removed id no longer occurs, and nothing new appears |
| Friends.RemoveAllDistributes | routes/auth.js:151 | removal splits over concatenation, so the kept entries stay in their original order |
| Friends.RemoveAllKeepsOthers | routes/auth.js:151 | every other id keeps its multiplicity |
| Friends.RemoveAllAbsent | routes/auth.js:151 | a list without the id is unchanged |
| Friends.RemoveAllIdempotent | routes/auth.js:151 | removing twice is removing once |
| Friends.RemoveAfterPushes | routes/auth.js:137-151 | after any number of duplicate adds, one removal clears every copy and leaves the rest as before |
| Chat.Between | routes/chat.js:14-18 | the history holds exactly the log's messages with (sender, receiver) equal to (a, b) or (b, a) |
| Chat.Purge | routes/auth.js:154-159 | after deleteMany the log holds exactly the messages not between the two users |
| Chat.BetweenSymmetric | routes/chat.js:14-18 | asking for (b, a) gives the same messages, in the same order, as (a, b) |
| Chat.BetweenDistributes | routes/chat.js:14-18 | the history query splits over concatenation, so it keeps store order |
| Chat.PurgeDistributes | routes/auth.js:154-159 | the purge splits over concatenation, so what it keeps stays in store order |
| Chat.HistoryAfterSend | routes/chat.js:42-43 | a newly saved message appears at the end of exactly the history it belongs to |
| Chat.PurgePartitions | routes/auth.js:154-159 | history and purge partition the log: every message is deleted or kept, as often as it occurs |
| Chat.PurgeClearsHistory | routes/auth.js:154-159 | after the purge the history between the two users is empty in both orders |
| Chat.PurgeKeepsOtherHistories | routes/auth.js:154-159 | the purge leaves every conversation between another pair of users untouched |
| Backend.UpdateConsistent | routes/auth.js:90-92 | an in-place update keeping name, email, password and friend code, with known friends and a code held exactly while unverified, keeps the store invariant and the evolution rule |
| Backend.InsertConsistent | routes/auth.js:47-56 | storing a well-formed new account with no friends under the next id, when no unique index clashes, keeps the store invariant and the evolution rule |
| Backend.FreshDocumentClashes | models/User.js:6-8 | for a new id and an email nobody holds, the save clashes exactly when the friend code is already taken |
| Backend.UpdateSaves | models/User.js:15 | saving such an update never rehashes and never hits a unique index, so it succeeds |
| Backend.EvolvesTransitive | routes/auth.js:81-92 | the evolution rule composes across requests, so a verified account stays verified for good |
| Backend.Store.FindOneByEmail | routes/auth.js:39 | returns an account with that email, or None exactly when there is none |
| Backend.Store.FindOneByFriendCode | routes/auth.js:130 | returns an account with that friend code, or None exactly when there is none |
| Backend.Store.Save | models/User.js:4-25 | succeeds exactly when the required fields are present, hashing succeeds if it runs, and no other account has the email or friend code; then it stores the hooked document, otherwise nothing |
| Backend.Store.Register | routes/auth.js:34-71 | a stored email gives 400 and no change; otherwise a new unverified account with a hashed password, no friends and a six-digit code is stored iff the save succeeds; a mail failure gives 500 but the account stays; no response carries the code |
| Backend.Store.Verify | routes/auth.js:74-99 | unknown email 404; already verified 400; code mismatch 400 and still unverified; a match verifies and clears the code; only a match changes the store |
| Backend.Store.Login | routes/auth.js:102-122 | unknown email 404; unverified 403 whatever the password; a failed compare 400; a token for the account only when it is verified and the password matches |
| Backend.Store.AddFriend | routes/auth.js:125-144 | gate 403/401 with no change; unknown friend code 404 with no change; a missing caller 500; otherwise the friend's id is pushed onto the caller's list and the friend's record is returned |
| Backend.Store.RemoveFriend | routes/auth.js:147-166 | gate 403/401 with no change; a missing caller 500; otherwise every occurrence of the id leaves the list, then the conversation is purged; a failed purge gives 500 with the list already saved |
| Backend.Store.CurrentUser | routes/auth.js:169-179 | gate 403/401; the caller's record without its password, or 404 if the account does not exist |
| Backend.Store.History | routes/chat.js:8-26 | 200 with exactly the messages between the two users, in store order |
| Backend.Store.Send | routes/chat.js:29-53 | an unknown sender or receiver gives 404 and no message; text that is missing or empty fails the Message schema's `required` check (models/Message.js:3-8) and gives 500 with no message; otherwise exactly one message holding the given sender, receiver and text, stamped with the server time, is appended and returned with 201; users unchanged |

## Left out

- The socket.io live relay in server.js (`send_message` rebroadcast as `receive_message`), the connection registry, CORS, route mounting and `listen`: this is transport and concurrency with no logic of its own.
- config/db.js: connection bootstrap and `process.exit`.
- routes/user.js: read-only lookups. Their projection without a password is the same `Public` used by `CurrentUser`.
- Real bcrypt, JWT signing and expiry, and nodemailer are outside collaborators. Salt generation, the cost factor, bcrypt's 72-byte input limit and the one-hour expiry are not modelled. Token validity belongs to the `verify` parameter.
- The floating-point draw of `Math.random()` and the base-36 substring: the code is an arbitrary choice in range, and the friend code is an input of `Register` with no shape constraint. A friend code that collides, or an empty one, fails the save, as in the source.
- Database failures other than the ones named above (a failing `findOne`, `find` or `save` that answers 500) are not modelled. A save fails only through validation, hashing or a unique index.
- Request fields that are missing: only text, sender, receiver and the verification code are optional in the model. Mongoose's handling of `undefined` in query filters is not modelled for the other fields. Ids that are not valid ObjectId strings (a cast error answering 500) and JSON values of another type are not modelled either.
- Interleaving of concurrent requests: each handler is one sequential method. The only part of the non-atomic remove-friend that is modelled is a purge that fails after the friend list was saved.
- Message ids and Mongoose's version key. Logging.
- Backend.Store.History: does not model the sort on `createdAt`. The schema has no such field, so every record has the same missing sort key, and MongoDB gives no order among equal keys. The model returns store order, which is one of the orders the program may produce, not an order it promises.
- Backend.Store.RemoveFriend: the request's `friendId` is a `UserId` with one spelling. In the source the two steps compare it differently. The friend-list filter compares each entry's `toString()` (lower-case hex) with the raw body string using `!==`. `deleteMany` casts the string to an ObjectId. So a valid id written in upper-case hex leaves the friend list as it was but still purges the conversation. The model does not capture that case: for it, both steps act on the same id.
