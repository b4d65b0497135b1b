# kvdb in Dafny

A model of the core of kvdb, a small key-value server written in Go. Clients
send one query per read on a TCP connection. The server answers each query
with one status word, or with the stored value for a `GET`. Data lives in
named databases, and each database is a flat map from key to value.

The model has five modules:

- `Wrappers` (wrappers.dfy): `Option`, `Result` and `Outcome`. An `Outcome` is
  Go's `error`: `Pass` is `nil`, `Fail(e)` carries the response word.
- `Responses` (responses.dfy): the eight response words of response.go.
- `Strings` (strings.dfy): the two functions of Go's `strings` package that
  the server relies on, `Contains` and `Trim`, with `TrimLeft` and
  `TrimRight`, on `seq<char>`.
- `Store` (store.dfy): the storage engine of db.go. One specification
  function per operation (`CreateDBEffect`, `AddEffect`, `Lookup`, ...)
  gives the new collection and the error. The class `Database` holds the
  collection in a field that its methods update in place. Each method is
  proved to do what its specification function says. Each file-backed
  mutation also appends, to the ghost log `saves`, the collection the
  deferred `Save` writes. `Save` runs after the mutation, so that is the
  collection after it.
- `Server` (server.go): the handlers, the `switch` of `handleConn` as
  `Dispatch`, and the connection loop `HandleConn`. `HandleConn` is proved
  equal to the function `Serve`, which gives the final store, the replies in
  order and the saves requested. It also holds the dirty-gated backup step
  `PerformBackup`.

The Go server works on one global `db`. Here each handler takes the
`Database` as a parameter. A read from the connection is given to the model
already parsed (`ReadResult`), since the query parser is not part of this
model. A chunk the parser rejects is `Unparsable`. A parse that fills in no
query form is `NoVariant`.

`UPDATE` trims newlines but not quotes (server.go:254), unlike `SET`
(server.go:200). The model follows the code: a quoted `UPDATE` value is stored
with its quotes, as `Server.UpdateThenGet` and `Server.HelloWorldSession`
state.

The `Database` struct in db.go:17-21 has no `Dirty` field. Yet
`PerformBackup` (server.go:98-109) reads and clears `db.Dirty`. The model
gives `Database` a `dirty` field. As in the code, no operation ever sets it:
only the backup step reads and clears it.

## Model

| member | source | states |
|---|---|---|
| Responses.Text | response.go:3-12 | each response word is non-empty, never holds the reserved `:`, and neither starts nor ends with a quote |
| Responses.TextInjective | response.go:3-12 | two responses have the same word exactly when they are the same response |
| Strings.Contains | server.go:169 | Go's `strings.Contains`: the empty string is always found, and nothing longer than `s` is |
| Strings.ContainsChar | server.go:168-170 | `strings.Contains(s, ":")` holds exactly when the character `:` occurs in `s` |
| Strings.TrimLeft | server.go:200 | the result is a suffix of the input, and it does not start with a cutset character |
| Strings.TrimLeftDrops | server.go:200 | everything `TrimLeft` drops is a cutset character |
| Strings.TrimRight | server.go:200 | the result is a prefix of the input, and it does not end with a cutset character |
| Strings.TrimRightDrops | server.go:200 | everything `TrimRight` drops is a cutset character |
| Strings.Trim | server.go:200 | the result is no longer than the input, and it neither starts nor ends with a cutset character |
| Strings.TrimFramed | server.go:200 | the result of `Trim` sits inside the input with only cutset characters on either side |
| Strings.TrimKeeps | server.go:254 | a character outside the cutset is in the trimmed value exactly when it is in the input |
| Strings.TrimIdempotent | server.go:254 | trimming twice gives the same as trimming once |
| Store.CreateDBEffect | db.go:82-98 | an existing name gives `ALREADY_EXISTS` and no change; otherwise the name maps to an empty database and no other database changes |
| Store.DeleteDBEffect | db.go:100-116 | an unknown name gives `DATABASE_NOT_FOUND` and no change; otherwise the database is gone and no other database changes |
| Store.AddEffect | db.go:118-138 | the database is checked before the key; an existing key gives `ALREADY_EXISTS` and is never overwritten; a new key gets the value and nothing else changes |
| Store.Lookup | db.go:140-155 | succeeds exactly when the database and the key exist, with the stored value; a missing database is reported before a missing key |
| Store.RemoveEffect | db.go:157-177 | a missing database or key gives its error and no change; otherwise exactly that key is gone |
| Store.UpdateEffect | db.go:179-199 | a missing database or key gives its error and no change, so no key is created; otherwise only that key's value changes |
| Store.SaveLog | db.go:91-93 | the deferred `Save` hands over at most one collection, the one after the mutation, and does so exactly when the path is set and the mutation succeeded |
| Store.Database.constructor | db.go:75-80 | a new database has the given path, an empty collection, a clear dirty flag and no saves |
| Store.Database.CreateDB | db.go:82-98 | the collection and error are those of `CreateDBEffect`; a save of the new collection is requested exactly when the path is set and the call succeeds |
| Store.Database.DeleteDB | db.go:100-116 | the collection and error are those of `DeleteDBEffect`; a save is requested exactly when the path is set and the call succeeds |
| Store.Database.Add | db.go:118-138 | the collection and error are those of `AddEffect`; a save is requested exactly when the path is set and the call succeeds |
| Store.Database.Get | db.go:140-155 | the answer is that of `Lookup`, and nothing changes |
| Store.Database.Remove | db.go:157-177 | the collection and error are those of `RemoveEffect`; a save is requested exactly when the path is set and the call succeeds |
| Store.Database.Update | db.go:179-199 | the collection and error are those of `UpdateEffect`; a save is requested exactly when the path is set and the call succeeds |
| Store.FailureChangesNothing | db.go:82-199 | every operation that returns an error leaves the collection as it was |
| Store.CreateDBTwice | db.go:86-89 | creating a database a second time is refused with `ALREADY_EXISTS` and leaves the collection the first call left |
| Store.DeleteUndoesCreate | db.go:82-116 | deleting a database just created gives back the collection it was created in |
| Store.AddThenGet | db.go:118-155 | after a successful `Add`, `Get` of that key returns the value added |
| Store.RemoveUndoesAdd | db.go:118-177 | removing a key just added gives back the collection it was added to |
| Store.RemoveThenGet | db.go:140-177 | after a successful `Remove`, `Get` of that key reports `KEY_NOT_FOUND` |
| Store.UpdateKeepsKeys | db.go:179-199 | whatever its outcome, `Update` neither adds nor removes a database or a key |
| Store.UpdateThenGet | db.go:140-199 | after a successful `Update`, `Get` returns the new value |
| Store.AddAll | db.go:118-138 | a run of `Add`s on one key yields one outcome per call |
| Store.AddAllPresent | db.go:127-130 | once the key exists, every further `Add` is refused and changes nothing |
| Store.RacingAddsOneWinner | db.go:118-138 | of several `Add`s of one absent key, taken one at a time under the lock, the first wins, the rest get `ALREADY_EXISTS`, and the first value is stored |
| Server.Wire | server.go:111-116 | the bytes written for a reply; a status word is never empty and holds no `:` |
| Server.SetFresh | server.go:199-217 | a `SET` into a fresh key of a colon-free value that quote trimming leaves alone answers `OK`, and a `GET` then returns that value |
| Server.WordUntrimmed | server.go:200 | quote trimming leaves every status word as it is |
| Server.ValueLooksLikeStatus | server.go:186-217 | a status word can be stored with `SET`, and the `GET` that follows writes exactly the bytes of that status, though its reply is a value |
| Server.EmptyValueSilent | server.go:186-217 | a `SET` of `""` stores the empty value, and the `GET` that follows writes zero bytes |
| Server.Answer | server.go:176-183 | a store operation's reply: `OK` on success, the error's own word on failure, with the store the operation left |
| Server.CreateDBStep | server.go:172-184 | `CREATE` answers `OK` exactly for a new name; otherwise it answers `ALREADY_EXISTS` and leaves the store as it was |
| Server.GetStep | server.go:186-197 | `GET` never changes the store; it answers the stored value exactly when the database and the key exist, else `DATABASE_NOT_FOUND` for a missing database before `KEY_NOT_FOUND` for a missing key |
| Server.SetStep | server.go:199-217 | `SET` (quote-trim, colon check, then `Add`) always answers a status word, and any answer other than `OK` leaves the store as it was |
| Server.RemoveDBStep | server.go:219-230 | `REMOVE DB` answers `OK` exactly for an existing database; otherwise it answers `DATABASE_NOT_FOUND` and leaves the store as it was |
| Server.RemoveKeyStep | server.go:232-249 | `REMOVE KEY` without a key answers `KEY_NOT_PROVIDED` before the store is asked; a missing database answers `DATABASE_NOT_FOUND`, a missing key `KEY_NOT_FOUND`, each with the store unchanged; `OK` exactly when the key exists |
| Server.UpdateStep | server.go:251-269 | `UPDATE` (newline-trim, colon check, then `Update`) always answers a status word, and any answer other than `OK` leaves the store as it was |
| Server.IsValid | server.go:168-170 | true exactly when the value holds `:`, that is when it is illegal |
| Server.Dispatch | server.go:144-164 | whatever the query, any reply other than `OK` leaves the store unchanged |
| Server.DispatchReplies | server.go:138-164 | only a `GET` of a stored key answers with a value; `BAD_QUERY` answers exactly the unparsable queries, those with no form, and `REMOVE` other than `DB` or `KEY`; `DATABASE_IS_EMPTY` is never sent |
| Server.SetReplies | server.go:199-217 | `SET` answers only `OK`, `ILLEGAL_CHARACTERS`, `DATABASE_NOT_FOUND` or `ALREADY_EXISTS` |
| Server.UpdateReplies | server.go:251-269 | `UPDATE` answers only `OK`, `ILLEGAL_CHARACTERS`, `DATABASE_NOT_FOUND` or `KEY_NOT_FOUND` |
| Server.HandleCreateDB | server.go:172-184 | reply and new store are those of `CreateDBEffect`, with the error's word or `OK`; a save is requested exactly on `OK` with a path set |
| Server.HandleGet | server.go:186-197 | replies with the stored value, or with the word of `Lookup`'s error |
| Server.HandleSet | server.go:199-217 | strips the value's surrounding quotes; a value holding `:` gets `ILLEGAL_CHARACTERS` before the store is asked; otherwise the store changes as `AddEffect` says |
| Server.HandleRemoveDB | server.go:219-230 | reply and new store are those of `DeleteDBEffect`; a save is requested exactly on `OK` with a path set |
| Server.HandleRemoveKey | server.go:232-249 | a query without a key gets `KEY_NOT_PROVIDED` before the store is asked; otherwise the store changes as `RemoveEffect` says |
| Server.HandleUpdate | server.go:251-269 | strips surrounding newlines only; a value holding `:` gets `ILLEGAL_CHARACTERS`; otherwise the store changes as `UpdateEffect` says |
| Server.HandleQuery | server.go:137-164 | one pass of the loop body: the reply and the store change are those of `Dispatch`, and a save is requested exactly on `OK` with a path set |
| Server.Received | server.go:128-136 | the queries served are the reads before the first end of stream or read failure, in order |
| Server.Serve | server.go:124-166 | `handleConn` as a function, folding `Dispatch` over the chunks before the first end of stream or read failure: no more replies than reads, and no more saves than replies |
| Server.HandleConn | server.go:124-166 | the final store and the replies, in order, are those of `Serve`; the saves requested are the collections after each `OK`, when the path is set |
| Server.ReplyAt | server.go:128-165 | the reply to the i-th received chunk is what that query gets on the store the chunks before it left |
| Server.OneReplyPerChunk | server.go:128-165 | every received chunk gets exactly one reply, in order, and nothing after the end of stream or a read failure does |
| Server.NoOkNoChange | server.go:128-165 | a connection that is never answered `OK` leaves the store as it found it and requests no save |
| Server.NeverDatabaseIsEmpty | response.go:9 | no connection is ever answered `DATABASE_IS_EMPTY` |
| Server.ColonRefused | server.go:199-259 | a value holding `:` is refused by both `SET` and `UPDATE`, whatever trimming does, and the store is not touched |
| Server.ColonFreeStored | server.go:199-269 | a value without `:` goes to the store, quote-trimmed for `SET` and newline-trimmed for `UPDATE` |
| Server.SetThenGet | server.go:199-217 | after a successful `SET`, `GET` returns the value without surrounding quotes; it holds no `:` and neither starts nor ends with a quote |
| Server.UpdateThenGet | server.go:251-269 | after a successful `UPDATE`, `GET` returns the value without surrounding newlines, and it holds a quote exactly when the value sent did (`Strings.TrimFramed` shows only newlines at the ends are cut) |
| Server.HelloWorldSession | server.go:124-269 | a session on an empty store that creates a database, sets a key to `"hello"`, reads it, updates it to `"world"`, reads it, removes it and reads it gets `OK, OK, hello, OK, "world", OK, KEY_NOT_FOUND`: `SET` strips the quotes and `UPDATE` keeps them |
| Server.KeyLifecycle | server.go:124-269 | on an empty store, a connection that creates a database, sets, reads, updates, reads, removes and reads a key gets `OK, OK, value, OK, value, OK, KEY_NOT_FOUND`, each value stripped as its query form says, and goes on with an empty database |
| Server.EmptyStoreReplies | server.go:138-148 | on an empty store, `GET` reports `DATABASE_NOT_FOUND`, and a query that does not parse gets `BAD_QUERY` |
| Server.BackupStep | server.go:98-109 | a clean store is not written; a dirty store is written, and it stays dirty exactly when the write fails |
| Server.PerformBackup | server.go:98-109 | the dirty flag and the backups written are those of `BackupStep` |
| Server.BackupTwice | server.go:98-109 | two backup steps in a row write successfully at most once, and the second writes only to retry a first write that failed |

## Left out

- Locking (`sync.RWMutex`) and concurrency: each store operation is one atomic step. `Store.RacingAddsOneWinner` covers racing `Add`s as the lock orders them. `PerformBackup` (server.go:98-109) and the `SaveToFile` it calls (db.go:55-73) take no lock, so in the code a backup could encode `Maps` and clear `Dirty` while a handler mutates the store. The model treats the backup step as atomic too. As written, that path never runs, because nothing sets `Dirty`.
- `LoadFromFile`, `SaveToFile` and the `gob` encoding: file I/O. A save is recorded as the collection it would write, in the ghost logs `saves` and `backups`. A failed save is only logged by the code, so it changes nothing here.
- `Save`'s error logging, and every `LogInfo`, `LogWarn` and `LogError` call: logging only.
- `StartServer`, `BackupService` and its ticker, and the context: networking, timers and concurrency. `PerformBackup` is modelled; when it runs is not.
- `PerformBackup`: whether the file write succeeds is the parameter `saveSucceeds`, because the file system is outside the model.
- `Server.HandleConn`: the connection I/O and the 2048-byte buffer are left out. A chunk arrives already parsed, a reply is the `Reply` value (`Server.Wire` gives its bytes), and write errors on `sendResponse` are only logged by the code. Running out of reads is the end of stream.
- `Server.HandleConn`: the buffer pool is left out, and the model takes every connection to start with a fresh buffer. server.go:127 puts a `*[]byte` back into the pool, but server.go:126 asserts `[]byte` when taking one out. So, as written, a connection handed a recycled buffer panics at that assertion before its first read, and an unrecovered goroutine panic ends the whole server. The model does not capture this.
- Server.OneReplyPerChunk: counts `sendResponse` calls, not responses a client can tell apart on the stream. Replies have no framing. A stored value can be a status word (`Server.ValueLooksLikeStatus`), and an empty value writes zero bytes (`Server.EmptyValueSilent`).
- `Server.HandleConn`: a `conn.Read` that returns data together with `io.EOF` is modelled as `Eof`. The code drops that data too.
- The query parser (query.go), the command-line front end (commands.go, main.go) and logger.go are not part of this model.
- Listing a database is not implemented by the code. `DATABASE_IS_EMPTY` exists only as a constant, and `Server.NeverDatabaseIsEmpty` proves it is never sent.
- `Strings.Trim` works on characters. Go's `strings.Trim` works on UTF-8 runes, which agrees for the ASCII cutsets `"` and newline used here.
- `dirty` is never set by any operation, as in the code. So `Server.PerformBackup` writes only if something outside the model sets the flag.
- Server.BackupTwice: does not claim that two backup steps write at most once. When the first write fails, `dirty` stays set and the second step writes again. The lemma proves what does hold: at most one of the two writes succeeds, and the second writes exactly when the first failed.
