/**
 * The per-connection protocol of the server (server.go): each query a client
 * sends is dispatched to the storage engine and answered with exactly one
 * response; plus the dirty-gated backup step.
 */
module Server {
  import opened Wrappers
  import opened Responses
  import opened Strings
  import opened Store

  /** `db.key` in a query. */
  datatype Location = Location(db: string, key: string)

  /**
   * A received chunk as the dispatcher sees it once parsed. `NoVariant` is
   * a parse that filled in none of the query forms; `Unparsable` is a
   * chunk the parser rejected.
   */
  datatype Query =
    | CreateDB(name: string)
    | Get(location: Location)
    | Set(location: Location, value: string)
    | Remove(which: string, db: string, key: Option<string>)
    | Update(location: Location, value: string)
    | NoVariant
    | Unparsable

  /** One answer on the wire: a status word or, for `GET`, the stored value. */
  datatype Reply = Status(code: Response) | Value(value: string)

  /**
   * The bytes `sendResponse` writes for a reply: the status word, or the
   * stored value as it is. A status word is never empty and holds no `:`.
   */
  function Wire(reply: Reply): (w: string)
    ensures reply.Status? ==> w != [] && ':' !in w
  {
    match reply
    case Status(code) => Text(code)
    case Value(v) => v
  }

  /** The store after a query and the reply sent for it. */
  datatype Step = Step(maps: Maps, reply: Reply)

  /**
   * `IsValid`: despite its name, true exactly when `data` holds the
   * reserved `:` character, that is when the value is illegal.
   */
  function IsValid(data: string): (illegal: bool)
    ensures illegal <==> ':' in data
  {
    ContainsChar(data, ':');
    Contains(data, ":")
  }

  /** A store operation's reply: `OK` on success, else its error's word. */
  function Answer(e: Effect): (s: Step)
    ensures s.maps == e.maps && s.reply.Status?
    ensures e.result.Pass? ==> s.reply == Status(Ok)
    ensures e.result.Fail? ==> s.reply == Status(e.result.error)
  {
    Step(e.maps, if e.result.Pass? then Status(Ok) else Status(e.result.error))
  }

  function CreateDBStep(m: Maps, name: string): (s: Step)
    ensures s.reply == Status(Ok) <==> name !in m
    ensures s.reply != Status(Ok) ==> s == Step(m, Status(AlreadyExists))
  {
    Answer(CreateDBEffect(m, name))
  }

  function GetStep(m: Maps, location: Location): (s: Step)
    ensures s.maps == m
    ensures s.reply.Value? <==> location.db in m && location.key in m[location.db]
    ensures s.reply.Value? ==> s.reply.value == m[location.db][location.key]
    ensures location.db !in m ==> s.reply == Status(DatabaseNotFound)
    ensures location.db in m && location.key !in m[location.db] ==> s.reply == Status(KeyNotFound)
  {
    match Lookup(m, location.db, location.key)
    case Success(v) => Step(m, Value(v))
    case Failure(err) => Step(m, Status(err))
  }

  /** `SET`: the value is stripped of its surrounding double quotes, then validated. */
  function SetStep(m: Maps, location: Location, value: string): (s: Step)
    ensures s.reply.Status? && (s.reply != Status(Ok) ==> s.maps == m)
  {
    var v := Trim(value, "\"");
    if IsValid(v) then Step(m, Status(IllegalChars))
    else Answer(AddEffect(m, location.db, location.key, v))
  }

  function RemoveDBStep(m: Maps, name: string): (s: Step)
    ensures s.reply == Status(Ok) <==> name in m
    ensures s.reply != Status(Ok) ==> s == Step(m, Status(DatabaseNotFound))
  {
    Answer(DeleteDBEffect(m, name))
  }

  /** `REMOVE KEY`: a query without a key is refused before the store is asked. */
  function RemoveKeyStep(m: Maps, name: string, key: Option<string>): (s: Step)
    ensures s.reply == Status(Ok) <==> key.Some? && name in m && key.value in m[name]
    ensures s.reply != Status(Ok) ==> s.maps == m
    ensures key.None? ==> s == Step(m, Status(KeyNotProvided))
    ensures key.Some? && name !in m ==> s == Step(m, Status(DatabaseNotFound))
    ensures key.Some? && name in m && key.value !in m[name] ==> s == Step(m, Status(KeyNotFound))
  {
    match key
    case None => Step(m, Status(KeyNotProvided))
    case Some(k) => Answer(RemoveEffect(m, name, k))
  }

  /**
   * `UPDATE`: the value is stripped of surrounding newlines only (quotes are
   * kept), then validated as for `SET`.
   */
  function UpdateStep(m: Maps, location: Location, value: string): (s: Step)
    ensures s.reply.Status? && (s.reply != Status(Ok) ==> s.maps == m)
  {
    var v := Trim(value, "\n");
    if IsValid(v) then Step(m, Status(IllegalChars))
    else Answer(UpdateEffect(m, location.db, location.key, v))
  }

  /**
   * The `switch` of `handleConn`: which handler a query goes to. Whatever
   * the query, a reply other than `OK` comes with the store unchanged.
   */
  function Dispatch(m: Maps, q: Query): (s: Step)
    ensures s.reply != Status(Ok) ==> s.maps == m
  {
    match q
    case CreateDB(name) => CreateDBStep(m, name)
    case Get(location) => GetStep(m, location)
    case Set(location, value) => SetStep(m, location, value)
    case Remove(which, name, key) =>
      if which == "DB" then RemoveDBStep(m, name)
      else if which == "KEY" then RemoveKeyStep(m, name, key)
      else Step(m, Status(BadQuery))
    case Update(location, value) => UpdateStep(m, location, value)
    case NoVariant => Step(m, Status(BadQuery))
    case Unparsable => Step(m, Status(BadQuery))
  }

  /**
   * What a reply says about its query: only a `GET` of a stored key answers
   * with a value, `BAD_QUERY` is the answer to exactly the queries no
   * handler takes, and `DATABASE_IS_EMPTY` is never sent.
   */
  lemma DispatchReplies(m: Maps, q: Query)
    ensures Dispatch(m, q).reply.Value? <==> q.Get? && Lookup(m, q.location.db, q.location.key).Success?
    ensures Dispatch(m, q).reply == Status(BadQuery) <==>
      q.Unparsable? || q.NoVariant? || (q.Remove? && q.which != "DB" && q.which != "KEY")
    ensures Dispatch(m, q).reply != Status(DatabaseIsEmpty)
  {
    match q
    case Set(location, value) =>
      SetReplies(m, location, value);
    case Update(location, value) =>
      UpdateReplies(m, location, value);
    case _ =>
  }

  /** What `SET` can answer: an illegal value, a missing database, a taken key, or `OK`. */
  lemma SetReplies(m: Maps, location: Location, value: string)
    ensures SetStep(m, location, value).reply.Status?
    ensures SetStep(m, location, value).reply.code in {Ok, IllegalChars, DatabaseNotFound, AlreadyExists}
  {
    var v := Trim(value, "\"");
    if !IsValid(v) {
      var e := AddEffect(m, location.db, location.key, v);
      assert e.result.Fail? ==> e.result.error in {DatabaseNotFound, AlreadyExists};
    }
  }

  /** What `UPDATE` can answer: an illegal value, a missing database or key, or `OK`. */
  lemma UpdateReplies(m: Maps, location: Location, value: string)
    ensures UpdateStep(m, location, value).reply.Status?
    ensures UpdateStep(m, location, value).reply.code in {Ok, IllegalChars, DatabaseNotFound, KeyNotFound}
  {
    var v := Trim(value, "\n");
    if !IsValid(v) {
      var e := UpdateEffect(m, location.db, location.key, v);
      assert e.result.Fail? ==> e.result.error in {DatabaseNotFound, KeyNotFound};
    }
  }

  // ---------------------------------------------------------------------
  // The handlers. The original works on one global store; here the store
  // is passed in.
  // ---------------------------------------------------------------------

  method HandleCreateDB(db: Database, name: string) returns (reply: Reply)
    modifies db`maps, db`saves
    ensures var s := CreateDBStep(old(db.maps), name); db.maps == s.maps && reply == s.reply
    ensures db.saves == old(db.saves) + SaveLog(db.path, reply == Status(Ok), db.maps)
  {
    var err := db.CreateDB(name);
    if err.Fail? {
      return Status(err.error);
    }
    return Status(Ok);
  }

  method HandleGet(db: Database, location: Location) returns (reply: Reply)
    ensures reply == GetStep(db.maps, location).reply
  {
    var r := db.Get(location.db, location.key);
    if r.Failure? {
      return Status(r.error);
    }
    return Value(r.value);
  }

  method HandleSet(db: Database, location: Location, value: string) returns (reply: Reply)
    modifies db`maps, db`saves
    ensures var s := SetStep(old(db.maps), location, value); db.maps == s.maps && reply == s.reply
    ensures db.saves == old(db.saves) + SaveLog(db.path, reply == Status(Ok), db.maps)
  {
    var v := Trim(value, "\"");
    if IsValid(v) {
      return Status(IllegalChars);
    }
    var err := db.Add(location.db, location.key, v);
    if err.Fail? {
      return Status(err.error);
    }
    return Status(Ok);
  }

  method HandleRemoveDB(db: Database, name: string) returns (reply: Reply)
    modifies db`maps, db`saves
    ensures var s := RemoveDBStep(old(db.maps), name); db.maps == s.maps && reply == s.reply
    ensures db.saves == old(db.saves) + SaveLog(db.path, reply == Status(Ok), db.maps)
  {
    var err := db.DeleteDB(name);
    if err.Fail? {
      return Status(err.error);
    }
    return Status(Ok);
  }

  method HandleRemoveKey(db: Database, name: string, key: Option<string>) returns (reply: Reply)
    modifies db`maps, db`saves
    ensures var s := RemoveKeyStep(old(db.maps), name, key); db.maps == s.maps && reply == s.reply
    ensures db.saves == old(db.saves) + SaveLog(db.path, reply == Status(Ok), db.maps)
  {
    if key.None? {
      return Status(KeyNotProvided);
    }
    var err := db.Remove(name, key.value);
    if err.Fail? {
      return Status(err.error);
    }
    return Status(Ok);
  }

  method HandleUpdate(db: Database, location: Location, value: string) returns (reply: Reply)
    modifies db`maps, db`saves
    ensures var s := UpdateStep(old(db.maps), location, value); db.maps == s.maps && reply == s.reply
    ensures db.saves == old(db.saves) + SaveLog(db.path, reply == Status(Ok), db.maps)
  {
    var v := Trim(value, "\n");
    if IsValid(v) {
      return Status(IllegalChars);
    }
    var err := db.Update(location.db, location.key, v);
    if err.Fail? {
      return Status(err.error);
    }
    return Status(Ok);
  }

  /** One pass of the `handleConn` loop body, from the parsed chunk to its reply. */
  method HandleQuery(db: Database, q: Query) returns (reply: Reply)
    modifies db`maps, db`saves
    ensures var s := Dispatch(old(db.maps), q); db.maps == s.maps && reply == s.reply
    ensures db.saves == old(db.saves) + SaveLog(db.path, reply == Status(Ok), db.maps)
  {
    match q
    case CreateDB(name) =>
      reply := HandleCreateDB(db, name);
    case Get(location) =>
      reply := HandleGet(db, location);
    case Set(location, value) =>
      reply := HandleSet(db, location, value);
    case Remove(which, name, key) =>
      if which == "DB" {
        reply := HandleRemoveDB(db, name);
      } else if which == "KEY" {
        reply := HandleRemoveKey(db, name, key);
      } else {
        reply := Status(BadQuery);
      }
    case Update(location, value) =>
      reply := HandleUpdate(db, location, value);
    case NoVariant =>
      reply := Status(BadQuery);
    case Unparsable =>
      reply := Status(BadQuery);
  }

  // ---------------------------------------------------------------------
  // A connection: the sequence of reads and what the server answers.
  // ---------------------------------------------------------------------

  /** What one `conn.Read` delivers: a chunk (already parsed), end of stream, or a failure. */
  datatype ReadResult = Chunk(query: Query) | Eof | ReadError

  /**
   * The outcome of a connection: the final store, the replies in order, and
   * the collection after each successful mutation (what the deferred saves
   * write when the store is file-backed).
   */
  datatype Session = Session(maps: Maps, replies: seq<Reply>, saved: seq<Maps>)

  /** The queries a connection gets to dispatch: every chunk before the first end or failure. */
  function Received(incoming: seq<ReadResult>): (qs: seq<Query>)
    ensures |qs| <= |incoming|
    ensures forall i :: 0 <= i < |qs| ==> incoming[i] == Chunk(qs[i])
    ensures |qs| == |incoming| || !incoming[|qs|].Chunk?
    decreases |incoming|
  {
    if incoming == [] || !incoming[0].Chunk? then []
    else [incoming[0].query] + Received(incoming[1..])
  }

  /** `handleConn` as a function of the store it starts from and the reads it gets. */
  function Serve(m: Maps, incoming: seq<ReadResult>): (s: Session)
    ensures |s.saved| <= |s.replies| <= |incoming|
    decreases |incoming|
  {
    if incoming == [] || !incoming[0].Chunk? then Session(m, [], [])
    else
      var s := Dispatch(m, incoming[0].query);
      var rest := Serve(s.maps, incoming[1..]);
      Session(rest.maps, [s.reply] + rest.replies,
              (if s.reply == Status(Ok) then [s.maps] else []) + rest.saved)
  }

  /**
   * A connection whose whole outcome is `whole`, after it has sent
   * `replies` and asked for the saves in `saved`, has `rest` still to come.
   */
  ghost predicate Progress(whole: Session, rest: Session, replies: seq<Reply>, saved: seq<Maps>) {
    && whole.maps == rest.maps
    && whole.replies == replies + rest.replies
    && whole.saved == saved + rest.saved
  }

  /** Serving one more query moves its reply and its save from what is to come to what is done. */
  lemma Advance(whole: Session, rest: Session, replies: seq<Reply>, saved: seq<Maps>,
                reply: Reply, out: seq<Maps>, next: Session)
    requires Progress(whole, rest, replies, saved)
    requires rest == Session(next.maps, [reply] + next.replies, out + next.saved)
    ensures Progress(whole, next, replies + [reply], saved + out)
  {
    assert (replies + [reply]) + next.replies == replies + ([reply] + next.replies);
    assert (saved + out) + next.saved == saved + (out + next.saved);
  }

  /** `Serve` from the `i`-th read on, when that read is a chunk. */
  lemma ServeAt(m: Maps, incoming: seq<ReadResult>, i: nat)
    requires i < |incoming| && incoming[i].Chunk?
    ensures var s := Dispatch(m, incoming[i].query);
            var rest := Serve(s.maps, incoming[i + 1..]);
            Serve(m, incoming[i..])
            == Session(rest.maps, [s.reply] + rest.replies,
                       (if s.reply == Status(Ok) then [s.maps] else []) + rest.saved)
  {
    assert incoming[i..][1..] == incoming[i + 1..];
  }

  /** `Serve` from the `i`-th read on, when there is none or it is not a chunk. */
  lemma ServeStops(m: Maps, incoming: seq<ReadResult>, i: nat)
    requires i <= |incoming| && (i == |incoming| || !incoming[i].Chunk?)
    ensures Serve(m, incoming[i..]) == Session(m, [], [])
  {
  }

  /** One more query's save, appended to those logged so far. */
  lemma SaveLogExtends(base: seq<Maps>, saved: seq<Maps>, path: string, ok: bool, after: Maps)
    ensures (base + if path != "" then saved else []) + SaveLog(path, ok, after)
            == base + if path != "" then saved + (if ok then [after] else []) else []
  {
  }

  /**
   * `handleConn`: answers every chunk, whatever the outcome of the query,
   * and stops at the end of the stream or at a read failure. Running out of
   * incoming is the end of the stream.
   */
  method HandleConn(db: Database, incoming: seq<ReadResult>) returns (replies: seq<Reply>)
    modifies db`maps, db`saves
    ensures var s := Serve(old(db.maps), incoming); db.maps == s.maps && replies == s.replies
    ensures db.saves == old(db.saves) + if db.path != "" then Serve(old(db.maps), incoming).saved else []
  {
    replies := [];
    ghost var saved: seq<Maps> := [];
    var i := 0;
    while i < |incoming|
      invariant 0 <= i <= |incoming|
      invariant Progress(Serve(old(db.maps), incoming), Serve(db.maps, incoming[i..]), replies, saved)
      invariant db.saves == old(db.saves) + if db.path != "" then saved else []
    {
      match incoming[i]
      case Eof =>
        break;
      case ReadError =>
        ServeStops(db.maps, incoming, i);
        return;
      case Chunk(q) =>
        ServeAt(db.maps, incoming, i);
        ghost var rest := Serve(db.maps, incoming[i..]);
        var reply := HandleQuery(db, q);
        SaveLogExtends(old(db.saves), saved, db.path, reply == Status(Ok), db.maps);
        ghost var out := if reply == Status(Ok) then [db.maps] else [];
        Advance(Serve(old(db.maps), incoming), rest, replies, saved, reply, out, Serve(db.maps, incoming[i + 1..]));
        replies := replies + [reply];
        saved := saved + out;
        i := i + 1;
    }
    ServeStops(db.maps, incoming, i);
  }

  /**
   * The reply to the `i`-th received chunk is what that query gets on the
   * store the `i` chunks before it left behind.
   */
  lemma {:induction false} ReplyAt(m: Maps, incoming: seq<ReadResult>, i: nat)
    requires i < |Received(incoming)|
    ensures i < |Serve(m, incoming).replies|
    ensures Serve(m, incoming).replies[i] == Dispatch(Serve(m, incoming[..i]).maps, incoming[i].query).reply
    decreases i
  {
    if i == 0 {
      assert incoming[..i] == [];
    } else {
      var s := Dispatch(m, incoming[0].query);
      ReplyAt(s.maps, incoming[1..], i - 1);
      assert incoming[..i][1..] == incoming[1..][..i - 1];
    }
  }

  /** Every received chunk gets exactly one reply, in order, and nothing else does. */
  lemma {:induction false} OneReplyPerChunk(m: Maps, incoming: seq<ReadResult>)
    ensures |Serve(m, incoming).replies| == |Received(incoming)|
    ensures forall i :: 0 <= i < |Received(incoming)| ==>
      Serve(m, incoming).replies[i] == Dispatch(Serve(m, incoming[..i]).maps, incoming[i].query).reply
    decreases |incoming|
  {
    if incoming != [] && incoming[0].Chunk? {
      OneReplyPerChunk(Dispatch(m, incoming[0].query).maps, incoming[1..]);
    }
    forall i | 0 <= i < |Received(incoming)|
      ensures Serve(m, incoming).replies[i] == Dispatch(Serve(m, incoming[..i]).maps, incoming[i].query).reply
    {
      ReplyAt(m, incoming, i);
    }
  }

  /** A connection whose queries all fail leaves the store as it found it. */
  lemma {:induction false} NoOkNoChange(m: Maps, incoming: seq<ReadResult>)
    requires Status(Ok) !in Serve(m, incoming).replies
    ensures Serve(m, incoming).maps == m && Serve(m, incoming).saved == []
    decreases |incoming|
  {
    if incoming != [] && incoming[0].Chunk? {
      var s := Dispatch(m, incoming[0].query);
      assert Serve(m, incoming).replies[0] == s.reply;
      assert Serve(s.maps, incoming[1..]).replies == Serve(m, incoming).replies[1..];
      NoOkNoChange(s.maps, incoming[1..]);
    }
  }

  /** The server never answers `DATABASE_IS_EMPTY`: listing is not implemented. */
  lemma {:induction false} NeverDatabaseIsEmpty(m: Maps, incoming: seq<ReadResult>)
    ensures Status(DatabaseIsEmpty) !in Serve(m, incoming).replies
    decreases |incoming|
  {
    if incoming != [] && incoming[0].Chunk? {
      DispatchReplies(m, incoming[0].query);
      NeverDatabaseIsEmpty(Dispatch(m, incoming[0].query).maps, incoming[1..]);
    }
  }

  /**
   * `SET` and `UPDATE` validate the stripped value, but since `:` is neither
   * a quote nor a newline this is the same as validating the value as
   * received: a value holding `:` is refused and the store is not touched.
   */
  lemma ColonRefused(m: Maps, location: Location, value: string)
    requires ':' in value
    ensures SetStep(m, location, value) == Step(m, Status(IllegalChars))
    ensures UpdateStep(m, location, value) == Step(m, Status(IllegalChars))
  {
    TrimKeeps(value, "\"", ':');
    TrimKeeps(value, "\n", ':');
  }

  /** A value without `:` goes to the store, stripped as its query form says. */
  lemma ColonFreeStored(m: Maps, location: Location, value: string)
    requires ':' !in value
    ensures SetStep(m, location, value) == Answer(AddEffect(m, location.db, location.key, Trim(value, "\"")))
    ensures UpdateStep(m, location, value) == Answer(UpdateEffect(m, location.db, location.key, Trim(value, "\n")))
  {
    TrimKeeps(value, "\"", ':');
    TrimKeeps(value, "\n", ':');
  }

  /**
   * A successful `SET` stores the value without its surrounding quotes: it
   * reads back that way, never starts or ends with a quote, and holds no `:`.
   */
  lemma SetThenGet(m: Maps, location: Location, value: string)
    requires SetStep(m, location, value).reply == Status(Ok)
    ensures var stored := Trim(value, "\"");
            && GetStep(SetStep(m, location, value).maps, location).reply == Value(stored)
            && (stored == [] || (stored[0] != '"' && stored[|stored| - 1] != '"'))
            && ':' !in stored
  {
    TrimKeeps(value, "\"", ':');
  }

  /**
   * A successful `UPDATE` stores the value without surrounding newlines, but
   * with any quotes it arrived with.
   */
  lemma UpdateThenGet(m: Maps, location: Location, value: string)
    requires UpdateStep(m, location, value).reply == Status(Ok)
    ensures var stored := Trim(value, "\n");
            && GetStep(UpdateStep(m, location, value).maps, location).reply == Value(stored)
            && ('"' in stored <==> '"' in value)
            && (stored == [] || (stored[0] != '\n' && stored[|stored| - 1] != '\n'))
  {
    TrimKeeps(value, "\n", '"');
  }

  /** `SET` strips the quoted literal `"hello"` to `hello`, which is a legal value. */
  lemma SampleHello(hello: string)
    requires hello == "\"hello\""
    ensures Trim(hello, "\"") == "hello" && !IsValid("hello")
  {
    assert TrimLeft(hello, "\"") == "hello\"";
    assert TrimRight("hello\"", "\"") == "hello";
    assert !IsValid("hello");
  }

  /** `UPDATE` leaves the quoted literal `"world"` as it is, and it is a legal value. */
  lemma SampleWorld(world: string)
    requires world == "\"world\""
    ensures Trim(world, "\n") == world && !IsValid(world)
  {
    assert TrimLeft(world, "\n") == world by { assert world[0] == '"'; }
    assert TrimRight(world, "\n") == world by { assert world[|world| - 1] == '"'; }
    assert !IsValid(world);
  }

  /** A `SET` into a fresh key of a value that trimming leaves alone and that holds no `:`. */
  lemma SetFresh(m: Maps, location: Location, v: string)
    requires location.db in m && location.key !in m[location.db]
    requires Trim(v, "\"") == v && ':' !in v
    ensures var s := SetStep(m, location, v);
            s.reply == Status(Ok) && GetStep(s.maps, location).reply == Value(v)
  {
    assert !IsValid(v);
    var e := AddEffect(m, location.db, location.key, v);
    assert e.result == Pass && e.maps[location.db][location.key] == v;
  }

  /** Quote trimming leaves every status word as it is. */
  lemma WordUntrimmed(code: Response)
    ensures Trim(Text(code), "\"") == Text(code)
  {
    var t := Text(code);
    assert TrimLeft(t, "\"") == t;
    assert TrimRight(t, "\"") == t;
  }

  /**
   * A stored value can read exactly like a status word: a `SET` of, say,
   * `OK` into a fresh key succeeds, and the `GET` that follows writes the
   * same bytes as the status `OK`, though its reply is a value.
   */
  lemma ValueLooksLikeStatus(m: Maps, location: Location, code: Response)
    requires location.db in m && location.key !in m[location.db]
    ensures var s := SetStep(m, location, Text(code));
            && s.reply == Status(Ok)
            && GetStep(s.maps, location).reply == Value(Text(code))
            && Wire(GetStep(s.maps, location).reply) == Wire(Status(code))
  {
    WordUntrimmed(code);
    SetFresh(m, location, Text(code));
  }

  /**
   * A `SET` of the quoted empty string `""` stores the empty value, and the
   * `GET` that follows writes nothing at all: its reply is zero bytes.
   */
  lemma EmptyValueSilent(m: Maps, location: Location)
    requires location.db in m && location.key !in m[location.db]
    ensures var s := SetStep(m, location, "\"\"");
            && s.reply == Status(Ok)
            && GetStep(s.maps, location).reply == Value([])
            && Wire(GetStep(s.maps, location).reply) == []
  {
    var quotes := "\"\"";
    assert quotes[1..] == "\"" && quotes[1..][1..] == [];
    assert TrimLeft(quotes, "\"") == [];
    assert Trim(quotes, "\"") == [];
    assert Trim([], "\"") == [];
    SetFresh(m, location, []);
  }

  // ---------------------------------------------------------------------
  // The proof of `KeyLifecycle`. Each helper below does one step of it,
  // stated over whatever the connection receives next, so that the seven
  // steps can be chained without unfolding `Serve` seven times at once.
  // ---------------------------------------------------------------------

  /** A connection whose first chunk is `q`, when `q` takes the store to `s`. */
  lemma ServeStep(m: Maps, q: Query, rest: seq<ReadResult>, s: Step)
    requires Dispatch(m, q) == s
    ensures Serve(m, [Chunk(q)] + rest).replies == [s.reply] + Serve(s.maps, rest).replies
  {
    assert ([Chunk(q)] + rest)[1..] == rest;
  }

  // The four store changes of a key's life, each on the store the previous one left.

  lemma CreateStep(db: string)
    ensures Dispatch(map[], CreateDB(db)) == Step(map[db := map[]], Status(Ok))
  {
  }

  lemma SetStepOk(db: string, key: string, setValue: string)
    requires ':' !in setValue
    ensures Dispatch(map[db := map[]], Set(Location(db, key), setValue))
            == Step(map[db := map[key := Trim(setValue, "\"")]], Status(Ok))
  {
    TrimKeeps(setValue, "\"", ':');
    FirstKey(db, key, Trim(setValue, "\""));
  }

  /** `SET` of a first key into an empty database. */
  lemma FirstKey(db: string, key: string, v: string)
    ensures AddEffect(map[db := map[]], db, key, v) == Effect(map[db := map[key := v]], Pass)
  {
    assert map[db := map[]][db][key := v] == map[key := v];
  }

  lemma UpdateStepOk(db: string, key: string, v1: string, updateValue: string)
    requires ':' !in updateValue
    ensures Dispatch(map[db := map[key := v1]], Update(Location(db, key), updateValue))
            == Step(map[db := map[key := Trim(updateValue, "\n")]], Status(Ok))
  {
    var m := map[db := map[key := v1]];
    var v := Trim(updateValue, "\n");
    TrimKeeps(updateValue, "\n", ':');
    Overwrite(db, key, v1, v);
    assert UpdateStep(m, Location(db, key), updateValue) == Answer(UpdateEffect(m, db, key, v));
  }

  /** `UPDATE` of the only key of the only database. */
  lemma Overwrite(db: string, key: string, v1: string, v2: string)
    ensures UpdateEffect(map[db := map[key := v1]], db, key, v2) == Effect(map[db := map[key := v2]], Pass)
  {
    assert map[db := map[key := v1]][db][key := v2] == map[key := v2];
  }

  lemma RemoveStepOk(db: string, key: string, v2: string)
    ensures Dispatch(map[db := map[key := v2]], Remove("KEY", db, Some(key))) == Step(map[db := map[]], Status(Ok))
  {
    assert map[db := map[key := v2]][db] - {key} == map[];
  }

  // Each query of a key's life, served on the store the previous one left,
  // whatever the connection receives after it.

  lemma CreateServed(db: string, rest: seq<ReadResult>)
    ensures Serve(map[], [Chunk(CreateDB(db))] + rest).replies
            == [Status(Ok)] + Serve(map[db := map[]], rest).replies
  {
    CreateStep(db);
    ServeStep(map[], CreateDB(db), rest, Step(map[db := map[]], Status(Ok)));
  }

  lemma SetServed(db: string, key: string, setValue: string, rest: seq<ReadResult>)
    requires ':' !in setValue
    ensures Serve(map[db := map[]], [Chunk(Set(Location(db, key), setValue))] + rest).replies
            == [Status(Ok)] + Serve(map[db := map[key := Trim(setValue, "\"")]], rest).replies
  {
    SetStepOk(db, key, setValue);
    ServeStep(map[db := map[]], Set(Location(db, key), setValue), rest,
              Step(map[db := map[key := Trim(setValue, "\"")]], Status(Ok)));
  }

  lemma GetServed(db: string, key: string, v: string, rest: seq<ReadResult>)
    ensures Serve(map[db := map[key := v]], [Chunk(Get(Location(db, key)))] + rest).replies
            == [Value(v)] + Serve(map[db := map[key := v]], rest).replies
  {
    ServeStep(map[db := map[key := v]], Get(Location(db, key)), rest, Step(map[db := map[key := v]], Value(v)));
  }

  lemma UpdateServed(db: string, key: string, v1: string, updateValue: string, rest: seq<ReadResult>)
    requires ':' !in updateValue
    ensures Serve(map[db := map[key := v1]], [Chunk(Update(Location(db, key), updateValue))] + rest).replies
            == [Status(Ok)] + Serve(map[db := map[key := Trim(updateValue, "\n")]], rest).replies
  {
    UpdateStepOk(db, key, v1, updateValue);
    ServeStep(map[db := map[key := v1]], Update(Location(db, key), updateValue), rest,
              Step(map[db := map[key := Trim(updateValue, "\n")]], Status(Ok)));
  }

  lemma RemoveServed(db: string, key: string, v: string, rest: seq<ReadResult>)
    ensures Serve(map[db := map[key := v]], [Chunk(Remove("KEY", db, Some(key)))] + rest).replies
            == [Status(Ok)] + Serve(map[db := map[]], rest).replies
  {
    RemoveStepOk(db, key, v);
    ServeStep(map[db := map[key := v]], Remove("KEY", db, Some(key)), rest, Step(map[db := map[]], Status(Ok)));
  }

  lemma MissServed(db: string, key: string, rest: seq<ReadResult>)
    ensures Serve(map[db := map[]], [Chunk(Get(Location(db, key)))] + rest).replies
            == [Status(KeyNotFound)] + Serve(map[db := map[]], rest).replies
  {
    ServeStep(map[db := map[]], Get(Location(db, key)), rest, Step(map[db := map[]], Status(KeyNotFound)));
  }

  /** Seven singletons in front of `rest`, one at a time, are a seven-element display. */
  lemma Nest7<T>(a: T, b: T, c: T, d: T, e: T, f: T, g: T, rest: seq<T>)
    ensures [a] + ([b] + ([c] + ([d] + ([e] + ([f] + ([g] + rest))))))
            == [a, b, c, d, e, f, g] + rest
  {
  }

  // A key's life from its last query back to its first.

  lemma FromRemove(db: string, key: string, v: string, rest: seq<ReadResult>)
    ensures var at := Location(db, key);
            Serve(map[db := map[key := v]], [Chunk(Remove("KEY", db, Some(key)))] + ([Chunk(Get(at))] + rest)).replies
            == [Status(Ok)] + ([Status(KeyNotFound)] + Serve(map[db := map[]], rest).replies)
  {
    MissServed(db, key, rest);
    RemoveServed(db, key, v, [Chunk(Get(Location(db, key)))] + rest);
  }

  lemma FromSecondGet(db: string, key: string, v: string, rest: seq<ReadResult>)
    ensures var at := Location(db, key);
            Serve(map[db := map[key := v]],
                  [Chunk(Get(at))] + ([Chunk(Remove("KEY", db, Some(key)))] + ([Chunk(Get(at))] + rest))).replies
            == [Value(v)] + ([Status(Ok)] + ([Status(KeyNotFound)] + Serve(map[db := map[]], rest).replies))
  {
    var at := Location(db, key);
    FromRemove(db, key, v, rest);
    GetServed(db, key, v, [Chunk(Remove("KEY", db, Some(key)))] + ([Chunk(Get(at))] + rest));
  }

  lemma FromUpdate(db: string, key: string, v1: string, updateValue: string, rest: seq<ReadResult>)
    requires ':' !in updateValue
    ensures var at := Location(db, key);
            Serve(map[db := map[key := v1]],
                  [Chunk(Update(at, updateValue))] + ([Chunk(Get(at))]
                  + ([Chunk(Remove("KEY", db, Some(key)))] + ([Chunk(Get(at))] + rest)))).replies
            == [Status(Ok)] + ([Value(Trim(updateValue, "\n"))] + ([Status(Ok)]
               + ([Status(KeyNotFound)] + Serve(map[db := map[]], rest).replies)))
  {
    var at := Location(db, key);
    FromSecondGet(db, key, Trim(updateValue, "\n"), rest);
    UpdateServed(db, key, v1, updateValue,
                 [Chunk(Get(at))] + ([Chunk(Remove("KEY", db, Some(key)))] + ([Chunk(Get(at))] + rest)));
  }

  lemma FromFirstGet(db: string, key: string, v1: string, updateValue: string, rest: seq<ReadResult>)
    requires ':' !in updateValue
    ensures var at := Location(db, key);
            Serve(map[db := map[key := v1]],
                  [Chunk(Get(at))] + ([Chunk(Update(at, updateValue))] + ([Chunk(Get(at))]
                  + ([Chunk(Remove("KEY", db, Some(key)))] + ([Chunk(Get(at))] + rest))))).replies
            == [Value(v1)] + ([Status(Ok)] + ([Value(Trim(updateValue, "\n"))] + ([Status(Ok)]
               + ([Status(KeyNotFound)] + Serve(map[db := map[]], rest).replies))))
  {
    var at := Location(db, key);
    FromUpdate(db, key, v1, updateValue, rest);
    GetServed(db, key, v1, [Chunk(Update(at, updateValue))] + ([Chunk(Get(at))]
              + ([Chunk(Remove("KEY", db, Some(key)))] + ([Chunk(Get(at))] + rest))));
  }

  lemma FromSet(db: string, key: string, setValue: string, updateValue: string, rest: seq<ReadResult>)
    requires ':' !in setValue && ':' !in updateValue
    ensures var at := Location(db, key);
            Serve(map[db := map[]],
                  [Chunk(Set(at, setValue))] + ([Chunk(Get(at))] + ([Chunk(Update(at, updateValue))]
                  + ([Chunk(Get(at))] + ([Chunk(Remove("KEY", db, Some(key)))] + ([Chunk(Get(at))] + rest)))))).replies
            == [Status(Ok)] + ([Value(Trim(setValue, "\""))] + ([Status(Ok)] + ([Value(Trim(updateValue, "\n"))]
               + ([Status(Ok)] + ([Status(KeyNotFound)] + Serve(map[db := map[]], rest).replies)))))
  {
    var at := Location(db, key);
    FromFirstGet(db, key, Trim(setValue, "\""), updateValue, rest);
    SetServed(db, key, setValue, [Chunk(Get(at))] + ([Chunk(Update(at, updateValue))]
              + ([Chunk(Get(at))] + ([Chunk(Remove("KEY", db, Some(key)))] + ([Chunk(Get(at))] + rest)))));
  }

  /**
   * The life of one key, as the first queries of a connection on an empty
   * store: create a database, `SET` a key, read it, `UPDATE` it, read it,
   * remove it, read it. Every step succeeds, each read sees the last write
   * stripped as its query form says, and whatever follows is served on the
   * empty database.
   */
  lemma KeyLifecycle(db: string, key: string, setValue: string, updateValue: string, rest: seq<ReadResult>)
    requires ':' !in setValue && ':' !in updateValue
    ensures var at := Location(db, key);
            Serve(map[], [Chunk(CreateDB(db)), Chunk(Set(at, setValue)), Chunk(Get(at)),
                          Chunk(Update(at, updateValue)), Chunk(Get(at)),
                          Chunk(Remove("KEY", db, Some(key))), Chunk(Get(at))] + rest).replies
            == [Status(Ok), Status(Ok), Value(Trim(setValue, "\"")), Status(Ok),
                Value(Trim(updateValue, "\n")), Status(Ok), Status(KeyNotFound)]
               + Serve(map[db := map[]], rest).replies
  {
    var at := Location(db, key);
    FromSet(db, key, setValue, updateValue, rest);
    CreateServed(db, [Chunk(Set(at, setValue))] + ([Chunk(Get(at))] + ([Chunk(Update(at, updateValue))]
                 + ([Chunk(Get(at))] + ([Chunk(Remove("KEY", db, Some(key)))] + ([Chunk(Get(at))] + rest))))));
    Nest7(Chunk(CreateDB(db)), Chunk(Set(at, setValue)), Chunk(Get(at)), Chunk(Update(at, updateValue)),
          Chunk(Get(at)), Chunk(Remove("KEY", db, Some(key))), Chunk(Get(at)), rest);
    Nest7(Status(Ok), Status(Ok), Value(Trim(setValue, "\"")), Status(Ok), Value(Trim(updateValue, "\n")),
          Status(Ok), Status(KeyNotFound), Serve(map[db := map[]], rest).replies);
  }

  /** The two literals of `HelloWorldSession`, as `SET` and `UPDATE` strip them. */
  lemma SampleValues(hello: string, world: string)
    requires hello == "\"hello\"" && world == "\"world\""
    ensures Trim(hello, "\"") == "hello" && Trim(world, "\n") == world
    ensures ':' !in hello && ':' !in world
  {
    SampleHello(hello);
    SampleWorld(world);
  }

  /**
   * A whole session: create a database, `SET` a key to the quoted literal
   * `"hello"`, read it, `UPDATE` it to the quoted literal `"world"`, read
   * it, remove it, read it. The first read answers `hello` without its
   * quotes, the second answers `"world"` with them, and the last reports
   * the key missing.
   */
  lemma HelloWorldSession(db: string, key: string, hello: string, world: string, h: string,
                          rest: seq<ReadResult>)
    requires hello == "\"hello\"" && world == "\"world\"" && h == "hello"
    ensures var at := Location(db, key);
            Serve(map[], [Chunk(CreateDB(db)), Chunk(Set(at, hello)), Chunk(Get(at)),
                          Chunk(Update(at, world)), Chunk(Get(at)),
                          Chunk(Remove("KEY", db, Some(key))), Chunk(Get(at))] + rest).replies
            == [Status(Ok), Status(Ok), Value(h), Status(Ok), Value(world), Status(Ok), Status(KeyNotFound)]
               + Serve(map[db := map[]], rest).replies
  {
    SampleValues(hello, world);
    KeyLifecycle(db, key, hello, world, rest);
  }

  /** On an empty store, a `GET` reports the missing database and garbage gets `BAD_QUERY`. */
  lemma EmptyStoreReplies(db: string, key: string)
    ensures Dispatch(map[], Get(Location(db, key))).reply == Status(DatabaseNotFound)
    ensures Dispatch(map[], Unparsable).reply == Status(BadQuery)
  {
  }

  // ---------------------------------------------------------------------
  // The backup step.
  // ---------------------------------------------------------------------

  /** The dirty flag after a backup step and whether it asked for a file write. */
  datatype Backup = Backup(dirty: bool, written: bool)

  /**
   * `PerformBackup`: a clean store is not written; a dirty one is, and it
   * stays dirty exactly when the write fails.
   */
  function BackupStep(dirty: bool, saveSucceeds: bool): (b: Backup)
    ensures b.written <==> dirty
    ensures b.dirty <==> dirty && !saveSucceeds
  {
    if !dirty then Backup(false, false)
    else if saveSucceeds then Backup(false, true)
    else Backup(true, true)
  }

  /** `PerformBackup`; `saveSucceeds` is what the file write will report. */
  method PerformBackup(db: Database, saveSucceeds: bool)
    modifies db`dirty, db`backups
    ensures db.dirty == BackupStep(old(db.dirty), saveSucceeds).dirty
    ensures db.backups == old(db.backups) + if BackupStep(old(db.dirty), saveSucceeds).written then [db.maps] else []
  {
    if !db.dirty {
      return;
    }
    db.backups := db.backups + [db.maps];
    if saveSucceeds {
      db.dirty := false;
    }
  }

  /**
   * Two backup steps with nothing in between: at most one write succeeds,
   * and the second step writes only to retry a first write that failed.
   */
  lemma BackupTwice(dirty: bool, ok1: bool, ok2: bool)
    ensures var first := BackupStep(dirty, ok1);
            var second := BackupStep(first.dirty, ok2);
            && !(first.written && ok1 && second.written && ok2)
            && (second.written <==> dirty && !ok1)
  {
  }
}
