/** The data-access client `Db`: connection settings with their defaults,
    the connect / provision / disconnect lifecycle, and `saveImage`. */
module Db {
  import opened Values
  import opened Store

  const DefaultHost := "localhost"
  const DefaultPort := 28015
  const DefaultDb := "platzigram"
  const ImagesTable := "images"
  const UsersTable := "users"

  /** The constructor's `options`; a missing property is `None`. */
  datatype Options = Options(host: Option<string>, port: Option<int>, db: Option<string>)

  /** The settings a client ends up with. */
  datatype Config = Config(host: string, port: int, db: string)

  /** JavaScript truthiness of an optional string and an optional number. */
  predicate TruthyText(v: Option<string>) { v.Some? && v.value != "" }
  predicate TruthyNumber(v: Option<int>) { v.Some? && v.value != 0 }

  /** `options = options || {}` followed by `options.x || defaults.x` per setting. */
  function Resolve(options: Option<Options>): (c: Config)
    ensures c.host != "" && c.port != 0 && c.db != ""
  {
    var o := if options.Some? then options.value else Options(None, None, None);
    Config(
      if TruthyText(o.host) then o.host.value else DefaultHost,
      if TruthyNumber(o.port) then o.port.value else DefaultPort,
      if TruthyText(o.db) then o.db.value else DefaultDb)
  }

  /** The options object as a JavaScript value: only the given properties
      are present; no options at all is `undefined`. */
  function OptionsValue(options: Option<Options>): (v: Value)
    ensures options.None? ==> v == Undefined
    ensures options.Some? ==> v.Obj? && v.fields.Keys <= {"host", "port", "db"}
  {
    match options
    case None => Undefined
    case Some(o) =>
      var h := if o.host.Some? then map["host" := Str(o.host.value)] else map[];
      var p := if o.port.Some? then map["port" := Num(o.port.value)] else map[];
      var d := if o.db.Some? then map["db" := Str(o.db.value)] else map[];
      Obj(h + p + d)
  }

  /** The typed truthiness tests agree with JavaScript's. */
  lemma TruthyAgrees(t: Option<string>, n: Option<int>)
    ensures t.Some? ==> (TruthyText(t) <==> Truthy(Str(t.value)))
    ensures n.Some? ==> (TruthyNumber(n) <==> Truthy(Num(n.value)))
  {
  }

  /** Each setting is exactly what JavaScript computes for
      `options = options || {}` and then `options.x || defaults.x`. */
  lemma {:induction false} ResolveIsJavaScriptOr(options: Option<Options>)
    ensures var opts := Or(OptionsValue(options), Obj(map[]));
      var c := Resolve(options);
      && Str(c.host) == Or(Prop(opts, "host"), Str(DefaultHost))
      && Num(c.port) == Or(Prop(opts, "port"), Num(DefaultPort))
      && Str(c.db) == Or(Prop(opts, "db"), Str(DefaultDb))
  {
    var opts := Or(OptionsValue(options), Obj(map[]));
    var o := if options.Some? then options.value else Options(None, None, None);
    assert Prop(opts, "host") == (if o.host.Some? then Str(o.host.value) else Undefined);
    assert Prop(opts, "port") == (if o.port.Some? then Num(o.port.value) else Undefined);
    assert Prop(opts, "db") == (if o.db.Some? then Str(o.db.value) else Undefined);
  }

  /** Without options every setting takes its default. */
  lemma ResolveWithoutOptions()
    ensures Resolve(None) == Config(DefaultHost, DefaultPort, DefaultDb)
    ensures Resolve(Some(Options(None, None, None))) == Resolve(None)
  {
  }

  // ---------------------------------------------------------------------
  // Provisioning
  // ---------------------------------------------------------------------

  /** The target database exists and holds both required tables. */
  predicate Provisioned(s: StoreState, db: string) {
    db in s.Databases() && ImagesTable in s.TableList(db) && UsersTable in s.TableList(db)
  }

  /** The creates `setup` issues against `s`, in order: the database when it
      is missing, then each missing table, both judged on a single table
      list read after the database step. */
  function SetupPlan(s: StoreState, db: string): (plan: seq<Create>)
    ensures |plan| == (if db in s.Databases() then 0 else 1)
                      + (if ImagesTable in s.TableList(db) then 0 else 1)
                      + (if UsersTable in s.TableList(db) then 0 else 1)
    ensures db !in s.Databases() ==> plan[0] == CreateDb(db)
    ensures forall i, j ::
      (0 <= i < |plan| && 0 <= j < |plan| && plan[i] == CreateTable(db, ImagesTable) && plan[j] == CreateTable(db, UsersTable))
      ==> i < j
    ensures plan == [] <==> Provisioned(s, db)
    ensures CreateDb(db) in plan <==> db !in s.Databases()
    ensures CreateTable(db, ImagesTable) in plan <==> ImagesTable !in s.TableList(db)
    ensures CreateTable(db, UsersTable) in plan <==> UsersTable !in s.TableList(db)
    ensures forall i :: 0 <= i < |plan| ==> plan[i].db == db
  {
    var existing := s.TableList(db);
    (if db in s.Databases() then [] else [CreateDb(db)])
    + (if ImagesTable in existing then [] else [CreateTable(db, ImagesTable)])
    + (if UsersTable in existing then [] else [CreateTable(db, UsersTable)])
  }

  /** After the plan runs, the database and both tables exist, and nothing
      else changed: other databases, the tables already there, and every
      stored row are as before. */
  lemma {:induction false} SetupEffect(s: StoreState, db: string)
    ensures var t := ApplyAll(s, SetupPlan(s, db));
      && Provisioned(t, db)
      && t.rows == s.rows
      && t.Databases() == s.Databases() + {db}
      && t.TableList(db) == s.TableList(db) + {ImagesTable, UsersTable}
      && (forall d :: d != db ==> t.TableList(d) == s.TableList(d))
  {
    var existing := s.TableList(db);
    var first := if db in s.Databases() then [] else [CreateDb(db)];
    var images := if ImagesTable in existing then [] else [CreateTable(db, ImagesTable)];
    var users := if UsersTable in existing then [] else [CreateTable(db, UsersTable)];
    var s1 := ApplyAll(s, first);
    var s2 := ApplyAll(s1, images);
    var s3 := ApplyAll(s2, users);
    ApplyAllAtMostOne(s, first);
    ApplyAllAtMostOne(s1, images);
    ApplyAllAtMostOne(s2, users);
    ApplyAllConcat(s, first, images);
    ApplyAllConcat(s, first + images, users);
    assert SetupPlan(s, db) == first + images + users;
  }

  lemma ApplyAllAtMostOne(s: StoreState, cs: seq<Create>)
    requires |cs| <= 1
    ensures ApplyAll(s, cs) == if cs == [] then s else Apply(s, cs[0])
  {
    if cs != [] {
      assert cs[1..] == [];
    }
  }

  lemma {:induction false} ApplyAllConcat(s: StoreState, a: seq<Create>, b: seq<Create>)
    ensures ApplyAll(s, a + b) == ApplyAll(ApplyAll(s, a), b)
    decreases |a|
  {
    if a == [] {
      assert a + b == b;
    } else {
      assert (a + b)[0] == a[0] && (a + b)[1..] == a[1..] + b;
      ApplyAllConcat(Apply(s, a[0]), a[1..], b);
    }
  }

  /** A second run issues no create, so the server stays as the first run left it. */
  lemma SetupIdempotent(s: StoreState, db: string)
    ensures var t := ApplyAll(s, SetupPlan(s, db));
      SetupPlan(t, db) == [] && ApplyAll(t, SetupPlan(t, db)) == t
  {
    SetupEffect(s, db);
  }

  /** On a server that is already provisioned, setup issues nothing and changes nothing. */
  lemma SetupNoOpWhenProvisioned(s: StoreState, db: string)
    requires Provisioned(s, db)
    ensures SetupPlan(s, db) == [] && ApplyAll(s, SetupPlan(s, db)) == s
  {
  }

  // ---------------------------------------------------------------------
  // Saving an image
  // ---------------------------------------------------------------------

  /** `image.createdAt = new Date()`, the clock reading given as `now`. */
  function Stamped(fields: Row, now: int): (r: Row)
    ensures r.Keys == fields.Keys + {"createdAt"} && r["createdAt"] == Date(now)
    ensures forall k :: k in fields && k != "createdAt" ==> r[k] == fields[k]
  {
    fields["createdAt" := Date(now)]
  }

  /** `image.id = result.generated_keys[0]`. */
  function WithKey(fields: Row, keys: seq<string>): (r: Row)
    ensures r.Keys == fields.Keys + {"id"} && r["id"] == FirstKey(keys)
    ensures forall k :: k in fields && k != "id" ==> r[k] == fields[k]
  {
    fields["id" := FirstKey(keys)]
  }

  /** What a successful save returns: the given fields, with `createdAt`
      the clock reading and `id` the first generated key. */
  lemma SavedFields(fields: Row, now: int, keys: seq<string>)
    requires |keys| > 0
    ensures var saved := WithKey(Stamped(fields, now), keys);
      && saved["createdAt"] == Date(now)
      && saved["id"] == Str(keys[0])
      && saved.Keys == fields.Keys + {"createdAt", "id"}
      && (forall k :: k in fields && k != "createdAt" && k != "id" ==> saved[k] == fields[k])
  {
  }

  /** The row a successful insert stores is the record `saveImage` returns
      whenever the server generated a key; with no generated key the server
      keeps the stamped record as given. */
  lemma SavedRowIsReturned(s: StoreState, db: string, fields: Row, now: int, reply: InsertReply)
    requires reply.errors == 0
    ensures var t := Insert(s, db, ImagesTable, Stamped(fields, now), reply);
      |t.Rows(db, ImagesTable)| == |s.Rows(db, ImagesTable)| + 1
      && (|reply.generatedKeys| > 0 ==>
            t.Rows(db, ImagesTable)[|s.Rows(db, ImagesTable)|] == WithKey(Stamped(fields, now), reply.generatedKeys))
      && (|reply.generatedKeys| == 0 ==>
            t.Rows(db, ImagesTable)[|s.Rows(db, ImagesTable)|] == Stamped(fields, now))
  {
  }

  // ---------------------------------------------------------------------
  // The client
  // ---------------------------------------------------------------------

  /** A handle returned by `r.connect`; `close()` clears `open`. */
  class Connection {
    const host: string
    const port: int
    var open: bool

    constructor (host: string, port: int)
      ensures this.host == host && this.port == port && open
    {
      this.host := host;
      this.port := port;
      open := true;
    }

    method Close()
      modifies this
      ensures !open
    {
      open := false;
    }
  }

  /** The caller's image object, which `saveImage` changes in place. */
  class Image {
    var fields: Row

    constructor (fields: Row)
      ensures this.fields == fields
    {
      this.fields := fields;
    }
  }

  class Db {
    const host: string
    const port: int
    /** The target database name (`this.db` in the client). */
    const name: string
    /** The server that `r.connect` reaches at `host`:`port`. */
    const store: Server
    var connected: bool
    var connection: Connection?

    ghost predicate Valid()
      reads this
    {
      connected ==> connection != null
    }

    constructor (options: Option<Options>, store: Server)
      ensures Valid() && !connected && connection == null
      ensures Config(host, port, name) == Resolve(options) && this.store == store
    {
      var c := Resolve(options);
      host, port, name := c.host, c.port, c.db;
      this.store := store;
      connected, connection := false, null;
    }

    /** Opens a new handle and marks the client connected before any store
        work, then provisions the target database. */
    method Connect() returns (conn: Connection, issued: seq<Create>)
      modifies this, store
      ensures Valid() && connected && connection == conn
      ensures fresh(conn) && conn.open && conn.host == host && conn.port == port
      ensures issued == SetupPlan(old(store.State()), name)
      ensures store.State() == ApplyAll(old(store.State()), issued)
    {
      connection := new Connection(host, port);
      connected := true;
      conn := connection;
      issued := Setup();
    }

    /** Creates the database, then the `images` and `users` tables, each only
        when missing; returns the creates it issued. */
    method Setup() returns (issued: seq<Create>)
      requires connected && connection != null
      modifies store
      ensures issued == SetupPlan(old(store.State()), name)
      ensures store.State() == ApplyAll(old(store.State()), issued)
    {
      ghost var s0 := store.State();
      issued := [];
      if name !in store.DbList() {
        store.DbCreate(name);
        issued := issued + [CreateDb(name)];
        assert [CreateDb(name)][1..] == [];
      }
      assert store.State() == ApplyAll(s0, issued);
      var dbTables := store.TableList(name);
      assert dbTables == s0.TableList(name);
      if ImagesTable !in dbTables {
        ApplyAllSnoc(s0, issued, CreateTable(name, ImagesTable));
        store.TableCreate(name, ImagesTable);
        issued := issued + [CreateTable(name, ImagesTable)];
      }
      if UsersTable !in dbTables {
        ApplyAllSnoc(s0, issued, CreateTable(name, UsersTable));
        store.TableCreate(name, UsersTable);
        issued := issued + [CreateTable(name, UsersTable)];
      }
    }

    /** Rejects with "not connected" unless connected; otherwise clears the
        flag and closes the held handle. */
    method Disconnect() returns (r: Result<()>)
      requires Valid()
      modifies this, connection
      ensures Valid() && !connected && connection == old(connection)
      ensures !old(connected) ==> r == Failure(NotConnected) && (connection != null ==> unchanged(connection))
      ensures old(connected) ==> r == Success(()) && !connection.open
    {
      if !connected {
        return Failure(NotConnected);
      }
      connected := false;
      connection.Close();
      r := Success(());
    }

    /** Rejects with "not connected" unless connected. Otherwise stamps
        `createdAt`, inserts, and then either rejects with the server's
        first error or assigns the first generated key to `id` and returns
        the same image object. */
    method SaveImage(image: Image, now: int, reply: InsertReply) returns (r: Result<Image>)
      modifies image, store
      ensures !connected ==> r == Failure(NotConnected) && unchanged(image) && unchanged(store)
      ensures connected ==>
        store.State() == Insert(old(store.State()), name, ImagesTable, Stamped(old(image.fields), now), reply)
      ensures connected && reply.errors > 0 ==>
        r == Failure(Error(reply.firstError)) && image.fields == Stamped(old(image.fields), now)
      ensures connected && reply.errors == 0 ==>
        r == Success(image) && image.fields == WithKey(Stamped(old(image.fields), now), reply.generatedKeys)
    {
      if !connected {
        return Failure(NotConnected);
      }
      image.fields := image.fields["createdAt" := Date(now)];
      store.InsertRow(name, ImagesTable, image.fields, reply);
      if reply.errors > 0 {
        return Failure(Error(reply.firstError));
      }
      image.fields := image.fields["id" := FirstKey(reply.generatedKeys)];
      r := Success(image);
    }
  }

  /** Two connects in a row: the second issues no create and leaves the
      server as the first left it. */
  method ConnectTwice(db: Db) returns (first: seq<Create>, second: seq<Create>)
    modifies db, db.store
    ensures Provisioned(db.store.State(), db.name)
    ensures second == []
    ensures db.store.State() == ApplyAll(old(db.store.State()), first)
  {
    var c1, c2;
    c1, first := db.Connect();
    SetupEffect(old(db.store.State()), db.name);
    c2, second := db.Connect();
    SetupIdempotent(old(db.store.State()), db.name);
  }
}
