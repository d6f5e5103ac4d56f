/** An abstract RethinkDB server: which databases exist, which tables
    each holds, and the rows stored in each table. It stands in for the
    driver calls `dbList`, `dbCreate`, `tableList`, `tableCreate` and
    `insert` that the data layer issues. */
module Store {
  import opened Values

  /** A stored document. */
  type Row = map<string, Value>

  /** A snapshot of the server. The databases are the keys of `tables`. */
  datatype StoreState = StoreState(
    tables: map<string, set<string>>,
    rows: map<(string, string), seq<Row>>)
  {
    /** What `r.dbList()` reports. */
    function Databases(): set<string> { tables.Keys }

    /** What `r.db(db).tableList()` reports; nothing for a missing database. */
    function TableList(db: string): set<string> {
      if db in tables then tables[db] else {}
    }

    /** The rows of one table, in insertion order. */
    function Rows(db: string, table: string): seq<Row> {
      if (db, table) in rows then rows[(db, table)] else []
    }
  }

  /** A schema command. */
  datatype Create = CreateDb(db: string) | CreateTable(db: string, table: string)

  /** The effect of one schema command. Creating a database that exists
      keeps its tables; creating a table in a missing database does nothing. */
  function Apply(s: StoreState, c: Create): (t: StoreState)
    ensures t.rows == s.rows
    ensures c.CreateDb? ==> t.Databases() == s.Databases() + {c.db}
    ensures c.CreateTable? ==> t.Databases() == s.Databases()
    ensures c.CreateTable? && c.db in s.Databases() ==>
      t.TableList(c.db) == s.TableList(c.db) + {c.table}
    ensures forall d :: d != c.db ==> t.TableList(d) == s.TableList(d)
    ensures c.CreateDb? ==> t.TableList(c.db) == s.TableList(c.db)
  {
    match c
    case CreateDb(d) => s.(tables := s.tables[d := s.TableList(d)])
    case CreateTable(d, n) =>
      if d in s.tables then s.(tables := s.tables[d := s.tables[d] + {n}]) else s
  }

  /** The effect of a sequence of schema commands, issued in order. */
  function ApplyAll(s: StoreState, cs: seq<Create>): StoreState
    decreases |cs|
  {
    if cs == [] then s else ApplyAll(Apply(s, cs[0]), cs[1..])
  }

  lemma {:induction false} ApplyAllSnoc(s: StoreState, cs: seq<Create>, c: Create)
    ensures ApplyAll(s, cs + [c]) == Apply(ApplyAll(s, cs), c)
    decreases |cs|
  {
    if cs == [] {
      assert [c][1..] == [];
    } else {
      assert (cs + [c])[1..] == cs[1..] + [c];
      ApplyAllSnoc(Apply(s, cs[0]), cs[1..], c);
    }
  }

  /** Running commands never touches stored rows. */
  lemma {:induction false} ApplyAllKeepsRows(s: StoreState, cs: seq<Create>)
    ensures ApplyAll(s, cs).rows == s.rows
    decreases |cs|
  {
    if cs != [] {
      ApplyAllKeepsRows(Apply(s, cs[0]), cs[1..]);
    }
  }

  /** What the server answers to `insert(...).run(conn)`. */
  datatype InsertReply = InsertReply(errors: nat, firstError: string, generatedKeys: seq<string>)

  /** `generated_keys[0]`: undefined when the list is empty. */
  function FirstKey(keys: seq<string>): (v: Value)
    ensures v.Str? <==> |keys| > 0
    ensures v.Str? ==> v.s == keys[0]
  {
    if |keys| > 0 then Str(keys[0]) else Undefined
  }

  /** The document the server stores: the row under its generated key, or
      the row as given (its own `id`, if any) when no key was generated. */
  function Keyed(row: Row, keys: seq<string>): (r: Row)
    ensures r.Keys <= row.Keys + {"id"} && row.Keys <= r.Keys
    ensures forall k :: k in row && (k != "id" || |keys| == 0) ==> r[k] == row[k]
    ensures |keys| > 0 ==> "id" in r && r["id"] == Str(keys[0])
  {
    if |keys| > 0 then row["id" := Str(keys[0])] else row
  }

  /** The effect of an insert whose reply is `reply`: an error leaves
      the server as it was, a success appends the keyed row. */
  function Insert(s: StoreState, db: string, table: string, row: Row, reply: InsertReply): (t: StoreState)
    ensures t.tables == s.tables
    ensures reply.errors > 0 ==> t == s
    ensures reply.errors == 0 ==>
      t.Rows(db, table) == s.Rows(db, table) + [Keyed(row, reply.generatedKeys)]
    ensures forall d, n :: (d, n) != (db, table) ==> t.Rows(d, n) == s.Rows(d, n)
  {
    if reply.errors > 0 then s
    else s.(rows := s.rows[(db, table) := s.Rows(db, table) + [Keyed(row, reply.generatedKeys)]])
  }

  /** The server, whose state the driver calls change in place. */
  class Server {
    var tables: map<string, set<string>>
    var rows: map<(string, string), seq<Row>>

    function State(): StoreState
      reads this
    {
      StoreState(tables, rows)
    }

    constructor (s: StoreState)
      ensures State() == s
    {
      tables := s.tables;
      rows := s.rows;
    }

    /** `r.dbList().run(conn)` */
    function DbList(): (ds: set<string>)
      reads this
      ensures ds == State().Databases()
    {
      tables.Keys
    }

    /** `r.db(db).tableList().run(conn)` */
    function TableList(db: string): (ts: set<string>)
      reads this
      ensures ts == State().TableList(db)
      ensures db !in DbList() ==> ts == {}
    {
      if db in tables then tables[db] else {}
    }

    /** `r.dbCreate(db).run(conn)` */
    method DbCreate(db: string)
      modifies this
      ensures State() == Apply(old(State()), CreateDb(db))
    {
      tables := tables[db := State().TableList(db)];
    }

    /** `r.db(db).tableCreate(table).run(conn)` */
    method TableCreate(db: string, table: string)
      modifies this
      ensures State() == Apply(old(State()), CreateTable(db, table))
    {
      if db in tables {
        tables := tables[db := tables[db] + {table}];
      }
    }

    /** `r.db(db).table(table).insert(row).run(conn)`, answered with `reply`. */
    method InsertRow(db: string, table: string, row: Row, reply: InsertReply)
      modifies this
      ensures State() == Insert(old(State()), db, table, row, reply)
    {
      if reply.errors == 0 {
        rows := rows[(db, table) := State().Rows(db, table) + [Keyed(row, reply.generatedKeys)]];
      }
    }
  }
}
