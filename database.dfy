/** The SQLite store (`Database` in database.py): one `posts` table keyed by
    post id, written by an upsert that runs as a single transaction. */
module PostStore {
  import opened Wrappers
  import opened Json

  /** Columns of the `posts` table, in insertion order (`POST_FIELDS`). */
  const PostFields: seq<string> :=
    ["id", "date", "slug", "status", "type", "link", "title", "content", "excerpt"]

  /** Range of a SQLite INTEGER; Python's sqlite3 raises `OverflowError` outside it. */
  const MinInt64: int := -0x8000_0000_0000_0000
  const MaxInt64: int := 0x7FFF_FFFF_FFFF_FFFF

  /** A value as SQLite stores it. */
  datatype Cell = SqlNull | SqlInteger(i: int) | SqlText(s: string)

  /** The eight non-key columns of one row. */
  datatype Row = Row(
    date: Cell,
    slug: Cell,
    status: Cell,
    postType: Cell,
    link: Cell,
    title: Cell,
    content: Cell,
    excerpt: Cell)

  /** The `posts` table: id to row. */
  type Table = map<int, Row>

  /** Why a batch was rolled back. */
  datatype StoreError =
    | UnsupportedType(column: nat)   // a JSON array or object cannot be bound
    | IntegerTooLarge(column: nat)   // an int outside the 64-bit range
    | IdNotInteger                   // `id INTEGER PRIMARY KEY` got a non-integer
    | DateIsNull                     // `date TEXT NOT NULL` got NULL
    | DatabaseClosed                 // the connection was already closed

  /** The schema's NOT NULL rule holds for every stored row. */
  predicate WellFormed(t: Table)
  {
    forall id :: id in t ==> t[id].date != SqlNull
  }

  // ---------------------------------------------------------------------
  // From posts to rows
  // ---------------------------------------------------------------------

  /** `tuple(post.get(field) for field in POST_FIELDS)`. */
  function ToRecord(post: Object): (r: seq<Value>)
    ensures |r| == |PostFields|
    ensures forall i :: 0 <= i < |r| ==> r[i] == Get(post, PostFields[i])
  {
    seq(|PostFields|, i requires 0 <= i < |PostFields| => Get(post, PostFields[i]))
  }

  /** Keys outside `POST_FIELDS` play no part in the record. */
  lemma ToRecordIgnoresOtherKeys(p1: Object, p2: Object)
    requires forall k :: k in PostFields ==> Get(p1, k) == Get(p2, k)
    ensures ToRecord(p1) == ToRecord(p2)
  {
  }

  /** The records comprehension of `insert_posts`. */
  function Records(posts: seq<Object>): (r: seq<seq<Value>>)
    ensures |r| == |posts|
    ensures forall i :: 0 <= i < |r| ==> r[i] == ToRecord(posts[i]) && |r[i]| == |PostFields|
  {
    seq(|posts|, i requires 0 <= i < |posts| => ToRecord(posts[i]))
  }

  /** How sqlite3 binds one parameter: None, bool, int and str are
      supported, ints only within 64 bits. */
  function Bind(v: Value, column: nat): (r: Result<Cell, StoreError>)
    ensures r == Ok(SqlNull) <==> v == Null
    ensures r.Err? <==> v.Arr? || v.Obj? || (v.Num? && !(MinInt64 <= v.n <= MaxInt64))
    ensures v.Str? ==> r == Ok(SqlText(v.s))
    ensures v.Num? && MinInt64 <= v.n <= MaxInt64 ==> r == Ok(SqlInteger(v.n))
    ensures v.Bool? ==> r == Ok(SqlInteger(if v.b then 1 else 0))
  {
    match v
    case Null => Ok(SqlNull)
    case Bool(b) => Ok(SqlInteger(if b then 1 else 0))
    case Num(n) => if MinInt64 <= n <= MaxInt64 then Ok(SqlInteger(n)) else Err(IntegerTooLarge(column))
    case Str(s) => Ok(SqlText(s))
    case Arr(_) => Err(UnsupportedType(column))
    case Obj(_) => Err(UnsupportedType(column))
  }

  /** Binds the record's parameters left to right, from column `from` on;
      the first one that cannot be bound is the error. */
  function BindFrom(record: seq<Value>, from: nat): (r: Result<seq<Cell>, StoreError>)
    requires from <= |record|
    ensures r.Ok? ==>
      && |r.value| == |record| - from
      && forall i :: from <= i < |record| ==> Bind(record[i], i) == Ok(r.value[i - from])
    ensures r.Err? <==> exists i :: from <= i < |record| && Bind(record[i], i).Err?
    decreases |record| - from
  {
    if from == |record| then Ok([])
    else match Bind(record[from], from)
      case Err(e) => Err(e)
      case Ok(cell) =>
        match BindFrom(record, from + 1)
        case Err(e) => Err(e)
        case Ok(cells) => Ok([cell] + cells)
  }

  /** One execution of the upsert statement's row: bind, then the rowid and
      NOT NULL rules. */
  function PrepareRow(record: seq<Value>): (r: Result<(int, Row), StoreError>)
    requires |record| == |PostFields|
    ensures r.Ok? ==> Bind(record[0], 0) == Ok(SqlInteger(r.value.0))
    ensures r.Ok? ==> r.value.1.date != SqlNull && record[1] != Null
    ensures r.Ok? ==>
      var row := r.value.1;
      && Bind(record[2], 2) == Ok(row.slug)
      && Bind(record[3], 3) == Ok(row.status)
      && Bind(record[4], 4) == Ok(row.postType)
      && Bind(record[5], 5) == Ok(row.link)
      && Bind(record[6], 6) == Ok(row.title)
      && Bind(record[7], 7) == Ok(row.content)
      && Bind(record[8], 8) == Ok(row.excerpt)
      && Bind(record[1], 1) == Ok(row.date)
    ensures record[1] == Null ==> r.Err?
    ensures (record[0].Null? || record[0].Str?) ==> r.Err?
    ensures r.Ok? <==>
      && (forall i :: 0 <= i < |record| ==> Bind(record[i], i).Ok?)
      && Bind(record[0], 0).value.SqlInteger?
      && record[1] != Null
  {
    match BindFrom(record, 0)
    case Err(e) => Err(e)
    case Ok(cells) =>
      if !cells[0].SqlInteger? then Err(IdNotInteger)
      else if cells[1] == SqlNull then Err(DateIsNull)
      else Ok((cells[0].i, Row(cells[1], cells[2], cells[3], cells[4], cells[5], cells[6], cells[7], cells[8])))
  }

  /** Prepares every record in order; the first failure is the batch's error. */
  function PrepareAll(records: seq<seq<Value>>): (r: Result<seq<(int, Row)>, StoreError>)
    requires forall i :: 0 <= i < |records| ==> |records[i]| == |PostFields|
    ensures r.Ok? ==>
      && |r.value| == |records|
      && forall i :: 0 <= i < |records| ==> PrepareRow(records[i]) == Ok(r.value[i])
    ensures r.Err? <==> exists i :: 0 <= i < |records| && PrepareRow(records[i]).Err?
    decreases |records|
  {
    if records == [] then Ok([])
    else
      var init := records[..|records| - 1];
      match PrepareAll(init)
      case Err(e) => Err(e)
      case Ok(rows) =>
        match PrepareRow(records[|records| - 1])
        case Err(e) => Err(e)
        case Ok(row) => Ok(rows + [row])
  }

  // ---------------------------------------------------------------------
  // The upsert
  // ---------------------------------------------------------------------

  /** The ids a batch of prepared rows writes. */
  function Ids(rows: seq<(int, Row)>): (ids: set<int>)
    ensures forall i :: 0 <= i < |rows| ==> rows[i].0 in ids
    ensures forall id :: id in ids ==> exists i :: 0 <= i < |rows| && rows[i].0 == id
    decreases |rows|
  {
    if rows == [] then {} else Ids(rows[..|rows| - 1]) + {rows[|rows| - 1].0}
  }

  /** `INSERT ... ON CONFLICT(id) DO UPDATE` of each prepared row in order. */
  function Upsert(t: Table, rows: seq<(int, Row)>): (r: Table)
    ensures r.Keys == t.Keys + Ids(rows)
    decreases |rows|
  {
    if rows == [] then t
    else
      var last := rows[|rows| - 1];
      Upsert(t, rows[..|rows| - 1])[last.0 := last.1]
  }

  /** The position of the last row with id `id`, or -1. */
  function LastIndex(rows: seq<(int, Row)>, id: int): (k: int)
    ensures -1 <= k < |rows|
    ensures 0 <= k ==> rows[k].0 == id
    ensures forall j :: k < j < |rows| ==> rows[j].0 != id
    decreases |rows|
  {
    if rows == [] then -1
    else if rows[|rows| - 1].0 == id then |rows| - 1
    else LastIndex(rows[..|rows| - 1], id)
  }

  /** Last write wins, and ids outside the batch keep their rows (or stay absent). */
  lemma {:induction false} UpsertAt(t: Table, rows: seq<(int, Row)>, id: int)
    ensures var k := LastIndex(rows, id);
      && (0 <= k ==> id in Upsert(t, rows) && Upsert(t, rows)[id] == rows[k].1)
      && (k < 0 ==> (id in Upsert(t, rows) <==> id in t))
      && (k < 0 && id in t ==> Upsert(t, rows)[id] == t[id])
    decreases |rows|
  {
    if rows != [] && rows[|rows| - 1].0 != id {
      UpsertAt(t, rows[..|rows| - 1], id);
    }
  }

  /** Applying a batch twice is applying it once. */
  lemma UpsertIdempotent(t: Table, rows: seq<(int, Row)>)
    ensures Upsert(Upsert(t, rows), rows) == Upsert(t, rows)
  {
    var once := Upsert(t, rows);
    var twice := Upsert(once, rows);
    forall id ensures (id in twice <==> id in once) && (id in once ==> twice[id] == once[id]) {
      UpsertAt(t, rows, id);
      UpsertAt(once, rows, id);
    }
  }

  /** Applying two batches in turn is applying their concatenation. */
  lemma {:induction false} UpsertAppend(t: Table, first: seq<(int, Row)>, second: seq<(int, Row)>)
    ensures Upsert(t, first + second) == Upsert(Upsert(t, first), second)
    decreases |second|
  {
    if second == [] {
      assert first + second == first;
    } else {
      var init := second[..|second| - 1];
      var last := second[|second| - 1];
      UpsertAppend(t, first, init);
      UpsertLastOfAppend(t, first, second);
      assert Upsert(Upsert(t, first), second) == Upsert(Upsert(t, first), init)[last.0 := last.1];
    }
  }

  lemma UpsertLastOfAppend(t: Table, first: seq<(int, Row)>, second: seq<(int, Row)>)
    requires second != []
    ensures Upsert(t, first + second) ==
      Upsert(t, first + second[..|second| - 1])[second[|second| - 1].0 := second[|second| - 1].1]
  {
    var both := first + second;
    assert both[..|both| - 1] == first + second[..|second| - 1];
    assert both[|both| - 1] == second[|second| - 1];
  }

  /** Merge by id: a second write of the same id leaves exactly one row,
      with every non-key column taken from the second write. */
  lemma MergeById(t: Table, id: int, a: Row, b: Row)
    ensures Upsert(Upsert(t, [(id, a)]), [(id, b)]) == Upsert(t, [(id, b)])
    ensures Upsert(t, [(id, b)]).Keys == t.Keys + {id}
    ensures Upsert(t, [(id, b)])[id] == b
  {
  }

  /** The schema rule survives an upsert of prepared rows. */
  lemma {:induction false} UpsertWellFormed(t: Table, rows: seq<(int, Row)>)
    requires WellFormed(t)
    requires forall i :: 0 <= i < |rows| ==> rows[i].1.date != SqlNull
    ensures WellFormed(Upsert(t, rows))
    decreases |rows|
  {
    if rows != [] {
      UpsertWellFormed(t, rows[..|rows| - 1]);
    }
  }

  /** The effect of one `insert_posts` transaction on the committed table. */
  function ApplyBatch(t: Table, records: seq<seq<Value>>): (r: Result<Table, StoreError>)
    requires forall i :: 0 <= i < |records| ==> |records[i]| == |PostFields|
    ensures r.Err? <==> exists i :: 0 <= i < |records| && PrepareRow(records[i]).Err?
    ensures r.Ok? ==> r.value.Keys == t.Keys + Ids(PrepareAll(records).value)
  {
    match PrepareAll(records)
    case Err(e) => Err(e)
    case Ok(rows) => Ok(Upsert(t, rows))
  }

  /** Inserting the same posts twice leaves the table as inserting them once. */
  lemma InsertIdempotent(t: Table, posts: seq<Object>)
    ensures ApplyBatch(t, Records(posts)).Ok? ==>
      ApplyBatch(ApplyBatch(t, Records(posts)).value, Records(posts)) == ApplyBatch(t, Records(posts))
  {
    var records := Records(posts);
    if PrepareAll(records).Ok? {
      UpsertIdempotent(t, PrepareAll(records).value);
    }
  }

  /** After a successful batch each id of the batch holds the row of its last
      record, every other id keeps its row, and no other id appears. */
  lemma BatchResult(t: Table, posts: seq<Object>, id: int)
    ensures ApplyBatch(t, Records(posts)).Ok? ==>
      var after := ApplyBatch(t, Records(posts)).value;
      var rows := PrepareAll(Records(posts)).value;
      var k := LastIndex(rows, id);
      && (0 <= k ==> id in after && PrepareRow(ToRecord(posts[k])) == Ok((id, after[id])))
      && (k < 0 ==> (id in after <==> id in t) && (id in t ==> after[id] == t[id]))
  {
    if ApplyBatch(t, Records(posts)).Ok? {
      UpsertAt(t, PrepareAll(Records(posts)).value, id);
    }
  }

  /** A post without a date makes the whole batch fail. */
  lemma MissingDateRejectsBatch(t: Table, posts: seq<Object>, i: nat)
    requires i < |posts|
    requires Get(posts[i], "date") == Null
    ensures ApplyBatch(t, Records(posts)).Err?
  {
  }

  // ---------------------------------------------------------------------
  // The connection
  // ---------------------------------------------------------------------

  /** The table an existing file holds, or the empty table that
      `CREATE TABLE IF NOT EXISTS` creates in a file without one. */
  function InitialTable(existing: Option<Table>): Table
  {
    if existing.Some? then existing.value else map[]
  }

  /** A database connection: the committed `posts` table and whether the
      connection is still open. */
  class Database {
    const path: string
    var rows: Table
    var isOpen: bool

    ghost predicate Valid()
      reads this
    {
      WellFormed(rows)
    }

    /** `Database(path)`: connects and ensures the schema. `existing` is the
        `posts` table already in the file, if any. */
    constructor (path: string, existing: Option<Table>)
      requires existing.Some? ==> WellFormed(existing.value)
      ensures Valid() && isOpen && this.path == path
      ensures rows == InitialTable(existing)
    {
      this.path := path;
      rows := InitialTable(existing);
      isOpen := true;
      new;
      var _ := EnsureSchema();
    }

    /** `ensure_schema`: creates the table if missing, never alters rows. */
    method EnsureSchema() returns (result: Outcome<StoreError>)
      modifies this
      ensures rows == old(rows) && isOpen == old(isOpen)
      ensures result == if isOpen then Pass else Fail(DatabaseClosed)
    {
      if !isOpen {
        return Fail(DatabaseClosed);
      }
      return Pass;
    }

    /** `insert_posts`: upserts every post in order inside one transaction;
        on any failure the committed table is left as it was. */
    method InsertPosts(posts: seq<Object>) returns (result: Outcome<StoreError>)
      requires Valid()
      modifies this
      ensures Valid() && isOpen == old(isOpen)
      ensures !old(isOpen) ==> result == Fail(DatabaseClosed) && rows == old(rows)
      ensures old(isOpen) ==>
        match ApplyBatch(old(rows), Records(posts))
        case Ok(t) => result == Pass && rows == t
        case Err(e) => result == Fail(e) && rows == old(rows)
      ensures old(isOpen) && posts == [] ==> result == Pass && rows == old(rows)
    {
      if !isOpen {
        return Fail(DatabaseClosed);
      }
      var records := Records(posts);
      var staged := rows;
      ghost var prepared: seq<(int, Row)> := [];
      var i := 0;
      while i < |records|
        invariant 0 <= i <= |records|
        invariant rows == old(rows) && isOpen
        invariant PrepareAll(records[..i]) == Ok(prepared)
        invariant staged == Upsert(rows, prepared)
      {
        match PrepareRow(records[i])
        case Err(e) =>
          PrepareAllFirstError(records, i);
          return Fail(e);
        case Ok(row) =>
          PrepareAllStep(records, i, prepared, row);
          UpsertStep(rows, prepared, row);
          staged := staged[row.0 := row.1];
          prepared := prepared + [row];
          i := i + 1;
      }
      assert records[..i] == records;
      PreparedDatesNotNull(records, prepared);
      UpsertWellFormed(rows, prepared);
      rows := staged;
      return Pass;
    }

    /** `close`. */
    method Close()
      modifies this
      ensures !isOpen && rows == old(rows)
    {
      isOpen := false;
    }
  }

  lemma PrepareAllStep(records: seq<seq<Value>>, i: nat, prepared: seq<(int, Row)>, row: (int, Row))
    requires forall j :: 0 <= j < |records| ==> |records[j]| == |PostFields|
    requires i < |records|
    requires PrepareAll(records[..i]) == Ok(prepared)
    requires PrepareRow(records[i]) == Ok(row)
    ensures PrepareAll(records[..i + 1]) == Ok(prepared + [row])
  {
    assert records[..i + 1][..i] == records[..i];
    assert records[..i + 1][i] == records[i];
  }

  lemma UpsertStep(t: Table, rows: seq<(int, Row)>, row: (int, Row))
    ensures Upsert(t, rows + [row]) == Upsert(t, rows)[row.0 := row.1]
  {
  }

  lemma PreparedDatesNotNull(records: seq<seq<Value>>, rows: seq<(int, Row)>)
    requires forall j :: 0 <= j < |records| ==> |records[j]| == |PostFields|
    requires PrepareAll(records) == Ok(rows)
    ensures forall i :: 0 <= i < |rows| ==> rows[i].1.date != SqlNull
  {
  }

  /** The first failing record determines the batch's error. */
  lemma {:induction false} PrepareAllFirstError(records: seq<seq<Value>>, i: nat)
    requires forall j :: 0 <= j < |records| ==> |records[j]| == |PostFields|
    requires i < |records|
    requires PrepareAll(records[..i]).Ok?
    requires PrepareRow(records[i]).Err?
    ensures PrepareAll(records) == Err(PrepareRow(records[i]).error)
    decreases |records|
  {
    var init := records[..|records| - 1];
    if i < |records| - 1 {
      assert init[..i] == records[..i];
      PrepareAllFirstError(init, i);
    } else {
      assert init == records[..i];
    }
  }

  /** `with Database(path) as db: db.insert_posts(posts)`: `__enter__`
      returns the connection itself and `__exit__` closes it on every path. */
  method StorePosts(path: string, existing: Option<Table>, posts: seq<Object>)
    returns (db: Database, result: Outcome<StoreError>)
    requires existing.Some? ==> WellFormed(existing.value)
    ensures fresh(db) && db.Valid() && !db.isOpen
    ensures match ApplyBatch(InitialTable(existing), Records(posts))
      case Ok(t) => result == Pass && db.rows == t
      case Err(e) => result == Fail(e) && db.rows == InitialTable(existing)
  {
    db := new Database(path, existing);
    result := db.InsertPosts(posts);
    db.Close();
  }
}
