/**
 * db/sqlite_session.go: HTTP sessions kept in a `session` table of SQLite.
 *
 * `SqliteStore` is one session's key-value map, changed in place and
 * written back by `Release`. The provider reads, renames, deletes and
 * expires rows of the table. The table is an object holding a map from
 * session id to row; the clock is a parameter (Unix seconds), and the gob
 * encoding of a session's map is a pair of parameters (`encode`, `decode`).
 */
module SqliteSession {
  import opened GoErrors

  /** A gob-encoded session map, as stored in the `data` column. */
  type Blob = seq<bv8>

  /** A row of the `session` table. */
  datatype Row = Row(data: Blob, expiry: int)

  /** The `session` table, keyed by session id. */
  class SessionTable {
    var rows: map<string, Row>

    constructor (rows: map<string, Row>)
      ensures this.rows == rows
    {
      this.rows := rows;
    }
  }

  /** `SqliteStore`: a session's id and its values, bound to the table it is saved in. */
  class SqliteStore {
    const table: SessionTable
    const sid: string
    var data: map<string, string>

    /** `NewSqliteStore`. */
    constructor (table: SessionTable, sid: string, kv: map<string, string>)
      ensures this.table == table && this.sid == sid && data == kv
    {
      this.table := table;
      this.sid := sid;
      data := kv;
    }

    /** `Get`: the value under `key`, or nil. */
    function Get(key: string): (v: Option<string>)
      reads this
      ensures v.Some? <==> key in data
      ensures v.Some? ==> v.value == data[key]
    {
      if key in data then Some(data[key]) else None
    }

    /** `ID`: always the id the store was made with. */
    function ID(): (id: string)
      ensures id == sid
    {
      sid
    }

    /** `Set`: `key` now maps to `value`; every other key is untouched. */
    method Set(key: string, value: string) returns (err: Option<Error>)
      modifies this
      ensures data == old(data)[key := value]
      ensures Get(key) == Some(value)
      ensures forall k :: k != key ==> Get(k) == old(Get(k))
      ensures err.None?
    {
      data := data[key := value];
      err := None;
    }

    /** `Delete`: `key` is gone, whether it was there or not; nothing else changes. */
    method Delete(key: string) returns (err: Option<Error>)
      modifies this
      ensures data == old(data) - {key}
      ensures Get(key).None?
      ensures forall k :: k != key ==> Get(k) == old(Get(k))
      ensures err.None?
    {
      data := data - {key};
      err := None;
    }

    /** `Flush`: all values dropped. */
    method Flush() returns (err: Option<Error>)
      modifies this
      ensures data == map[]
      ensures err.None?
    {
      data := map[];
      err := None;
    }

    /**
     * `Release`: an empty session is not written at all. Otherwise the map
     * is encoded and the session's row, if it exists, gets the new data and
     * `now` as its expiry time.
     */
    method Release(now: int, encode: map<string, string> -> Result<Blob>) returns (err: Option<Error>)
      modifies table
      ensures |data| == 0 ==> err.None? && table.rows == old(table.rows)
      ensures |data| > 0 && encode(data).Err? ==> err == Some(encode(data).error) && table.rows == old(table.rows)
      ensures |data| > 0 && encode(data).Ok? ==> err.None? && table.rows == Updated(old(table.rows), sid, encode(data).value, now)
    {
      if |data| == 0 {
        return None;
      }
      var encoded := encode(data);
      if encoded.Err? {
        return Some(encoded.error);
      }
      table.rows := Updated(table.rows, sid, encoded.value, now);
      err := None;
    }
  }

  /** `UPDATE session SET data, expiry WHERE key = sid`: no row, no change. */
  function Updated(rows: map<string, Row>, sid: string, data: Blob, now: int): (r: map<string, Row>)
    ensures r.Keys == rows.Keys
    ensures sid in rows ==> r[sid] == Row(data, now)
    ensures forall k :: k in rows && k != sid ==> r[k] == rows[k]
  {
    if sid in rows then rows[sid := Row(data, now)] else rows
  }

  /** A row `Read` loads as an empty session: no data, or its lifetime has run out. */
  predicate StartsEmpty(row: Row, now: int, maxlifetime: int)
  {
    |row.data| == 0 || row.expiry + maxlifetime <= now
  }

  /** A row `GC` deletes: older than the lifetime, strictly. */
  predicate Collected(row: Row, now: int, maxlifetime: int)
  {
    now - row.expiry > maxlifetime
  }

  /** The rows `GC` keeps. */
  function Survivors(rows: map<string, Row>, now: int, maxlifetime: int): (r: map<string, Row>)
    ensures forall k :: k in r <==> k in rows && !Collected(rows[k], now, maxlifetime)
    ensures forall k :: k in r ==> r[k] == rows[k]
  {
    map k | k in rows && !Collected(rows[k], now, maxlifetime) :: rows[k]
  }

  /** `UPDATE session SET key = sid WHERE key = oldsid`. */
  function Renamed(rows: map<string, Row>, oldsid: string, sid: string): (r: map<string, Row>)
    requires oldsid in rows
    ensures sid in r && r[sid] == rows[oldsid]
    ensures oldsid != sid ==> oldsid !in r
    ensures forall k :: k != oldsid && k != sid ==> (k in r <==> k in rows)
    ensures forall k :: k in r && k != oldsid && k != sid ==> r[k] == rows[k]
  {
    (rows - {oldsid})[sid := rows[oldsid]]
  }

  /** `sqliteProvider`: the table and the session lifetime in seconds. */
  class SqliteProvider {
    const table: SessionTable
    const maxlifetime: int

    constructor (table: SessionTable, maxlifetime: int)
      ensures this.table == table && this.maxlifetime == maxlifetime
    {
      this.table := table;
      this.maxlifetime := maxlifetime;
    }

    /** `Exist`: the table has a row for `sid`. */
    function Exist(sid: string): (exists_: bool)
      reads table
      ensures exists_ <==> sid in table.rows
    {
      sid in table.rows
    }

    /** `Count`: the number of rows. */
    function Count(): (total: nat)
      reads table
      ensures total == |table.rows|
      ensures total == 0 <==> table.rows == map[]
    {
      |table.rows|
    }

    /**
     * `Read`: a missing row is first inserted, empty, expiring now. The
     * session starts empty when the row holds no data or has expired;
     * otherwise it holds the decoded map, and a blob that does not decode
     * is an error.
     */
    method Read(sid: string, now: int, decode: Blob -> Result<map<string, string>>)
      returns (r: Result<SqliteStore>)
      modifies table
      ensures sid !in old(table.rows) ==> table.rows == old(table.rows)[sid := Row([], now)]
      ensures sid in old(table.rows) ==> table.rows == old(table.rows)
      ensures sid in table.rows
      ensures StartsEmpty(table.rows[sid], now, maxlifetime) ==>
        r.Ok? && r.value.data == map[] && r.value.sid == sid && r.value.table == table && fresh(r.value)
      ensures !StartsEmpty(table.rows[sid], now, maxlifetime) && decode(table.rows[sid].data).Err? ==>
        r == Err(decode(table.rows[sid].data).error)
      ensures !StartsEmpty(table.rows[sid], now, maxlifetime) && decode(table.rows[sid].data).Ok? ==>
        r.Ok? && r.value.data == decode(table.rows[sid].data).value && r.value.sid == sid
        && r.value.table == table && fresh(r.value)
    {
      var data: Blob := [];
      var expiry := now;
      if sid in table.rows {
        data, expiry := table.rows[sid].data, table.rows[sid].expiry;
      } else {
        table.rows := table.rows[sid := Row([], now)];
      }
      var kv: map<string, string>;
      if |data| == 0 || expiry + maxlifetime <= now {
        kv := map[];
      } else {
        var decoded := decode(data);
        if decoded.Err? {
          return Err(decoded.error);
        }
        kv := decoded.value;
      }
      var store := new SqliteStore(table, sid, kv);
      return Ok(store);
    }

    /** `Destroy`: the row is gone; deleting a missing row is not an error. */
    method Destroy(sid: string) returns (err: Option<Error>)
      modifies table
      ensures table.rows == old(table.rows) - {sid}
      ensures err.None?
    {
      table.rows := table.rows - {sid};
      err := None;
    }

    /**
     * `Regenerate`: refused when the new id is taken; otherwise the old
     * row (created empty if missing) moves to the new id, which is then read.
     */
    method Regenerate(oldsid: string, sid: string, now: int, decode: Blob -> Result<map<string, string>>)
      returns (r: Result<SqliteStore>)
      modifies table
      ensures sid in old(table.rows) ==>
        r == Err(Other("new sid '" + sid + "' already exists")) && table.rows == old(table.rows)
      ensures sid !in old(table.rows) ==>
        table.rows == Renamed(WithRow(old(table.rows), oldsid, now), oldsid, sid)
      ensures sid !in old(table.rows) && oldsid in old(table.rows) ==> table.rows[sid] == old(table.rows)[oldsid]
      ensures sid !in old(table.rows) && StartsEmpty(table.rows[sid], now, maxlifetime) ==>
        r.Ok? && r.value.data == map[] && r.value.sid == sid && r.value.table == table && fresh(r.value)
      ensures sid !in old(table.rows) && !StartsEmpty(table.rows[sid], now, maxlifetime) && decode(table.rows[sid].data).Err? ==>
        r == Err(decode(table.rows[sid].data).error)
      ensures sid !in old(table.rows) && !StartsEmpty(table.rows[sid], now, maxlifetime) && decode(table.rows[sid].data).Ok? ==>
        r.Ok? && r.value.data == decode(table.rows[sid].data).value && r.value.sid == sid && r.value.table == table && fresh(r.value)
    {
      if Exist(sid) {
        return Err(Other("new sid '" + sid + "' already exists"));
      }
      if !Exist(oldsid) {
        table.rows := table.rows[oldsid := Row([], now)];
      }
      table.rows := Renamed(table.rows, oldsid, sid);
      r := Read(sid, now, decode);
    }

    /** `GC`: delete the rows older than the lifetime. */
    method GC(now: int)
      modifies table
      ensures table.rows == Survivors(old(table.rows), now, maxlifetime)
    {
      table.rows := Survivors(table.rows, now, maxlifetime);
    }
  }

  /** The table with a row for `sid`, inserted empty at `now` if it was missing. */
  function WithRow(rows: map<string, Row>, sid: string, now: int): (r: map<string, Row>)
    ensures sid in r && rows.Keys <= r.Keys
    ensures sid in rows ==> r == rows
    ensures sid !in rows ==> r[sid] == Row([], now)
  {
    if sid in rows then rows else rows[sid := Row([], now)]
  }

  /** A row `GC` deletes is one `Read` already treats as expired. */
  lemma CollectedStartsEmpty(row: Row, now: int, maxlifetime: int)
    requires Collected(row, now, maxlifetime)
    ensures StartsEmpty(row, now, maxlifetime)
  {
  }

  /**
   * The converse fails exactly at the boundary: a row whose lifetime ends
   * at `now` reads as expired but survives `GC`.
   */
  lemma BoundaryRow(data: Blob, now: int, maxlifetime: int)
    ensures var row := Row(data, now - maxlifetime);
      StartsEmpty(row, now, maxlifetime) && !Collected(row, now, maxlifetime)
    ensures Row(data, now - maxlifetime) in Survivors(map["s" := Row(data, now - maxlifetime)], now, maxlifetime).Values
  {
    var row := Row(data, now - maxlifetime);
    assert "s" in Survivors(map["s" := row], now, maxlifetime);
  }

  /** Reading an id twice in a row gives the same table: the insert happens once. */
  lemma ReadInsertsOnce(rows: map<string, Row>, sid: string, now: int)
    ensures WithRow(WithRow(rows, sid, now), sid, now) == WithRow(rows, sid, now)
  {
  }
}
