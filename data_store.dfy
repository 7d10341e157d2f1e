/** The correlation store: the `Stats_Info` table of thirteen text columns that
    the event handlers fill, update, read and delete by the
    (`session_id`, `handle_id`) pair.  The SQL text is only the medium; the model
    keeps the table as a sequence of rows and the connection as a three-state
    handle. */
module DataStore {
  import opened Wrappers

  /** The thirteen columns of a row, and the thirteen fields of `user_info`, in
      table order. */
  datatype Record<T> = Record(
    userNum: T, userId: T, confNum: T, confId: T, deviceId: T,
    sessionId: T, handleId: T, audioSsrc: T, videoSsrc: T,
    localCandidate: T, remoteCandidate: T, ucId: T, token: T)

  datatype Column =
    | UserNum | UserId | ConfNum | ConfId | DeviceId | SessionId | HandleId
    | AudioSsrc | VideoSsrc | LocalCandidate | RemoteCandidate | UcId | Token

  /** A row of the table: every column holds text. */
  type Row = Record<string>

  /** A `user_info` struct: every field is a string or NULL. */
  type UserInfo = Record<Option<string>>

  function Field<T>(r: Record<T>, c: Column): T {
    match c
    case UserNum => r.userNum
    case UserId => r.userId
    case ConfNum => r.confNum
    case ConfId => r.confId
    case DeviceId => r.deviceId
    case SessionId => r.sessionId
    case HandleId => r.handleId
    case AudioSsrc => r.audioSsrc
    case VideoSsrc => r.videoSsrc
    case LocalCandidate => r.localCandidate
    case RemoteCandidate => r.remoteCandidate
    case UcId => r.ucId
    case Token => r.token
  }

  /** `r` with column `c` set to `v`. */
  function With<T>(r: Record<T>, c: Column, v: T): (r': Record<T>)
    ensures Field(r', c) == v
    ensures forall c' :: c' != c ==> Field(r', c') == Field(r, c')
  {
    match c
    case UserNum => r.(userNum := v)
    case UserId => r.(userId := v)
    case ConfNum => r.(confNum := v)
    case ConfId => r.(confId := v)
    case DeviceId => r.(deviceId := v)
    case SessionId => r.(sessionId := v)
    case HandleId => r.(handleId := v)
    case AudioSsrc => r.(audioSsrc := v)
    case VideoSsrc => r.(videoSsrc := v)
    case LocalCandidate => r.(localCandidate := v)
    case RemoteCandidate => r.(remoteCandidate := v)
    case UcId => r.(ucId := v)
    case Token => r.(token := v)
  }

  /** `initialize_user_info`: a `user_info` whose fields are all NULL. */
  function Cleared(): (u: UserInfo)
    ensures forall c :: Field(u, c) == None
  {
    Record(None, None, None, None, None, None, None, None, None, None, None, None, None)
  }

  /** The text that `insert_userinfo` puts in a column for a NULL field. */
  const NullText: string := "NULL"

  function TextOf(o: Option<string>): string {
    o.GetOr(NullText)
  }

  /** The row `insert_userinfo` stores for `u`. */
  function Stored(u: UserInfo): (row: Row)
    ensures forall c :: Field(row, c) == (if Field(u, c).Some? then Field(u, c).value else NullText)
  {
    Record(TextOf(u.userNum), TextOf(u.userId), TextOf(u.confNum), TextOf(u.confId),
      TextOf(u.deviceId), TextOf(u.sessionId), TextOf(u.handleId), TextOf(u.audioSsrc),
      TextOf(u.videoSsrc), TextOf(u.localCandidate), TextOf(u.remoteCandidate),
      TextOf(u.ucId), TextOf(u.token))
  }

  /** The `user_info` that `get_user_info` fills from one row: every field is
      a copy of the column's text. */
  function Fetched(row: Row): (u: UserInfo)
    ensures forall c :: Field(u, c) == Some(Field(row, c))
  {
    Record(Some(row.userNum), Some(row.userId), Some(row.confNum), Some(row.confId),
      Some(row.deviceId), Some(row.sessionId), Some(row.handleId), Some(row.audioSsrc),
      Some(row.videoSsrc), Some(row.localCandidate), Some(row.remoteCandidate),
      Some(row.ucId), Some(row.token))
  }

  /** What `%s` prints for a string that may be NULL: glibc prints "(null)". */
  function Printed(o: Option<string>): string {
    o.GetOr("(null)")
  }

  /** A count kept in a `gint8`: it wraps from 127 to -128. */
  function Int8(n: int): int {
    var m := n % 256;
    if m < 128 then m else m - 256
  }

  lemma Int8Step(n: int)
    ensures Int8(Int8(n) + 1) == Int8(n + 1)
  {
    var m := n % 256;
    if m < 128 {
      assert Int8(n) == m;
    } else {
      assert Int8(n) + 1 == m - 255;
      assert (m - 255) % 256 == (m + 1) % 256;
    }
    assert n + 1 == (n / 256) * 256 + (m + 1);
  }

  /** The `db` connection handle.  `Released` is a handle that has been passed
      to `sqlite3_close` but, as in the source, never reset to NULL. */
  datatype Handle = Unopened | Open | Released

  /** The whole store: the connection and the rows of `Stats_Info`. */
  datatype Db = Db(handle: Handle, rows: seq<Row>)

  /** A statement runs when the connection is open and the SQL engine accepts
      it; `sqlOk` is the engine's verdict, which the model takes as given. */
  predicate Executes(db: Db, sqlOk: bool) {
    db.handle == Open && sqlOk
  }

  /** After a failed statement the source closes the connection. */
  function Failed(db: Db): Db {
    if db.handle == Open then db.(handle := Released) else db
  }

  predicate KeyIs(row: Row, sessionId: string, handleId: string) {
    row.sessionId == sessionId && row.handleId == handleId
  }

  /** The rows `WHERE session_id = sessionId AND handle_id = handleId`, in
      table order. */
  function Matching(rows: seq<Row>, sessionId: string, handleId: string): seq<Row> {
    if rows == [] then []
    else
      var m := Matching(rows[..|rows| - 1], sessionId, handleId);
      if KeyIs(rows[|rows| - 1], sessionId, handleId) then m + [rows[|rows| - 1]] else m
  }

  /** `UPDATE ... SET c = v WHERE session_id = ... AND handle_id = ...`. */
  function Updated(rows: seq<Row>, c: Column, sessionId: string, handleId: string, v: string): seq<Row> {
    seq(|rows|, i requires 0 <= i < |rows| =>
      if KeyIs(rows[i], sessionId, handleId) then With(rows[i], c, v) else rows[i])
  }

  /** `DELETE ... WHERE session_id = ... AND handle_id = ...`. */
  function Removed(rows: seq<Row>, sessionId: string, handleId: string): seq<Row> {
    if rows == [] then []
    else
      var r := Removed(rows[..|rows| - 1], sessionId, handleId);
      if KeyIs(rows[|rows| - 1], sessionId, handleId) then r else r + [rows[|rows| - 1]]
  }

  /** `initialize_db`: returns at once when `db` is already set; otherwise
      opens the connection and drops and recreates the table. */
  function Opened(db: Db, sqlOk: bool): Db {
    if db.handle != Unopened then db
    else if sqlOk then Db(Open, [])
    else db.(handle := Released)
  }

  function OpenResult(db: Db, sqlOk: bool): bool {
    db.handle == Unopened && sqlOk
  }

  function Inserted(db: Db, u: UserInfo, sqlOk: bool): Db {
    if Executes(db, sqlOk) then db.(rows := db.rows + [Stored(u)]) else Failed(db)
  }

  function ColumnSet(db: Db, c: Column, sessionId: string, handleId: string, v: string, sqlOk: bool): Db {
    if Executes(db, sqlOk) then db.(rows := Updated(db.rows, c, sessionId, handleId, v)) else Failed(db)
  }

  function Deleted(db: Db, sessionId: string, handleId: string, sqlOk: bool): Db {
    if Executes(db, sqlOk) then db.(rows := Removed(db.rows, sessionId, handleId)) else Failed(db)
  }

  /** What `get_user_info` leaves behind: the store, the returned row count
      (-1 on failure) and the out-record. */
  datatype Selection = Selection(db: Db, count: int, user: UserInfo)

  function Selected(db: Db, sessionId: string, handleId: string, user: UserInfo, sqlOk: bool): Selection {
    if !Executes(db, sqlOk) then Selection(Failed(db), -1, user)
    else
      var m := Matching(db.rows, sessionId, handleId);
      Selection(db, Int8(|m|), if m == [] then user else Fetched(m[|m| - 1]))
  }

  /** `close_db`: `sqlite3_close` on a NULL handle is a no-op that succeeds;
      on success the handle is released but `db` is not reset. */
  function Closed(db: Db, sqlOk: bool): Db {
    if db.handle == Open && sqlOk then db.(handle := Released) else db
  }

  /** `close_db` returns 0 on success and -1 on failure. */
  function CloseResult(db: Db, sqlOk: bool): int {
    if db.handle == Unopened || sqlOk then 0 else -1
  }

  // ---------------------------------------------------------------------
  // Properties of the table operations

  lemma MatchingAppend(rows: seq<Row>, row: Row, sessionId: string, handleId: string)
    ensures Matching(rows + [row], sessionId, handleId)
         == Matching(rows, sessionId, handleId) + (if KeyIs(row, sessionId, handleId) then [row] else [])
  {
    assert (rows + [row])[..|rows|] == rows;
  }

  /** Every row `Matching` returns has the key, and the key's rows are all returned. */
  lemma {:induction false} MatchingExact(rows: seq<Row>, sessionId: string, handleId: string)
    ensures forall r :: r in Matching(rows, sessionId, handleId) <==> r in rows && KeyIs(r, sessionId, handleId)
  {
    if rows != [] {
      var n := |rows| - 1;
      MatchingExact(rows[..n], sessionId, handleId);
      assert rows == rows[..n] + [rows[n]];
    }
  }

  /** An opened store is empty; opening a store whose handle is already set
      changes nothing and reports FALSE. */
  lemma OpenedStates(db: Db, sqlOk: bool)
    ensures db.handle != Unopened ==> Opened(db, sqlOk) == db && !OpenResult(db, sqlOk)
    ensures OpenResult(db, sqlOk) ==> Opened(db, sqlOk) == Db(Open, [])
    ensures db.handle == Unopened ==> (OpenResult(db, sqlOk) <==> Opened(db, sqlOk).handle == Open)
  {
  }

  /** Once the store has been closed it can never be opened again: the handle
      is left set, so `initialize_db` returns at once. */
  lemma {:induction false} NoReopenAfterClose(rows: seq<Row>, sqlOk: bool, again: bool)
    ensures Closed(Db(Open, rows), sqlOk).handle != Unopened
    ensures Opened(Closed(Db(Open, rows), sqlOk), again).handle != Unopened
    ensures !OpenResult(Closed(Db(Open, rows), sqlOk), again)
  {
  }

  /** Insert appends exactly one row and never merges it with an existing row
      of the same key: the key's row count goes up by one. */
  lemma {:induction false} InsertAppendsOne(db: Db, u: UserInfo, sqlOk: bool)
    requires Executes(db, sqlOk)
    ensures Inserted(db, u, sqlOk).rows == db.rows + [Stored(u)]
    ensures u.sessionId.Some? && u.handleId.Some? ==>
      |Matching(Inserted(db, u, sqlOk).rows, u.sessionId.value, u.handleId.value)|
        == |Matching(db.rows, u.sessionId.value, u.handleId.value)| + 1
  {
    if u.sessionId.Some? && u.handleId.Some? {
      MatchingAppend(db.rows, Stored(u), u.sessionId.value, u.handleId.value);
    }
  }

  /** A column update touches that column only, and only in rows of the key;
      with no row of the key the table is left as it was. */
  lemma {:induction false} UpdateTouchesOnlyKey(db: Db, c: Column, sessionId: string, handleId: string, v: string, sqlOk: bool)
    requires Executes(db, sqlOk)
    ensures var rows' := ColumnSet(db, c, sessionId, handleId, v, sqlOk).rows;
      |rows'| == |db.rows| &&
      (forall i, c' :: 0 <= i < |rows'| ==>
        Field(rows'[i], c') == if KeyIs(db.rows[i], sessionId, handleId) && c' == c then v else Field(db.rows[i], c'))
    ensures Matching(db.rows, sessionId, handleId) == [] ==> ColumnSet(db, c, sessionId, handleId, v, sqlOk) == db
  {
    var rows' := ColumnSet(db, c, sessionId, handleId, v, sqlOk).rows;
    if Matching(db.rows, sessionId, handleId) == [] {
      MatchingExact(db.rows, sessionId, handleId);
      forall i | 0 <= i < |db.rows| ensures rows'[i] == db.rows[i] {
        assert db.rows[i] in db.rows;
      }
    }
  }

  /** Updating a column other than the key columns keeps the number of rows of
      every key. */
  lemma {:induction false} UpdateKeepsCounts(rows: seq<Row>, c: Column, sessionId: string, handleId: string, v: string, s: string, h: string)
    requires c != SessionId && c != HandleId
    ensures |Matching(Updated(rows, c, sessionId, handleId, v), s, h)| == |Matching(rows, s, h)|
  {
    if rows != [] {
      var n := |rows| - 1;
      var u := Updated(rows, c, sessionId, handleId, v);
      assert u[..n] == Updated(rows[..n], c, sessionId, handleId, v);
      UpdateKeepsCounts(rows[..n], c, sessionId, handleId, v, s, h);
    }
  }

  /** Every row with column `c` set to `v`. */
  function AllWith(rows: seq<Row>, c: Column, v: string): (r: seq<Row>)
    ensures |r| == |rows| && forall i :: 0 <= i < |r| ==> r[i] == With(rows[i], c, v)
  {
    seq(|rows|, i requires 0 <= i < |rows| => With(rows[i], c, v))
  }

  /** Updating a non-key column of a key sets it in exactly that key's rows,
      in order. */
  lemma {:induction false} MatchingUpdated(rows: seq<Row>, c: Column, sessionId: string, handleId: string, v: string)
    requires c != SessionId && c != HandleId
    ensures Matching(Updated(rows, c, sessionId, handleId, v), sessionId, handleId)
         == AllWith(Matching(rows, sessionId, handleId), c, v)
  {
    if rows != [] {
      var n := |rows| - 1;
      var u := Updated(rows, c, sessionId, handleId, v);
      assert u[..n] == Updated(rows[..n], c, sessionId, handleId, v);
      MatchingUpdated(rows[..n], c, sessionId, handleId, v);
      var m := Matching(rows[..n], sessionId, handleId);
      if KeyIs(rows[n], sessionId, handleId) {
        assert AllWith(m + [rows[n]], c, v) == AllWith(m, c, v) + [With(rows[n], c, v)];
      }
    }
  }

  /** Updating a non-key column of a key leaves every other key's rows alone. */
  lemma {:induction false} MatchingUpdatedOther(rows: seq<Row>, c: Column, sessionId: string, handleId: string, v: string, s: string, h: string)
    requires c != SessionId && c != HandleId && (s, h) != (sessionId, handleId)
    ensures Matching(Updated(rows, c, sessionId, handleId, v), s, h) == Matching(rows, s, h)
  {
    if rows != [] {
      var n := |rows| - 1;
      var u := Updated(rows, c, sessionId, handleId, v);
      assert u[..n] == Updated(rows[..n], c, sessionId, handleId, v);
      MatchingUpdatedOther(rows[..n], c, sessionId, handleId, v, s, h);
    }
  }

  /** Delete takes away every row of the key and keeps the rows of every other
      key, in order. */
  lemma {:induction false} RemovedRows(rows: seq<Row>, sessionId: string, handleId: string, s: string, h: string)
    ensures Matching(Removed(rows, sessionId, handleId), sessionId, handleId) == []
    ensures (s, h) != (sessionId, handleId) ==>
      Matching(Removed(rows, sessionId, handleId), s, h) == Matching(rows, s, h)
  {
    if rows != [] {
      var n := |rows| - 1;
      RemovedRows(rows[..n], sessionId, handleId, s, h);
      var r := Removed(rows[..n], sessionId, handleId);
      if !KeyIs(rows[n], sessionId, handleId) {
        MatchingAppend(r, rows[n], sessionId, handleId);
        MatchingAppend(r, rows[n], s, h);
      }
    }
  }

  /** After a delete, reading the key finds no row. */
  lemma RemoveThenSelect(db: Db, sessionId: string, handleId: string, user: UserInfo, sqlOk: bool)
    requires Executes(db, sqlOk)
    ensures var sel := Selected(Deleted(db, sessionId, handleId, sqlOk), sessionId, handleId, user, sqlOk);
      sel.count == 0 && sel.user == user
  {
    RemovedRows(db.rows, sessionId, handleId, sessionId, handleId);
  }

  /** A read returns the number of rows of the key; with none the out-record
      is untouched, otherwise every field is the text of the last such row. */
  lemma SelectedLast(db: Db, sessionId: string, handleId: string, user: UserInfo, sqlOk: bool)
    requires Executes(db, sqlOk)
    ensures var sel := Selected(db, sessionId, handleId, user, sqlOk);
      var n := |Matching(db.rows, sessionId, handleId)|;
      sel.db == db && sel.count == Int8(n) && (n < 128 ==> sel.count == n) &&
      (n == 0 ==> sel.user == user) &&
      (n > 0 ==> exists i :: (0 <= i < |db.rows| && KeyIs(db.rows[i], sessionId, handleId) &&
         (forall j :: i < j < |db.rows| ==> !KeyIs(db.rows[j], sessionId, handleId)) &&
         forall c :: Field(sel.user, c) == Some(Field(db.rows[i], c))))
  {
    LastMatch(db.rows, sessionId, handleId);
  }

  lemma {:induction false} LastMatch(rows: seq<Row>, sessionId: string, handleId: string)
    ensures var m := Matching(rows, sessionId, handleId);
      m != [] ==> exists i :: (0 <= i < |rows| && rows[i] == m[|m| - 1] && KeyIs(rows[i], sessionId, handleId) &&
        forall j :: i < j < |rows| ==> !KeyIs(rows[j], sessionId, handleId))
  {
    if rows != [] {
      var n := |rows| - 1;
      LastMatch(rows[..n], sessionId, handleId);
      var m := Matching(rows[..n], sessionId, handleId);
      if !KeyIs(rows[n], sessionId, handleId) && m != [] {
        var i :| 0 <= i < n && rows[..n][i] == m[|m| - 1] && KeyIs(rows[..n][i], sessionId, handleId) &&
          forall j :: i < j < n ==> !KeyIs(rows[..n][j], sessionId, handleId);
        assert rows[i] == rows[..n][i];
        assert forall j :: i < j < |rows| ==> !KeyIs(rows[j], sessionId, handleId) by {
          forall j | i < j < |rows| ensures !KeyIs(rows[j], sessionId, handleId) {
            if j < n { assert rows[j] == rows[..n][j]; }
          }
        }
      }
    }
  }

  /** Any statement the engine refuses closes the connection and reports
      failure: FALSE, or -1 for a read. */
  lemma FailureCloses(db: Db, u: UserInfo, c: Column, s: string, h: string, v: string, sqlOk: bool)
    requires !Executes(db, sqlOk)
    ensures Inserted(db, u, sqlOk) == Failed(db)
    ensures ColumnSet(db, c, s, h, v, sqlOk) == Failed(db)
    ensures Deleted(db, s, h, sqlOk) == Failed(db)
    ensures Selected(db, s, h, u, sqlOk) == Selection(Failed(db), -1, u)
    ensures Failed(db).handle != Open
  {
  }

  /** The store: the module-level `db` connection and its table, changed in
      place by every statement. */
  class Store {
    var handle: Handle
    var rows: seq<Row>

    function State(): Db
      reads this
    {
      Db(handle, rows)
    }

    constructor ()
      ensures State() == Db(Unopened, [])
    {
      handle := Unopened;
      rows := [];
    }

    /** The common failure path of every statement. */
    method Fail()
      modifies this
      ensures State() == Failed(old(State()))
    {
      if handle == Open {
        handle := Released;
      }
    }

    method InitializeDb(sqlOk: bool) returns (ok: bool)
      modifies this
      ensures State() == Opened(old(State()), sqlOk)
      ensures ok == OpenResult(old(State()), sqlOk)
    {
      if handle != Unopened {
        return false;
      }
      if !sqlOk {
        handle := Released;
        return false;
      }
      handle := Open;
      rows := [];
      ok := true;
    }

    method InsertUserInfo(user: UserInfo, sqlOk: bool) returns (ok: bool)
      modifies this
      ensures State() == Inserted(old(State()), user, sqlOk)
      ensures ok == Executes(old(State()), sqlOk)
    {
      if !(handle == Open && sqlOk) {
        Fail();
        return false;
      }
      rows := rows + [Stored(user)];
      ok := true;
    }

    method SetColumn(c: Column, sessionId: string, handleId: string, v: string, sqlOk: bool) returns (ok: bool)
      modifies this
      ensures State() == ColumnSet(old(State()), c, sessionId, handleId, v, sqlOk)
      ensures ok == Executes(old(State()), sqlOk)
    {
      if !(handle == Open && sqlOk) {
        Fail();
        return false;
      }
      rows := Updated(rows, c, sessionId, handleId, v);
      ok := true;
    }

    method AddToken(sessionId: string, handleId: string, token: string, sqlOk: bool) returns (ok: bool)
      modifies this
      ensures State() == ColumnSet(old(State()), Token, sessionId, handleId, token, sqlOk)
      ensures ok == Executes(old(State()), sqlOk)
    {
      ok := SetColumn(Token, sessionId, handleId, token, sqlOk);
    }

    method AddUcId(sessionId: string, handleId: string, ucId: string, sqlOk: bool) returns (ok: bool)
      modifies this
      ensures State() == ColumnSet(old(State()), UcId, sessionId, handleId, ucId, sqlOk)
      ensures ok == Executes(old(State()), sqlOk)
    {
      ok := SetColumn(UcId, sessionId, handleId, ucId, sqlOk);
    }

    method AddUserNum(sessionId: string, handleId: string, userNum: string, sqlOk: bool) returns (ok: bool)
      modifies this
      ensures State() == ColumnSet(old(State()), UserNum, sessionId, handleId, userNum, sqlOk)
      ensures ok == Executes(old(State()), sqlOk)
    {
      ok := SetColumn(UserNum, sessionId, handleId, userNum, sqlOk);
    }

    /** Steps through the rows of the key, copying every column of each into
        the out-record, and counts them. */
    method GetUserInfo(sessionId: string, handleId: string, user: UserInfo, sqlOk: bool)
      returns (count: int, out: UserInfo)
      modifies this
      ensures Selection(State(), count, out) == Selected(old(State()), sessionId, handleId, user, sqlOk)
    {
      if !(handle == Open && sqlOk) {
        Fail();
        return -1, user;
      }
      count, out := 0, user;
      var table := rows;
      var i := 0;
      while i < |table|
        invariant 0 <= i <= |table|
        invariant State() == old(State()) == Db(Open, table)
        invariant count == Int8(|Matching(table[..i], sessionId, handleId)|)
        invariant out == var m := Matching(table[..i], sessionId, handleId);
          if m == [] then user else Fetched(m[|m| - 1])
      {
        assert table[..i + 1] == table[..i] + [table[i]];
        MatchingAppend(table[..i], table[i], sessionId, handleId);
        if table[i].sessionId == sessionId && table[i].handleId == handleId {
          Int8Step(|Matching(table[..i], sessionId, handleId)|);
          count := Int8(count + 1);
          var row := table[i];
          out := out.(userNum := Some(row.userNum));
          out := out.(userId := Some(row.userId));
          out := out.(confNum := Some(row.confNum));
          out := out.(confId := Some(row.confId));
          out := out.(deviceId := Some(row.deviceId));
          out := out.(sessionId := Some(row.sessionId));
          out := out.(handleId := Some(row.handleId));
          out := out.(audioSsrc := Some(row.audioSsrc));
          out := out.(videoSsrc := Some(row.videoSsrc));
          out := out.(localCandidate := Some(row.localCandidate));
          out := out.(remoteCandidate := Some(row.remoteCandidate));
          out := out.(ucId := Some(row.ucId));
          out := out.(token := Some(row.token));
        }
        i := i + 1;
      }
      assert table[..i] == table;
    }

    method RemoveUser(sessionId: string, handleId: string, sqlOk: bool) returns (ok: bool)
      modifies this
      ensures State() == Deleted(old(State()), sessionId, handleId, sqlOk)
      ensures ok == Executes(old(State()), sqlOk)
    {
      if !(handle == Open && sqlOk) {
        Fail();
        return false;
      }
      rows := Removed(rows, sessionId, handleId);
      ok := true;
    }

    method CloseDb(sqlOk: bool) returns (rc: int)
      modifies this
      ensures State() == Closed(old(State()), sqlOk)
      ensures rc == CloseResult(old(State()), sqlOk)
    {
      if handle == Unopened {
        return 0;
      }
      if !sqlOk {
        return -1;
      }
      if handle == Open {
        handle := Released;
      }
      rc := 0;
    }
  }
}
