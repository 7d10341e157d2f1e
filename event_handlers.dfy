/** The per-type event handlers: they pull the fields they need out of a Janus
    event, keep the correlation store up to date and call the callstats.io
    client.  Everything the outside world decides (the SQL engine's verdict on
    each statement, the signed token, the backend's replies, the clock) is
    passed in. */
module EventHandlers {
  import opened Wrappers
  import opened Text
  import opened DataStore
  import opened Callstats

  // ---------------------------------------------------------------------
  // to_string

  function Digit(d: nat): char
    requires d < 10
  {
    ('0' as int + d) as char
  }

  /** The decimal digits of `n`, most significant first, with no leading zero. */
  function Decimal(n: nat): (s: string)
    ensures s != [] && forall i :: 0 <= i < |s| ==> IsDigit(s[i])
  {
    if n < 10 then [Digit(n)] else Decimal(n / 10) + [Digit(n % 10)]
  }

  /** `to_string`: `sprintf("%li", num)`. */
  function ToString(n: int): string {
    if n < 0 then "-" + Decimal(-n) else Decimal(n)
  }

  lemma {:induction false} DecimalValue(n: nat)
    ensures DigitsValue(Decimal(n)) == n
  {
    if n >= 10 {
      DecimalValue(n / 10);
      var s := Decimal(n);
      assert s[..|s| - 1] == Decimal(n / 10);
    }
  }

  lemma {:induction false} AllDigits(s: string)
    requires forall i :: 0 <= i < |s| ==> IsDigit(s[i])
    ensures DigitPrefix(s) == s
  {
    if s != [] {
      AllDigits(s[1..]);
    }
  }

  /** Reading back what `to_string` wrote gives the number again, so distinct
      ids give distinct keys in the store. */
  lemma AtoiToString(n: int)
    ensures Atoi(ToString(n)) == n
  {
    var m: nat := if n < 0 then -n else n;
    DecimalValue(m);
    AllDigits(Decimal(m));
    var s := ToString(n);
    assert !IsSpace(s[0]);
    assert SkipSpaces(s) == s;
    if n < 0 {
      assert s[1..] == Decimal(m);
    } else {
      assert s[0] != '-' && s[0] != '+';
    }
  }

  lemma ToStringInjective(a: int, b: int)
    ensures ToString(a) == ToString(b) <==> a == b
  {
    AtoiToString(a);
    AtoiToString(b);
  }

  // ---------------------------------------------------------------------
  // without_spaces

  /** `without_spaces` as a function of its input: a space right after a space
      is dropped, and every other space becomes `-`; so each run of spaces
      turns into one `-`. */
  function Collapsed(s: string): string {
    if s == [] then []
    else
      var init, c := s[..|s| - 1], s[|s| - 1];
      if c != ' ' then Collapsed(init) + [c]
      else if init != [] && init[|init| - 1] == ' ' then Collapsed(init)
      else Collapsed(init) + ['-']
  }

  /** The characters other than spaces and dashes, in order. */
  function Letters(s: string): string {
    if s == [] then []
    else if s[|s| - 1] == ' ' || s[|s| - 1] == '-' then Letters(s[..|s| - 1])
    else Letters(s[..|s| - 1]) + [s[|s| - 1]]
  }

  /** Walks the string once, remembering whether the previous character was a
      space. */
  method WithoutSpaces(s: string) returns (r: string)
    ensures r == Collapsed(s)
  {
    r := [];
    var spaces := 0;
    var i := 0;
    while i < |s|
      invariant 0 <= i <= |s|
      invariant r == Collapsed(s[..i])
      invariant spaces == if i > 0 && s[i - 1] == ' ' then 1 else 0
    {
      assert s[..i + 1][..i] == s[..i];
      if s[i] == ' ' {
        if spaces == 0 {
          r := r + ['-'];
          spaces := spaces + 1;
        }
        i := i + 1;
        continue;
      }
      spaces := 0;
      r := r + [s[i]];
      i := i + 1;
    }
    assert s[..i] == s;
  }

  /** The result has no space and is never longer than the input. */
  lemma {:induction false} CollapsedNoSpace(s: string)
    ensures ' ' !in Collapsed(s) && |Collapsed(s)| <= |s|
  {
    if s != [] {
      CollapsedNoSpace(s[..|s| - 1]);
    }
  }

  /** A string with no space comes back unchanged. */
  lemma {:induction false} CollapsedFixed(s: string)
    requires ' ' !in s
    ensures Collapsed(s) == s
  {
    if s != [] {
      assert ' ' !in s[..|s| - 1];
      CollapsedFixed(s[..|s| - 1]);
    }
  }

  lemma {:induction false} CollapsedIdempotent(s: string)
    ensures Collapsed(Collapsed(s)) == Collapsed(s)
  {
    CollapsedNoSpace(s);
    CollapsedFixed(Collapsed(s));
  }

  /** `k` spaces. */
  function Spaces(k: nat): string {
    seq(k, _ => ' ')
  }

  /** Text that does not start with a space is collapsed on its own. */
  lemma {:induction false} CollapsedAppend(x: string, b: string)
    requires b == [] || b[0] != ' '
    ensures Collapsed(x + b) == Collapsed(x) + Collapsed(b)
    decreases |b|
  {
    if b == [] {
      assert x + b == x;
    } else {
      var init, c := b[..|b| - 1], b[|b| - 1];
      assert (x + b)[..|x + b| - 1] == x + init;
      assert (x + b)[|x + b| - 1] == c;
      if init != [] {
        assert init[0] == b[0];
        assert (x + init)[|x + init| - 1] == init[|init| - 1];
      }
      CollapsedAppend(x, init);
    }
  }

  /** A run of spaces after a character other than a space, or at the start,
      becomes one `-`. */
  lemma {:induction false} CollapsedSpaces(a: string, k: nat)
    requires k >= 1 && (a == [] || a[|a| - 1] != ' ')
    ensures Collapsed(a + Spaces(k)) == Collapsed(a) + "-"
  {
    var s := a + Spaces(k);
    assert s[..|s| - 1] == a + Spaces(k - 1);
    assert s[|s| - 1] == ' ';
    if k == 1 {
      assert a + Spaces(0) == a;
    } else {
      CollapsedSpaces(a, k - 1);
      var t := a + Spaces(k - 1);
      assert t[|t| - 1] == ' ';
    }
  }

  /** Each maximal run of spaces becomes exactly one `-`, and the text on
      either side is collapsed independently. */
  lemma SpaceRunBecomesDash(a: string, k: nat, b: string)
    requires k >= 1
    requires a == [] || a[|a| - 1] != ' '
    requires b == [] || b[0] != ' '
    ensures Collapsed(a + Spaces(k) + b) == Collapsed(a) + "-" + Collapsed(b)
  {
    CollapsedAppend(a + Spaces(k), b);
    CollapsedSpaces(a, k);
  }

  /** A room description with a double space. */
  lemma CollapsedExample()
    ensures Collapsed("my  room") == "my-room"
  {
    assert "my  room" == "my" + Spaces(2) + "room";
    SpaceRunBecomesDash("my", 2, "room");
    CollapsedFixed("my");
    CollapsedFixed("room");
  }

  /** Only spaces and dashes are touched: every other character is kept, in
      order. */
  lemma {:induction false} CollapsedKeepsLetters(s: string)
    ensures Letters(Collapsed(s)) == Letters(s)
  {
    if s != [] {
      var init := s[..|s| - 1];
      CollapsedKeepsLetters(init);
      var r := Collapsed(init);
      if s[|s| - 1] != ' ' {
        assert (r + [s[|s| - 1]])[..|r|] == r;
      } else if !(init != [] && init[|init| - 1] == ' ') {
        assert (r + ['-'])[..|r|] == r;
      }
    }
  }

  // ---------------------------------------------------------------------
  // Events and the outside world

  /** The fields of the `opaque_id` the client attaches: `user`, `roomDesc`,
      `roomId` (read with `json_integer_value`) and `deviceId`. */
  datatype Opaque = Opaque(user: Option<string>, roomDesc: string, roomId: Option<int>, deviceId: Option<string>)

  /** The fields of a Janus event that the handlers read: the numeric type, the
      session and handle ids, the timestamp, the handle event's name and
      opaque id, the plugin event's name and `id`, and the core event's
      status. */
  datatype Event = Event(
    typ: int, sessionId: int, handleId: int, timestamp: int,
    name: string, opaqueId: Option<Opaque>,
    pluginEvent: string, userNum: Option<int>,
    status: string)

  /** The build-time settings the client sends: `APP_ID`, `JANUS_VERSION` and
      `JANGOUTS_VERSION`. */
  datatype Config = Config(appId: string, janusVersion: string, appVersion: string)

  /** What the outside world answers while one event is handled: the SQL
      engine's verdict on the first, second and third statement, the signed
      token (or `None` when signing fails), and the backend's replies. */
  datatype Outside = Outside(
    sql0: bool, sql1: bool, sql2: bool,
    jwt: Option<string>, auth: Reply, joined: Reply, left: Reply)

  /** The store after an event, and the requests sent to the backend, in order. */
  datatype Outcome = Outcome(db: Db, sent: seq<Request>)

  // ---------------------------------------------------------------------
  // handle_eventhandler

  /** The record built for an attached handle. */
  function NewUser(e: Event, o: Opaque): UserInfo {
    Cleared().(userId := o.user, confId := Some(Collapsed(o.roomDesc)),
      confNum := Some(ToString(o.roomId.GetOr(0))), deviceId := o.deviceId,
      sessionId := Some(ToString(e.sessionId)), handleId := Some(ToString(e.handleId)))
  }

  function AuthPosts(a: Authenticated): seq<Request> {
    if a.form.Some? then [FormPost(AuthUrl, a.form.value)] else []
  }

  /** An `attached` event with an opaque id inserts the new record, asks for a
      token whatever the insert did, and writes the token (or the text NULL
      prints as) to every row of the handle; nothing else changes anything. */
  function HandleEffect(db: Db, cfg: Config, e: Event, w: Outside): Outcome {
    if e.name != "attached" || e.opaqueId.None? then Outcome(db, [])
    else
      var u := NewUser(e, e.opaqueId.value);
      var auth := Authenticate(cfg.appId, u.userId, w.jwt, w.auth);
      var db' := ColumnSet(Inserted(db, u, w.sql0), Token, ToString(e.sessionId), ToString(e.handleId),
        Printed(auth.accessToken), w.sql1);
      Outcome(db', AuthPosts(auth))
  }

  method HandleEventHandler(store: Store, cfg: Config, e: Event, w: Outside) returns (sent: seq<Request>)
    modifies store
    ensures Outcome(store.State(), sent) == HandleEffect(old(store.State()), cfg, e, w)
  {
    if e.name == "attached" {
      if e.opaqueId.None? {
        return [];
      }
      var o := e.opaqueId.value;
      var confId := WithoutSpaces(o.roomDesc);
      var user := Cleared();
      user := user.(userId := o.user);
      user := user.(confId := Some(confId));
      user := user.(confNum := Some(ToString(o.roomId.GetOr(0))));
      user := user.(deviceId := o.deviceId);
      user := user.(sessionId := Some(ToString(e.sessionId)));
      user := user.(handleId := Some(ToString(e.handleId)));
      var inserted := store.InsertUserInfo(user, w.sql0);
      var auth := Authenticate(cfg.appId, o.user, w.jwt, w.auth);
      var tokenAdded := store.AddToken(user.sessionId.value, user.handleId.value, Printed(auth.accessToken), w.sql1);
      sent := AuthPosts(auth);
    } else {
      sent := [];
    }
  }

  // ---------------------------------------------------------------------
  // plugin_eventhandler

  /** `joined` stores the user number, reads the handle's record back, reports
      the join and stores the connection id the backend assigned (or the text
      NULL prints as); `unpublished` reads the record, reports the departure
      and deletes the handle's rows whatever the backend answered. */
  function PluginEffect(db: Db, cfg: Config, e: Event, w: Outside): Outcome {
    var sid, hid := ToString(e.sessionId), ToString(e.handleId);
    if e.pluginEvent == "joined" then
      var db1 := ColumnSet(db, UserNum, sid, hid, ToString(e.userNum.GetOr(0)), w.sql0);
      var sel := Selected(db1, sid, hid, Cleared(), w.sql1);
      var j := UserJoined(cfg.appId, sel.user, e.timestamp, cfg.janusVersion, cfg.appVersion, w.joined);
      Outcome(ColumnSet(sel.db, UcId, sid, hid, Printed(j.ucId), w.sql2), [j.request])
    else if e.pluginEvent == "unpublished" then
      var sel := Selected(db, sid, hid, Cleared(), w.sql0);
      var l := UserLeft(cfg.appId, sel.user, e.timestamp, w.left);
      Outcome(Deleted(sel.db, sid, hid, w.sql1), [l.request])
    else
      Outcome(db, [])
  }

  method PluginEventHandler(store: Store, cfg: Config, e: Event, w: Outside) returns (sent: seq<Request>)
    modifies store
    ensures Outcome(store.State(), sent) == PluginEffect(old(store.State()), cfg, e, w)
  {
    var sessionId := ToString(e.sessionId);
    var handleId := ToString(e.handleId);
    if e.pluginEvent == "joined" {
      var userNum := ToString(e.userNum.GetOr(0));
      var rc := store.AddUserNum(sessionId, handleId, userNum, w.sql0);
      var rows, user := store.GetUserInfo(sessionId, handleId, Cleared(), w.sql1);
      var joined := UserJoined(cfg.appId, user, e.timestamp, cfg.janusVersion, cfg.appVersion, w.joined);
      rc := store.AddUcId(sessionId, handleId, Printed(joined.ucId), w.sql2);
      sent := [joined.request];
    } else if e.pluginEvent == "unpublished" {
      var rows, user := store.GetUserInfo(sessionId, handleId, Cleared(), w.sql0);
      var left := UserLeft(cfg.appId, user, e.timestamp, w.left);
      var removed := store.RemoveUser(sessionId, handleId, w.sql1);
      sent := [left.request];
    } else {
      sent := [];
    }
  }

  // ---------------------------------------------------------------------
  // core_eventhandler

  /** `started` opens the store and `shutdown` closes it. */
  function CoreEffect(db: Db, e: Event, w: Outside): Db {
    if e.status == "started" then Opened(db, w.sql0)
    else if e.status == "shutdown" then Closed(db, w.sql0)
    else db
  }

  method CoreEventHandler(store: Store, e: Event, w: Outside)
    modifies store
    ensures store.State() == CoreEffect(old(store.State()), e, w)
  {
    if e.status == "started" {
      var ok := store.InitializeDb(w.sql0);
    } else if e.status == "shutdown" {
      var rc := store.CloseDb(w.sql0);
    }
  }

  // ---------------------------------------------------------------------
  // user_alive

  /** One round of the heartbeat loop as the outside world plays it: the
      clock, the backend's reply, whether another thread deleted the handle's
      rows during the pause, and the SQL engine's verdict on the re-read. */
  datatype Tick = Tick(now: int, heartbeat: Reply, removedMeanwhile: bool, sqlOk: bool)

  /** The store after the loop, the pauses in microseconds and the heartbeats
      sent. */
  datatype Alive = Alive(db: Db, sleeps: seq<int>, sent: seq<Request>)

  const LongPause: int := 10 * 1000000
  const ShortPause: int := 1000000

  function Pause(delivered: bool): int {
    if delivered then LongPause else ShortPause
  }

  /** The loop from a row count just read: while the count is positive, send a
      heartbeat, pause, and read the handle's record again.  `ticks` bounds the
      rounds the model follows. */
  function AliveRounds(db: Db, appId: string, user: UserInfo, rows: int, ticks: seq<Tick>): Alive
    decreases |ticks|
  {
    if rows <= 0 || ticks == [] then Alive(db, [], [])
    else
      var p := UserAlive(appId, user, ticks[0].now, ticks[0].heartbeat);
      var sel := Reread(db, user, ticks[0]);
      var rest := AliveRounds(sel.db, appId, sel.user, sel.count, ticks[1..]);
      Alive(rest.db, [Pause(p.delivered)] + rest.sleeps, [p.request] + rest.sent)
  }

  /** The pause of one round and the read that ends it. */
  function Reread(db: Db, user: UserInfo, t: Tick): Selection {
    var sid, hid := Printed(user.sessionId), Printed(user.handleId);
    var db1 := if t.removedMeanwhile then Deleted(db, sid, hid, true) else db;
    Selected(db1, sid, hid, user, t.sqlOk)
  }

  /** The heartbeat thread's body: read the handle's record, then loop. */
  function AliveRun(db: Db, appId: string, user: UserInfo, sqlOk: bool, ticks: seq<Tick>): Alive {
    var first := Selected(db, Printed(user.sessionId), Printed(user.handleId), user, sqlOk);
    AliveRounds(first.db, appId, first.user, first.count, ticks)
  }

  method UserAliveLoop(store: Store, appId: string, user: UserInfo, sqlOk: bool, ticks: seq<Tick>)
    returns (sleeps: seq<int>, sent: seq<Request>)
    modifies store
    ensures Alive(store.State(), sleeps, sent) == AliveRun(old(store.State()), appId, user, sqlOk, ticks)
  {
    var rows, u := store.GetUserInfo(Printed(user.sessionId), Printed(user.handleId), user, sqlOk);
    ghost var start, u0, rows0 := store.State(), u, rows;
    sleeps, sent := [], [];
    var k := 0;
    while rows > 0 && k < |ticks|
      invariant 0 <= k <= |ticks|
      invariant var rest := AliveRounds(store.State(), appId, u, rows, ticks[k..]);
        AliveRounds(start, appId, u0, rows0, ticks) == Alive(rest.db, sleeps + rest.sleeps, sent + rest.sent)
      decreases |ticks| - k
    {
      var t := ticks[k];
      assert ticks[k..][1..] == ticks[k + 1..];
      ghost var before, u1, rows1, sleeps1, sent1 := store.State(), u, rows, sleeps, sent;
      ghost var restOld := AliveRounds(before, appId, u1, rows1, ticks[k..]);
      var alive := UserAlive(appId, u, t.now, t.heartbeat);
      sent := sent + [alive.request];
      if alive.delivered {
        sleeps := sleeps + [10 * 1000000];
      } else {
        sleeps := sleeps + [1000000];
      }
      if t.removedMeanwhile {
        var removed := store.RemoveUser(Printed(u.sessionId), Printed(u.handleId), true);
      }
      rows, u := store.GetUserInfo(Printed(u.sessionId), Printed(u.handleId), u, t.sqlOk);
      assert Selection(store.State(), rows, u) == Reread(before, u1, t);
      k := k + 1;
      ghost var restNew := AliveRounds(store.State(), appId, u, rows, ticks[k..]);
      assert restOld == Alive(restNew.db, [Pause(alive.delivered)] + restNew.sleeps, [alive.request] + restNew.sent);
      assert sleeps == sleeps1 + [Pause(alive.delivered)];
      Reassociate(sleeps1, [Pause(alive.delivered)], restNew.sleeps);
      Reassociate(sent1, [alive.request], restNew.sent);
    }
    if k < |ticks| {
      assert rows <= 0;
    }
  }

  // ---------------------------------------------------------------------
  // Properties of the handlers

  /** An attached handle is stored as one more row of its key; every row of
      the key then carries the token, no other key is touched, and reading
      the key back gives the new record with the token. */
  lemma AttachThenRead(db: Db, cfg: Config, e: Event, w: Outside, sqlOk: bool)
    requires e.name == "attached" && e.opaqueId.Some?
    requires Executes(db, w.sql0) && w.sql1 && sqlOk
    ensures var out := HandleEffect(db, cfg, e, w);
      var sid, hid := ToString(e.sessionId), ToString(e.handleId);
      var u := NewUser(e, e.opaqueId.value);
      var token := Printed(Authenticate(cfg.appId, u.userId, w.jwt, w.auth).accessToken);
      out.db.handle == Open &&
      |Matching(out.db.rows, sid, hid)| == |Matching(db.rows, sid, hid)| + 1 &&
      (forall r :: r in Matching(out.db.rows, sid, hid) ==> r.token == token) &&
      Selected(out.db, sid, hid, Cleared(), sqlOk).user == Fetched(Stored(u.(token := Some(token)))) &&
      (forall s, h :: (s, h) != (sid, hid) ==> Matching(out.db.rows, s, h) == Matching(db.rows, s, h))
  {
    var sid, hid := ToString(e.sessionId), ToString(e.handleId);
    var u := NewUser(e, e.opaqueId.value);
    var token := Printed(Authenticate(cfg.appId, u.userId, w.jwt, w.auth).accessToken);
    var rows1 := db.rows + [Stored(u)];
    var rowsF := Updated(rows1, Token, sid, hid, token);
    assert HandleEffect(db, cfg, e, w).db == Db(Open, rowsF);
    var after := Matching(rowsF, sid, hid);
    assert after == AllWith(Matching(db.rows, sid, hid) + [Stored(u)], Token, token) by {
      MatchingAppend(db.rows, Stored(u), sid, hid);
      MatchingUpdated(rows1, Token, sid, hid, token);
    }
    assert forall r :: r in after ==> r.token == token;
    assert after[|after| - 1] == Stored(u.(token := Some(token)));
    forall s, h | (s, h) != (sid, hid)
      ensures Matching(rowsF, s, h) == Matching(db.rows, s, h)
    {
      MatchingUpdatedOther(rows1, Token, sid, hid, token, s, h);
      MatchingAppend(db.rows, Stored(u), s, h);
    }
  }

  /** A handle joining keeps its rows, stamps them with the user number and the
      connection id the backend assigned, and reports the join with the
      record read back after the user number was stored. */
  lemma JoinThenRead(db: Db, cfg: Config, e: Event, w: Outside, sqlOk: bool)
    requires e.pluginEvent == "joined"
    requires Executes(db, w.sql0) && w.sql1 && w.sql2 && sqlOk
    requires Matching(db.rows, ToString(e.sessionId), ToString(e.handleId)) != []
    ensures var sid, hid := ToString(e.sessionId), ToString(e.handleId);
      var m := Matching(db.rows, sid, hid);
      var num := ToString(e.userNum.GetOr(0));
      var read := Fetched(With(m[|m| - 1], UserNum, num));
      var j := UserJoined(cfg.appId, read, e.timestamp, cfg.janusVersion, cfg.appVersion, w.joined);
      var out := PluginEffect(db, cfg, e, w);
      var sel := Selected(out.db, sid, hid, Cleared(), sqlOk);
      out.sent == [j.request] && out.db.handle == Open &&
      sel.count == Int8(|m|) &&
      sel.user.userNum == Some(num) && sel.user.ucId == Some(Printed(j.ucId)) &&
      (forall c :: c != UserNum && c != UcId ==> Field(sel.user, c) == Some(Field(m[|m| - 1], c)))
  {
    var sid, hid := ToString(e.sessionId), ToString(e.handleId);
    var m := Matching(db.rows, sid, hid);
    var num := ToString(e.userNum.GetOr(0));
    var rows1 := Updated(db.rows, UserNum, sid, hid, num);
    MatchingUpdated(db.rows, UserNum, sid, hid, num);
    var m1 := Matching(rows1, sid, hid);
    assert m1[|m1| - 1] == With(m[|m| - 1], UserNum, num);
    var read := Fetched(With(m[|m| - 1], UserNum, num));
    var j := UserJoined(cfg.appId, read, e.timestamp, cfg.janusVersion, cfg.appVersion, w.joined);
    var uc := Printed(j.ucId);
    var db1 := db.(rows := rows1);
    var sel1 := Selected(db1, sid, hid, Cleared(), w.sql1);
    assert sel1 == Selection(db1, Int8(|m1|), read);
    MatchingUpdated(rows1, UcId, sid, hid, uc);
    var db2 := db1.(rows := Updated(rows1, UcId, sid, hid, uc));
    var m2 := Matching(db2.rows, sid, hid);
    assert |m2| == |m1| == |m|;
    assert m2[|m2| - 1] == With(With(m[|m| - 1], UserNum, num), UcId, uc);
    assert PluginEffect(db, cfg, e, w) == Outcome(db2, [j.request]);
    var sel := Selected(db2, sid, hid, Cleared(), sqlOk);
    assert sel.count == Int8(|m|) && sel.user == Fetched(m2[|m2| - 1]);
  }

  /** An unpublished handle is reported with the record read before the
      delete, and afterwards the store holds no row of it and every other
      key's rows as before; the backend's answer makes no difference. */
  lemma UnpublishRemoves(db: Db, cfg: Config, e: Event, w: Outside, other: Reply)
    requires e.pluginEvent == "unpublished"
    requires Executes(db, w.sql0) && w.sql1
    ensures var sid, hid := ToString(e.sessionId), ToString(e.handleId);
      var m := Matching(db.rows, sid, hid);
      var read := if m == [] then Cleared() else Fetched(m[|m| - 1]);
      var out := PluginEffect(db, cfg, e, w);
      out.sent == [UserLeft(cfg.appId, read, e.timestamp, w.left).request] &&
      out.db.handle == Open && Matching(out.db.rows, sid, hid) == [] &&
      (forall s, h :: (s, h) != (sid, hid) ==> Matching(out.db.rows, s, h) == Matching(db.rows, s, h)) &&
      PluginEffect(db, cfg, e, w.(left := other)).db == out.db
  {
    var sid, hid := ToString(e.sessionId), ToString(e.handleId);
    forall s, h
      ensures Matching(Removed(db.rows, sid, hid), sid, hid) == [] &&
        ((s, h) != (sid, hid) ==> Matching(Removed(db.rows, sid, hid), s, h) == Matching(db.rows, s, h))
    {
      RemovedRows(db.rows, sid, hid, s, h);
    }
  }

  /** A started core opens an unopened store empty; once shut down, the store
      stays closed even if the core reports it started again. */
  lemma CoreLifecycle(db: Db, start: Event, stop: Event, again: Event, w1: Outside, w2: Outside, w3: Outside)
    requires start.status == "started" && stop.status == "shutdown" && again.status == "started"
    requires db.handle == Unopened && w1.sql0 && w2.sql0
    ensures CoreEffect(db, start, w1) == Db(Open, [])
    ensures var closed := CoreEffect(CoreEffect(db, start, w1), stop, w2);
      closed.handle == Released && CoreEffect(closed, again, w3) == closed
  {
  }

  /** Each heartbeat is followed by one pause, ten seconds exactly when the
      backend answered success and one second otherwise; the loop never runs
      more rounds than it is given. */
  lemma {:induction false} AliveShape(db: Db, appId: string, user: UserInfo, rows: int, ticks: seq<Tick>)
    ensures var run := AliveRounds(db, appId, user, rows, ticks);
      |run.sleeps| == |run.sent| <= |ticks| &&
      (forall i :: 0 <= i < |run.sleeps| ==>
        (run.sleeps[i] == LongPause <==> Succeeded(ticks[i].heartbeat)) &&
        (run.sleeps[i] == ShortPause <==> !Succeeded(ticks[i].heartbeat)))
    decreases |ticks|
  {
    if rows > 0 && ticks != [] {
      var sel := Reread(db, user, ticks[0]);
      AliveShape(sel.db, appId, sel.user, sel.count, ticks[1..]);
    }
  }

  /** Once another thread deletes the handle's rows, the heartbeat sent in
      that round is the last one: the re-read finds no row, or fails. */
  lemma {:induction false} AliveStopsAfterRemoval(db: Db, appId: string, user: UserInfo, rows: int, ticks: seq<Tick>, i: nat)
    requires i < |ticks| && ticks[i].removedMeanwhile
    ensures |AliveRounds(db, appId, user, rows, ticks).sent| <= i + 1
    decreases |ticks|
  {
    if rows > 0 {
      var t := ticks[0];
      var sid, hid := Printed(user.sessionId), Printed(user.handleId);
      var db1 := if t.removedMeanwhile then Deleted(db, sid, hid, true) else db;
      var sel := Reread(db, user, t);
      if i == 0 {
        if Executes(db1, t.sqlOk) {
          RemovedRows(db.rows, sid, hid, sid, hid);
        }
        assert sel.count <= 0;
      } else {
        AliveStopsAfterRemoval(sel.db, appId, sel.user, sel.count, ticks[1..], i - 1);
      }
    }
  }

  /** While the handle's rows stay in an open store and every re-read
      succeeds, a heartbeat goes out in every round and the store is left as
      it was. */
  lemma {:induction false} AliveWhilePresent(db: Db, appId: string, user: UserInfo, ticks: seq<Tick>)
    requires db.handle == Open
    requires var n := |Matching(db.rows, Printed(user.sessionId), Printed(user.handleId))|; 0 < n < 128
    requires forall i :: 0 <= i < |ticks| ==> !ticks[i].removedMeanwhile && ticks[i].sqlOk
    ensures var run := AliveRounds(db, appId, user, |Matching(db.rows, Printed(user.sessionId), Printed(user.handleId))|, ticks);
      |run.sent| == |ticks| && run.db == db
    decreases |ticks|
  {
    if ticks != [] {
      var sid, hid := Printed(user.sessionId), Printed(user.handleId);
      var m := Matching(db.rows, sid, hid);
      var sel := Reread(db, user, ticks[0]);
      MatchingExact(db.rows, sid, hid);
      assert m[|m| - 1] in m;
      assert Printed(sel.user.sessionId) == sid && Printed(sel.user.handleId) == hid;
      assert sel.db == db && sel.count == |m|;
      AliveWhilePresent(db, appId, sel.user, ticks[1..]);
      var rest := AliveRounds(db, appId, sel.user, |m|, ticks[1..]);
      var run := AliveRounds(db, appId, user, |m|, ticks);
      assert run.db == rest.db && run.sent == [run.sent[0]] + rest.sent;
    }
  }

  /** The row count is kept in a `gint8`: a handle with 128 rows reads as
      -128, and the heartbeat loop does not start. */
  lemma ManyRowsStopHeartbeats(db: Db, appId: string, user: UserInfo, ticks: seq<Tick>)
    requires db.handle == Open
    requires |Matching(db.rows, Printed(user.sessionId), Printed(user.handleId))| == 128
    ensures AliveRun(db, appId, user, true, ticks).sent == []
  {
  }
}
