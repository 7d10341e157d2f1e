# Janus callstats event handler, modelled in Dafny

The Janus WebRTC server hands every event it raises (a session created, a
handle attached, a plugin reporting that a participant joined, the core
starting or shutting down, ...) to its event handler plugins.  This
plugin forwards the events that matter to the callstats.io analytics
service.  It has four parts, and the model keeps one Dafny module for
each of them:

- `CallstatsEvh` (`janus_callstatsevh.c`): the plugin itself.  `init`
  reads the `general` category of its configuration: whether it is
  enabled, the http backend and its credentials, the retransmission
  settings, the comma-separated list of event types to subscribe to, and
  whether to group events.  `incoming_event` only queues events.  A
  handler thread pops them, one at a time or in groups of up to 100, and
  dispatches each on its numeric type.  `destroy` pushes an exit marker,
  waits for the thread and clears the plugin.  The plugin is a class
  whose fields are the source's statics.  The thread is a method that
  runs the queue down to the point where it parks.  Both are proved
  against functions (`Drain`, `Grouped`, `EventsMask`, `Configured`,
  `ApplyAll`) whose properties are proved as lemmas.
- `EventHandlers` (`callstats/event_handlers.h`): the per-type handlers.
  An `attached` handle with an `opaque_id` becomes a new record in the
  store, is authenticated, and gets its token stored.  A `joined`
  participant gets a user number and is announced to callstats.io, which
  assigns it a connection id.  An `unpublished` participant is reported
  as having left, and its rows are deleted.  `started` and `shutdown`
  core events open and close the store.  The heartbeat thread
  (`user_alive`) posts `userAlive` while the handle's rows exist.
  `to_string` and `without_spaces` are also here: the first is proved
  injective by reading it back with `atoi`, the second as a loop against
  a function.
- `DataStore` (`callstats/data_store.h`): the SQLite `Stats_Info` table,
  keyed by (`session_id`, `handle_id`).  The connection is a
  three-state handle, and the table is a sequence of rows.  A store
  class holds both, and every SQL statement is a method on it.
- `Callstats` (`callstats/callstats.h`): the REST client.  It covers the
  10 KB response buffer that libcurl fills, the URLs, forms and JSON
  payloads built from a `user_info`, and how each call decides success
  or extracts `ucID` and `access_token` from the reply.

A small `Text` module models the C library and GLib helpers the core
uses (`isspace`, `strcasecmp`, `strstr` as a prefix test, `g_strsplit`,
`atoi`).  `Wrappers.Option` stands for a nullable pointer.

Three pieces of observable behaviour are modelled as the code has them:
- a row count kept in a `gint8` wraps, so 128 rows read as -128;
- a NULL string passed to `%s` prints as `(null)`;
- a NULL field stored by `insert_userinfo` becomes the text `NULL`.

Everything outside the process is a parameter of the operation that
meets it:
- whether an SQL statement succeeds;
- the backend's reply (transport success, HTTP code, parsed body);
- the signed token;
- the current time;
- whether the thread could be started;
- the parsed configuration.

## Model

| member | source | states |
|---|---|---|
| CallstatsEvh.MaxRetransmissions | events/janus_callstatsevh.c:132-143 | a negative `max_retransmissions` keeps the current value; zero or a positive number replaces it; no item keeps it |
| CallstatsEvh.Backoff | events/janus_callstatsevh.c:144-152 | a positive `retransmissions_backoff` becomes the backoff; no item, zero or a negative number keeps the current value, so a positive backoff stays positive |
| CallstatsEvh.FlagOf | events/janus_callstatsevh.c:173-191 | an entry of the `events` list subscribes to at most one type, and only to one of the eight known types |
| CallstatsEvh.FlagNames | events/janus_callstatsevh.c:173-191 | each of "sessions", "handles", "jsep", "webrtc", "media", "plugins", "transports" and "core", in any case, subscribes to its own type, and any other name subscribes to none |
| CallstatsEvh.ParseEvents | events/janus_callstatsevh.c:154-200 | computes `EventsMask`: "none" clears the mask, "all" sets every bit, and anything else is read as a list |
| CallstatsEvh.Subscribe | events/janus_callstatsevh.c:164-195 | the loop over the `g_strsplit` pieces, which skips leading white space and ignores empty pieces, leaves `MaskAfter` of the pieces: each named type added in turn |
| CallstatsEvh.SkipLeading | events/janus_callstatsevh.c:170-171 | the `isspace` loop leaves the piece without its leading white space, which is `SkipSpaces` of it |
| CallstatsEvh.MaskAfterIsUnion | events/janus_callstatsevh.c:164-195 | the mask after a list is the mask before it together with the types the list names |
| CallstatsEvh.FlagsAppend | events/janus_callstatsevh.c:164-195 | the types named by two lists together are the union of the types each names |
| CallstatsEvh.FlagsKnown | events/janus_callstatsevh.c:173-191 | a list only ever names the eight known types |
| CallstatsEvh.MaskOrderFree | events/janus_callstatsevh.c:164-195 | the order of the names in the `events` list does not change the resulting mask |
| CallstatsEvh.MaskOnlyAdds | events/janus_callstatsevh.c:164-195 | a list keeps every type already subscribed and adds none beyond the eight known types |
| CallstatsEvh.FlagIgnoresCase | events/janus_callstatsevh.c:173-191 | names are compared with `strcasecmp`: two names equal up to case subscribe to the same type |
| CallstatsEvh.EventsMaskBounds | events/janus_callstatsevh.c:154-200 | "none" (any case) empties the mask, "all" fills all 32 bits, and anything else keeps the current mask and adds known types only |
| CallstatsEvh.ConfiguredBounds | events/janus_callstatsevh.c:116-152 | an enabling configuration always records a backend starting with "http", keeps the retransmission count non-negative and the backoff positive |
| CallstatsEvh.Plugin.constructor | events/janus_callstatsevh.c:60-92 | the plugin as loaded: no backend, 5 retransmissions, a backoff of 100, an empty mask, no grouping, neither initialized nor stopping |
| CallstatsEvh.Plugin.Init | events/janus_callstatsevh.c:95-236 | returns -1 and changes nothing while stopping, without a configuration path, when the file does not parse, when not enabled or when the backend is not http; otherwise every setting is read, the queue is empty, and the result is 0 exactly when the thread starts, in which case the plugin is initialized |
| CallstatsEvh.Plugin.ReadGeneral | events/janus_callstatsevh.c:113-204 | the plugin is enabled exactly when `enabled` is true and `backend` starts with "http"; the settings are then `Configured`, otherwise they are left as they were |
| CallstatsEvh.Plugin.IncomingEvent | events/janus_callstatsevh.c:288-305 | an event is appended to the queue, or dropped while stopping or not initialized |
| CallstatsEvh.Plugin.Run | events/janus_callstatsevh.c:309-386 | the handler thread consumes exactly what `Drain` takes from the front of the queue, dispatches those events in order, and ends exactly when it pops the exit marker |
| CallstatsEvh.Plugin.HandleGroup | events/janus_callstatsevh.c:322-380 | one event and the rest of its group are dispatched; the group stops when grouping is off, at `max`, at an empty queue, or at an exit marker, which is consumed |
| CallstatsEvh.Plugin.Join | events/janus_callstatsevh.c:243-247 | the thread told to stop takes one more entry and, for an event, its group, dispatches them and ends |
| CallstatsEvh.Plugin.Destroy | events/janus_callstatsevh.c:238-257 | nothing happens unless initialized; otherwise the exit marker is queued, the thread's last batch is handled, the queue and backend are dropped, and both flags are cleared while the other settings stay |
| CallstatsEvh.GroupedRest | events/janus_callstatsevh.c:364-379 | a group takes entries from the front of the queue only, and its events are those among the entries it took |
| CallstatsEvh.EventsOfAppend | events/janus_callstatsevh.c:313-318 | the events among two runs of entries are those of the first followed by those of the second |
| CallstatsEvh.DrainLeavesTail | events/janus_callstatsevh.c:313-386 | what the thread leaves in the queue is an untouched tail of it |
| CallstatsEvh.DrainIsFifo | events/janus_callstatsevh.c:313-386 | the thread dispatches each queued event it takes once, in queue order, taking entries from the front only |
| CallstatsEvh.Consumed | events/janus_callstatsevh.c:313-380 | the events taken by one pop, its group and the rest of the run are, in order, the events in front of what is left |
| CallstatsEvh.DrainAll | events/janus_callstatsevh.c:313-386 | without an exit marker queued, a running thread handles every queued event and parks on the empty queue |
| CallstatsEvh.GroupBound | events/janus_callstatsevh.c:312-375 | a group never holds more than `max` events (100 with grouping, 1 without) |
| CallstatsEvh.GroupDropsExit | events/janus_callstatsevh.c:370-379 | an exit marker taken while a group still has room ends the group with the events before it and is consumed, for any queue |
| CallstatsEvh.DrainStopsAtExit | events/janus_callstatsevh.c:313-368 | without grouping every event before the first exit marker is handled on its own, and that marker ends the thread, leaving the entries after it |
| CallstatsEvh.ExitInsideGroupIsDropped | events/janus_callstatsevh.c:313-379 | for any queue, an exit marker inside the first group is dropped and the thread goes on with the entries after it; without grouping the same marker ends the thread |
| CallstatsEvh.ApplyOnlyTyped | events/janus_callstatsevh.c:334-363 | session, jsep, webrtc, media, transport and unknown events change nothing and send nothing |
| CallstatsEvh.Dispatch | events/janus_callstatsevh.c:334-363 | the switch on `type` calls the handle, plugin or core handler, and does nothing for the other types |
| CallstatsEvh.DispatchNext | events/janus_callstatsevh.c:334-363 | handling one more event extends the run of handled events by it, and the store and requests are those of the whole run |
| EventHandlers.Decimal | events/callstats/event_handlers.h:38-42 | the decimal text of a number is non-empty and made of digits |
| EventHandlers.DecimalValue | events/callstats/event_handlers.h:38-42 | the digits of a number read back as that number |
| EventHandlers.AllDigits | events/callstats/event_handlers.h:38-42 | `atoi` reads every digit of a digit string |
| EventHandlers.AtoiToString | events/callstats/event_handlers.h:38-42 | `atoi(to_string(n)) == n`, negative numbers included |
| EventHandlers.ToStringInjective | events/callstats/event_handlers.h:38-42 | distinct integers give distinct texts, so distinct session or handle ids (as the model carries them) give distinct keys |
| EventHandlers.WithoutSpaces | events/callstats/event_handlers.h:45-67 | the loop produces `Collapsed` of its input |
| EventHandlers.CollapsedNoSpace | events/callstats/event_handlers.h:45-67 | the result has no space and is never longer than the input |
| EventHandlers.CollapsedFixed | events/callstats/event_handlers.h:45-67 | a string with no space comes back unchanged |
| EventHandlers.CollapsedIdempotent | events/callstats/event_handlers.h:45-67 | applying it twice is the same as applying it once |
| EventHandlers.CollapsedKeepsLetters | events/callstats/event_handlers.h:45-67 | every character other than a space or a dash is kept, in order |
| EventHandlers.CollapsedAppend | events/callstats/event_handlers.h:45-67 | text that does not start with a space is collapsed independently of what precedes it |
| EventHandlers.CollapsedSpaces | events/callstats/event_handlers.h:50-58 | a run of one or more spaces at the start or after another character becomes a single `-` |
| EventHandlers.SpaceRunBecomesDash | events/callstats/event_handlers.h:45-67 | each maximal run of spaces becomes exactly one `-`, and the text on either side is collapsed on its own |
| EventHandlers.CollapsedExample | events/callstats/event_handlers.h:45-67 | "my  room" becomes "my-room" |
| EventHandlers.HandleEventHandler | events/callstats/event_handlers.h:88-187 | the store and requests after a handle event are `HandleEffect`: `attached` with an `opaque_id` inserts, authenticates and stores the token; anything else does nothing |
| EventHandlers.PluginEventHandler | events/callstats/event_handlers.h:230-330 | the store and requests after a plugin event are `PluginEffect`: `joined` stores the user number, reads back, posts the join and stores the connection id; `unpublished` reads, posts the leave and deletes |
| EventHandlers.CoreEventHandler | events/callstats/event_handlers.h:337-348 | `started` opens the store and `shutdown` closes it |
| EventHandlers.UserAliveLoop | events/callstats/event_handlers.h:202-227 | the heartbeat loop's store, pauses and posts are `AliveRun` |
| EventHandlers.AttachThenRead | events/callstats/event_handlers.h:108-183 | an attached handle adds one row of its key, every row of the key carries the token, and no other key is touched |
| EventHandlers.JoinThenRead | events/callstats/event_handlers.h:258-292 | a join posts one request, and the record read back carries the new user number, the connection id and the last row's other fields; the count is the key's row count as a `gint8` |
| EventHandlers.UnpublishRemoves | events/callstats/event_handlers.h:301-326 | the leave is posted with the record read before the delete; afterwards the key has no rows and every other key's rows are unchanged, whatever the backend answers |
| EventHandlers.CoreLifecycle | events/callstats/event_handlers.h:337-348 | a started core opens an unopened store empty; once shut down, the store stays closed even if `started` comes again |
| EventHandlers.AliveShape | events/callstats/event_handlers.h:206-221 | each heartbeat is followed by one pause: 10 s exactly when it succeeded, 1 s otherwise |
| EventHandlers.AliveStopsAfterRemoval | events/callstats/event_handlers.h:206-221 | once the handle's rows are deleted, the heartbeat of that round is the last |
| EventHandlers.AliveWhilePresent | events/callstats/event_handlers.h:206-221 | while the rows stay and reads succeed, a heartbeat goes out every round and the store is left as it was |
| EventHandlers.ManyRowsStopHeartbeats | events/callstats/event_handlers.h:204-206 | with 128 rows the `gint8` count reads negative and no heartbeat is sent |
| DataStore.With | events/callstats/data_store.h:17-32 | setting one field changes that field only |
| DataStore.Cleared | events/callstats/data_store.h:49-63 | `initialize_user_info` sets every field to NULL |
| DataStore.Stored | events/callstats/data_store.h:118-144 | `insert_userinfo` stores each field's text, or `NULL` for a NULL field |
| DataStore.Fetched | events/callstats/data_store.h:215-280 | a read copies every column of the row into the record |
| DataStore.Int8Step | events/callstats/data_store.h:215-217 | counting rows in a `gint8` one at a time gives the count modulo 256, read as signed |
| DataStore.MatchingExact | events/callstats/data_store.h:197-200 | the `WHERE` clause selects exactly the rows carrying the key |
| DataStore.OpenedStates | events/callstats/data_store.h:81-116 | `initialize_db` does nothing when a handle is already set; on success the table is empty; it returns true exactly when it opened |
| DataStore.NoReopenAfterClose | events/callstats/data_store.h:81-314 | `close_db` does not reset `db`, so the store can never be opened again |
| DataStore.InsertAppendsOne | events/callstats/data_store.h:118-144 | an insert appends exactly one row, and the key's row count goes up by one |
| DataStore.UpdateTouchesOnlyKey | events/callstats/data_store.h:146-195 | an update changes one column in the key's rows only; with no such row nothing changes |
| DataStore.UpdateKeepsCounts | events/callstats/data_store.h:146-195 | updating a non-key column keeps every key's row count |
| DataStore.MatchingUpdated | events/callstats/data_store.h:146-195 | updating a non-key column of a key sets it in exactly that key's rows |
| DataStore.MatchingUpdatedOther | events/callstats/data_store.h:146-195 | updating one key leaves every other key's rows alone |
| DataStore.RemovedRows | events/callstats/data_store.h:288-303 | a delete removes every row of the key and keeps every other key's rows, in order |
| DataStore.RemoveThenSelect | events/callstats/data_store.h:197-303 | after a delete, reading the key finds no row and leaves the record alone |
| DataStore.SelectedLast | events/callstats/data_store.h:197-286 | a read returns the key's row count as a `gint8`; with no row the record is untouched, otherwise it holds the last such row |
| DataStore.LastMatch | events/callstats/data_store.h:215-280 | the last row a read steps through is the last row of the key in the table |
| DataStore.FailureCloses | events/callstats/data_store.h:118-303 | any statement the engine refuses closes the connection and reports failure (false, or -1 for a read) |
| DataStore.Store.constructor | events/callstats/data_store.h:14 | the store starts with no connection and no rows |
| DataStore.Store.Fail | events/callstats/data_store.h:136-141 | the common failure path: the handle is released |
| DataStore.Store.InitializeDb | events/callstats/data_store.h:81-116 | the store and result are `Opened` and `OpenResult` |
| DataStore.Store.InsertUserInfo | events/callstats/data_store.h:118-144 | the store is `Inserted`, and the result is whether the statement ran |
| DataStore.Store.SetColumn | events/callstats/data_store.h:146-195 | the store is `ColumnSet`, and the result is whether the statement ran |
| DataStore.Store.AddToken | events/callstats/data_store.h:146-161 | sets the `token` column of the key's rows |
| DataStore.Store.AddUcId | events/callstats/data_store.h:163-178 | sets the `uc_id` column of the key's rows |
| DataStore.Store.AddUserNum | events/callstats/data_store.h:180-195 | sets the `user_num` column of the key's rows |
| DataStore.Store.GetUserInfo | events/callstats/data_store.h:197-286 | the loop over the result rows yields `Selected`: the `gint8` count and the last row's fields |
| DataStore.Store.RemoveUser | events/callstats/data_store.h:288-303 | the store is `Deleted`, and the result is whether the statement ran |
| DataStore.Store.CloseDb | events/callstats/data_store.h:305-314 | the store and result are `Closed` and `CloseResult` |
| Callstats.WriteResult.constructor | events/callstats/callstats.h:29-34 | a fresh buffer of `BUFFER_SIZE` bytes with the cursor at 0 |
| Callstats.WriteResult.WriteResponse | events/callstats/callstats.h:36-49 | a chunk is copied at the cursor, which advances, when a terminator still fits after it; otherwise 0 is returned and nothing changes |
| Callstats.WriteResult.Terminate | events/callstats/callstats.h:126 | the terminating zero always lands inside the buffer and leaves the body as it was |
| Callstats.AbsorbedTransfer | events/callstats/callstats.h:36-49 | a whole transfer is accepted exactly when body and response together leave room for the terminator, and then the buffer holds their concatenation |
| Callstats.Bounded | events/callstats/callstats.h:168-169 | `snprintf` keeps the whole string when it fits in `BUFFER_SIZE - 1` characters, and otherwise exactly its first `BUFFER_SIZE - 1` characters |
| Callstats.IdentityPost | events/callstats/callstats.h:298-562 | `callstats_user_alive` and `callstats_user_left` post to the given `.../events/user/...` path with the identity keys only, and report success exactly when the reply is a 200 whose `status` is "success" |
| Callstats.FabricSetup | events/callstats/callstats.h:564-697 | posts to `.../events/fabric`, with the same success rule |
| Callstats.ConfStats | events/callstats/callstats.h:699-831 | posts to the stats host's `.../events/stats` with the fixed remote id "Janus", the timestamp, a connection id exactly when the record has a `uc_id` (and then that one), no keys beyond the identity, remote and connection keys and all five when the record is complete; success as for the other events |
| Callstats.FabricKeys | events/callstats/callstats.h:571-578 | the fabric payload has the fixed remote id and event type and the record's connection id, and exactly six keys when the record is complete |
| Callstats.NameInjective | events/callstats/callstats.h:573-578 | the payload keys the source sets are spelled differently from one another, so a payload map over `Key` is the JSON object the source builds |
| Callstats.UserJoined | events/callstats/callstats.h:165-296 | posts to the conference URL; a connection id is returned exactly when the reply is a 200 with a string `ucID`, and it is that string |
| Callstats.Authenticate | events/callstats/callstats.h:53-163 | a form is sent exactly when a token could be signed; an access token is returned exactly when the reply is a 200 with a string `access_token`, and it is that string |
| Callstats.AuthFormFields | events/callstats/callstats.h:103-106 | the authentication form splits back into its three fields when none of them contains `&` |
| Callstats.EventUrlFields | events/callstats/callstats.h:300-303 | the application, conference and connection ids come back out of an event URL when none contains `/` |
| Text.SkipSpaces | events/janus_callstatsevh.c:170-171 | skipping white space leaves a suffix that does not start with white space, and only white space is skipped |
| Text.GSplit | events/janus_callstatsevh.c:164 | `g_strsplit` of an empty string has no pieces, and otherwise at least one |
| Text.SplitJoin | events/janus_callstatsevh.c:164 | splitting undoes joining when no piece contains the separator |
| Text.JoinSplit | events/janus_callstatsevh.c:164 | joining the pieces gives back the split text |

## Left out

- Threads and blocking are not modelled as concurrency. The handler thread is `Plugin.Run`, invoked on the queue as it stands; `Plugin.Join` is its last pop while `destroy` waits. This is one interleaving: the thread is parked in the pop when `destroy` runs.
- `g_async_queue_pop` returning NULL cannot happen in the model: a queue entry is an event or the exit marker.
- `g_usleep`, the clock and the event timestamp's latency logging are left out. Times are parameters, and the pauses are returned as numbers.
- Libcurl, TLS and the HTTP exchange are left out. A reply is given as a transport flag, an HTTP code and the parsed JSON object.
- The JWT signing (`jwt_provider.h`) is not part of this model. The signed token is a parameter, `None` when signing fails.
- JSON text encoding is left out: payloads are maps from the `Key` datatype to values, and `Name` gives the spelling of each key. The timestamp is kept undivided as `Timestamp(raw)`; the division by 1000.0 into a float is left out.
- SQL text, quoting and injection are left out. Each statement is modelled by its effect on the table.
- The truncation of SQL text by the SQLite helper buffers is left out.
- `printf` and `JANUS_LOG` diagnostics are left out, as are the `JANUS_LOG` warnings in `init`.
- `EventHandlers.PluginEventHandler`: the heartbeat thread that `joined` tries to spawn passes a pointer where a struct is expected. Its body is modelled on its own as `UserAliveLoop` and is not started from `joined`.
- Crashes on a missing event field, a malformed `opaque_id` or a NULL string passed to `strcmp` or `strlen` are excluded by the types: every field the handlers read is present.
- A `ucID` or `access_token` that is not a string is modelled as no value. The source passes the NULL from `json_string_value` to `strlen` there, which is undefined behaviour.
- On the `goto error` paths of `callstats_authenticate` and `callstats_user_joined` (a missing key, a reply other than 200) the source returns an uninitialised pointer. The model returns no value, which is stored as `(null)`.
- `fabric_setup` passes `strlen(string_payload+1)` as the body size, which drops the last byte of the JSON text. Payloads are maps and the transport is a parameter, so the model does not show the cut.
- `close_db` leaves `db` pointing at the closed connection, so a later statement is a use after close. The model's `Released` handle turns such a statement into a clean failure that changes nothing.
- Step errors in the middle of `get_user_info` (an error after some rows) are left out. A read either fails at prepare or steps through all rows.
- `Plugin.Init` does not model a second `init` while already initialized: the previous backend string would leak. Its effect on the settings is still modelled.
- `Plugin.Destroy` frees the backend string; the model sets it to `None`. The credentials are kept, as in the source.
- `curl_global_init` is left out.
- The configuration file path, its file name and `janus_config` parsing are left out. The parsed `general` category is given as a map of the items with a value, or `None` when the file does not parse.
- The retransmission settings are read and kept but never used by the source, so nothing in the model uses them either.
- The 32-bit `events_mask` is modelled as the set of positions of its set bits.
- Session, jsep, webrtc, media and transport handlers only log. They are modelled as changing nothing.
- The metadata getters (`get_api_compatibility`, `get_version`, `get_name` and the others) return constants and are left out.
- `snprintf` limits are counted in characters rather than bytes, because strings are sequences of characters.
- The other files in the directory are scratch programs not used by the plugin: `add-sqlite.c`, `auth.c`, `temp.c` and `use_evh.c`.
- Session and handle ids are read as `(gint64) json_number_value(...)`, a round trip through a `double` that rounds ids above 2^53. The model's `Event` carries them as exact integers, so `ToStringInjective` holds of the model but not of the source for such ids.
- `Text.Atoi` is unbounded. The source's `atoi` returns a C `int`, and its result for out-of-range text is undefined; the model does not capture that for `max_retransmissions` or `retransmissions_backoff`.
- `DataStore.SelectedLast` and `DataStore.LastMatch` assume `SELECT` returns rows in insertion order. SQLite does not promise an order without `ORDER BY`, so which row is "last" in the source may differ.
