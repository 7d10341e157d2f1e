/** The event handler plugin itself: its configuration, the queue that
    `incoming_event` fills, the handler thread that drains it (one event at a
    time, or in groups of up to 100) and hands each event to the handler for
    its type, and the shutdown sequence. */
module CallstatsEvh {
  import opened Wrappers
  import opened Text
  import opened DataStore
  import opened Callstats
  import opened EventHandlers

  // ---------------------------------------------------------------------
  // Event types

  const TypeSession: int := 1
  const TypeHandle: int := 2
  const TypeJsep: int := 8
  const TypeWebrtc: int := 16
  const TypeMedia: int := 32
  const TypePlugin: int := 64
  const TypeTransport: int := 128
  const TypeCore: int := 256

  /** A subscription mask, the source's 32-bit `events_mask`, given as the
      set of positions of its bits that are set: type `2^b` is subscribed
      when `b` is in the mask. */
  type Mask = set<nat>

  const SessionBit: nat := 0
  const HandleBit: nat := 1
  const JsepBit: nat := 3
  const WebrtcBit: nat := 4
  const MediaBit: nat := 5
  const PluginBit: nat := 6
  const TransportBit: nat := 7
  const CoreBit: nat := 8

  /** `JANUS_EVENT_TYPE_ALL`: all 32 bits. */
  const AllBits: Mask := set b: nat | b < 32

  /** The bits of the eight event types together. */
  const KnownBits: Mask := {SessionBit, HandleBit, JsepBit, WebrtcBit, MediaBit, PluginBit, TransportBit, CoreBit}

  // ---------------------------------------------------------------------
  // Configuration

  /** `janus_is_true`: "yes", "true" or "1", in any case. */
  predicate IsTrue(value: string) {
    EqualsIgnoreCase(value, "yes") || EqualsIgnoreCase(value, "true") || EqualsIgnoreCase(value, "1")
  }

  /** The `general` category of the configuration file: the items that are
      present with a value. */
  type Settings = map<string, string>

  function Lookup(conf: Settings, key: string): Option<string> {
    if key in conf then Some(conf[key]) else None
  }

  /** `max_retransmissions`: a negative number keeps the current value. */
  function MaxRetransmissions(value: Option<string>, current: int): (r: int)
    ensures value.None? ==> r == current
    ensures value.Some? ==> (Atoi(value.value) >= 0 ==> r == Atoi(value.value)) && (Atoi(value.value) < 0 ==> r == current)
  {
    match value
    case None => current
    case Some(v) =>
      var mr := Atoi(v);
      if mr < 0 then current else if mr == 0 then 0 else mr
  }

  /** `retransmissions_backoff`: zero or a negative number keeps the current
      value. */
  function Backoff(value: Option<string>, current: int): (r: int)
    ensures value.Some? && Atoi(value.value) > 0 ==> r == Atoi(value.value)
    ensures value.None? || Atoi(value.value) <= 0 ==> r == current
    ensures current > 0 ==> r > 0
  {
    match value
    case None => current
    case Some(v) =>
      var rb := Atoi(v);
      if rb <= 0 then current else rb
  }

  /** One of the eight type names, in any case. */
  predicate KnownName(name: string) {
    EqualsIgnoreCase(name, "sessions") || EqualsIgnoreCase(name, "handles") ||
    EqualsIgnoreCase(name, "jsep") || EqualsIgnoreCase(name, "webrtc") ||
    EqualsIgnoreCase(name, "media") || EqualsIgnoreCase(name, "plugins") ||
    EqualsIgnoreCase(name, "transports") || EqualsIgnoreCase(name, "core")
  }

  /** The type a name in the `events` list subscribes to, compared without
      regard to case; nothing for a name the plugin does not know. */
  function FlagOf(name: string): (r: Mask)
    ensures r <= KnownBits && |r| <= 1
  {
    if EqualsIgnoreCase(name, "sessions") then {SessionBit}
    else if EqualsIgnoreCase(name, "handles") then {HandleBit}
    else if EqualsIgnoreCase(name, "jsep") then {JsepBit}
    else if EqualsIgnoreCase(name, "webrtc") then {WebrtcBit}
    else if EqualsIgnoreCase(name, "media") then {MediaBit}
    else if EqualsIgnoreCase(name, "plugins") then {PluginBit}
    else if EqualsIgnoreCase(name, "transports") then {TransportBit}
    else if EqualsIgnoreCase(name, "core") then {CoreBit}
    else {}
  }

  /** The two pairs of names of the same length differ in their first letter. */
  lemma NamesDiffer(name: string)
    ensures !(EqualsIgnoreCase(name, "handles") && EqualsIgnoreCase(name, "plugins"))
    ensures !(EqualsIgnoreCase(name, "jsep") && EqualsIgnoreCase(name, "core"))
  {
    if EqualsIgnoreCase(name, "handles") {
      assert Lower(name[0]) == Lower("handles"[0]) == 'h';
    }
    if EqualsIgnoreCase(name, "jsep") {
      assert Lower(name[0]) == Lower("jsep"[0]) == 'j';
    }
  }

  /** Each of the eight names, in any case, subscribes to its own type, and
      any other name to none. */
  lemma FlagNames(name: string)
    ensures EqualsIgnoreCase(name, "sessions") ==> FlagOf(name) == {SessionBit}
    ensures EqualsIgnoreCase(name, "handles") ==> FlagOf(name) == {HandleBit}
    ensures EqualsIgnoreCase(name, "jsep") ==> FlagOf(name) == {JsepBit}
    ensures EqualsIgnoreCase(name, "webrtc") ==> FlagOf(name) == {WebrtcBit}
    ensures EqualsIgnoreCase(name, "media") ==> FlagOf(name) == {MediaBit}
    ensures EqualsIgnoreCase(name, "plugins") ==> FlagOf(name) == {PluginBit}
    ensures EqualsIgnoreCase(name, "transports") ==> FlagOf(name) == {TransportBit}
    ensures EqualsIgnoreCase(name, "core") ==> FlagOf(name) == {CoreBit}
    ensures FlagOf(name) == {} <==> !KnownName(name)
  {
    NamesDiffer(name);
  }

  /** One entry of the list: leading white space is skipped, an empty entry
      is ignored. */
  function MaskStep(mask: Mask, entry: string): Mask {
    var name := SkipSpaces(entry);
    if |name| > 0 then mask + FlagOf(name) else mask
  }

  /** The mask after the entries of the list, taken in order. */
  function MaskAfter(entries: seq<string>, mask: Mask): Mask {
    if entries == [] then mask
    else MaskStep(MaskAfter(entries[..|entries| - 1], mask), entries[|entries| - 1])
  }

  /** The mask after the `events` item: "none" clears it, "all" sets every
      bit, anything else is a comma-separated list of type names. */
  function EventsMask(value: string, mask: Mask): Mask {
    if EqualsIgnoreCase(value, "none") then {}
    else if EqualsIgnoreCase(value, "all") then mask + AllBits
    else MaskAfter(GSplit(value, ','), mask)
  }

  method ParseEvents(value: string, mask: Mask) returns (m: Mask)
    ensures m == EventsMask(value, mask)
  {
    if EqualsIgnoreCase(value, "none") {
      return {};
    }
    if EqualsIgnoreCase(value, "all") {
      return mask + AllBits;
    }
    m := Subscribe(GSplit(value, ','), mask);
  }

  /** The `isspace` loop in front of each piece. */
  method SkipLeading(index: string) returns (name: string)
    ensures name == SkipSpaces(index)
  {
    var j := 0;
    while j < |index| && IsSpace(index[j])
      invariant 0 <= j <= |index|
      invariant SkipSpaces(index[j..]) == SkipSpaces(index)
    {
      assert index[j..][1..] == index[j + 1..];
      j := j + 1;
    }
    name := index[j..];
  }

  /** The `g_strsplit` loop of `ParseEvents`: each entry, leading white
      space skipped, adds the type it names. */
  method Subscribe(subscribe: seq<string>, mask: Mask) returns (m: Mask)
    ensures m == MaskAfter(subscribe, mask)
  {
    m := mask;
    var i := 0;
    while i < |subscribe|
      invariant 0 <= i <= |subscribe|
      invariant m == MaskAfter(subscribe[..i], mask)
    {
      var index := subscribe[i];
      var name := SkipLeading(index);
      if |name| > 0 {
        m := m + FlagOf(name);
      }
      assert subscribe[..i + 1][..i] == subscribe[..i] && subscribe[..i + 1][i] == index;
      assert m == MaskStep(MaskAfter(subscribe[..i], mask), index);
      i := i + 1;
    }
    assert subscribe[..i] == subscribe;
  }

  /** The types the entries name, together. */
  function Flags(entries: seq<string>): Mask {
    if entries == [] then {}
    else Flags(entries[..|entries| - 1]) + FlagOf(SkipSpaces(entries[|entries| - 1]))
  }

  /** A list only ever adds the types it names to the mask. */
  lemma {:induction false} MaskAfterIsUnion(entries: seq<string>, mask: Mask)
    ensures MaskAfter(entries, mask) == mask + Flags(entries)
  {
    if entries != [] {
      MaskAfterIsUnion(entries[..|entries| - 1], mask);
      var name := SkipSpaces(entries[|entries| - 1]);
      if |name| == 0 {
        assert FlagOf(name) == {};
      }
    }
  }

  lemma {:induction false} FlagsAppend(a: seq<string>, b: seq<string>)
    ensures Flags(a + b) == Flags(a) + Flags(b)
  {
    if b != [] {
      assert (a + b)[..|a + b| - 1] == a + b[..|b| - 1];
      FlagsAppend(a, b[..|b| - 1]);
    } else {
      assert a + b == a;
    }
  }

  lemma {:induction false} FlagsKnown(entries: seq<string>)
    ensures Flags(entries) <= KnownBits
  {
    if entries != [] {
      FlagsKnown(entries[..|entries| - 1]);
    }
  }

  /** The order of the names in the list does not matter. */
  lemma MaskOrderFree(a: seq<string>, b: seq<string>, mask: Mask)
    ensures MaskAfter(a + b, mask) == MaskAfter(b + a, mask)
  {
    MaskAfterIsUnion(a + b, mask);
    MaskAfterIsUnion(b + a, mask);
    FlagsAppend(a, b);
    FlagsAppend(b, a);
  }

  /** A list keeps every type already subscribed and adds only the eight
      known types. */
  lemma MaskOnlyAdds(entries: seq<string>, mask: Mask)
    ensures mask <= MaskAfter(entries, mask) <= mask + KnownBits
  {
    MaskAfterIsUnion(entries, mask);
    FlagsKnown(entries);
  }

  /** A name is recognised whatever its case. */
  lemma FlagIgnoresCase(a: string, b: string)
    requires EqualsIgnoreCase(a, b)
    ensures FlagOf(a) == FlagOf(b)
  {
  }

  /** The whole `events` item: "none" clears, "all" sets all 32 bits, and a
      list keeps the current mask and adds known types only. */
  lemma EventsMaskBounds(value: string, mask: Mask)
    ensures EqualsIgnoreCase(value, "none") ==> EventsMask(value, mask) == {}
    ensures EqualsIgnoreCase(value, "all") && mask <= AllBits ==> EventsMask(value, mask) == AllBits
    ensures !EqualsIgnoreCase(value, "none") ==> mask <= EventsMask(value, mask)
    ensures !EqualsIgnoreCase(value, "none") && !EqualsIgnoreCase(value, "all") ==>
      EventsMask(value, mask) <= mask + KnownBits
  {
    MaskOnlyAdds(GSplit(value, ','), mask);
  }

  /** The plugin's settings: the backend and its credentials, the
      retransmission settings, the subscribed types and the grouping flag. */
  datatype Setup = Setup(
    backend: Option<string>, backendUser: Option<string>, backendPwd: Option<string>,
    maxRetransmissions: int, retransmissionsBackoff: int,
    eventsMask: Mask, groupEvents: bool)

  /** The plugin is enabled when `enabled` is true and `backend` starts with
      "http". */
  predicate Enabled(conf: Settings) {
    "enabled" in conf && IsTrue(conf["enabled"]) && "backend" in conf && StartsWith(conf["backend"], "http")
  }

  /** The settings after reading an enabling configuration. */
  function Configured(s: Setup, conf: Settings): Setup
    requires Enabled(conf)
  {
    Setup(
      Some(conf["backend"]), Lookup(conf, "backend_user"), Lookup(conf, "backend_pwd"),
      MaxRetransmissions(Lookup(conf, "max_retransmissions"), s.maxRetransmissions),
      Backoff(Lookup(conf, "retransmissions_backoff"), s.retransmissionsBackoff),
      if "events" in conf then EventsMask(conf["events"], s.eventsMask) else s.eventsMask,
      "grouping" in conf && IsTrue(conf["grouping"]))
  }

  /** Configuring keeps the retransmission count non-negative and the backoff
      positive, whatever the file says, and always records an http backend. */
  lemma ConfiguredBounds(s: Setup, conf: Settings)
    requires Enabled(conf)
    requires s.maxRetransmissions >= 0 && s.retransmissionsBackoff > 0
    ensures var s' := Configured(s, conf);
      s'.maxRetransmissions >= 0 && s'.retransmissionsBackoff > 0 &&
      s'.backend.Some? && StartsWith(s'.backend.value, "http")
  {
  }

  // ---------------------------------------------------------------------
  // The queue and the handler thread

  /** A queue entry: an event, or the marker `destroy` pushes to stop the
      thread. */
  datatype Item = Ev(e: Event) | Exit

  /** The events among the entries, in order. */
  function EventsOf(q: seq<Item>): seq<Event> {
    if q == [] then []
    else (if q[0].Ev? then [q[0].e] else []) + EventsOf(q[1..])
  }

  /** What one run of the thread does to the queue: the events dispatched, in
      order, what is left, and whether the thread ended. */
  datatype Drained = Drained(events: seq<Event>, rest: seq<Item>, ended: bool)

  /** Further events taken in the same group after `count` were handled:
      without grouping none; otherwise until `max` were handled, the queue is
      empty, or an exit marker is taken (and dropped). */
  function Grouped(q: seq<Item>, group: bool, max: int, count: int): Drained
    decreases |q|
  {
    if !group || count == max || q == [] then Drained([], q, false)
    else
      match q[0]
      case Exit => Drained([], q[1..], false)
      case Ev(e) =>
        var g := Grouped(q[1..], group, max, count + 1);
        Drained([e] + g.events, g.rest, false)
  }

  /** The thread's outer loop while the plugin is running: pop an entry (the
      thread parks when the queue is empty), stop at an exit marker,
      otherwise handle the event and its group. */
  function Drain(q: seq<Item>, group: bool, max: int): Drained
    decreases |q|
  {
    if q == [] then Drained([], [], false)
    else
      match q[0]
      case Exit => Drained([], q[1..], true)
      case Ev(e) =>
        var g := Grouped(q[1..], group, max, 1);
        assert |g.rest| <= |q| - 1 by { GroupedRest(q[1..], group, max, 1); }
        var d := Drain(g.rest, group, max);
        Drained([e] + g.events + d.events, d.rest, d.ended)
  }

  /** The last pop of a thread told to stop: it takes one entry and, for an
      event, its group; then it sees `stopping` and ends. */
  function LastBatch(q: seq<Item>, group: bool, max: int): seq<Event> {
    if q == [] then []
    else
      match q[0]
      case Exit => []
      case Ev(e) => [e] + Grouped(q[1..], group, max, 1).events
  }

  lemma {:induction false} GroupedRest(q: seq<Item>, group: bool, max: int, count: int)
    ensures var g := Grouped(q, group, max, count);
      |g.rest| <= |q| && q[|q| - |g.rest|..] == g.rest &&
      g.events == EventsOf(q[..|q| - |g.rest|])
    decreases |q|
  {
    if group && count != max && q != [] {
      GroupedRest(q[1..], group, max, count + 1);
      var g := Grouped(q[1..], group, max, count + 1);
      var n := |q| - |Grouped(q, group, max, count).rest|;
      assert q[..n][1..] == q[1..][..n - 1];
    } else {
      assert q[..0] == [];
    }
  }

  lemma {:induction false} EventsOfAppend(a: seq<Item>, b: seq<Item>)
    ensures EventsOf(a + b) == EventsOf(a) + EventsOf(b)
  {
    if a == [] {
      assert a + b == b;
    } else {
      var head := if a[0].Ev? then [a[0].e] else [];
      assert (a + b)[0] == a[0] && (a + b)[1..] == a[1..] + b;
      assert EventsOf(a + b) == head + EventsOf(a[1..] + b);
      EventsOfAppend(a[1..], b);
      Reassociate(head, EventsOf(a[1..]), EventsOf(b));
    }
  }

  /** `d` left an untouched tail of `q`. */
  predicate LeavesTail(q: seq<Item>, d: Drained) {
    |d.rest| <= |q| && q[|q| - |d.rest|..] == d.rest
  }

  /** `d` took entries from the front of `q` only, left the rest untouched,
      and holds the events among the entries taken, in queue order. */
  predicate TakesFront(q: seq<Item>, d: Drained) {
    LeavesTail(q, d) && d.events == EventsOf(q[..|q| - |d.rest|])
  }

  lemma {:induction false} DrainLeavesTail(q: seq<Item>, group: bool, max: int)
    ensures LeavesTail(q, Drain(q, group, max))
    decreases |q|
  {
    if q != [] && q[0].Ev? {
      var g := Grouped(q[1..], group, max, 1);
      GroupedRest(q[1..], group, max, 1);
      DrainLeavesTail(g.rest, group, max);
      DrainFirstGroup(q, group, max);
      TailOfTail(q, g.rest, Drain(g.rest, group, max).rest);
    }
  }

  /** The thread takes entries from the front only and dispatches the events
      among them in queue order, each once; what is left is the untouched
      tail of the queue. */
  lemma {:induction false} DrainIsFifo(q: seq<Item>, group: bool, max: int)
    ensures TakesFront(q, Drain(q, group, max))
    decreases |q|
  {
    DrainLeavesTail(q, group, max);
    if q == [] {
    } else if q[0].Ev? {
      var g := Grouped(q[1..], group, max, 1);
      GroupedRest(q[1..], group, max, 1);
      DrainIsFifo(g.rest, group, max);
      var d := Drain(g.rest, group, max);
      DrainFirstGroup(q, group, max);
      Consumed(q, g.rest, d.rest);
      assert d.events == EventsOf(g.rest[..|g.rest| - |d.rest|]);
      assert Drain(q, group, max).events == [q[0].e] + g.events + d.events;
      assert Drain(q, group, max).rest == d.rest;
    } else {
      assert q[..1] == [Exit] && [Exit][1..] == [];
    }
  }

  /** The first group of a run and what the thread does after it. */
  lemma DrainFirstGroup(q: seq<Item>, group: bool, max: int)
    requires q != [] && q[0].Ev?
    ensures var g := Grouped(q[1..], group, max, 1);
      var d := Drain(g.rest, group, max);
      Drain(q, group, max) == Drained([q[0].e] + g.events + d.events, d.rest, d.ended)
  {
  }

  /** A tail of a tail of `q[1..]` is a tail of `q`. */
  lemma TailOfTail(q: seq<Item>, r: seq<Item>, rest: seq<Item>)
    requires q != [] && |r| <= |q[1..]| && q[1..][|q[1..]| - |r|..] == r
    requires |rest| <= |r| && r[|r| - |rest|..] == rest
    ensures |rest| <= |q| && q[|q| - |rest|..] == rest
  {
    forall i | 0 <= i < |rest|
      ensures q[|q| - |rest| + i] == rest[i]
    {
      assert rest[i] == r[|r| - |rest| + i];
      assert r[|r| - |rest| + i] == q[1..][|q| - 1 - |rest| + i];
    }
  }

  /** Taking `q[0]`, then the entries up to `r`, then those up to `rest`,
      takes the entries in front of `rest`, with their events in order. */
  lemma Consumed(q: seq<Item>, r: seq<Item>, rest: seq<Item>)
    requires q != [] && |r| <= |q[1..]| && q[1..][|q[1..]| - |r|..] == r
    requires |rest| <= |r| && r[|r| - |rest|..] == rest
    ensures EventsOf(q[..|q| - |rest|]) ==
      (if q[0].Ev? then [q[0].e] else []) + EventsOf(q[1..][..|q[1..]| - |r|]) + EventsOf(r[..|r| - |rest|])
  {
    TailOfTail(q, r, rest);
    var a := q[1..][..|q[1..]| - |r|];
    var b := r[..|r| - |rest|];
    assert q == [q[0]] + a + b + rest;
    assert q[..|q| - |rest|] == [q[0]] + (a + b);
    assert ([q[0]] + (a + b))[1..] == a + b;
    EventsOfAppend(a, b);
  }

  /** Without an exit marker in the queue, a running thread handles every
      event and parks on the empty queue. */
  lemma {:induction false} DrainAll(q: seq<Item>, group: bool, max: int)
    requires forall i :: 0 <= i < |q| ==> q[i].Ev?
    ensures Drain(q, group, max) == Drained(EventsOf(q), [], false)
    decreases |q|
  {
    if q != [] {
      var g := Grouped(q[1..], group, max, 1);
      GroupedRest(q[1..], group, max, 1);
      DrainIsFifo(q, group, max);
      DrainAll(g.rest, group, max);
      assert q[..|q|] == q;
    }
  }

  /** A group never holds more than `max` events. */
  lemma {:induction false} GroupBound(q: seq<Item>, group: bool, max: int, count: int)
    requires 1 <= count <= max
    ensures |Grouped(q, group, max, count).events| <= max - count
    decreases |q|
  {
    if group && count != max && q != [] && q[0].Ev? {
      GroupBound(q[1..], group, max, count + 1);
    }
  }

  /** An exit marker taken while a group still has room is dropped: the group
      ends there, holding the events before the marker, and the marker is
      consumed. */
  lemma {:induction false} GroupDropsExit(p: seq<Item>, r: seq<Item>, max: int, count: int)
    requires forall i :: 0 <= i < |p| ==> p[i].Ev?
    requires 1 <= count && count + |p| < max
    ensures Grouped(p + [Exit] + r, true, max, count) == Drained(EventsOf(p), r, false)
    decreases |p|
  {
    var q := p + [Exit] + r;
    if p == [] {
      assert q == [Exit] + r && q[1..] == r;
    } else {
      assert q[0] == p[0] && q[1..] == p[1..] + [Exit] + r;
      GroupDropsExit(p[1..], r, max, count + 1);
    }
  }

  /** Without grouping every event is handled on its own, and the first exit
      marker ends the thread. */
  lemma {:induction false} DrainStopsAtExit(p: seq<Item>, r: seq<Item>, max: int)
    requires forall i :: 0 <= i < |p| ==> p[i].Ev?
    ensures Drain(p + [Exit] + r, false, max) == Drained(EventsOf(p), r, true)
    decreases |p|
  {
    var q := p + [Exit] + r;
    if p == [] {
      assert q == [Exit] + r && q[1..] == r;
    } else {
      assert q[0] == p[0] && q[1..] == p[1..] + [Exit] + r;
      DrainStopsAtExit(p[1..], r, max);
      assert Grouped(q[1..], false, max, 1) == Drained([], q[1..], false);
    }
  }

  /** An exit marker that arrives inside a group is dropped without ending
      the thread: the events after it are handled as if it were not there.
      Without grouping the same marker ends the thread. */
  lemma ExitInsideGroupIsDropped(e: Event, p: seq<Item>, r: seq<Item>, max: int)
    requires forall i :: 0 <= i < |p| ==> p[i].Ev?
    requires 1 + |p| < max
    ensures var d := Drain(r, true, max);
      Drain([Ev(e)] + p + [Exit] + r, true, max) == Drained([e] + EventsOf(p) + d.events, d.rest, d.ended)
    ensures Drain([Ev(e)] + p + [Exit] + r, false, max) == Drained([e] + EventsOf(p), r, true)
  {
    var q := [Ev(e)] + p + [Exit] + r;
    assert q[0] == Ev(e) && q[1..] == p + [Exit] + r;
    GroupDropsExit(p, r, max, 1);
    DrainStopsAtExit(p, r, max);
    assert Grouped(q[1..], false, max, 1) == Drained([], q[1..], false);
  }

  // ---------------------------------------------------------------------
  // Dispatch

  /** The switch on the event's `type`: sessions, jsep, webrtc, media and
      transport events, and unknown types, change nothing. */
  function DispatchEffect(db: Db, cfg: Config, e: Event, w: Outside): Outcome {
    if e.typ == TypeHandle then HandleEffect(db, cfg, e, w)
    else if e.typ == TypePlugin then PluginEffect(db, cfg, e, w)
    else if e.typ == TypeCore then Outcome(CoreEffect(db, e, w), [])
    else Outcome(db, [])
  }

  /** The events handled one after the other; `net(i)` answers for the i-th. */
  function ApplyAll(db: Db, cfg: Config, events: seq<Event>, net: nat -> Outside): Outcome {
    if events == [] then Outcome(db, [])
    else
      var n := |events| - 1;
      var before := ApplyAll(db, cfg, events[..n], net);
      var step := DispatchEffect(before.db, cfg, events[n], net(n));
      Outcome(step.db, before.sent + step.sent)
  }

  /** Only handle, plugin and core events can change the store. */
  lemma {:induction false} ApplyOnlyTyped(db: Db, cfg: Config, events: seq<Event>, net: nat -> Outside)
    requires forall i :: 0 <= i < |events| ==> events[i].typ !in {TypeHandle, TypePlugin, TypeCore}
    ensures ApplyAll(db, cfg, events, net) == Outcome(db, [])
  {
    if events != [] {
      ApplyOnlyTyped(db, cfg, events[..|events| - 1], net);
    }
  }

  method Dispatch(store: Store, cfg: Config, e: Event, w: Outside) returns (sent: seq<Request>)
    modifies store
    ensures Outcome(store.State(), sent) == DispatchEffect(old(store.State()), cfg, e, w)
  {
    if e.typ == TypeHandle {
      sent := HandleEventHandler(store, cfg, e, w);
    } else if e.typ == TypePlugin {
      sent := PluginEventHandler(store, cfg, e, w);
    } else if e.typ == TypeCore {
      CoreEventHandler(store, e, w);
      sent := [];
    } else {
      sent := [];
    }
  }

  /** The thread handing its next event to the handlers: `net(handled)`
      answers for it, and the requests it sends follow those sent so far;
      `seen` are the events handled before. */
  method DispatchNext(store: Store, cfg: Config, e: Event, net: nat -> Outside, handled: nat,
                      ghost db0: Db, ghost seen: seq<Event>, sent: seq<Request>)
    returns (sent': seq<Request>, ghost seen': seq<Event>)
    requires handled == |seen| && Outcome(store.State(), sent) == ApplyAll(db0, cfg, seen, net)
    modifies store
    ensures seen' == seen + [e]
    ensures Outcome(store.State(), sent') == ApplyAll(db0, cfg, seen', net)
  {
    var out := Dispatch(store, cfg, e, net(handled));
    sent' := sent + out;
    seen' := seen + [e];
    assert seen'[..|seen|] == seen;
  }

  // ---------------------------------------------------------------------
  // The plugin

  class Plugin {
    var initialized: bool
    var stopping: bool
    var backend: Option<string>
    var backendUser: Option<string>
    var backendPwd: Option<string>
    var maxRetransmissions: int
    var retransmissionsBackoff: int
    var eventsMask: Mask
    var groupEvents: bool
    /** The `events` queue. */
    var queue: seq<Item>
    /** Whether the handler thread is running (parked on the queue). */
    var threadAlive: bool
    /** The group size the thread fixed when it started. */
    var batchMax: int

    function Current(): Setup
      reads this
    {
      Setup(backend, backendUser, backendPwd, maxRetransmissions, retransmissionsBackoff, eventsMask, groupEvents)
    }

    /** The plugin as loaded: nothing configured, no subscription. */
    constructor ()
      ensures Current() == Setup(None, None, None, 5, 100, {}, false)
      ensures !initialized && !stopping && queue == [] && !threadAlive
    {
      initialized, stopping := false, false;
      backend, backendUser, backendPwd := None, None, None;
      maxRetransmissions, retransmissionsBackoff := 5, 100;
      eventsMask, groupEvents := {}, false;
      queue, threadAlive, batchMax := [], false, 1;
    }

    /** `init`: reads the configuration (`conf` is `None` when the file cannot
        be parsed), then creates the queue and starts the thread (`threadOk`
        says whether the thread could be created). */
    method Init(configPath: Option<string>, conf: Option<Settings>, threadOk: bool) returns (rc: int)
      modifies this
      ensures old(stopping) || configPath.None? || conf.None? || !Enabled(conf.value) ==>
        rc == -1 && unchanged(this)
      ensures !old(stopping) && configPath.Some? && conf.Some? && Enabled(conf.value) ==>
        Current() == Configured(old(Current()), conf.value) && queue == [] &&
        (rc == 0 <==> threadOk) && (rc == 0 || rc == -1) &&
        initialized == threadOk && threadAlive == threadOk &&
        (threadOk ==> batchMax == if groupEvents then 100 else 1)
      ensures stopping == old(stopping)
    {
      if stopping {
        return -1;
      }
      if configPath.None? {
        return -1;
      }
      if conf.None? {
        return -1;
      }
      var enabled := ReadGeneral(conf.value);
      if !enabled {
        return -1;
      }
      ghost var configured := Current();
      queue := [];
      initialized := true;
      if !threadOk {
        initialized := false;
        threadAlive := false;
        assert Current() == configured;
        return -1;
      }
      threadAlive := true;
      batchMax := if groupEvents then 100 else 1;
      rc := 0;
      assert Current() == configured;
    }

    /** The `general` category: nothing changes unless the plugin is enabled
        with an http backend; then every setting is read. */
    method ReadGeneral(c: Settings) returns (enabled: bool)
      modifies this`backend, this`backendUser, this`backendPwd, this`maxRetransmissions,
        this`retransmissionsBackoff, this`eventsMask, this`groupEvents
      ensures enabled == Enabled(c)
      ensures Current() == if enabled then Configured(old(Current()), c) else old(Current())
    {
      if !("enabled" in c && IsTrue(c["enabled"])) {
        return false;
      }
      if !("backend" in c && StartsWith(c["backend"], "http")) {
        return false;
      }
      var maxRe, backoff, mask := maxRetransmissions, retransmissionsBackoff, eventsMask;
      if "max_retransmissions" in c {
        var mr := Atoi(c["max_retransmissions"]);
        if mr < 0 {
        } else if mr == 0 {
          maxRe := 0;
        } else {
          maxRe := mr;
        }
      }
      assert maxRe == MaxRetransmissions(Lookup(c, "max_retransmissions"), maxRetransmissions);
      if "retransmissions_backoff" in c {
        var rb := Atoi(c["retransmissions_backoff"]);
        if rb > 0 {
          backoff := rb;
        }
      }
      assert backoff == Backoff(Lookup(c, "retransmissions_backoff"), retransmissionsBackoff);
      if "events" in c {
        mask := ParseEvents(c["events"], mask);
      }
      backend, backendUser, backendPwd := Some(c["backend"]), Lookup(c, "backend_user"), Lookup(c, "backend_pwd");
      maxRetransmissions, retransmissionsBackoff, eventsMask := maxRe, backoff, mask;
      groupEvents := "grouping" in c && IsTrue(c["grouping"]);
      enabled := true;
    }

    /** `incoming_event`: queued unless the plugin is stopping or not
        initialized, in which case the event is dropped. */
    method IncomingEvent(e: Event)
      modifies this`queue
      ensures queue == if old(stopping) || !old(initialized) then old(queue) else old(queue) + [Ev(e)]
    {
      if stopping || !initialized {
        return;
      }
      queue := queue + [Ev(e)];
    }

    /** The handler thread, woken on the current queue: it runs until it
        parks on the empty queue or takes an exit marker; `net(i)` answers for
        the i-th event it handles. */
    method Run(store: Store, cfg: Config, net: nat -> Outside) returns (sent: seq<Request>)
      modifies this`queue, this`threadAlive, store
      ensures var go := old(threadAlive && initialized && !stopping);
        var d := if go then Drain(old(queue), groupEvents, batchMax) else Drained([], old(queue), false);
        queue == d.rest && threadAlive == (old(threadAlive) && !d.ended) &&
        Outcome(store.State(), sent) == ApplyAll(old(store.State()), cfg, d.events, net)
    {
      sent := [];
      if !(threadAlive && initialized && !stopping) {
        return;
      }
      ghost var q0, db0 := queue, store.State();
      ghost var done: seq<Event> := [];
      var ended := false;
      var handled := 0;
      while queue != [] && !ended
        invariant handled == |done|
        invariant var d := Drain(queue, groupEvents, batchMax);
          Drain(q0, groupEvents, batchMax) ==
            if ended then Drained(done, queue, true) else Drained(done + d.events, d.rest, d.ended)
        invariant Outcome(store.State(), sent) == ApplyAll(db0, cfg, done, net)
        invariant threadAlive && initialized && !stopping
        decreases |queue|
      {
        ghost var before := queue;
        var item := queue[0];
        queue := queue[1..];
        if item.Exit? {
          ended := true;
        } else {
          ghost var g := Grouped(queue, groupEvents, batchMax, 1);
          ghost var d := Drain(g.rest, groupEvents, batchMax);
          assert Drain(before, groupEvents, batchMax) == Drained([item.e] + g.events + d.events, d.rest, d.ended);
          assert |g.rest| < |before| by { GroupedRest(before[1..], groupEvents, batchMax, 1); }
          ghost var done';
          sent, handled, done' := HandleGroup(store, cfg, item.e, net, handled, db0, done, sent);
          Reassociate(done, [item.e], g.events);
          Reassociate(done, [item.e] + g.events, d.events);
          done := done';
        }
      }
      if ended {
        threadAlive := false;
      } else {
        assert done + [] == done;
      }
    }

    /** One event and the rest of its group: the event is handled, then,
        when grouping, further events are taken from the queue until the group
        is full, the queue is empty or an exit marker is taken. */
    method HandleGroup(store: Store, cfg: Config, first: Event, net: nat -> Outside, handled: nat,
                       ghost db0: Db, ghost done: seq<Event>, sent: seq<Request>)
      returns (sent': seq<Request>, handled': nat, ghost seen: seq<Event>)
      requires handled == |done| && Outcome(store.State(), sent) == ApplyAll(db0, cfg, done, net)
      modifies this`queue, store
      ensures var g := Grouped(old(queue), groupEvents, batchMax, 1);
        queue == g.rest && seen == done + [first] + g.events && handled' == |seen|
      ensures Outcome(store.State(), sent') == ApplyAll(db0, cfg, seen, net)
    {
      ghost var q0 := queue;
      ghost var all := Grouped(q0, groupEvents, batchMax, 1);
      seen := done;
      sent', handled' := sent, handled;
      var count := 0;
      var event := first;
      while true
        invariant 0 <= count && handled' == |seen|
        invariant var g := Grouped(queue, groupEvents, batchMax, count + 1);
          done + [first] + all.events == seen + [event] + g.events && all.rest == g.rest
        invariant Outcome(store.State(), sent') == ApplyAll(db0, cfg, seen, net)
        decreases |queue|
      {
        ghost var rest := Grouped(queue, groupEvents, batchMax, count + 1);
        sent', seen := DispatchNext(store, cfg, event, net, handled', db0, seen, sent');
        handled' := handled' + 1;
        if !groupEvents {
          assert rest == Drained([], queue, false);
          break;
        }
        count := count + 1;
        if count == batchMax {
          assert rest == Drained([], queue, false);
          break;
        }
        if queue == [] {
          assert rest == Drained([], queue, false);
          break;
        }
        var next := queue[0];
        queue := queue[1..];
        if next.Exit? {
          assert rest == Drained([], queue, false);
          break;
        }
        event := next.e;
        ghost var more := Grouped(queue, groupEvents, batchMax, count + 1);
        assert rest == Drained([event] + more.events, more.rest, false);
        assert seen + [event] + more.events == seen + rest.events;
      }
    }

    /** `destroy`: nothing when the plugin is not initialized; otherwise set
        `stopping`, push the exit marker, wait for the thread (which takes one
        more entry and its group, then sees `stopping`), drop the queue and the
        backend, and clear both flags. */
    method Destroy(store: Store, cfg: Config, net: nat -> Outside) returns (sent: seq<Request>)
      modifies this, store
      ensures !old(initialized) ==> sent == [] && unchanged(this, store)
      ensures old(initialized) ==>
        var last := if old(threadAlive) then LastBatch(old(queue) + [Exit], old(groupEvents), old(batchMax)) else [];
        Outcome(store.State(), sent) == ApplyAll(old(store.State()), cfg, last, net) &&
        queue == [] && !initialized && !stopping && !threadAlive && backend == None &&
        Current() == old(Current()).(backend := None)
    {
      sent := [];
      if !initialized {
        return;
      }
      ghost var setup := Current();
      stopping := true;
      queue := queue + [Exit];
      if threadAlive {
        sent := Join(store, cfg, net);
      }
      assert Current() == setup;
      queue := [];
      backend := None;
      initialized := false;
      stopping := false;
    }

    /** The thread's last pop and group, run while `destroy` waits for it. */
    method Join(store: Store, cfg: Config, net: nat -> Outside) returns (sent: seq<Request>)
      requires queue != []
      modifies this`queue, this`threadAlive, store
      ensures !threadAlive
      ensures Outcome(store.State(), sent) == ApplyAll(old(store.State()), cfg, LastBatch(old(queue), groupEvents, batchMax), net)
    {
      sent := [];
      threadAlive := false;
      ghost var db0 := store.State();
      var item := queue[0];
      queue := queue[1..];
      if item.Exit? {
        return;
      }
      var handled;
      ghost var seen;
      sent, handled, seen := HandleGroup(store, cfg, item.e, net, 0, db0, [], sent);
      assert seen == LastBatch(old(queue), groupEvents, batchMax);
    }
  }
}
