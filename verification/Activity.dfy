/**
 * The bounded activity log (activity.ts) and the event stream that resumes
 * from it (managementServer.ts, openActivityStream).
 */
module Activity {
  import opened Wrappers

  datatype Event = Event(id: nat, serviceId: string, message: string)

  const MAX_MESSAGE_LENGTH: nat := 2_000
  const TRUNCATED: string := "\n[truncated by management activity log]"

  function Truncate(value: string, maxLength: nat): (r: string)
    ensures |r| <= maxLength + |TRUNCATED| && (|value| <= maxLength ==> r == value) && value[..if |value| < maxLength then |value| else maxLength] <= r
  {
    if |value| <= maxLength then value else value[..maxLength] + TRUNCATED
  }

  /** What splice leaves: the newest events, no more than the bound. */
  function Retain(events: seq<Event>, maxEvents: nat): seq<Event> {
    if |events| > maxEvents then events[|events| - maxEvents..] else events
  }

  datatype Query = Query(serviceId: Option<string>, afterId: Option<int>, limit: Option<int>)

  /** A missing, empty or zero option filters nothing. */
  predicate Selected(event: Event, query: Query) {
    && (query.serviceId.None? || query.serviceId.value == "" || event.serviceId == query.serviceId.value)
    && (query.afterId.None? || query.afterId.value == 0 || event.id > query.afterId.value)
  }

  function Filter(events: seq<Event>, query: Query): seq<Event> {
    if events == [] then [] else (if Selected(events[0], query) then [events[0]] else []) + Filter(events[1..], query)
  }

  function Limit(query: Query, maxEvents: nat): (limit: nat)
    requires maxEvents >= 1
    ensures 1 <= limit <= maxEvents
  {
    var asked := if query.limit.Some? && query.limit.value < maxEvents then query.limit.value else maxEvents;
    if asked < 1 then 1 else asked
  }

  function Snapshot(events: seq<Event>, maxEvents: nat, query: Query): seq<Event>
    requires maxEvents >= 1
  {
    Retain(Filter(events, query), Limit(query, maxEvents))
  }

  /** What a stream opened with this Last-Event-ID is sent at once; a header that is no safe integer counts as zero. */
  function Replay(events: seq<Event>, maxEvents: nat, lastEventId: Option<int>): seq<Event>
    requires maxEvents >= 1
  {
    Snapshot(events, maxEvents, Query(None, Some(if lastEventId.Some? then lastEventId.value else 0), None))
  }

  // ------------------------------------------------------------------- objects

  /** A response that events are written to. */
  class Stream {
    var written: seq<Event>

    constructor ()
      ensures written == []
    {
      written := [];
    }

    method WriteEvent(event: Event)
      modifies this
      ensures written == old(written) + [event]
    {
      written := written + [event];
    }
  }

  class ActivityBus {
    const maxEvents: nat
    var events: seq<Event>
    var listeners: seq<Stream>
    var nextId: nat

    ghost predicate Valid()
      reads this
    {
      && maxEvents >= 1 && nextId >= 1 && |events| <= maxEvents
      && (forall i, j | 0 <= i < j < |listeners| :: listeners[i] != listeners[j])
    }

    constructor (maxEvents: nat)
      requires maxEvents >= 1
      ensures Valid() && this.maxEvents == maxEvents && events == [] && listeners == [] && nextId == 1
    {
      this.maxEvents := maxEvents;
      events, listeners, nextId := [], [], 1;
    }

    method Publish(serviceId: string, message: string) returns (event: Event)
      requires Valid()
      modifies this, listeners
      ensures Valid() && listeners == old(listeners)
      ensures event == Event(old(nextId), serviceId, Truncate(message, MAX_MESSAGE_LENGTH)) && nextId == old(nextId) + 1
      ensures events == Retain(old(events) + [event], maxEvents)
      ensures forall i | 0 <= i < |listeners| :: listeners[i].written == old(listeners[i].written) + [event]
    {
      event := Event(nextId, serviceId, Truncate(message, MAX_MESSAGE_LENGTH));
      nextId := nextId + 1;
      events := events + [event];
      if |events| > maxEvents { events := events[|events| - maxEvents..]; }
      for i := 0 to |listeners|
        invariant listeners == old(listeners) && Valid() && nextId == old(nextId) + 1
        invariant events == Retain(old(events) + [event], maxEvents)
        invariant forall j | 0 <= j < i :: listeners[j].written == old(listeners[j].written) + [event]
        invariant forall j | i <= j < |listeners| :: listeners[j].written == old(listeners[j].written)
      {
        listeners[i].WriteEvent(event);
      }
    }

    /** Replay and subscription happen in one turn, so no event falls between them. */
    method OpenActivityStream(lastEventId: Option<int>) returns (response: Stream)
      requires Valid()
      modifies this`listeners
      ensures Valid() && fresh(response) && listeners == old(listeners) + [response]
      ensures response.written == Replay(events, maxEvents, lastEventId)
    {
      response := new Stream();
      var replayed := Replay(events, maxEvents, lastEventId);
      for i := 0 to |replayed|
        invariant response.written == replayed[..i] && listeners == old(listeners) && Valid()
        invariant fresh(response)
      {
        response.WriteEvent(replayed[i]);
      }
      listeners := listeners + [response];
    }

    method Close(response: Stream)
      requires Valid()
      modifies this`listeners
      ensures Valid() && response !in listeners
      ensures forall s :: s in listeners <==> s in old(listeners) && s != response
    {
      var i := 0;
      while i < |listeners| && listeners[i] != response
        invariant i <= |listeners| && response !in listeners[..i] && listeners == old(listeners)
      {
        i := i + 1;
      }
      if i < |listeners| { listeners := listeners[..i] + listeners[i + 1..]; }
    }
  }

  // ------------------------------------------------ clients that come and go

  /**
   * A client of the stream: what it has received over all its connections, how
   * much of that it had when it last connected, and whether more was published
   * in one of its gaps than the log keeps.
   */
  datatype Client = Client(received: seq<Event>, connected: bool, before: nat, gapTooLong: bool)

  datatype State = State(events: seq<Event>, nextId: nat, clients: seq<Client>, history: seq<Event>)

  datatype Action =
    | Publish(serviceId: string, message: string)
    | Join
    | Connect(client: nat)
    | Drop(client: nat, kept: nat)

  const FRESH: State := State([], 1, [], [])

  function LastId(c: Client): nat {
    if c.received == [] then 0 else c.received[|c.received| - 1].id
  }

  function Receive(c: Client, event: Event): Client {
    if c.connected then c.(received := c.received + [event]) else c
  }

  /** A dropped connection may have lost the end of what was written to it. */
  function Dropped(c: Client, kept: nat): Client {
    c.(received := if c.before <= kept <= |c.received| then c.received[..kept] else c.received, connected := false)
  }

  function Connected(c: Client, s: State, maxEvents: nat): Client
    requires maxEvents >= 1
  {
    Client(c.received + Replay(s.events, maxEvents, Some(LastId(c))), true, |c.received|,
           c.gapTooLong || (c.received != [] && s.nextId - 1 - LastId(c) > maxEvents))
  }

  function Step(s: State, action: Action, maxEvents: nat): State
    requires maxEvents >= 1
  {
    match action
    case Publish(serviceId, message) =>
      var event := Event(s.nextId, serviceId, Truncate(message, MAX_MESSAGE_LENGTH));
      State(Retain(s.events + [event], maxEvents), s.nextId + 1,
            seq(|s.clients|, i requires 0 <= i < |s.clients| => Receive(s.clients[i], event)), s.history + [event])
    case Join => s.(clients := s.clients + [Client([], false, 0, false)])
    case Connect(i) =>
      if i < |s.clients| && !s.clients[i].connected then s.(clients := s.clients[i := Connected(s.clients[i], s, maxEvents)]) else s
    case Drop(i, kept) => if i < |s.clients| && s.clients[i].connected then s.(clients := s.clients[i := Dropped(s.clients[i], kept)]) else s
  }

  function Run(actions: seq<Action>, maxEvents: nat): State
    requires maxEvents >= 1
  {
    if actions == [] then FRESH else Step(Run(actions[..|actions| - 1], maxEvents), actions[|actions| - 1], maxEvents)
  }

  /** Every event published so far, numbered from one. */
  predicate Numbered(history: seq<Event>) {
    forall i | 0 <= i < |history| :: history[i].id == i + 1
  }

  predicate Published(event: Event, history: seq<Event>) {
    1 <= event.id <= |history| && history[event.id - 1] == event
  }

  predicate Increasing(received: seq<Event>) {
    forall i, j | 0 <= i < j < |received| :: received[i].id < received[j].id
  }

  predicate Gapless(received: seq<Event>) {
    forall i | 0 <= i < |received| :: received[i].id == received[0].id + i
  }

  predicate AllPublished(received: seq<Event>, history: seq<Event>) {
    forall i | 0 <= i < |received| :: Published(received[i], history)
  }

  predicate ClientOk(c: Client, history: seq<Event>) {
    && c.before <= |c.received|
    && AllPublished(c.received, history) && Increasing(c.received)
    && (c.connected ==> LastId(c) == |history|)
    && (!c.gapTooLong ==> Gapless(c.received))
  }

  predicate Good(s: State, maxEvents: nat) {
    && s.nextId == |s.history| + 1 && Numbered(s.history) && s.events == Retain(s.history, maxEvents)
    && forall i | 0 <= i < |s.clients| :: ClientOk(s.clients[i], s.history)
  }

  /** What is replayed after an id: every later event that the log still holds. */
  lemma ReplayIsTail(history: seq<Event>, maxEvents: nat, afterId: nat)
    requires maxEvents >= 1 && Numbered(history) && afterId <= |history|
    ensures var oldest := if |history| > maxEvents then |history| - maxEvents else 0;
            Replay(Retain(history, maxEvents), maxEvents, Some(afterId)) == history[if afterId < oldest then oldest else afterId..]
  {
    var query := Query(None, Some(afterId as int), None);
    var oldest := if |history| > maxEvents then |history| - maxEvents else 0;
    FilterIsTail(history, oldest, query, afterId);
    assert history[..] == history;
  }

  lemma {:induction false} FilterIsTail(history: seq<Event>, from: nat, query: Query, afterId: nat)
    requires Numbered(history) && from <= |history| && afterId <= |history|
    requires query == Query(None, Some(afterId), None)
    ensures Filter(history[from..], query) == history[if afterId < from then from else afterId..]
    decreases |history| - from
  {
    if from == |history| {
    } else {
      FilterIsTail(history, from + 1, query, afterId);
      assert history[from..][1..] == history[from + 1..];
      assert history[from..] == [history[from]] + history[from + 1..];
    }
  }

  /** A tail of the history behind what has been received. */
  lemma AppendTail(received: seq<Event>, history: seq<Event>, from: nat)
    requires AllPublished(received, history) && Increasing(received) && Numbered(history) && from <= |history|
    requires received != [] ==> received[|received| - 1].id <= from
    ensures AllPublished(received + history[from..], history) && Increasing(received + history[from..])
    ensures Gapless(received) && (received != [] ==> received[|received| - 1].id == from) ==> Gapless(received + history[from..])
    ensures var all := received + history[from..]; from < |history| ==> all[|all| - 1].id == |history|
  {
    var all := received + history[from..];
    assert forall i | |received| <= i < |all| :: all[i] == history[from + i - |received|] && all[i].id == from + i - |received| + 1;
    forall i | 0 <= i < |received| ensures received[i].id <= from {
      if i < |received| - 1 { assert received[i].id < received[|received| - 1].id; }
    }
    forall i | 0 <= i < |all| ensures Published(all[i], history) {
      if i < |received| { assert Published(received[i], history); }
    }
    if Gapless(received) && (received != [] ==> received[|received| - 1].id == from) {
      assert received != [] ==> received[|received| - 1].id == received[0].id + |received| - 1;
    }
  }

  lemma ConnectKeeps(c: Client, s: State, maxEvents: nat)
    requires maxEvents >= 1 && s.nextId == |s.history| + 1 && Numbered(s.history) && s.events == Retain(s.history, maxEvents)
    requires ClientOk(c, s.history) && !c.connected
    ensures ClientOk(Connected(c, s, maxEvents), s.history)
  {
    hide Replay, AllPublished, Increasing, Gapless, Numbered, Retain;
    LastIdPublished(c, s.history);
    ReplayIsTail(s.history, maxEvents, LastId(c));
    var more := Replay(s.events, maxEvents, Some(LastId(c)));
    var oldest := if |s.history| > maxEvents then |s.history| - maxEvents else 0;
    var from := if LastId(c) < oldest then oldest else LastId(c);
    AppendTail(c.received, s.history, from);
    var all := c.received + more;
    assert all == c.received + s.history[from..];
    if from == |s.history| { assert all == c.received; }
  }

  lemma LastIdPublished(c: Client, history: seq<Event>)
    requires ClientOk(c, history)
    ensures LastId(c) <= |history|
  {
  }

  lemma ReceiveKeeps(c: Client, history: seq<Event>, event: Event)
    requires ClientOk(c, history) && Numbered(history) && event.id == |history| + 1
    ensures ClientOk(Receive(c, event), history + [event])
  {
    hide Increasing, Gapless;
    var longer := history + [event];
    assert AllPublished(c.received, longer) by {
      forall i | 0 <= i < |c.received| ensures Published(c.received[i], longer) { assert Published(c.received[i], history); }
    }
    LastIdPublished(c, history);
    AppendTail(c.received, longer, |history|);
    assert longer[|history|..] == [event];
  }

  lemma DropKeeps(c: Client, history: seq<Event>, kept: nat)
    requires ClientOk(c, history)
    ensures ClientOk(Dropped(c, kept), history)
  {
  }

  lemma PublishKeeps(s: State, serviceId: string, message: string, maxEvents: nat)
    requires maxEvents >= 1 && Good(s, maxEvents)
    ensures Good(Step(s, Publish(serviceId, message), maxEvents), maxEvents)
  {
    hide Truncate, Receive, ClientOk;
    var t := Step(s, Publish(serviceId, message), maxEvents);
    var event := t.history[|s.history|];
    RetainGrows(s.history, event, maxEvents);
    forall i | 0 <= i < |t.clients| ensures ClientOk(t.clients[i], t.history) {
      ReceiveKeeps(s.clients[i], s.history, event);
    }
  }

  lemma RetainGrows(history: seq<Event>, event: Event, maxEvents: nat)
    requires maxEvents >= 1
    ensures Retain(Retain(history, maxEvents) + [event], maxEvents) == Retain(history + [event], maxEvents)
  {
  }

  lemma StepKeeps(s: State, action: Action, maxEvents: nat)
    requires maxEvents >= 1 && Good(s, maxEvents)
    ensures Good(Step(s, action, maxEvents), maxEvents)
  {
    hide Connected, Dropped, ClientOk, Retain, Numbered;
    match action {
      case Publish(serviceId, message) => PublishKeeps(s, serviceId, message, maxEvents);
      case Connect(i) => if i < |s.clients| && !s.clients[i].connected { ConnectKeeps(s.clients[i], s, maxEvents); }
      case Drop(i, kept) => if i < |s.clients| { DropKeeps(s.clients[i], s.history, kept); }
      case Join => NewClientOk(s.history);
    }
  }

  lemma NewClientOk(history: seq<Event>)
    ensures ClientOk(Client([], false, 0, false), history)
  {
  }

  lemma {:induction false} GoodOfRun(actions: seq<Action>, maxEvents: nat)
    requires maxEvents >= 1
    ensures Good(Run(actions, maxEvents), maxEvents)
  {
    hide Step;
    if actions == [] {
    } else {
      GoodOfRun(actions[..|actions| - 1], maxEvents);
      StepKeeps(Run(actions[..|actions| - 1], maxEvents), actions[|actions| - 1], maxEvents);
    }
  }

  /** The log always holds the newest min(n, maxEvents) of the n events published, numbered without a gap. */
  lemma {:induction false} LogKeepsNewest(actions: seq<Action>, maxEvents: nat)
    requires maxEvents >= 1
    ensures var s := Run(actions, maxEvents); var n := |s.history|;
            && |s.events| == (if n < maxEvents then n else maxEvents) && s.events == s.history[n - |s.events|..]
            && forall i | 0 <= i < |s.events| :: s.events[i].id == n - |s.events| + i + 1
  {
    GoodOfRun(actions, maxEvents);
    hide Run;
  }

  /**
   * Exactly once, in order: however often a client drops and comes back with
   * its last id, what it has received are published events with increasing
   * ids, and without a gap between the first and the last of them as long as
   * no absence was longer than the log; a connected client has the newest.
   */
  lemma ResumesExactlyOnce(actions: seq<Action>, maxEvents: nat, i: nat)
    requires maxEvents >= 1 && i < |Run(actions, maxEvents).clients|
    ensures var s := Run(actions, maxEvents); var c := s.clients[i];
            && (forall j, k | 0 <= j < k < |c.received| :: c.received[j].id < c.received[k].id)
            && (forall j | 0 <= j < |c.received| :: c.received[j] in s.history)
            && (c.connected ==> LastId(c) == |s.history|)
            && (!c.gapTooLong && c.received != [] ==>
                  var from := c.received[0].id - 1;
                  0 <= from && from + |c.received| <= |s.history| && c.received == s.history[from..from + |c.received|])
  {
    GoodOfRun(actions, maxEvents);
    hide Run, Retain, Numbered, Gapless;
    var s := Run(actions, maxEvents);
    var c := s.clients[i];
    assert ClientOk(c, s.history);
    forall j | 0 <= j < |c.received| ensures c.received[j] in s.history {
      assert Published(c.received[j], s.history);
    }
    if !c.gapTooLong && c.received != [] { GaplessIsSlice(c.received, s.history); }
  }

  lemma GaplessIsSlice(received: seq<Event>, history: seq<Event>)
    requires received != [] && AllPublished(received, history) && Gapless(received)
    ensures var from := received[0].id - 1;
            0 <= from && from + |received| <= |history| && received == history[from..from + |received|]
  {
    var from, last := received[0].id - 1, |received| - 1;
    assert Published(received[0], history) && Published(received[last], history);
    assert received[last].id == received[0].id + last;
    forall j | 0 <= j < |received| ensures received[j] == history[from + j] {
      assert Published(received[j], history);
    }
  }

  /** A reconnection loses nothing exactly when no more was published in the gap than the log holds. */
  lemma ReconnectionLosesNothingIff(actions: seq<Action>, maxEvents: nat, i: nat)
    requires maxEvents >= 1 && i < |Run(actions, maxEvents).clients|
    requires !Run(actions, maxEvents).clients[i].connected
    ensures var s := Run(actions, maxEvents); var c := s.clients[i];
            LastId(c) <= |s.history| &&
            var missing := s.history[LastId(c)..];
            Connected(c, s, maxEvents).received == c.received + missing <==> |missing| <= maxEvents
  {
    GoodOfRun(actions, maxEvents);
    hide Run;
    var s := Run(actions, maxEvents);
    var c := s.clients[i];
    assert ClientOk(c, s.history);
    ReplayIsTail(s.history, maxEvents, LastId(c));
  }

  // ------------------------------------------- the bus and its clients together

  /** The bus with the clients of its stream, each with what it had received and its connection, if it has one. */
  class ActivityServer {
    const bus: ActivityBus
    var received: seq<seq<Event>>
    var streams: seq<Stream?>
    var before: seq<nat>
    ghost var gapTooLong: seq<bool>
    ghost var history: seq<Event>

    ghost predicate Valid()
      reads this, bus
    {
      && bus.Valid() && |received| == |streams| == |before| == |gapTooLong|
      && (forall i | 0 <= i < |streams| :: streams[i] != null ==> streams[i] in bus.listeners)
      && (forall i, j | 0 <= i < j < |streams| :: streams[i] != null ==> streams[i] != streams[j])
    }

    ghost function ClientAt(i: nat): Client
      requires i < |received| == |streams| == |before| == |gapTooLong|
      reads this, streams
    {
      if streams[i] == null then Client(received[i], false, before[i], gapTooLong[i])
      else Client(received[i] + streams[i].written, true, |received[i]|, gapTooLong[i])
    }

    ghost function Clients(): (clients: seq<Client>)
      requires |received| == |streams| == |before| == |gapTooLong|
      reads this, streams
      ensures |clients| == |streams| && forall i | 0 <= i < |clients| :: clients[i] == ClientAt(i)
    {
      seq(|streams|, i requires 0 <= i < |streams| && |received| == |streams| == |before| == |gapTooLong| reads this, streams => ClientAt(i))
    }

    ghost function View(): State
      requires |received| == |streams| == |before| == |gapTooLong|
      reads this, bus, streams
    {
      State(bus.events, bus.nextId, Clients(), history)
    }

    constructor (maxEvents: nat)
      requires maxEvents >= 1
      ensures Valid() && fresh(bus) && bus.maxEvents == maxEvents && bus.listeners == [] && View() == FRESH
    {
      bus := new ActivityBus(maxEvents);
      received, streams, before, gapTooLong, history := [], [], [], [], [];
    }

    method Publish(serviceId: string, message: string)
      requires Valid()
      modifies this, bus, bus.listeners
      ensures Valid() && bus.listeners == old(bus.listeners)
      ensures View() == Step(old(View()), Action.Publish(serviceId, message), bus.maxEvents)
    {
      var event := bus.Publish(serviceId, message);
      history := history + [event];
      forall i | 0 <= i < |streams| ensures ClientAt(i) == Receive(old(ClientAt(i)), event) {
        if streams[i] != null {
          var k :| 0 <= k < |bus.listeners| && bus.listeners[k] == streams[i];
        }
      }
    }

    method Join()
      requires Valid()
      modifies this
      ensures Valid() && View() == Step(old(View()), Action.Join, bus.maxEvents)
    {
      received, streams, before, gapTooLong := received + [[]], streams + [null], before + [0], gapTooLong + [false];
      assert View().clients == old(View()).clients + [Client([], false, 0, false)];
    }

    /** The client comes back with the id of the last event it has received. */
    method Connect(i: nat)
      requires Valid() && i < |streams| && streams[i] == null
      modifies this, bus
      ensures Valid() && View() == Step(old(View()), Action.Connect(i), bus.maxEvents)
      ensures forall s | s in bus.listeners :: s in old(bus.listeners) || fresh(s)
    {
      var lastId := if received[i] == [] then 0 else received[i][|received[i]| - 1].id;
      ghost var late := received[i] != [] && bus.nextId - 1 - lastId > bus.maxEvents;
      var response := bus.OpenActivityStream(Some(lastId));
      gapTooLong := gapTooLong[i := gapTooLong[i] || late];
      streams := streams[i := response];
      before := before[i := |received[i]|];
      assert View().clients == old(View()).clients[i := Connected(old(ClientAt(i)), old(View()), bus.maxEvents)];
    }

    /** The connection ends; the client may not have received the end of what was written. */
    method Drop(i: nat, kept: nat)
      requires Valid() && i < |streams| && streams[i] != null
      modifies this, bus
      ensures Valid() && View() == Step(old(View()), Action.Drop(i, kept), bus.maxEvents)
      ensures forall s | s in bus.listeners :: s in old(bus.listeners)
    {
      var all := received[i] + streams[i].written;
      bus.Close(streams[i]);
      before := before[i := |received[i]|];
      received := received[i := if |received[i]| <= kept <= |all| then all[..kept] else all];
      streams := streams[i := null];
      assert View().clients == old(View()).clients[i := Dropped(old(ClientAt(i)), kept)];
    }

    method Handle(action: Action)
      requires Valid()
      modifies this, bus, bus.listeners
      ensures Valid() && View() == Step(old(View()), action, bus.maxEvents)
      ensures forall s | s in bus.listeners :: s in old(bus.listeners) || fresh(s)
    {
      match action {
        case Publish(serviceId, message) => Publish(serviceId, message);
        case Join => Join();
        case Connect(i) => if i < |streams| && streams[i] == null { Connect(i); }
        case Drop(i, kept) => if i < |streams| && streams[i] != null { Drop(i, kept); }
      }
    }
  }

  lemma RunGrows(actions: seq<Action>, n: nat, maxEvents: nat)
    requires maxEvents >= 1 && n < |actions|
    ensures Run(actions[..n + 1], maxEvents) == Step(Run(actions[..n], maxEvents), actions[n], maxEvents)
  {
    hide Step;
    assert actions[..n + 1][..n] == actions[..n];
  }

  /** A server from its start to its last event: bus and clients are where the run is. */
  method Serve(maxEvents: nat, actions: seq<Action>) returns (server: ActivityServer)
    requires maxEvents >= 1
    ensures server.Valid() && server.bus.maxEvents == maxEvents && server.View() == Run(actions, maxEvents)
  {
    hide Step;
    server := new ActivityServer(maxEvents);
    for n := 0 to |actions|
      invariant fresh(server) && fresh(server.bus) && server.Valid() && server.bus.maxEvents == maxEvents
      invariant fresh(set s | s in server.bus.listeners)
      invariant server.View() == Run(actions[..n], maxEvents)
    {
      RunGrows(actions, n, maxEvents);
      server.Handle(actions[n]);
    }
    assert actions[..|actions|] == actions;
  }
}
