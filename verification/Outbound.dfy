/**
 * The outbound queue of the live session (texpressoLiveSession.ts,
 * sendJson, sendPage and enqueueFrames): one promise chain that writes the
 * frames of one message after the other to the socket.
 */
module Outbound {
  import opened LiveSession

  datatype Frame = Json(message: Message) | Png(page: Page)

  /** sendJson() sends one text frame; sendPage() sends the metadata and then the image. */
  function FramesOf(m: Message): (r: seq<Frame>)
    ensures |r| >= 1
  {
    if m.PageMessage? then [Json(m), Png(m.page)] else [Json(m)]
  }

  function AllFrames(messages: seq<Message>): seq<Frame> {
    if messages == [] then [] else AllFrames(messages[..|messages| - 1]) + FramesOf(messages[|messages| - 1])
  }

  /**
   * `current` holds the frames the running task has still to send; while it
   * is not empty the send of its head is under way. `orphaned` and `spoiled`
   * record failed image sends; the code does not read them.
   */
  datatype Channel = Channel(
    waiting: seq<Message>,
    current: seq<Frame>,
    wire: seq<Frame>,
    open: bool,
    enqueued: seq<Message>,
    failed: bool,
    orphaned: bool,
    spoiled: bool)

  const IDLE: Channel := Channel([], [], [], true, [], false, false, false)

  datatype Event = Enqueue(message: Message) | Settle(ok: bool) | Leave

  /** Up to the next await: a task checks the socket before each frame and returns if it is no longer open. */
  function Advance(q: Channel): Channel {
    if !q.open then q.(waiting := [], current := [])
    else if q.current == [] && q.waiting != [] then q.(current := FramesOf(q.waiting[0]), waiting := q.waiting[1..])
    else q
  }

  /** The send under way settles: the next frame of the task, or, after an error, the next task. */
  function Settled(q: Channel, ok: bool): Channel {
    if q.current == [] then q
    else if ok then
      Advance(q.(wire := q.wire + [q.current[0]], current := q.current[1..], spoiled := q.spoiled || q.orphaned))
    else
      Advance(q.(current := [], failed := true, orphaned := q.orphaned || q.current[0].Png?))
  }

  function Enqueued(q: Channel, m: Message): Channel {
    var added := q.(waiting := q.waiting + [m], enqueued := q.enqueued + [m]);
    if q.current == [] then Advance(added) else added
  }

  function Step(q: Channel, e: Event): Channel {
    match e
    case Enqueue(m) => Enqueued(q, m)
    case Settle(ok) => Settled(q, ok)
    case Leave => q.(open := false)
  }

  function Run(events: seq<Event>): Channel {
    if events == [] then IDLE else Step(Run(events[..|events| - 1]), events[|events| - 1])
  }

  class OutboundQueue {
    var waiting: seq<Message>
    var current: seq<Frame>
    var wire: seq<Frame>
    var open: bool
    ghost var enqueued: seq<Message>
    ghost var failed: bool
    ghost var orphaned: bool
    ghost var spoiled: bool

    ghost function View(): Channel
      reads this
    {
      Channel(waiting, current, wire, open, enqueued, failed, orphaned, spoiled)
    }

    constructor ()
      ensures View() == IDLE
    {
      waiting, current, wire, open := [], [], [], true;
      enqueued, failed, orphaned, spoiled := [], false, false, false;
    }

    method NextSend()
      modifies this
      ensures View() == Advance(old(View()))
    {
      if !open {
        waiting := [];
        current := [];
      } else if current == [] && waiting != [] {
        current := FramesOf(waiting[0]);
        waiting := waiting[1..];
      }
    }

    method EnqueueFrames(m: Message)
      modifies this
      ensures View() == Enqueued(old(View()), m)
    {
      waiting := waiting + [m];
      enqueued := enqueued + [m];
      if current == [] { NextSend(); }
    }

    method SendSettled(ok: bool)
      modifies this
      ensures View() == Settled(old(View()), ok)
    {
      if current == [] { return; }
      if ok {
        wire := wire + [current[0]];
        current := current[1..];
        spoiled := spoiled || orphaned;
      } else {
        orphaned := orphaned || current[0].Png?;
        failed := true;
        current := [];
      }
      NextSend();
    }
  }

  /** A socket's queue from its first event to its last. */
  method Serve(events: seq<Event>) returns (queue: OutboundQueue)
    ensures fresh(queue) && queue.View() == Run(events)
  {
    queue := new OutboundQueue();
    for n := 0 to |events|
      invariant fresh(queue) && queue.View() == Run(events[..n])
    {
      match events[n] {
        case Enqueue(m) => queue.EnqueueFrames(m);
        case Settle(ok) => queue.SendSettled(ok);
        case Leave => queue.open := false;
      }
      assert events[..n + 1][..n] == events[..n];
    }
    assert events[..|events|] == events;
  }

  // ---------------------------------------------------------------- pairing

  predicate IsMetadata(f: Frame) {
    f.Json? && f.message.PageMessage?
  }

  predicate Pair(metadata: Frame, image: Frame) {
    IsMetadata(metadata) && image == Png(metadata.message.page)
  }

  /** Every image directly follows its own metadata. */
  ghost predicate ImagesAnnounced(wire: seq<Frame>) {
    forall i | 0 <= i < |wire| && wire[i].Png? :: i > 0 && Pair(wire[i - 1], wire[i])
  }

  /** Every metadata frame is directly followed by its own image, or by nothing. */
  ghost predicate MetadataAnswered(wire: seq<Frame>) {
    forall i | 0 <= i < |wire| - 1 && IsMetadata(wire[i]) :: Pair(wire[i], wire[i + 1])
  }

  predicate Dangling(wire: seq<Frame>) {
    |wire| > 0 && IsMetadata(wire[|wire| - 1])
  }

  ghost predicate TaskShape(q: Channel) {
    && |q.current| <= 2
    && (|q.current| == 2 ==> Pair(q.current[0], q.current[1]))
    && (|q.current| == 1 && q.current[0].Png? ==> Dangling(q.wire) && Pair(q.wire[|q.wire| - 1], q.current[0]))
    && (|q.current| == 1 && q.current[0].Json? ==> !IsMetadata(q.current[0]))
    && (q.current == [] ==> q.waiting == [])
  }

  ghost predicate Paired(q: Channel) {
    && TaskShape(q)
    && ImagesAnnounced(q.wire)
    && (MetadataAnswered(q.wire) <==> !q.spoiled)
    && (q.orphaned && !q.spoiled ==> Dangling(q.wire))
    && (q.orphaned && !q.spoiled && q.current != [] ==> q.current[0].Json?)
    && (Dangling(q.wire) ==> q.orphaned || (|q.current| == 1 && q.current[0].Png?) || (!q.open && q.current == []))
  }

  lemma AdvancePaired(q: Channel)
    requires |q.current| <= 1
    requires q.current == [] || (q.current[0].Png? && Dangling(q.wire) && Pair(q.wire[|q.wire| - 1], q.current[0]))
    requires ImagesAnnounced(q.wire) && (MetadataAnswered(q.wire) <==> !q.spoiled)
    requires q.orphaned && !q.spoiled ==> Dangling(q.wire) && q.current == []
    requires Dangling(q.wire) ==> q.orphaned || q.current != [] || !q.open
    ensures Paired(Advance(q))
  {
    hide ImagesAnnounced, MetadataAnswered;
  }

  lemma AppendFrame(wire: seq<Frame>, f: Frame)
    requires f.Png? ==> Dangling(wire) && Pair(wire[|wire| - 1], f)
    ensures ImagesAnnounced(wire) ==> ImagesAnnounced(wire + [f])
    ensures MetadataAnswered(wire + [f]) <==>
            MetadataAnswered(wire) && (Dangling(wire) ==> Pair(wire[|wire| - 1], f))
  {
    var r := wire + [f];
    if MetadataAnswered(r) {
      forall i | 0 <= i < |wire| - 1 && IsMetadata(wire[i]) ensures Pair(wire[i], wire[i + 1]) {
        assert Pair(r[i], r[i + 1]);
      }
      if Dangling(wire) { assert Pair(r[|wire| - 1], r[|wire|]); }
    }
  }

  lemma PairedStep(q: Channel, e: Event)
    requires Paired(q)
    ensures Paired(Step(q, e))
  {
    if e.Settle? && q.current != [] {
      if e.ok {
        AppendFrame(q.wire, q.current[0]);
        hide ImagesAnnounced, MetadataAnswered, Advance;
        var sent := q.(wire := q.wire + [q.current[0]], current := q.current[1..], spoiled := q.spoiled || q.orphaned);
        AdvancePaired(sent);
      } else {
        AdvancePaired(q.(current := [], failed := true, orphaned := q.orphaned || q.current[0].Png?));
      }
    }
  }

  /**
   * On every run each image on the wire directly follows its own metadata.
   * Each metadata frame is directly followed by its image, or ends the wire,
   * exactly when no send succeeded after an image send had failed.
   */
  lemma {:induction false} FramePairing(events: seq<Event>)
    ensures Paired(Run(events))
  {
    if events == [] {
    } else {
      FramePairing(events[..|events| - 1]);
      PairedStep(Run(events[..|events| - 1]), events[|events| - 1]);
    }
  }

  /** The guarantee needs its condition: an image send fails, the next message still goes out. */
  lemma OrphanedMetadataExample(p: Page)
    ensures var q := Run([Enqueue(PageMessage(1, p)), Settle(true), Enqueue(SessionError), Settle(false), Settle(true)]);
            q.wire == [Json(PageMessage(1, p)), Json(SessionError)] && q.spoiled && !MetadataAnswered(q.wire)
  {
    var a := [Enqueue(PageMessage(1, p))];
    var b := a + [Settle(true)];
    var c := b + [Enqueue(SessionError)];
    var d := c + [Settle(false)];
    RunAppend([], Enqueue(PageMessage(1, p)));
    RunAppend(a, Settle(true));
    RunAppend(b, Enqueue(SessionError));
    RunAppend(c, Settle(false));
    RunAppend(d, Settle(true));
    assert [] + a == a;
    var e := [Enqueue(PageMessage(1, p)), Settle(true), Enqueue(SessionError), Settle(false), Settle(true)];
    assert d + [Settle(true)] == e;
    FramePairing(e);
  }

  lemma RunAppend(events: seq<Event>, e: Event)
    ensures Run(events + [e]) == Step(Run(events), e)
  {
    assert (events + [e])[..|events|] == events;
  }

  // ------------------------------------------------------------------ order

  ghost predicate InOrder(q: Channel) {
    && (q.current == [] ==> q.waiting == [])
    && (!q.failed && q.open ==> q.wire + q.current + AllFrames(q.waiting) == AllFrames(q.enqueued))
    && (!q.failed ==> q.wire + q.current <= AllFrames(q.enqueued))
  }

  lemma AllFramesAppend(messages: seq<Message>, m: Message)
    ensures AllFrames(messages + [m]) == AllFrames(messages) + FramesOf(m)
  {
    assert (messages + [m])[..|messages|] == messages;
  }

  lemma AllFramesEmpty()
    ensures AllFrames([]) == []
  {
  }

  lemma {:induction false} AllFramesCons(m: Message, messages: seq<Message>)
    ensures AllFrames([m] + messages) == FramesOf(m) + AllFrames(messages)
  {
    hide AllFrames;
    if messages == [] {
      assert [m] + messages == [] + [m];
      AllFramesAppend([], m);
      AllFramesEmpty();
    } else {
      var front, last := messages[..|messages| - 1], messages[|messages| - 1];
      assert messages == front + [last];
      assert [m] + messages == ([m] + front) + [last];
      AllFramesAppend([m] + front, last);
      AllFramesAppend(front, last);
      AllFramesCons(m, front);
    }
  }

  lemma AdvanceInOrder(q: Channel)
    requires !q.failed && q.open ==> q.wire + q.current + AllFrames(q.waiting) == AllFrames(q.enqueued)
    requires !q.failed ==> q.wire + q.current <= AllFrames(q.enqueued)
    ensures InOrder(Advance(q))
  {
    hide AllFrames;
    if q.open && q.current == [] && q.waiting != [] {
      var first, rest := q.waiting[0], q.waiting[1..];
      assert q.waiting == [first] + rest;
      AllFramesCons(first, rest);
      assert q.wire + [] == q.wire;
      assert q.wire + (FramesOf(first) + AllFrames(rest)) == (q.wire + FramesOf(first)) + AllFrames(rest);
    } else if !q.open {
      assert q.wire + [] == q.wire;
      assert q.wire <= q.wire + q.current;
    }
  }

  lemma InOrderStep(q: Channel, e: Event)
    requires InOrder(q)
    ensures InOrder(Step(q, e))
  {
    match e {
      case Enqueue(m) =>
        AllFramesAppend(q.waiting, m);
        AllFramesAppend(q.enqueued, m);
        AdvanceInOrder(q.(waiting := q.waiting + [m], enqueued := q.enqueued + [m]));
      case Settle(ok) =>
        if q.current != [] && ok {
          assert q.wire + [q.current[0]] + q.current[1..] == q.wire + q.current;
          AdvanceInOrder(q.(wire := q.wire + [q.current[0]], current := q.current[1..], spoiled := q.spoiled || q.orphaned));
        } else if q.current != [] {
          AdvanceInOrder(q.(current := [], failed := true, orphaned := q.orphaned || q.current[0].Png?));
        }
      case Leave =>
    }
  }

  /** Unless a send failed, the wire carries the frames of the enqueued messages in order, without gap or repetition. */
  lemma {:induction false} FramesInOrder(events: seq<Event>)
    ensures InOrder(Run(events))
  {
    if events == [] {
    } else {
      FramesInOrder(events[..|events| - 1]);
      InOrderStep(Run(events[..|events| - 1]), events[|events| - 1]);
    }
  }
}
