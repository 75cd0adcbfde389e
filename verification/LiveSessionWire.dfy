/**
 * The live session and its outbound queue together: what the client has been
 * sent, frame by frame, when everything has come to rest.
 */
module LiveSessionWire {
  import opened Wrappers
  import opened LiveSession
  import opened LiveSessionData
  import opened LiveSessionTheorems
  import Queue = Outbound

  predicate ShowsPage(f: Queue.Frame) {
    f.Png? || IsPublication(f.message)
  }

  /** The frames that carry page output, in order. */
  function PageFrames(wire: seq<Queue.Frame>): seq<Queue.Frame> {
    if wire == [] then []
    else PageFrames(wire[..|wire| - 1]) + if ShowsPage(wire[|wire| - 1]) then [wire[|wire| - 1]] else []
  }

  lemma {:induction false} PageFramesConcat(a: seq<Queue.Frame>, b: seq<Queue.Frame>)
    ensures PageFrames(a + b) == PageFrames(a) + PageFrames(b)
    decreases |b|
  {
    if b == [] {
      assert a + b == a;
    } else {
      assert (a + b)[..|a + b| - 1] == a + b[..|b| - 1];
      PageFramesConcat(a, b[..|b| - 1]);
    }
  }

  lemma PageFramesOf(m: Message)
    ensures PageFrames(Queue.FramesOf(m)) == if IsPublication(m) then Queue.FramesOf(m) else []
  {
    var frames := Queue.FramesOf(m);
    assert frames == [frames[0]] + frames[1..];
    PageFramesConcat([frames[0]], frames[1..]);
    assert [frames[0]][..0] == [];
    if m.PageMessage? { assert frames[1..] == [frames[1]] && [frames[1]][..0] == []; }
  }

  /** The page frames of all messages are the frames of the page messages. */
  lemma {:induction false} PageFramesOfMessages(messages: seq<Message>)
    ensures PageFrames(Queue.AllFrames(messages)) == Queue.AllFrames(Publications(messages))
  {
    if messages == [] {
    } else {
      var before, last := messages[..|messages| - 1], messages[|messages| - 1];
      PageFramesOfMessages(before);
      PageFramesOf(last);
      PageFramesConcat(Queue.AllFrames(before), Queue.FramesOf(last));
      if IsPublication(last) {
        Queue.AllFramesAppend(Publications(before), last);
      } else {
        assert Publications(before) + [] == Publications(before);
      }
    }
  }

  lemma {:induction false} FrameOfMessage(messages: seq<Message>, i: nat)
    requires i < |messages|
    ensures Queue.Json(messages[i]) in Queue.AllFrames(messages)
  {
    var last := |messages| - 1;
    if i < last {
      FrameOfMessage(messages[..last], i);
    } else {
      assert Queue.FramesOf(messages[last])[0] == Queue.Json(messages[last]);
    }
  }

  /** Nothing is waiting to be sent on a socket that is open and has taken every frame so far. */
  predicate Drained(q: Queue.Channel) {
    q.open && !q.failed && q.current == []
  }

  /**
   * Convergence on the wire: when an open session is at rest, its queue of
   * frames is drained and no send has failed, the client has been sent the
   * frames of every committed document, each page with its image, and nothing
   * else of pages; the last document is of the newest accepted change, unless
   * the compile error of that change has been sent instead.
   */
  lemma {:induction false} ClientIsUpToDate(events: seq<Event>, sends: seq<Queue.Event>)
    requires AtRest(Run(events)) && Drained(Queue.Run(sends)) && Queue.Run(sends).enqueued == Run(events).emitted
    ensures var s := Run(events); var wire := Queue.Run(sends).wire;
            && s.applied == s.latestReceived
            && PageFrames(wire) == Queue.AllFrames(Bursts(s.history.commits))
            && (s.lastGood == Some(s.latestReceived)
                || exists m: Message :: m.CompileError? && m.revision == s.latestReceived && Queue.Json(m) in wire)
  {
    Convergence(events);
    Queue.FramesInOrder(sends);
    hide Run, Queue.Run, AtRest, PageFrames, Bursts, Publications;
    var s, q := Run(events), Queue.Run(sends);
    NothingWaiting(q);
    assert q.wire == Queue.AllFrames(s.emitted);
    PageFramesOfMessages(s.emitted);
    if s.lastGood != Some(s.latestReceived) {
      var i :| 0 <= i < |s.emitted| && s.emitted[i].CompileError? && s.emitted[i].revision == s.applied;
      FrameOfMessage(s.emitted, i);
    }
  }

  lemma NothingWaiting(q: Queue.Channel)
    requires Queue.InOrder(q) && Drained(q)
    ensures q.wire == Queue.AllFrames(q.enqueued)
  {
    assert Queue.AllFrames([]) == [];
    assert q.wire + [] + [] == q.wire;
  }
}
