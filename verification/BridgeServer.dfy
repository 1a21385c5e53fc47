/**
 * The bridge's tasks (inboxbridge/src/main.rs:80-173): a loop that spawns one task per request, and one writer that
 * owns stdout and is fed by the tasks through a channel. The reader, the tasks and the writer move in any order.
 */
module BridgeServer {
  import opened Prelude
  import opened Framing

  const CHANNEL_CAPACITY := 64

  datatype Task = Dispatching | Sending(response: Response)

  /** What a task sends; a body of None is a response that cannot be serialized. */
  datatype Response = Response(request: nat, body: Option<Bytes>)

  datatype World = World(
    requests: seq<Bytes>,        // what the read loop will read
    spawned: nat,                // requests read so far; request i is handled by task i
    tasks: map<nat, Task>,
    dropped: set<nat>,           // dispatch timed out: no response
    sent: seq<Response>,         // everything the channel has taken, in that order
    received: nat,               // how many of those the writer has taken out
    writing: Option<nat>,        // bytes written so far of the frame the writer is at
    stdout: Bytes)

  function Start(requests: seq<Bytes>): World {
    World(requests, 0, map[], {}, [], 0, None, [])
  }

  datatype Step =
    | Spawn
    | Dispatched(task: nat, body: Option<Bytes>)
    | TimedOut(task: nat)
    | Send(task: nat)
    | Receive
    | WriteSome(n: nat)          // write_all in pieces; the last one ends the frame

  /** The body the writer is at. */
  function Current(w: World): Bytes
    requires w.writing.Some? && 0 < w.received <= |w.sent| && w.sent[w.received - 1].body.Some?
  {
    w.sent[w.received - 1].body.value
  }

  predicate AtFrame(w: World) {
    w.writing.Some? && 0 < w.received <= |w.sent| && w.sent[w.received - 1].body.Some?
  }

  predicate Enabled(w: World, s: Step) {
    match s
    case Spawn => w.spawned < |w.requests|
    case Dispatched(t, _) => t in w.tasks && w.tasks[t].Dispatching?
    case TimedOut(t) => t in w.tasks && w.tasks[t].Dispatching?
    case Send(t) => t in w.tasks && w.tasks[t].Sending? && |w.sent| - w.received < CHANNEL_CAPACITY
    case Receive => w.writing.None? && w.received < |w.sent|
    case WriteSome(n) => AtFrame(w) && w.writing.value + n <= |Frame(Current(w))|
  }

  function Apply(w: World, s: Step): World
    requires Enabled(w, s)
  {
    match s
    case Spawn => w.(spawned := w.spawned + 1, tasks := w.tasks[w.spawned := Dispatching])
    case Dispatched(t, body) => w.(tasks := w.tasks[t := Sending(Response(t, body))])
    case TimedOut(t) => w.(tasks := w.tasks - {t}, dropped := w.dropped + {t})
    case Send(t) => w.(tasks := w.tasks - {t}, sent := w.sent + [w.tasks[t].response])
    case Receive =>
      w.(received := w.received + 1, writing := if w.sent[w.received].body.Some? then Some(0) else None)
    case WriteSome(n) =>
      var from, frame := w.writing.value, Frame(Current(w));
      w.(writing := if from + n < |frame| then Some(from + n) else None, stdout := w.stdout + frame[from..from + n])
  }

  ghost predicate Run(w: World, steps: seq<Step>)
    decreases |steps|
  {
    steps == [] || (Enabled(w, steps[0]) && Run(Apply(w, steps[0]), steps[1..]))
  }

  function After(w: World, steps: seq<Step>): World
    requires Run(w, steps)
    decreases |steps|
  {
    if steps == [] then w else After(Apply(w, steps[0]), steps[1..])
  }

  /** The bodies that can be serialized. */
  function Bodies(rs: seq<Response>): seq<Bytes> {
    if rs == [] then [] else
      var last := rs[|rs| - 1];
      Bodies(rs[..|rs| - 1]) + (if last.body.Some? then [last.body.value] else [])
  }

  lemma BodiesNext(rs: seq<Response>, n: nat)
    requires n < |rs|
    ensures Bodies(rs[..n + 1]) == Bodies(rs[..n]) + (if rs[n].body.Some? then [rs[n].body.value] else [])
  {
    assert rs[..n + 1][..n] == rs[..n];
  }

  /** A body is among them exactly when some response has it. */
  lemma {:induction false} BodiesIff(rs: seq<Response>, body: Bytes)
    ensures body in Bodies(rs) <==> exists i :: 0 <= i < |rs| && rs[i].body == Some(body)
  {
    if rs != [] {
      var last := |rs| - 1;
      BodiesIff(rs[..last], body);
      if i :| 0 <= i < |rs| && rs[i].body == Some(body) {
        if i < last { assert rs[..last][i] == rs[i]; }
      }
    }
  }

  /** Bodies come in the order of their responses. */
  lemma {:induction false} BodiesInOrder(a: seq<Response>, b: seq<Response>)
    ensures Bodies(a + b) == Bodies(a) + Bodies(b)
  {
    if b == [] {
      assert a + b == a && Bodies(a) + [] == Bodies(a);
    } else {
      var front := b[..|b| - 1];
      assert (a + b)[..|a + b| - 1] == a + front;
      BodiesInOrder(a, front);
    }
  }

  /** What a request's dispatch answers is what the channel gets for it. */
  lemma AnswerIsSent(w: World, t: nat, body: Option<Bytes>)
    requires t in w.tasks && w.tasks[t].Dispatching? && |w.sent| - w.received < 64
    ensures Enabled(w, Dispatched(t, body)) && Enabled(Apply(w, Dispatched(t, body)), Send(t))
    ensures Apply(Apply(w, Dispatched(t, body)), Send(t)) ==
      w.(tasks := w.tasks - {t}, sent := w.sent + [Response(t, body)])
  {
    var v := Apply(Apply(w, Dispatched(t, body)), Send(t));
    assert v.tasks == w.tasks - {t};
  }

  /** How many responses are done with: written in full, or skipped. */
  function Finished(w: World): nat {
    if w.writing.Some? && w.received > 0 then w.received - 1 else w.received
  }

  /** The part of a frame on its way. */
  function Part(w: World): Bytes {
    if AtFrame(w) && w.writing.value < |Frame(Current(w))| then Frame(Current(w))[..w.writing.value] else []
  }

  /** Stdout is whole frames, in the order the channel took them, and at most one part of the next. */
  ghost predicate WellFramed(w: World) {
    && w.received <= |w.sent| && (w.writing.Some? ==> AtFrame(w) && w.writing.value < |Frame(Current(w))|)
    && w.stdout == Frames(Bodies(w.sent[..Finished(w)])) + Part(w)
  }

  /** Every request read is with exactly one of: its task, the dropped ones, the responses sent; and there only once. */
  ghost predicate Accounted(w: World) {
    && w.spawned <= |w.requests|
    && (forall t: nat :: t < w.spawned <==> t in w.tasks || t in w.dropped || SentFor(w, t))
    && (forall t :: t in w.tasks ==> t !in w.dropped && !SentFor(w, t))
    && (forall t :: t in w.dropped ==> !SentFor(w, t))
    && (forall t :: t in w.tasks && w.tasks[t].Sending? ==> w.tasks[t].response.request == t)
    && (forall i, j :: 0 <= i < j < |w.sent| ==> w.sent[i].request != w.sent[j].request)
  }

  ghost predicate SentFor(w: World, t: nat) {
    exists i :: 0 <= i < |w.sent| && w.sent[i].request == t
  }

  ghost predicate Inv(w: World) {
    WellFramed(w) && Accounted(w) && |w.sent| - w.received <= CHANNEL_CAPACITY
  }

  lemma SpawnKeepsAccounts(w: World)
    requires Accounted(w) && Enabled(w, Spawn)
    ensures Accounted(Apply(w, Spawn))
  {
    var v := Apply(w, Spawn);
    assert forall t :: SentFor(v, t) <==> SentFor(w, t);
  }

  lemma TaskKeepsAccounts(w: World, s: Step)
    requires Accounted(w) && Enabled(w, s) && (s.Dispatched? || s.TimedOut?)
    ensures Accounted(Apply(w, s))
  {
    var v := Apply(w, s);
    assert forall t :: SentFor(v, t) <==> SentFor(w, t);
  }

  lemma SendKeepsAccounts(w: World, t: nat)
    requires Accounted(w) && Enabled(w, Send(t))
    ensures Accounted(Apply(w, Send(t)))
  {
    var v := Apply(w, Send(t));
    assert v.sent[|w.sent|].request == t;
    forall u ensures SentFor(v, u) <==> SentFor(w, u) || u == t {
      if SentFor(w, u) {
        var i :| 0 <= i < |w.sent| && w.sent[i].request == u;
        assert v.sent[i].request == u;
      }
    }
  }

  lemma WriterKeepsAccounts(w: World, s: Step)
    requires Accounted(w) && Enabled(w, s) && (s.Receive? || s.WriteSome?)
    ensures Accounted(Apply(w, s))
  {
    var v := Apply(w, s);
    assert forall t :: SentFor(v, t) <==> SentFor(w, t);
  }

  lemma SendKeepsFraming(w: World, t: nat)
    requires WellFramed(w) && Enabled(w, Send(t))
    ensures WellFramed(Apply(w, Send(t)))
  {
    var v := Apply(w, Send(t));
    assert v.sent[..Finished(v)] == w.sent[..Finished(w)];
  }

  lemma ReceiveKeepsFraming(w: World)
    requires WellFramed(w) && Enabled(w, Receive)
    ensures WellFramed(Apply(w, Receive))
  {
    BodiesNext(w.sent, w.received);
    assert Bodies(w.sent[..w.received]) + [] == Bodies(w.sent[..w.received]);
  }

  lemma WriteKeepsFraming(w: World, n: nat)
    requires WellFramed(w) && Enabled(w, WriteSome(n))
    ensures WellFramed(Apply(w, WriteSome(n)))
  {
    hide Frame, Frames, Bodies;
    var from, frame := w.writing.value, Frame(Current(w));
    assert frame[..from] + frame[from..from + n] == frame[..from + n];
    if from + n == |frame| {
      assert frame[..|frame|] == frame;
      FrameDone(w, frame);
    }
  }

  lemma FrameDone(w: World, frame: Bytes)
    requires WellFramed(w) && w.writing.Some? && frame == Frame(Current(w))
    ensures Frames(Bodies(w.sent[..w.received])) == Frames(Bodies(w.sent[..w.received - 1])) + frame
  {
    hide Frame;
    var before := Bodies(w.sent[..w.received - 1]);
    BodiesNext(w.sent, w.received - 1);
    FramesAppend(before, [Current(w)]);
    assert Frames([Current(w)]) == frame + Frames([]);
  }

  lemma StepKeepsInv(w: World, s: Step)
    requires Inv(w) && Enabled(w, s)
    ensures Inv(Apply(w, s))
  {
    hide Accounted;
    match s
    case Spawn => SpawnKeepsAccounts(w);
    case Dispatched(_, _) => TaskKeepsAccounts(w, s);
    case TimedOut(_) => TaskKeepsAccounts(w, s);
    case Send(t) => SendKeepsAccounts(w, t); SendKeepsFraming(w, t);
    case Receive => WriterKeepsAccounts(w, s); ReceiveKeepsFraming(w);
    case WriteSome(n) => WriterKeepsAccounts(w, s); WriteKeepsFraming(w, n);
  }

  lemma {:induction false} RunKeepsInv(w: World, steps: seq<Step>)
    requires Inv(w) && Run(w, steps)
    ensures Inv(After(w, steps)) && After(w, steps).requests == w.requests
    decreases |steps|
  {
    hide Inv;
    if steps != [] {
      StepKeepsInv(w, steps[0]);
      RunKeepsInv(Apply(w, steps[0]), steps[1..]);
    }
  }

  /**
   * Whatever order tasks finish in: stdout is a concatenation of whole frames with at most one part of the next, and
   * every request read has at most one response, which is lost only when its dispatch timed out. At most 64 responses
   * wait for the writer.
   */
  lemma OutputIsWholeFrames(stdin: Bytes, steps: seq<Step>)
    requires Run(Start(Read(stdin, MAX_MESSAGE).messages), steps)
    ensures var w := After(Start(Read(stdin, MAX_MESSAGE).messages), steps);
      && WellFramed(w) && Accounted(w) && w.requests == Read(stdin, MAX_MESSAGE).messages
      && |w.sent| - w.received <= 64
  {
    var w := Start(Read(stdin, MAX_MESSAGE).messages);
    assert Inv(w);
    RunKeepsInv(w, steps);
  }

  /** So the other end reads exactly the bodies finished, at any moment, if each fits its length field. */
  lemma ExtensionReadsResponses(stdin: Bytes, steps: seq<Step>)
    requires Run(Start(Read(stdin, MAX_MESSAGE).messages), steps)
    requires FitTheirLengths(After(Start(Read(stdin, MAX_MESSAGE).messages), steps).sent)
    ensures var w := After(Start(Read(stdin, MAX_MESSAGE).messages), steps);
      WellFramed(w) && Read(w.stdout, TWO_TO_32 - 1) == Reading(Bodies(w.sent[..Finished(w)]), Closed)
  {
    OutputIsWholeFrames(stdin, steps);
    ReadsFinished(After(Start(Read(stdin, MAX_MESSAGE).messages), steps));
  }

  ghost predicate FitTheirLengths(rs: seq<Response>) {
    forall i :: 0 <= i < |rs| && rs[i].body.Some? ==> |rs[i].body.value| < TWO_TO_32
  }

  lemma ReadsFinished(w: World)
    requires WellFramed(w) && FitTheirLengths(w.sent)
    ensures Read(w.stdout, TWO_TO_32 - 1) == Reading(Bodies(w.sent[..Finished(w)]), Closed)
  {
    hide Read, Frame, Frames;
    var whole := Bodies(w.sent[..Finished(w)]);
    BodiesFit(w.sent[..Finished(w)]);
    if w.writing.Some? {
      PartialFrameIgnored(whole, Current(w), w.writing.value, TWO_TO_32 - 1);
    } else {
      FramingRoundTrip(whole, TWO_TO_32 - 1);
      assert Frames(whole) + [] == Frames(whole);
    }
  }

  lemma {:induction false} BodiesFit(rs: seq<Response>)
    requires FitTheirLengths(rs)
    ensures forall i :: 0 <= i < |Bodies(rs)| ==> |Bodies(rs)[i]| < TWO_TO_32
  {
    if rs != [] {
      BodiesFit(rs[..|rs| - 1]);
    }
  }

  /** The writer task's loop over everything it receives, one frame written whole after the other. */
  method WriteResponses(received: seq<Response>) returns (stdout: Bytes)
    ensures stdout == Frames(Bodies(received))
  {
    hide Frame;
    stdout := [];
    for i := 0 to |received|
      invariant stdout == Frames(Bodies(received[..i]))
    {
      BodiesNext(received, i);
      if received[i].body.None? {
        assert Bodies(received[..i]) + [] == Bodies(received[..i]);
        continue;
      }
      var body := received[i].body.value;
      FramesAppend(Bodies(received[..i]), [body]);
      assert Frames([body]) == Frame(body) + Frames([]);
      assert stdout + (Frame(body) + []) == stdout + Frame(body);
      stdout := stdout + Frame(body);
    }
    assert received[..|received|] == received;
  }
}
