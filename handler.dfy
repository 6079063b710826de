/**
 * The relay session handler: one per inbound RTMP connection. It remembers the
 * application name from the inbound connect, opens one outbound session to the
 * upstream server when the publisher starts publishing, and mirrors every
 * audio and video frame onto that session.
 *
 * The outbound RTMP client is abstract: every outbound call is recorded as an
 * Event, and whether it succeeds (and what handle it yields) is passed in by
 * the caller as an oracle value.
 */
module Relay {
  import opened Common

  /** The outbound chunk size (the RTMP default, section 5.4.1 of the Adobe RTMP specification). */
  const ChunkSize: uint32 := 128
  /** The chunk stream ids audio and video messages are written on. */
  const AudioChunkStreamId: nat := 4
  const VideoChunkStreamId: nat := 6
  const DialScheme: string := "rtmp"
  /** The publish type always sent upstream. */
  const PublishingType: string := "live"

  /** An error reported by the outbound RTMP client or by the payload reader. */
  datatype IoError = IoError(message: string)

  datatype HandlerError =
    | AppNameEmpty            // "app name is empty"
    | Failed(cause: IoError)  // an error passed through unchanged

  /** Handles the outbound client hands out (opaque). */
  datatype ClientConn = ClientConn(id: nat)
  datatype Stream = Stream(id: nat)

  datatype MediaKind = Audio | Video

  /** One call made on the outbound client. */
  datatype Event =
    | Dial(scheme: string, host: string)
    | Connect(app: string)
    | CreateStream(chunkSize: uint32)
    | Publish(publishingName: string, publishingType: string)
    | Write(chunkStreamId: nat, timestamp: uint32, kind: MediaKind, payload: seq<byte>)
    | CloseStream(stream: Stream)
    | CloseConn(conn: ClientConn)

  function ChunkStreamIdOf(kind: MediaKind): (id: nat)
    ensures kind == Audio <==> id == AudioChunkStreamId
    ensures id == AudioChunkStreamId || id == VideoChunkStreamId
  {
    if kind == Audio then AudioChunkStreamId else VideoChunkStreamId
  }

  /** Audio and video are never written on the same chunk stream. */
  lemma ChannelsDistinct(a: MediaKind, b: MediaKind)
    ensures ChunkStreamIdOf(a) == ChunkStreamIdOf(b) <==> a == b
  {
  }

  /** The handler's fields as a value: wowzaApp, wowzaConn, wowzaStream (None is nil). */
  datatype Session = Session(app: string, conn: Option<ClientConn>, stream: Option<Stream>)

  const Initial: Session := Session("", None, None)

  /** The outcome of one callback: the new fields, the outbound calls made, the error returned. */
  datatype Step = Step(session: Session, events: seq<Event>, err: Option<HandlerError>)

  /** OnConnect. */
  function ConnectStep(s: Session, appName: string): (r: Step)
    ensures r.events == []
    ensures r.err.Some? <==> appName == ""
    ensures r.err.Some? ==> r.err == Some(AppNameEmpty) && r.session == s
    ensures r.err.None? ==> r.session == s.(app := appName)
  {
    if |appName| == 0 then Step(s, [], Some(AppNameEmpty))
    else Step(s.(app := appName), [], None)
  }

  /** The four outbound calls of a successful publish start, in order. */
  function SetupCalls(host: string, app: string, publishingName: string): seq<Event> {
    [Dial(DialScheme, host), Connect(app), CreateStream(ChunkSize), Publish(publishingName, PublishingType)]
  }

  /** Dial, Connect and CreateStream all succeed, so the stream field is set. */
  predicate StreamCreated(dial: Result<ClientConn, IoError>, connect: Option<IoError>,
                          create: Result<Stream, IoError>) {
    dial.Ok? && connect.None? && create.Ok?
  }

  /**
   * OnPublish. `host` is the configured upstream host; `dial`, `connect`,
   * `create` and `publish` are the outcomes of the four outbound calls.
   */
  function PublishStep(s: Session, host: string, publishingName: string,
                       dial: Result<ClientConn, IoError>, connect: Option<IoError>,
                       create: Result<Stream, IoError>, publish: Option<IoError>): (r: Step)
    // the calls made are the first steps of the setup, stopping at the first failure
    ensures r.events <= SetupCalls(host, s.app, publishingName)
    ensures |r.events| == (if dial.Err? then 1 else if connect.Some? then 2 else if create.Err? then 3 else 4)
    // the error returned is that of the first failing call
    ensures r.err == (if dial.Err? then Some(Failed(dial.error))
                      else if connect.Some? then Some(Failed(connect.value))
                      else if create.Err? then Some(Failed(create.error))
                      else if publish.Some? then Some(Failed(publish.value))
                      else None)
    // wowzaConn is set once Dial succeeds, wowzaStream once CreateStream succeeds
    ensures r.session.app == s.app
    ensures r.session.conn == (if dial.Ok? then Some(dial.value) else s.conn)
    ensures r.session.stream == (if StreamCreated(dial, connect, create) then Some(create.value) else s.stream)
  {
    var calls := SetupCalls(host, s.app, publishingName);
    match dial
    case Err(e) => Step(s, calls[..1], Some(Failed(e)))
    case Ok(conn) =>
      var s1 := s.(conn := Some(conn));
      if connect.Some? then Step(s1, calls[..2], Some(Failed(connect.value)))
      else match create
        case Err(e) => Step(s1, calls[..3], Some(Failed(e)))
        case Ok(stream) =>
          var s2 := s1.(stream := Some(stream));
          if publish.Some? then Step(s2, calls, Some(Failed(publish.value)))
          else Step(s2, calls, None)
  }

  /** A fully successful publish start makes exactly the four setup calls, in order. */
  lemma PublishSuccess(s: Session, host: string, publishingName: string,
                       dial: Result<ClientConn, IoError>, connect: Option<IoError>,
                       create: Result<Stream, IoError>, publish: Option<IoError>)
    ensures var r := PublishStep(s, host, publishingName, dial, connect, create, publish);
      r.err.None? <==> StreamCreated(dial, connect, create) && publish.None?
    ensures var r := PublishStep(s, host, publishingName, dial, connect, create, publish);
      r.err.None? ==> r.events == SetupCalls(host, s.app, publishingName)
  {
  }

  /** A failing Publish still leaves the stream it was sent on in the handler. */
  lemma PublishFailureKeepsStream(s: Session, host: string, publishingName: string,
                                  conn: ClientConn, stream: Stream, e: IoError)
    ensures var r := PublishStep(s, host, publishingName, Ok(conn), None, Ok(stream), Some(e));
      r.err == Some(Failed(e)) && r.session.stream == Some(stream) && r.session.conn == Some(conn)
  {
  }

  /** Setup never writes a frame. */
  lemma PublishWritesNothing(s: Session, host: string, publishingName: string,
                             dial: Result<ClientConn, IoError>, connect: Option<IoError>,
                             create: Result<Stream, IoError>, publish: Option<IoError>)
    ensures forall e :: e in PublishStep(s, host, publishingName, dial, connect, create, publish).events ==> !e.Write?
  {
  }

  /**
   * OnAudio and OnVideo. `payload` is the outcome of reading the whole frame
   * body; `write` the outcome of the outbound write.
   */
  function FrameStep(s: Session, kind: MediaKind, timestamp: uint32,
                     payload: Result<seq<byte>, IoError>, write: Option<IoError>): (r: Step)
    // the fields never change
    ensures r.session == s
    // only a failed payload read is reported; a failed write is swallowed
    ensures r.err == (if payload.Err? then Some(Failed(payload.error)) else None)
    // exactly one write, on the kind's chunk stream, when there is a stream and a payload
    ensures r.events == (if payload.Ok? && s.stream.Some?
                         then [Write(ChunkStreamIdOf(kind), timestamp, kind, payload.value)] else [])
  {
    match payload
    case Err(e) => Step(s, [], Some(Failed(e)))
    case Ok(body) =>
      if s.stream.Some? then Step(s, [Write(ChunkStreamIdOf(kind), timestamp, kind, body)], None)
      else Step(s, [], None)
  }

  /** OnClose: the stream is closed before the connection, each only if present. */
  function CloseStep(s: Session): (r: Step)
    ensures r.session == s && r.err.None?
    ensures |r.events| == (if s.stream.Some? then 1 else 0) + (if s.conn.Some? then 1 else 0)
    ensures s.stream.Some? ==> r.events[0] == CloseStream(s.stream.value)
    ensures s.conn.Some? ==> r.events[|r.events| - 1] == CloseConn(s.conn.value)
  {
    var closeStream := if s.stream.Some? then [CloseStream(s.stream.value)] else [];
    var closeConn := if s.conn.Some? then [CloseConn(s.conn.value)] else [];
    Step(s, closeStream + closeConn, None)
  }

  /** One callback from the inbound transport, with the outcomes of the calls it makes. */
  datatype Callback =
    | OnConnectCall(appName: string)
    | OnPublishCall(host: string, publishingName: string,
                    dial: Result<ClientConn, IoError>, connect: Option<IoError>,
                    create: Result<Stream, IoError>, publish: Option<IoError>)
    | OnFrameCall(kind: MediaKind, timestamp: uint32, payload: Result<seq<byte>, IoError>, write: Option<IoError>)
    | OnCloseCall

  function Apply(s: Session, c: Callback): Step {
    match c
    case OnConnectCall(appName) => ConnectStep(s, appName)
    case OnPublishCall(host, name, dial, connect, create, publish) =>
      PublishStep(s, host, name, dial, connect, create, publish)
    case OnFrameCall(kind, timestamp, payload, write) => FrameStep(s, kind, timestamp, payload, write)
    case OnCloseCall => CloseStep(s)
  }

  /** A sequence of callbacks on one connection: the final fields and every outbound call, in order. */
  function Run(s: Session, calls: seq<Callback>): (Session, seq<Event>)
    decreases |calls|
  {
    if calls == [] then (s, [])
    else
      var step := Apply(s, calls[0]);
      var rest := Run(step.session, calls[1..]);
      (rest.0, step.events + rest.1)
  }

  /** A callback that leaves a stream in the handler. */
  predicate OpensStream(c: Callback) {
    c.OnPublishCall? && StreamCreated(c.dial, c.connect, c.create)
  }

  /**
   * No write without a stream: starting with no stream, if no publish start
   * got as far as a created stream, no frame is ever written upstream (in
   * particular when the upstream dial failed).
   */
  lemma {:induction false} NoStreamNoWrites(s: Session, calls: seq<Callback>)
    requires s.stream.None?
    requires forall i :: 0 <= i < |calls| ==> !OpensStream(calls[i])
    ensures Run(s, calls).0.stream.None?
    ensures forall e :: e in Run(s, calls).1 ==> !e.Write?
    decreases |calls|
  {
    if calls != [] {
      var step := Apply(s, calls[0]);
      if calls[0].OnPublishCall? {
        var c := calls[0];
        PublishWritesNothing(s, c.host, c.publishingName, c.dial, c.connect, c.create, c.publish);
      }
      NoStreamNoWrites(step.session, calls[1..]);
    }
  }

  /** The writes a run of frames makes on a live stream: one per frame whose payload was read. */
  function ForwardedWrites(calls: seq<Callback>): seq<Event>
    requires forall i :: 0 <= i < |calls| ==> calls[i].OnFrameCall?
  {
    if calls == [] then []
    else
      var c := calls[0];
      (if c.payload.Ok? then [Write(ChunkStreamIdOf(c.kind), c.timestamp, c.kind, c.payload.value)] else [])
      + ForwardedWrites(calls[1..])
  }

  /**
   * Frame ordering: a run of frame callbacks forwards them, in arrival order
   * and with their own timestamps, when there is a stream, and writes nothing
   * when there is none. The fields never change.
   */
  lemma {:induction false} FramesForwardedInOrder(s: Session, calls: seq<Callback>)
    requires forall i :: 0 <= i < |calls| ==> calls[i].OnFrameCall?
    ensures Run(s, calls).0 == s
    ensures Run(s, calls).1 == if s.stream.Some? then ForwardedWrites(calls) else []
    decreases |calls|
  {
    if calls != [] {
      FramesForwardedInOrder(s, calls[1..]);
    }
  }

  /** Frames whose payload is always read: the i-th write carries the i-th frame. */
  lemma {:induction false} ForwardedWritesAt(calls: seq<Callback>)
    requires forall i :: 0 <= i < |calls| ==> calls[i].OnFrameCall? && calls[i].payload.Ok?
    ensures |ForwardedWrites(calls)| == |calls|
    ensures forall i :: 0 <= i < |calls| ==>
      ForwardedWrites(calls)[i] == Write(ChunkStreamIdOf(calls[i].kind), calls[i].timestamp,
                                         calls[i].kind, calls[i].payload.value)
    decreases |calls|
  {
    if calls != [] {
      ForwardedWritesAt(calls[1..]);
      var w := ForwardedWrites(calls);
      forall i | 0 <= i < |calls|
        ensures w[i] == Write(ChunkStreamIdOf(calls[i].kind), calls[i].timestamp,
                              calls[i].kind, calls[i].payload.value)
      {
        if i > 0 { assert calls[1..][i - 1] == calls[i]; }
      }
    }
  }

  /**
   * End-to-end: connect with an application name, then a publish start whose
   * four calls all succeed: exactly the four setup calls go upstream, using
   * that name and the publishing name verbatim.
   */
  lemma ConnectThenPublish(appName: string, host: string, publishingName: string,
                           conn: ClientConn, stream: Stream)
    requires appName != ""
    ensures Run(Initial, [OnConnectCall(appName),
                          OnPublishCall(host, publishingName, Ok(conn), None, Ok(stream), None)])
            == (Session(appName, Some(conn), Some(stream)), SetupCalls(host, appName, publishingName))
  {
    var calls := [OnConnectCall(appName),
                  OnPublishCall(host, publishingName, Ok(conn), None, Ok(stream), None)];
    var connected := Session(appName, None, None);
    var publishing := Session(appName, Some(conn), Some(stream));
    var step := Apply(Initial, calls[0]);
    assert step.session == connected && step.events == [];
    assert calls[1..][1..] == [];
    assert Apply(connected, calls[1]) == Step(publishing, SetupCalls(host, appName, publishingName), None);
    assert Run(connected, calls[1..]) == (publishing, SetupCalls(host, appName, publishingName) + []);
    var rest := Run(step.session, calls[1..]);
    assert step.events + rest.1 == SetupCalls(host, appName, publishingName);
  }

  /** An empty application name is rejected before anything goes upstream. */
  lemma EmptyAppRejected(s: Session)
    ensures ConnectStep(s, "") == Step(s, [], Some(AppNameEmpty))
  {
  }

  class Handler {
    var connectionId: int
    var wowzaConn: Option<ClientConn>
    var wowzaStream: Option<Stream>
    var wowzaApp: string
    /** Every outbound call made so far, in order. */
    ghost var trace: seq<Event>

    function State(): Session
      reads this
    {
      Session(wowzaApp, wowzaConn, wowzaStream)
    }

    /** `&Handler{ConnectionId: id}`: every other field is zero. */
    constructor (connectionId: int)
      ensures this.connectionId == connectionId
      ensures State() == Initial && trace == []
    {
      this.connectionId := connectionId;
      wowzaConn, wowzaStream, wowzaApp := None, None, "";
      trace := [];
    }

    method OnConnect(timestamp: uint32, appName: string) returns (err: Option<HandlerError>)
      modifies this
      ensures connectionId == old(connectionId)
      ensures var step := ConnectStep(old(State()), appName);
        State() == step.session && trace == old(trace) + step.events && err == step.err
    {
      if |appName| == 0 {
        return Some(AppNameEmpty);
      }
      wowzaApp := appName;
      err := None;
    }

    method OnPublish(timestamp: uint32, host: string, publishingName: string,
                     dial: Result<ClientConn, IoError>, connect: Option<IoError>,
                     create: Result<Stream, IoError>, publish: Option<IoError>)
      returns (err: Option<HandlerError>)
      modifies this
      ensures connectionId == old(connectionId)
      ensures var step := PublishStep(old(State()), host, publishingName, dial, connect, create, publish);
        State() == step.session && trace == old(trace) + step.events && err == step.err
    {
      trace := trace + [Dial(DialScheme, host)];
      if dial.Err? {
        return Some(Failed(dial.error));
      }
      wowzaConn := Some(dial.value);

      trace := trace + [Connect(wowzaApp)];
      if connect.Some? {
        return Some(Failed(connect.value));
      }

      trace := trace + [CreateStream(ChunkSize)];
      if create.Err? {
        return Some(Failed(create.error));
      }
      wowzaStream := Some(create.value);

      trace := trace + [Publish(publishingName, PublishingType)];
      if publish.Some? {
        return Some(Failed(publish.value));
      }
      err := None;
    }

    /** The body shared by OnAudio and OnVideo. */
    method Forward(kind: MediaKind, timestamp: uint32, payload: Result<seq<byte>, IoError>, write: Option<IoError>)
      returns (err: Option<HandlerError>)
      modifies this
      ensures connectionId == old(connectionId)
      ensures var step := FrameStep(old(State()), kind, timestamp, payload, write);
        State() == step.session && trace == old(trace) + step.events && err == step.err
    {
      if payload.Err? {
        return Some(Failed(payload.error));
      }
      if wowzaStream.Some? {
        trace := trace + [Write(ChunkStreamIdOf(kind), timestamp, kind, payload.value)];
        // a failed write is only logged
      }
      err := None;
    }

    method OnAudio(timestamp: uint32, payload: Result<seq<byte>, IoError>, write: Option<IoError>)
      returns (err: Option<HandlerError>)
      modifies this
      ensures connectionId == old(connectionId)
      ensures var step := FrameStep(old(State()), Audio, timestamp, payload, write);
        State() == step.session && trace == old(trace) + step.events && err == step.err
    {
      err := Forward(Audio, timestamp, payload, write);
    }

    method OnVideo(timestamp: uint32, payload: Result<seq<byte>, IoError>, write: Option<IoError>)
      returns (err: Option<HandlerError>)
      modifies this
      ensures connectionId == old(connectionId)
      ensures var step := FrameStep(old(State()), Video, timestamp, payload, write);
        State() == step.session && trace == old(trace) + step.events && err == step.err
    {
      err := Forward(Video, timestamp, payload, write);
    }

    method OnClose()
      modifies this
      ensures connectionId == old(connectionId)
      ensures var step := CloseStep(old(State()));
        State() == step.session && trace == old(trace) + step.events
    {
      if wowzaStream.Some? {
        trace := trace + [CloseStream(wowzaStream.value)];
      }
      if wowzaConn.Some? {
        trace := trace + [CloseConn(wowzaConn.value)];
      }
    }
  }
}
