/**
 * `GET /api/stream`: meant as a Server-Sent-Events response whose stream
 * polls CoinGecko once at start and then on every timer tick, turning each
 * poll into exactly one frame, with a teardown that clears the timer and
 * closes the controller. As written, `start` throws while the stream is
 * being built, so the handler rejects and the timer is never cleared; both
 * the code as written and the intended stream are modelled.
 */
module StreamRoute {
  import opened Strings
  import opened Http
  import PriceRoute

  // ---------------------------------------------------------------------------
  // The upstream request and the response headers
  // ---------------------------------------------------------------------------

  /** The one upstream request, whatever the client asked: bitcoin and ethereum in usd. */
  const UpstreamUrl: string :=
    "https://api.coingecko.com" + "/api/v3/simple/price"
    + "?" + ("ids" + "=" + "bitcoin,ethereum" + "&" + "vs_currencies" + "=" + "usd")

  /** The stream polls exactly what the price route fetches for `ids=bitcoin,ethereum&vs=usd`. */
  lemma UpstreamIsPriceRequest()
    ensures UpstreamUrl == PriceRoute.UpstreamUrl("bitcoin,ethereum", "usd")
    ensures ParseQuery(UpstreamUrl) == [("ids", "bitcoin,ethereum"), ("vs_currencies", "usd")]
  {
    assert QuerySafe("bitcoin,ethereum") && QuerySafe("usd");
    PriceRoute.UpstreamQuery("bitcoin,ethereum", "usd");
  }

  /** The two coins it asks for. */
  lemma UpstreamIds()
    ensures Split("bitcoin,ethereum", ',') == ["bitcoin", "ethereum"]
  {
    assert "bitcoin,ethereum" == "bitcoin" + [','] + "ethereum";
    SplitAround("bitcoin", ',', "ethereum");
  }

  /** The response headers, always the same three. */
  function Headers(): (h: seq<(string, string)>)
    ensures |h| == 3
    ensures h[0] == ("Content-Type", "text/event-stream")
    ensures h[1] == ("Cache-Control", "no-cache, no-transform")
    ensures h[2] == ("Connection", "keep-alive")
  {
    [("Content-Type", "text/event-stream"),
     ("Cache-Control", "no-cache, no-transform"),
     ("Connection", "keep-alive")]
  }

  // ---------------------------------------------------------------------------
  // Frames
  // ---------------------------------------------------------------------------

  /**
   * One run of `send`: either `fetch` and `res.json()` both returned, and `json` is
   * `JSON.stringify(data)` (whatever `res.ok` was: the status is never looked at), or one of them threw.
   */
  datatype Poll = Received(ok: bool, json: string) | Failed

  const ErrorFrame: string := "event: error\ndata: fetch failed\n\n"

  /** The frame `send` enqueues for one poll. */
  function Frame(p: Poll): (f: string)
    ensures p.Failed? ==> f == ErrorFrame
    ensures p.Received? ==> f == "data: " + p.json + "\n\n"
    ensures |f| >= 2 && f[|f| - 2..] == "\n\n"
  {
    match p
    case Received(_, json) => "data: " + json + "\n\n"
    case Failed => ErrorFrame
  }

  /** The frames of successive polls, in order. */
  function Frames(ps: seq<Poll>): (fs: seq<string>)
    ensures |fs| == |ps|
    ensures forall i :: 0 <= i < |ps| ==> fs[i] == Frame(ps[i])
  {
    seq(|ps|, i requires 0 <= i < |ps| => Frame(ps[i]))
  }

  /** The bytes the client receives: the enqueued chunks one after the other. */
  function Concat(chunks: seq<string>): string {
    if chunks == [] then "" else chunks[0] + Concat(chunks[1..])
  }

  // ---------------------------------------------------------------------------
  // Reading the stream back, as an EventSource does
  // ---------------------------------------------------------------------------

  /** One dispatched event: its type (`message` unless an `event:` line set one) and its data. */
  datatype Event = Event(kind: string, data: string)

  /** The field name and value of one non-empty line; a comment line (`:...`) has the empty field. */
  function FieldOf(line: string): (string, string)
    requires line != ""
  {
    if line[0] == ':' then ("", "")
    else
      var j := IndexOf(line, ':');
      if j == |line| then (line, "")
      else
        var value := line[j + 1..];
        (line[..j], if value != [] && value[0] == ' ' then value[1..] else value)
  }

  /** What a client has collected since the last dispatch: the event type and the data lines. */
  datatype Reader = Reader(kind: string, data: seq<string>)

  const Fresh: Reader := Reader("", [])

  /**
   * One complete line: a blank line dispatches the collected data (nothing when there is none)
   * and starts afresh; `event:` sets the type, `data:` adds a data line, other fields are ignored.
   */
  function ReadLine(r: Reader, line: string): (seq<Event>, Reader)
  {
    if line == "" then
      (if r.data == [] then [] else [Event(if r.kind == "" then "message" else r.kind, Join(r.data, '\n'))],
       Fresh)
    else
      var (field, value) := FieldOf(line);
      if field == "event" then ([], Reader(value, r.data))
      else if field == "data" then ([], Reader(r.kind, r.data + [value]))
      else ([], r)
  }

  /**
   * The events a Server-Sent-Events client dispatches for the text `s`: each line ends at a
   * line feed; a trailing line without its line feed is not yet read.
   */
  function Decode(s: string, r: Reader): seq<Event>
    decreases |s|
  {
    var i := IndexOf(s, '\n');
    if i == |s| then []
    else
      var step := ReadLine(r, s[..i]);
      step.0 + Decode(s[i + 1..], step.1)
  }

  /** What the client sees of one poll. */
  function EventOf(p: Poll): Event {
    match p
    case Received(_, json) => Event("message", json)
    case Failed => Event("error", "fetch failed")
  }

  /** What the client sees of successive polls: one event per poll, in order. */
  function Events(ps: seq<Poll>): (es: seq<Event>)
    ensures |es| == |ps|
    ensures forall i :: 0 <= i < |ps| ==> es[i] == EventOf(ps[i])
  {
    if ps == [] then [] else [EventOf(ps[0])] + Events(ps[1..])
  }

  /** `JSON.stringify` never writes a raw line feed or carriage return, so a data frame stays one line. */
  predicate OneLine(p: Poll) {
    p.Received? ==> '\n' !in p.json && '\r' !in p.json
  }

  /** Reading one complete line that holds no line feed. */
  lemma DecodeLine(line: string, rest: string, r: Reader)
    requires '\n' !in line
    ensures Decode(line + "\n" + rest, r) == ReadLine(r, line).0 + Decode(rest, ReadLine(r, line).1)
  {
    var s := line + "\n" + rest;
    IndexOfAfter(line, '\n', rest);
    assert s[..|line|] == line && s[|line| + 1..] == rest;
  }

  /** `name: value` is the field `name` with the value `value`, the one space after the colon dropped. */
  lemma FieldOfNamed(name: string, value: string)
    requires name != "" && name[0] != ':' && ':' !in name
    ensures FieldOf(name + ": " + value) == (name, value)
  {
    var line := name + ": " + value;
    assert line == name + [':'] + (" " + value);
    IndexOfAfter(name, ':', " " + value);
    assert line[..|name|] == name && line[|name| + 1..] == " " + value;
  }

  lemma ReadDataLine(r: Reader, value: string)
    ensures ReadLine(r, "data: " + value) == ([], Reader(r.kind, r.data + [value]))
  {
    assert "data: " + value == "data" + ": " + value;
    FieldOfNamed("data", value);
  }

  lemma ReadEventLine(r: Reader, value: string)
    ensures ReadLine(r, "event: " + value) == ([], Reader(value, r.data))
  {
    assert "event: " + value == "event" + ": " + value;
    FieldOfNamed("event", value);
  }

  lemma ReadBlankLine(kind: string, value: string)
    ensures ReadLine(Reader(kind, [value]), "")
         == ([Event(if kind == "" then "message" else kind, value)], Fresh)
  {
    assert Join([value], '\n') == value;
  }

  lemma DecodeDataFrame(json: string, rest: string)
    requires '\n' !in json
    ensures Decode("data: " + json + "\n\n" + rest, Fresh) == [Event("message", json)] + Decode(rest, Fresh)
  {
    var line := "data: " + json;
    assert '\n' !in line;
    assert "data: " + json + "\n\n" + rest == line + "\n" + ("" + "\n" + rest);
    ReadDataLine(Fresh, json);
    DecodeLine(line, "" + "\n" + rest, Fresh);
    assert [] + [json] == [json];
    ReadBlankLine("", json);
    DecodeLine("", rest, Reader("", [json]));
  }

  /** A frame that sets the event type before its one data line. */
  lemma DecodeTypedFrame(kind: string, data: string, rest: string)
    requires kind != "" && '\n' !in kind && '\n' !in data
    ensures Decode("event: " + kind + "\n" + "data: " + data + "\n\n" + rest, Fresh)
         == [Event(kind, data)] + Decode(rest, Fresh)
  {
    var l1, l2 := "event: " + kind, "data: " + data;
    assert '\n' !in l1 && '\n' !in l2;
    assert "event: " + kind + "\n" + "data: " + data + "\n\n" + rest
        == l1 + "\n" + (l2 + "\n" + ("" + "\n" + rest));
    ReadEventLine(Fresh, kind);
    DecodeLine(l1, l2 + "\n" + ("" + "\n" + rest), Fresh);
    ReadDataLine(Reader(kind, []), data);
    assert [] + [data] == [data];
    DecodeLine(l2, "" + "\n" + rest, Reader(kind, []));
    ReadBlankLine(kind, data);
    DecodeLine("", rest, Reader(kind, [data]));
  }

  lemma ErrorFrameShape()
    ensures ErrorFrame == "event: " + "error" + "\n" + "data: " + "fetch failed" + "\n\n"
  {
  }

  lemma DecodeErrorFrame(rest: string)
    ensures Decode(ErrorFrame + rest, Fresh) == [Event("error", "fetch failed")] + Decode(rest, Fresh)
  {
    ErrorFrameShape();
    assert '\n' !in "error" && '\n' !in "fetch failed";
    DecodeTypedFrame("error", "fetch failed", rest);
  }

  /** A client reading a frame dispatches exactly that poll's event and then reads on from the next frame. */
  lemma DecodeFrame(p: Poll, rest: string)
    requires OneLine(p)
    ensures Decode(Frame(p) + rest, Fresh) == [EventOf(p)] + Decode(rest, Fresh)
  {
    match p
    case Received(_, json) =>
      assert Frame(p) + rest == "data: " + json + "\n\n" + rest;
      DecodeDataFrame(json, rest);
    case Failed =>
      DecodeErrorFrame(rest);
  }

  /** The client dispatches one event per poll, in the order of the polls. */
  lemma {:induction false} DecodeFrames(ps: seq<Poll>)
    requires forall i :: 0 <= i < |ps| ==> OneLine(ps[i])
    ensures Decode(Concat(Frames(ps)), Fresh) == Events(ps)
  {
    if ps == [] {
      assert Concat(Frames(ps)) == "";
    } else {
      assert Frames(ps)[1..] == Frames(ps[1..]);
      assert Concat(Frames(ps)) == Frame(ps[0]) + Concat(Frames(ps[1..]));
      DecodeFrame(ps[0], Concat(Frames(ps[1..])));
      DecodeFrames(ps[1..]);
    }
  }

  // ---------------------------------------------------------------------------
  // The stream's controller and lifecycle
  // ---------------------------------------------------------------------------

  /** The `ReadableStream` controller: an append-only queue of chunks and a closed flag. */
  class Controller {
    var chunks: seq<string>
    var closed: bool

    constructor ()
      ensures chunks == [] && !closed
    {
      chunks := [];
      closed := false;
    }

    /** `controller.enqueue(chunk)`; it throws on a closed controller and then adds nothing. */
    method Enqueue(chunk: string) returns (threw: bool)
      modifies this
      ensures threw == old(closed) && closed == old(closed)
      ensures chunks == if threw then old(chunks) else old(chunks) + [chunk]
    {
      threw := closed;
      if !closed {
        chunks := chunks + [chunk];
      }
    }

    /** `controller.close()`; it throws on a controller that is already closed. */
    method Close() returns (threw: bool)
      modifies this
      ensures threw == old(closed)
      ensures closed && chunks == old(chunks)
    {
      threw := closed;
      closed := true;
    }
  }

  /** What `GET` ends with: the event-stream response with its headers, or a rejected handler. */
  datatype Reply = Streaming(headers: seq<(string, string)>) | Rejected

  /**
   * The stream `new ReadableStream` builds: its controller, whether the 5000 ms timer is still
   * set, whether a teardown that can clear that timer exists, whether `start` threw, and (as the
   * record the proofs keep) every poll whose frame has been enqueued.
   */
  class EventStream {
    const controller: Controller
    const startThrew: bool
    var timerActive: bool
    var hasTeardown: bool
    ghost var polls: seq<Poll>

    /** The queue holds one frame per poll so far, in order, and the timer runs only on an open controller. */
    ghost predicate Valid()
      reads this, controller
    {
      && controller.chunks == Frames(polls)
      && (timerActive ==> !controller.closed)
    }

    /**
     * `start(controller)` as written. `new ReadableStream` calls it before `const stream` is
     * initialised: the first `send()` and the timer (lines 22-23) run, then the assignment to
     * `stream.cancel` (line 26) reads `stream` in its temporal dead zone and throws a
     * `ReferenceError`. No teardown exists, and the constructor passes the exception on.
     */
    constructor Start(first: Poll)
      ensures Valid() && fresh(controller)
      ensures startThrew && timerActive && !hasTeardown && !controller.closed
      ensures polls == [first] && controller.chunks == [Frame(first)]
    {
      var c := new Controller();
      controller := c;
      polls := [];
      var _ := Send(c, first);
      timerActive := true;
      polls := [first];
      startThrew := true;
      hasTeardown := false;
    }

    /**
     * The evidently intended `start`: the same first `send()` and timer, with the teardown given
     * to the stream as the underlying source's `cancel`, which runs when the client goes away.
     */
    constructor StartWithCancel(first: Poll)
      ensures Valid() && fresh(controller)
      ensures !startThrew && timerActive && hasTeardown && !controller.closed
      ensures polls == [first] && controller.chunks == [Frame(first)]
    {
      var c := new Controller();
      controller := c;
      polls := [];
      var _ := Send(c, first);
      timerActive := true;
      polls := [first];
      startThrew := false;
      hasTeardown := true;
    }

    /**
     * `send()`: enqueue the poll's frame (`event: error` when the poll threw). On a closed
     * controller both `enqueue` calls throw and the call ends rejected, adding nothing.
     */
    static method Send(c: Controller, p: Poll) returns (rejected: bool)
      modifies c
      ensures rejected == old(c.closed) && c.closed == old(c.closed)
      ensures c.chunks == if rejected then old(c.chunks) else old(c.chunks) + [Frame(p)]
    {
      match p
      case Received(_, json) =>
        var threw := c.Enqueue("data: " + json + "\n\n");
        if threw {
          rejected := c.Enqueue(ErrorFrame);
        } else {
          rejected := false;
        }
      case Failed =>
        rejected := c.Enqueue(ErrorFrame);
    }

    /** One timer tick: while the timer is set, exactly one more frame; after the teardown, nothing. */
    method Tick(p: Poll)
      requires Valid()
      modifies this`polls, controller
      ensures Valid()
      ensures controller.closed == old(controller.closed)
      ensures old(timerActive) ==> polls == old(polls) + [p]
                                   && controller.chunks == old(controller.chunks) + [Frame(p)]
      ensures !old(timerActive) ==> polls == old(polls) && controller.chunks == old(controller.chunks)
    {
      if timerActive {
        var rejected := Send(controller, p);
        assert !rejected;
        polls := polls + [p];
      }
    }

    /**
     * The teardown, where one exists: clear the timer, then close the controller, ignoring the
     * exception of a second close. The frames already enqueued stay as they are.
     */
    method Cancel()
      requires Valid() && hasTeardown
      modifies this`timerActive, controller
      ensures Valid()
      ensures !timerActive && controller.closed
      ensures controller.chunks == old(controller.chunks)
    {
      timerActive := false;
      var _ := controller.Close();
    }
  }

  /** `return new Response(stream, ...)`, reached only when building the stream did not throw. */
  function ReplyOf(startThrew: bool): (r: Reply)
    ensures r.Rejected? <==> startThrew
    ensures r.Streaming? ==> r.headers == Headers()
  {
    if startThrew then Reply.Rejected else Streaming(Headers())
  }

  /** Timer ticks on a running stream: one frame per tick. */
  method Run(s: EventStream, ticks: seq<Poll>)
    requires s.Valid() && s.timerActive
    modifies s`polls, s.controller
    ensures s.Valid() && s.timerActive && !s.controller.closed
    ensures s.polls == old(s.polls) + ticks
  {
    for i := 0 to |ticks|
      invariant s.Valid() && s.timerActive
      invariant s.polls == old(s.polls) + ticks[..i]
    {
      s.Tick(ticks[i]);
      assert ticks[..i + 1] == ticks[..i] + [ticks[i]];
      assert old(s.polls) + ticks[..i + 1] == (old(s.polls) + ticks[..i]) + [ticks[i]];
    }
    assert ticks[..|ticks|] == ticks;
  }

  /**
   * `GET` as written, then k timer ticks: the handler rejects before any response exists, yet
   * the timer is still set, no teardown can clear it, and the unread queue holds k+1 frames.
   */
  method Serve(first: Poll, ticks: seq<Poll>) returns (reply: Reply, s: EventStream)
    ensures reply == Reply.Rejected
    ensures fresh(s) && fresh(s.controller) && s.Valid()
    ensures s.timerActive && !s.hasTeardown
    ensures s.controller.chunks == Frames([first] + ticks)
    ensures |s.controller.chunks| == |ticks| + 1
  {
    s := new EventStream.Start(first);
    reply := ReplyOf(s.startThrew);
    Run(s, ticks);
  }

  /**
   * A whole connection to the intended stream: the start, some ticks, the teardown (any number
   * of times) and later ticks. The response carries the event-stream headers; the queue holds
   * the frames of the start and the ticks before the first teardown, and a client reading it
   * sees one event per such poll, in order.
   */
  method Connection(first: Poll, before: seq<Poll>, cancels: nat, after: seq<Poll>)
    returns (reply: Reply, s: EventStream)
    requires cancels >= 1
    ensures reply == Streaming(Headers())
    ensures fresh(s) && s.Valid() && !s.timerActive && s.controller.closed
    ensures s.controller.chunks == Frames([first] + before)
    ensures (forall i :: 0 <= i < |[first] + before| ==> OneLine(([first] + before)[i])) ==>
              Decode(Concat(s.controller.chunks), Fresh) == Events([first] + before)
  {
    s := new EventStream.StartWithCancel(first);
    reply := ReplyOf(s.startThrew);
    Run(s, before);
    ghost var sent := s.controller.chunks;
    for k := 0 to cancels
      invariant s.Valid() && s.hasTeardown && !s.controller.closed == (k == 0) && s.timerActive == (k == 0)
      invariant s.controller.chunks == sent
    {
      s.Cancel();
    }
    for i := 0 to |after|
      invariant s.Valid() && !s.timerActive && s.controller.closed
      invariant s.controller.chunks == sent
    {
      s.Tick(after[i]);
    }
    if forall i :: 0 <= i < |[first] + before| ==> OneLine(([first] + before)[i]) {
      DecodeFrames([first] + before);
    }
  }
}
