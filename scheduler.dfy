/** The polling loop: every cycle requests the high-frequency tier, every
    tenth cycle the regular tier as well, then counts response frames into
    the record until the expected number arrived, the cycle's deadline
    passed or the stream ended, and shows the record. The socket is
    abstracted as a finite sequence of receive events per cycle and a set of
    parameter ids whose request write fails.

    The response identifier is the parameter `responseId`. Its 11-bit type
    stands for the `unwrap` of the standard-id constructor succeeding. */
module Scheduler {
  import opened FixedWidth
  import opened Vehicle
  import opened Response
  import opened Request

  /** Requested on every cycle. */
  const HighFreqPids: seq<u8> := [0x0C, 0x0D, 0x04, 0x0E, 0x11]

  /** Requested when the cycle counter is 0. */
  const RegularPids: seq<u8> :=
    [0x05, 0x06, 0x07, 0x08, 0x09, 0x0A, 0x0B, 0x0F, 0x10, 0x14,
     0x15, 0x16, 0x17, 0x1F, 0x21, 0x22, 0x23, 0x2C, 0x2D, 0x2E,
     0x2F, 0x30, 0x31, 0x33, 0x42, 0x43, 0x44, 0x45, 0x46, 0x47,
     0x48, 0x49, 0x4A, 0x4B, 0x4C, 0x4D, 0x4E, 0x52, 0x5C, 0x5E]

  /** The number of cycles between two requests of the regular tier. */
  const RegularPeriod: nat := 10

  /** One thing the receive side of the socket can deliver while a cycle
      waits: a frame, a read error, the end of the stream, or the cycle's
      deadline. */
  datatype Event = Frame(frame: CanFrame) | ReadError | StreamEnd | Timeout

  /** Why the wait ended. */
  datatype Exit = AllReceived | TimedOut | StreamEnded

  /** The payloads the wait counted, in order, the number of events it
      read, and why it ended. */
  datatype Awaited = Awaited(responses: seq<seq<u8>>, consumed: nat, exit: Exit)

  /** What the environment does during one cycle. */
  datatype CycleInput = CycleInput(failing: set<u8>, events: seq<Event>)

  /** What one cycle did: the counter it ran with, the frames it wrote,
      the ids whose write was reported as failed, the payloads it counted,
      how many events it read, and why the wait ended. */
  datatype Cycle = Cycle(
    counter: nat, requests: seq<CanFrame>, sendErrors: seq<u8>,
    responses: seq<seq<u8>>, consumed: nat, exit: Exit)

  /** The ids requested on a cycle with this counter, in send order. */
  function RequestedPids(counter: nat): (r: seq<u8>)
    ensures |HighFreqPids| <= |r| && r[..|HighFreqPids|] == HighFreqPids
    ensures forall p :: p in r <==> p in HighFreqPids || (counter == 0 && p in RegularPids)
  {
    if counter == 0 then HighFreqPids + RegularPids else HighFreqPids
  }

  /** How many responses a cycle waits for: one per request. */
  function ExpectedResponses(counter: nat): (r: nat)
    ensures r == |RequestedPids(counter)|
    ensures r == 45 || r == 5
    ensures r == 45 <==> counter == 0
  {
    if counter == 0 then |HighFreqPids| + |RegularPids| else |HighFreqPids|
  }

  /** The counter after a cycle. */
  function NextCounter(counter: nat): (r: nat)
    ensures r < RegularPeriod
    ensures counter < RegularPeriod - 1 ==> r == counter + 1
    ensures counter == RegularPeriod - 1 ==> r == 0
  {
    (counter + 1) % RegularPeriod
  }

  /** The counter the loop runs cycle i with: 0 at first, then the
      update after each cycle. */
  function CounterAt(i: nat): (r: nat)
    ensures r < RegularPeriod
  {
    if i == 0 then 0 else NextCounter(CounterAt(i - 1))
  }

  /** The frame written for a request of `pid`. */
  function RequestFrame(pid: u8): CanFrame
  {
    Data(Standard(OBD_REQUEST_ID), RequestPayload(pid))
  }

  /** The frames written for `pids`, in order. */
  function RequestFrames(pids: seq<u8>): (r: seq<CanFrame>)
  {
    if pids == [] then [] else RequestFrames(pids[..|pids| - 1]) + [RequestFrame(pids[|pids| - 1])]
  }

  /** The ids of `pids`, in order, whose write fails. */
  function FailedPids(pids: seq<u8>, failing: set<u8>): (r: seq<u8>)
  {
    if pids == [] then []
    else
      var rest := FailedPids(pids[..|pids| - 1], failing);
      var last := pids[|pids| - 1];
      if last in failing then rest + [last] else rest
  }

  /** A frame the loop hands to the decoder: a data frame on the response
      identifier. */
  predicate IsResponse(e: Event, responseId: u11)
  {
    e.Frame? && e.frame.Data? && e.frame.id == Standard(responseId)
  }

  /** The payloads an event adds to the count: that of a response frame,
      none for anything else. */
  function Counted(e: Event, responseId: u11): (r: seq<seq<u8>>)
    ensures |r| <= 1
    ensures r != [] <==> IsResponse(e, responseId)
    ensures r != [] ==> r[0] == e.frame.data
  {
    if IsResponse(e, responseId) then [e.frame.data] else []
  }

  /** An event that ends the wait. */
  predicate Stops(e: Event)
  {
    e.StreamEnd? || e.Timeout?
  }

  /** The wait, one event at a time, having counted the payloads in
      `counted` so far: a response frame is counted, any other frame and a
      read error are skipped, and the wait ends when the count reaches
      `expected`, on a deadline or stream end, or when the events run out,
      which is the deadline passing. */
  function Await(events: seq<Event>, expected: nat, responseId: u11, counted: seq<seq<u8>>): (r: Awaited)
    ensures r.consumed <= |events|
    ensures |counted| <= |r.responses|
  {
    if |counted| >= expected then Awaited(counted, 0, AllReceived)
    else if events == [] then Awaited(counted, 0, TimedOut)
    else if events[0].StreamEnd? then Awaited(counted, 1, StreamEnded)
    else if events[0].Timeout? then Awaited(counted, 1, TimedOut)
    else
      var rest := Await(events[1..], expected, responseId, counted + Counted(events[0], responseId));
      rest.(consumed := rest.consumed + 1)
  }

  /** The record after decoding `payloads` in order, starting from `data`. */
  function ParseAll(payloads: seq<seq<u8>>, data: VehicleData): VehicleData
  {
    if payloads == [] then data
    else ParseObdResponse(payloads[|payloads| - 1], ParseAll(payloads[..|payloads| - 1], data))
  }

  /** One cycle, as the loop body runs it. */
  function RunCycle(counter: nat, input: CycleInput, responseId: u11): Cycle
  {
    var pids := RequestedPids(counter);
    var a := Await(input.events, ExpectedResponses(counter), responseId, []);
    Cycle(counter, RequestFrames(pids), FailedPids(pids, input.failing), a.responses, a.consumed, a.exit)
  }

  /** The cycles the loop runs for `inputs`: cycle i runs on the i-th input
      with the counter's value there. */
  function RunPoll(inputs: seq<CycleInput>, responseId: u11): (r: seq<Cycle>)
    ensures |r| == |inputs|
  {
    seq(|inputs|, i requires 0 <= i < |inputs| => RunCycle(CounterAt(i), inputs[i], responseId))
  }

  /** The record after `cycles`, each decoding the payloads it counted. */
  function RecordAfter(cycles: seq<Cycle>, start: VehicleData): VehicleData
  {
    if cycles == [] then start
    else ParseAll(cycles[|cycles| - 1].responses, RecordAfter(cycles[..|cycles| - 1], start))
  }

  /** The record shown at the end of each of `cycles`. */
  function Displays(cycles: seq<Cycle>, start: VehicleData): seq<VehicleData>
  {
    if cycles == [] then []
    else Displays(cycles[..|cycles| - 1], start) + [RecordAfter(cycles, start)]
  }

  /** Sends one tier: every id is attempted in table order, whatever the
      earlier writes returned; a failed write is only reported. */
  method SendTier(pids: seq<u8>, failing: set<u8>) returns (frames: seq<CanFrame>, errors: seq<u8>)
    ensures frames == RequestFrames(pids)
    ensures errors == FailedPids(pids, failing)
  {
    frames, errors := [], [];
    for i := 0 to |pids|
      invariant frames == RequestFrames(pids[..i])
      invariant errors == FailedPids(pids[..i], failing)
    {
      var outcome := SendObdRequest(pids[i], pids[i] !in failing);
      frames := frames + [outcome.frame];
      if !outcome.writeOk {
        errors := errors + [pids[i]];
      }
      assert pids[..i + 1][..i] == pids[..i];
    }
    assert pids[..|pids|] == pids;
  }

  /** Counts response frames into the record until `expected` arrived, a
      deadline or stream end is read, or the events run out. */
  method AwaitResponses(events: seq<Event>, expected: nat, responseId: u11, data: VehicleData)
    returns (newData: VehicleData, responses: seq<seq<u8>>, consumed: nat, exit: Exit)
    ensures Awaited(responses, consumed, exit) == Await(events, expected, responseId, [])
    ensures newData == ParseAll(responses, data)
  {
    newData, responses, consumed, exit := data, [], 0, AllReceived;
    var received := 0;
    while received < expected
      invariant consumed <= |events|
      invariant received == |responses|
      invariant newData == ParseAll(responses, data)
      invariant var rest := Await(events[consumed..], expected, responseId, responses);
        Await(events, expected, responseId, []) == rest.(consumed := consumed + rest.consumed)
      decreases |events| - consumed
    {
      if consumed == |events| {
        exit := TimedOut;
        break;
      }
      var e := events[consumed];
      match e {
      case Frame(frame) =>
        if IsResponse(e, responseId) {
          newData := ParseObdResponse(frame.data, newData);
          received := received + 1;
        }
      case ReadError =>
      case StreamEnd =>
        consumed, exit := consumed + 1, StreamEnded;
        break;
      case Timeout =>
        consumed, exit := consumed + 1, TimedOut;
        break;
      }
      AwaitStep(events[consumed..], expected, responseId, responses);
      assert events[consumed..][1..] == events[consumed + 1..];
      ParseAllCounted(responses, e, responseId, data);
      responses := responses + Counted(e, responseId);
      consumed := consumed + 1;
    }
  }

  /** Reading an event that does not end the wait adds what it counts and
      goes on with the rest. */
  lemma AwaitStep(events: seq<Event>, expected: nat, responseId: u11, counted: seq<seq<u8>>)
    requires |counted| < expected && events != [] && !Stops(events[0])
    ensures var rest := Await(events[1..], expected, responseId, counted + Counted(events[0], responseId));
      Await(events, expected, responseId, counted) == rest.(consumed := rest.consumed + 1)
  {
  }

  /** Decoding what an event counts: the frame's payload for a response,
      nothing otherwise. */
  lemma ParseAllCounted(payloads: seq<seq<u8>>, e: Event, responseId: u11, data: VehicleData)
    ensures ParseAll(payloads + Counted(e, responseId), data)
      == if IsResponse(e, responseId) then ParseObdResponse(e.frame.data, ParseAll(payloads, data))
         else ParseAll(payloads, data)
  {
    if IsResponse(e, responseId) {
      assert (payloads + [e.frame.data])[..|payloads|] == payloads;
    } else {
      assert payloads + [] == payloads;
    }
  }

  /** One pass of the loop body: the tiers the counter selects, the wait,
      one display of the record, and the counter update. */
  method PollCycle(counter: nat, data: VehicleData, input: CycleInput, responseId: u11)
    returns (c: Cycle, displayed: VehicleData, next: nat)
    ensures c == RunCycle(counter, input, responseId)
    ensures displayed == ParseAll(c.responses, data)
    ensures next == NextCounter(counter)
  {
    var frames, errors := SendTier(HighFreqPids, input.failing);
    if counter == 0 {
      var regularFrames, regularErrors := SendTier(RegularPids, input.failing);
      RequestFramesAppend(HighFreqPids, RegularPids);
      FailedPidsAppend(HighFreqPids, RegularPids, input.failing);
      frames, errors := frames + regularFrames, errors + regularErrors;
    }
    var expected := if counter == 0 then |HighFreqPids| + |RegularPids| else |HighFreqPids|;
    var newData, responses, consumed, exit := AwaitResponses(input.events, expected, responseId, data);
    c := Cycle(counter, frames, errors, responses, consumed, exit);
    // the record is shown once, whether or not every response arrived
    displayed := newData;
    next := (counter + 1) % RegularPeriod;
  }

  /** Runs the loop for as many cycles as `inputs` describes, from the
      all-zero record and a counter of 0, and returns the cycles and the
      record shown after each. */
  method Poll(inputs: seq<CycleInput>, responseId: u11) returns (cycles: seq<Cycle>, displays: seq<VehicleData>)
    ensures cycles == RunPoll(inputs, responseId)
    ensures displays == Displays(cycles, Default())
  {
    var counter: nat := 0;
    var start := Default();
    var data: VehicleData := start;
    cycles, displays := [], [];
    for i := 0 to |inputs|
      invariant counter == CounterAt(i)
      invariant cycles == RunPoll(inputs[..i], responseId)
      invariant data == RecordAfter(cycles, start)
      invariant displays == Displays(cycles, start)
    {
      var c, shown, next := PollCycle(counter, data, inputs[i], responseId);
      RecordStep(cycles, c, start);
      RunPollStep(inputs, i, responseId);
      cycles := cycles + [c];
      displays := displays + [shown];
      data := shown;
      counter := next;
    }
    assert inputs[..|inputs|] == inputs;
  }

  /** One more input adds one cycle, run with the counter's value there. */
  lemma RunPollStep(inputs: seq<CycleInput>, i: nat, responseId: u11)
    requires i < |inputs|
    ensures RunPoll(inputs[..i + 1], responseId)
      == RunPoll(inputs[..i], responseId) + [RunCycle(CounterAt(i), inputs[i], responseId)]
  {
    var longer, shorter := RunPoll(inputs[..i + 1], responseId), RunPoll(inputs[..i], responseId);
    forall k | 0 <= k < i
      ensures longer[k] == shorter[k]
    {
      assert inputs[..i + 1][k] == inputs[..i][k];
    }
  }

  /** One more cycle decodes its payloads into the record the previous
      cycles left, and shows it once more. */
  lemma RecordStep(cycles: seq<Cycle>, c: Cycle, start: VehicleData)
    ensures RecordAfter(cycles + [c], start) == ParseAll(c.responses, RecordAfter(cycles, start))
    ensures Displays(cycles + [c], start) == Displays(cycles, start) + [RecordAfter(cycles + [c], start)]
  {
    assert (cycles + [c])[..|cycles|] == cycles;
  }

  /** The frames for a concatenation are the frames for each part. */
  lemma {:induction false} RequestFramesAppend(a: seq<u8>, b: seq<u8>)
    ensures RequestFrames(a + b) == RequestFrames(a) + RequestFrames(b)
  {
    if b != [] {
      var b' := b[..|b| - 1];
      assert (a + b)[..|a + b| - 1] == a + b';
      RequestFramesAppend(a, b');
    } else {
      assert a + b == a;
    }
  }

  /** Filtering a concatenation concatenates the filtered parts. */
  lemma {:induction false} FailedPidsAppend(a: seq<u8>, b: seq<u8>, failing: set<u8>)
    ensures FailedPids(a + b, failing) == FailedPids(a, failing) + FailedPids(b, failing)
  {
    if b != [] {
      var b' := b[..|b| - 1];
      assert (a + b)[..|a + b| - 1] == a + b';
      FailedPidsAppend(a, b', failing);
    } else {
      assert a + b == a;
    }
  }
}
