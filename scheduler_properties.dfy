/** What the polling loop guarantees: the cadence of the two tiers, what a
    cycle sends, what the wait counts and decodes, and why it stops. */
module SchedulerProperties {
  import opened FixedWidth
  import opened Options
  import opened Vehicle
  import opened Response
  import opened Request
  import opened Scheduler

  /** The payloads of the response frames among `events`, in order. */
  function Responses(events: seq<Event>, responseId: u11): (r: seq<seq<u8>>)
  {
    if events == [] then []
    else Counted(events[0], responseId) + Responses(events[1..], responseId)
  }

  /** The counter of cycle i is i mod 10. */
  lemma {:induction false} CounterAtMod(i: nat)
    ensures CounterAt(i) == i % RegularPeriod
  {
    if i > 0 {
      CounterAtMod(i - 1);
    }
  }

  /** The cycles among the ten from cycle k on that request the regular
      tier. */
  function RegularCycles(k: nat): set<nat>
  {
    set i: nat | k <= i < k + RegularPeriod && CounterAt(i) == 0
  }

  /** Of any ten consecutive cycles, exactly one runs with counter 0 and so
      requests the regular tier. */
  lemma RegularOncePerTen(k: nat)
    ensures |RegularCycles(k)| == 1
  {
    var j := if k % RegularPeriod == 0 then k else k - k % RegularPeriod + RegularPeriod;
    forall i | k <= i < k + RegularPeriod
      ensures CounterAt(i) == 0 <==> i == j
    {
      CounterAtMod(i);
      MultipleInWindow(k, i);
    }
    var window := RegularCycles(k);
    assert k <= j < k + RegularPeriod by {
      MultipleInWindow(k, k);
    }
    assert j in window;
    assert forall x :: x in window ==> x == j;
    assert window == {j};
  }

  /** Within ten consecutive numbers from k, the one multiple of 10 is k
      rounded up to a multiple of 10. */
  lemma MultipleInWindow(k: nat, i: nat)
    requires k <= i < k + 10
    ensures i % 10 == 0 <==> i == (if k % 10 == 0 then k else k - k % 10 + 10)
  {
    var q := k / 10;
    assert k == 10 * q + k % 10;
    assert i == 10 * (i / 10) + i % 10;
    assert i / 10 == q || i / 10 == q + 1;
  }

  /** Cycle i of the loop runs the regular tier exactly when i is a
      multiple of 10. */
  lemma RunPollCounter(inputs: seq<CycleInput>, responseId: u11, i: nat)
    requires i < |inputs|
    ensures RunPoll(inputs, responseId)[i].counter == i % RegularPeriod
    ensures |RunPoll(inputs, responseId)[i].requests| == if i % RegularPeriod == 0 then 45 else 5
  {
    CounterAtMod(i);
    RequestFramesAt(RequestedPids(CounterAt(i)));
  }

  /** The record is shown once per cycle. */
  lemma {:induction false} DisplaysLength(cycles: seq<Cycle>, start: VehicleData)
    ensures |Displays(cycles, start)| == |cycles|
  {
    if cycles != [] {
      DisplaysLength(cycles[..|cycles| - 1], start);
    }
  }

  /** The i-th record shown is the record after the first i + 1 cycles. */
  lemma {:induction false} DisplaysAt(cycles: seq<Cycle>, start: VehicleData, i: nat)
    requires i < |cycles|
    ensures |Displays(cycles, start)| == |cycles|
    ensures Displays(cycles, start)[i] == RecordAfter(cycles[..i + 1], start)
  {
    var n := |cycles| - 1;
    DisplaysLength(cycles, start);
    DisplaysLength(cycles[..n], start);
    if i < n {
      DisplaysAt(cycles[..n], start, i);
      assert cycles[..n][..i + 1] == cycles[..i + 1];
    } else {
      assert cycles[..n + 1] == cycles;
    }
  }

  /** A field that no payload counted in any cycle writes keeps the value it
      started with. */
  lemma {:induction false} RecordAfterFrame(cycles: seq<Cycle>, start: VehicleData, f: Field)
    requires forall k :: 0 <= k < |cycles| ==> NeverWrites(cycles[k].responses, f)
    ensures Get(RecordAfter(cycles, start), f) == Get(start, f)
  {
    if cycles != [] {
      var n := |cycles| - 1;
      assert forall k :: 0 <= k < n ==> cycles[..n][k] == cycles[k];
      RecordAfterFrame(cycles[..n], start, f);
      ParseAllFrame(cycles[n].responses, RecordAfter(cycles[..n], start), f);
    }
  }

  /** The frames written for `pids`: one per id, in order, each a request
      for that id on the request identifier. */
  lemma {:induction false} RequestFramesAt(pids: seq<u8>)
    ensures |RequestFrames(pids)| == |pids|
    ensures forall i :: 0 <= i < |pids| ==> RequestFrames(pids)[i] == RequestFrame(pids[i])
  {
    if pids != [] {
      RequestFramesAt(pids[..|pids| - 1]);
    }
  }

  /** The reported failures are exactly the requested ids whose write
      fails, each once per request. */
  lemma {:induction false} FailedPidsMembers(pids: seq<u8>, failing: set<u8>)
    ensures |FailedPids(pids, failing)| <= |pids|
    ensures forall p :: p in FailedPids(pids, failing) <==> p in pids && p in failing
  {
    if pids != [] {
      var init := pids[..|pids| - 1];
      FailedPidsMembers(init, failing);
      assert pids == init + [pids[|pids| - 1]];
    }
  }

  /** The responses among the first c events: those of the first event,
      then those among the following ones. */
  lemma ResponsesFirst(events: seq<Event>, c: nat, responseId: u11)
    requires 0 < c <= |events|
    ensures Responses(events[..c], responseId)
      == Counted(events[0], responseId) + Responses(events[1..][..c - 1], responseId)
  {
    assert events[..c][1..] == events[1..][..c - 1];
  }

  /** The wait reads no further than the events go and never counts more
      than expected. */
  lemma {:induction false} AwaitBounds(events: seq<Event>, expected: nat, responseId: u11, counted: seq<seq<u8>>)
    requires |counted| <= expected
    ensures var r := Await(events, expected, responseId, counted);
      && r.consumed <= |events|
      && |counted| <= |r.responses| <= expected
  {
    if |counted| < expected && events != [] && !Stops(events[0]) {
      AwaitStep(events, expected, responseId, counted);
      AwaitBounds(events[1..], expected, responseId, counted + Counted(events[0], responseId));
    }
  }

  /** The wait counts, in order, exactly the response frames it read,
      whether or not the decoder then accepts them. */
  lemma {:induction false} AwaitCounts(events: seq<Event>, expected: nat, responseId: u11, counted: seq<seq<u8>>)
    requires |counted| <= expected
    ensures Await(events, expected, responseId, counted).consumed <= |events|
    ensures var r := Await(events, expected, responseId, counted);
      r.responses == counted + Responses(events[..r.consumed], responseId)
  {
    AwaitBounds(events, expected, responseId, counted);
    if |counted| >= expected || events == [] {
      assert events[..0] == [];
    } else if Stops(events[0]) {
      ResponsesFirst(events, 1, responseId);
      assert events[1..][..0] == [];
    } else {
      var here := Counted(events[0], responseId);
      var rest := Await(events[1..], expected, responseId, counted + here);
      AwaitStep(events, expected, responseId, counted);
      AwaitCounts(events[1..], expected, responseId, counted + here);
      ResponsesFirst(events, rest.consumed + 1, responseId);
      var later := Responses(events[1..][..rest.consumed], responseId);
      assert (counted + here) + later == counted + (here + later);
    }
  }

  /** The wait reads no event after a deadline or stream end, and it ends
      on the expected count (right after a response, or at once when
      nothing was expected), on a deadline or stream end, or when the
      events run out. */
  lemma {:induction false} AwaitEnds(events: seq<Event>, expected: nat, responseId: u11, counted: seq<seq<u8>>)
    requires |counted| <= expected
    ensures var r := Await(events, expected, responseId, counted);
      && r.consumed <= |events|
      && (forall k :: 0 <= k < r.consumed - 1 ==> !Stops(events[k]))
      && (r.exit == AllReceived <==> |r.responses| == expected)
      && (r.exit == AllReceived ==> r.consumed == 0 || IsResponse(events[r.consumed - 1], responseId))
      && (r.exit == StreamEnded ==> 0 < r.consumed && events[r.consumed - 1] == StreamEnd)
      && (r.exit == TimedOut ==> r.consumed == |events| || (0 < r.consumed && events[r.consumed - 1] == Timeout))
  {
    if |counted| < expected && events != [] && !Stops(events[0]) {
      var e := events[0];
      var next := counted + Counted(e, responseId);
      var rest := Await(events[1..], expected, responseId, next);
      var r := rest.(consumed := rest.consumed + 1);
      AwaitStep(events, expected, responseId, counted);
      AwaitEnds(events[1..], expected, responseId, next);
      forall k | 0 <= k < r.consumed - 1
        ensures !Stops(events[k])
      {
        if k > 0 {
          assert events[k] == events[1..][k - 1];
        }
      }
      if rest.consumed > 0 {
        assert events[r.consumed - 1] == events[1..][rest.consumed - 1];
      } else {
        assert rest.exit == AllReceived ==> IsResponse(e, responseId);
      }
    }
  }

  /** What a cycle does: it requests the tiers its counter selects, each id
      once and in table order, reports exactly the failed writes, and counts
      at most one response per request, namely the response frames among
      the events it read. */
  lemma CycleSpec(counter: nat, input: CycleInput, responseId: u11)
    ensures var c := RunCycle(counter, input, responseId);
      var pids := RequestedPids(counter);
      && c.counter == counter
      && |c.requests| == |pids|
      && (forall i :: 0 <= i < |pids| ==>
            c.requests[i] == Data(Standard(OBD_REQUEST_ID), RequestPayload(pids[i]))
            && RequestedPid(c.requests[i].data) == Some(pids[i]))
      && (forall p :: p in c.sendErrors <==> p in pids && p in input.failing)
      && |c.responses| <= ExpectedResponses(counter)
      && c.consumed <= |input.events|
      && c.responses == Responses(input.events[..c.consumed], responseId)
  {
    var pids := RequestedPids(counter);
    RequestFramesAt(pids);
    FailedPidsMembers(pids, input.failing);
    AwaitBounds(input.events, ExpectedResponses(counter), responseId, []);
    AwaitCounts(input.events, ExpectedResponses(counter), responseId, []);
    assert [] + Responses(input.events[..RunCycle(counter, input, responseId).consumed], responseId)
      == Responses(input.events[..RunCycle(counter, input, responseId).consumed], responseId);
    forall i | 0 <= i < |pids|
      ensures RequestedPid(RequestPayload(pids[i])) == Some(pids[i])
    {
    }
  }

  /** No payload of `payloads` that the decoder accepts writes `f`. */
  predicate NeverWrites(payloads: seq<seq<u8>>, f: Field)
  {
    forall k :: 0 <= k < |payloads| && Accepted(payloads[k]) ==> Registry(payloads[k][2]).value.field != f
  }

  /** A field that no payload writes keeps its value. */
  lemma {:induction false} ParseAllFrame(payloads: seq<seq<u8>>, data: VehicleData, f: Field)
    requires NeverWrites(payloads, f)
    ensures Get(ParseAll(payloads, data), f) == Get(data, f)
  {
    if payloads != [] {
      var n := |payloads| - 1;
      assert forall k :: 0 <= k < n ==> payloads[..n][k] == payloads[k];
      ParseAllFrame(payloads[..n], data, f);
    }
  }

  /** A response frame the decoder drops is still counted, and decoding
      it leaves the record as it was. */
  lemma DroppedResponseCounts(events: seq<Event>, expected: nat, responseId: u11, counted: seq<seq<u8>>, data: VehicleData)
    requires |counted| < expected && events != [] && IsResponse(events[0], responseId)
    requires !Accepted(events[0].frame.data)
    ensures var rest := Await(events[1..], expected, responseId, counted + [events[0].frame.data]);
      Await(events, expected, responseId, counted) == rest.(consumed := rest.consumed + 1)
    ensures ParseAll(counted + [events[0].frame.data], data) == ParseAll(counted, data)
  {
    assert (counted + [events[0].frame.data])[..|counted|] == counted;
  }

  /** The events that neither count nor end the wait are read errors, remote
      and error frames, and data frames on other identifiers; the wait reads
      past them with the count unchanged. */
  lemma OtherEventsNotCounted(events: seq<Event>, expected: nat, responseId: u11, counted: seq<seq<u8>>)
    requires |counted| < expected && events != []
    requires !IsResponse(events[0], responseId) && !Stops(events[0])
    ensures events[0] == ReadError
      || (events[0].Frame? && (!events[0].frame.Data? || events[0].frame.id != Standard(responseId)))
    ensures var rest := Await(events[1..], expected, responseId, counted);
      Await(events, expected, responseId, counted) == rest.(consumed := rest.consumed + 1)
  {
    assert counted + [] == counted;
  }

  /** No id is in both tiers. */
  lemma TablesDisjoint()
    ensures forall p :: p in HighFreqPids ==> p !in RegularPids
  {
    forall i | 0 <= i < 20
      ensures RegularPids[i] !in HighFreqPids
    {
    }
    forall i | 20 <= i < |RegularPids|
      ensures RegularPids[i] !in HighFreqPids
    {
    }
  }

  /** Every requested id has a decoding arm. */
  lemma TablePidsDecode()
    ensures forall i :: 0 <= i < |HighFreqPids| ==> Registry(HighFreqPids[i]).Some?
    ensures forall i :: 0 <= i < |RegularPids| ==> Registry(RegularPids[i]).Some?
  {
  }
}
