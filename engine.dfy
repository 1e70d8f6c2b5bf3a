/** Class Engine of engine.py. Its methods change the engine's fields step by
    step, as the script player and the receiver task do, and each is proved to
    leave the state that the matching function of EngineSpec computes from the
    state before the call.

    The event-loop clock, the frames the peer has yet to send and the payloads
    written to the connection are fields too (`clock`, `incoming`, `outbox`):
    each call reads or advances them where the source awaits the loop. */
module Engine {
  import opened Wrappers
  import opened Json
  import opened Match
  import opened Models
  import opened EngineSpec

  class Engine {
    const script: Script
    var startTime: int
    var history: seq<LogEntry>
    var packetQueue: seq<Json>
    /** The reorder buffer of the buffered expect (`_skipped_packets`). */
    var skippedPackets: seq<Json>
    var clock: int
    var incoming: seq<Frame>
    var outbox: seq<Json>

    /** The fields other than the script, as one value. */
    function Snapshot(): State
      reads this
    {
      State(startTime, clock, history, packetQueue, skippedPackets, incoming, outbox)
    }

    /** `Engine(script)`: start time 0, empty queue and history; `clock` and
        `frames` describe the surroundings the engine will be run in. */
    constructor (script: Script, clock: int, frames: seq<Frame>)
      ensures this.script == script
      ensures Snapshot() == State(0, clock, [], [], [], frames, [])
    {
      this.script := script;
      startTime := 0;
      history := [];
      packetQueue := [];
      skippedPackets := [];
      this.clock := clock;
      incoming := frames;
      outbox := [];
    }

    /** One turn of `_receiver_loop`: read a frame; log and enqueue what it
        decodes to, or drop it when it is not JSON. */
    method ReceiveFrame()
      requires incoming != []
      modifies this
      ensures Snapshot() == ReceiveNext(old(Snapshot()))
    {
      var frame := incoming[0];
      clock := Max(clock, frame.at);
      incoming := incoming[1..];
      match frame.data {
        case None =>
        case Some(payload) =>
          history := history + [LogEntry(clock, Received, payload)];
          packetQueue := packetQueue + [payload];
      }
    }

    /** `asyncio.sleep` until `t`, while the receiver reads what arrives. */
    method SleepUntil(t: int)
      modifies this
      ensures Snapshot() == Deliver(old(Snapshot()), t)
    {
      while incoming != [] && incoming[0].at <= t
        invariant Deliver(Snapshot(), t) == Deliver(old(Snapshot()), t)
        decreases |incoming|
      {
        ReceiveFrame();
      }
      clock := Max(clock, t);
    }

    /** `_handle_send(websocket, item)` for the step Send(atMs, payload). */
    method HandleSend(atMs: int, payload: Json)
      modifies this
      ensures Snapshot() == EngineSpec.SendStep(old(Snapshot()), atMs, payload)
    {
      var target := startTime + atMs;
      var delay := target - clock;
      if delay > 0 {
        SleepUntil(target);
      }
      outbox := outbox + [payload];
      history := history + [LogEntry(clock, Sent, payload)];
    }

    /** `wait_for(packet_queue.get(), remaining)` up to the point where a
        message is queued or nothing arrives before `deadline`. */
    method WaitForPacket(deadline: int)
      modifies this
      ensures Snapshot() == WaitPacket(old(Snapshot()), deadline)
    {
      while packetQueue == [] && incoming != [] && incoming[0].at < deadline
        invariant WaitPacket(Snapshot(), deadline) == WaitPacket(old(Snapshot()), deadline)
        decreases |incoming|
      {
        ReceiveFrame();
      }
    }

    /** One pass of the `while True` loop of `_handle_expect` for a wait
        started at `startWait`: None when the message it took did not match
        (it is dropped, or buffered when `buffered`), and otherwise how the
        step ends. */
    method ExpectPass(pattern: Json, startWait: int, timeoutMs: int, buffered: bool)
      returns (done: Option<ExpectOutcome>)
      modifies this
      ensures match ExpectTurn(old(Snapshot()), Matcher(pattern), startWait, timeoutMs, buffered)
        case Expired(r) => done == Some(TimedOut) && Snapshot() == r
        case Took(message, r) => done == (if DeepMatch(message, pattern) then Some(Matched) else None) && Snapshot() == r
    {
      var remaining := timeoutMs - (clock - startWait);
      if remaining <= 0 {
        return Some(TimedOut);
      }
      WaitForPacket(startWait + timeoutMs);
      if packetQueue == [] {
        clock := startWait + timeoutMs;
        return Some(TimedOut);
      }
      var message := packetQueue[0];
      packetQueue := packetQueue[1..];
      if DeepMatch(message, pattern) {
        return Some(Matched);
      }
      if buffered {
        skippedPackets := skippedPackets + [message];
      }
      return None;
    }

    /** The `while True` loop of `_handle_expect`: passes until one ends the step. */
    method AwaitMatch(pattern: Json, startWait: int, timeoutMs: int, buffered: bool) returns (outcome: ExpectOutcome)
      modifies this
      ensures (outcome, Snapshot()) == ExpectLoop(old(Snapshot()), Matcher(pattern), startWait, timeoutMs, buffered)
    {
      while true
        invariant ExpectLoop(Snapshot(), Matcher(pattern), startWait, timeoutMs, buffered) ==
                  ExpectLoop(old(Snapshot()), Matcher(pattern), startWait, timeoutMs, buffered)
        decreases |incoming| + |packetQueue|
      {
        var done := ExpectPass(pattern, startWait, timeoutMs, buffered);
        if done.Some? {
          return done.value;
        }
      }
    }

    /** `_handle_expect(item)` as engine.py has it, for Expect(timeoutMs, pattern). */
    method HandleExpect(timeoutMs: int, pattern: Json) returns (outcome: ExpectOutcome)
      modifies this
      ensures (outcome, Snapshot()) == EngineSpec.ExpectStep(old(Snapshot()), pattern, timeoutMs)
    {
      outcome := AwaitMatch(pattern, clock, timeoutMs, false);
    }

    /** `_handle_expect(item)` with the reorder buffer tests/test_engine_buffering.py
        requires: scan the buffer first, then wait, buffering what does not match. */
    method HandleExpectBuffered(timeoutMs: int, pattern: Json) returns (outcome: ExpectOutcome)
      modifies this
      ensures (outcome, Snapshot()) == ExpectBuffered(old(Snapshot()), pattern, timeoutMs)
    {
      var i := 0;
      while i < |skippedPackets|
        invariant 0 <= i <= |skippedPackets|
        invariant Snapshot() == old(Snapshot())
        invariant forall j :: 0 <= j < i ==> !DeepMatch(skippedPackets[j], pattern)
      {
        if DeepMatch(skippedPackets[i], pattern) {
          skippedPackets := skippedPackets[..i] + skippedPackets[i + 1..];
          return Matched;
        }
        i := i + 1;
      }
      outcome := AwaitMatch(pattern, clock, timeoutMs, true);
    }

    /** `run(websocket)`: take the start time from the clock, reset the
        history and play the script in order, stopping at the first timeout:
        a failed run is an expect that timed out after the steps before it
        completed, and a completed run met every expect. */
    method Run() returns (outcome: RunOutcome)
      modifies this
      ensures (outcome, Snapshot()) == EngineSpec.Run(old(Snapshot()), script)
      ensures startTime == old(clock) && Chronological(Snapshot())
      ensures outcome.Completed? ==> Sends(history) == SendPayloads(script.items)
      ensures outcome.Failed? ==>
        && outcome.step < |script.items|
        && script.items[outcome.step] == Models.Expect(outcome.timeoutMs, outcome.pattern)
        && Sends(history) == SendPayloads(script.items[..outcome.step])
        && var before := RunFrom(Started(old(Snapshot())), script.items[..outcome.step], 0);
           before.0 == Completed && EngineSpec.ExpectStep(before.1, outcome.pattern, outcome.timeoutMs) == (TimedOut, Snapshot())
      ensures outcome.Completed? ==>
        forall j :: 0 <= j < |script.items| && script.items[j].Expect? ==>
          EngineSpec.ExpectStep(RunFrom(Started(old(Snapshot())), script.items[..j], 0).1,
                            script.items[j].pattern, script.items[j].timeoutMs).0 == Matched
      ensures Decoded(old(incoming)) == Receipts(history) + Decoded(incoming)
    {
      var _ := RunFacts(Snapshot(), script);
      startTime := clock;
      history := [];
      var items := script.items;
      var i := 0;
      while i < |items|
        invariant 0 <= i <= |items|
        invariant RunFrom(Snapshot(), items[i..], i) == EngineSpec.Run(old(Snapshot()), script)
      {
        assert items[i..][1..] == items[i + 1..];
        match items[i] {
          case Send(atMs, payload) =>
            HandleSend(atMs, payload);
          case Expect(timeoutMs, pattern) =>
            var o := HandleExpect(timeoutMs, pattern);
            if o.TimedOut? {
              return Failed(i, pattern, timeoutMs);
            }
        }
        i := i + 1;
      }
      outcome := Completed;
    }
  }
}
