/** The engine scenarios of tests/test_engine.py and tests/test_engine_buffering.py,
    worked out on the model. */
module Scenarios {
  import opened Wrappers
  import opened Json
  import opened Match
  import opened Models
  import opened EngineSpec

  // ---------------------------------------------------------------------------
  // tests/test_engine.py

  /** A fresh engine at clock 0 whose peer sends `frames`. */
  function Connected(frames: seq<Frame>): State {
    State(0, 0, [], [], [], frames, [])
  }

  function Auth(): Json {
    JObject(map["type" := JStr("auth")])
  }

  /** test_engine_send: a single send step at 10 ms writes its payload once. */
  lemma EngineSendsOnce()
    ensures var payload := JObject(map["event" := JStr("test")]);
      Run(Connected([]), Script([Models.Send(10, payload)])) ==
      (Completed, State(0, 10, [LogEntry(10, Sent, payload)], [], [], [], [payload]))
  {
    var payload := JObject(map["event" := JStr("test")]);
    var items := [Models.Send(10, payload)];
    assert Deliver(Connected([]), 10) == Connected([]).(now := 10);
    assert [] + [LogEntry(10, Sent, payload)] == [LogEntry(10, Sent, payload)];
    assert [] + [payload] == [payload];
    assert EngineSpec.SendStep(Connected([]), 10, payload) == State(0, 10, [LogEntry(10, Sent, payload)], [], [], [], [payload]);
    assert items[1..] == [];
  }

  /** test_engine_expect_success: the awaited message arrives with an extra key. */
  lemma EngineExpectSuccess()
    ensures var hello := JObject(map["type" := JStr("auth"), "token" := JStr("abc")]);
      Run(Connected([Frame(0, Some(hello))]), Script([Models.Expect(500, Auth())])).0 == Completed
  {
  }

  /** test_engine_expect_timeout: nothing arrives within 100 ms, so the run
      fails at step 0 with the clock at the deadline. */
  lemma EngineExpectTimeout()
    ensures Run(Connected([Frame(500, Some(JObject(map[])))]), Script([Models.Expect(100, Auth())])) ==
      (Failed(0, Auth(), 100), State(0, 100, [], [], [], [Frame(500, Some(JObject(map[])))], []))
  {
  }

  /** test_engine_expect_ignore_mismatch: a ping is logged and skipped, then
      the auth message completes the run. */
  lemma EngineIgnoresMismatch()
    ensures var ping := JObject(map["type" := JStr("ping")]);
      Run(Connected([Frame(0, Some(ping)), Frame(10, Some(Auth()))]), Script([Models.Expect(500, Auth())])) ==
      (Completed, State(0, 10, [LogEntry(0, Received, ping), LogEntry(10, Received, Auth())], [], [], [], []))
  {
    var ping := JObject(map["type" := JStr("ping")]);
    var frames := [Frame(0, Some(ping)), Frame(10, Some(Auth()))];
    var s := Connected(frames);
    assert !DeepMatch(ping, Auth()) by {
      assert ping.fields["type"] != Auth().fields["type"];
    }
    var s1 := ReceiveNext(s);
    assert s1 == State(0, 0, [LogEntry(0, Received, ping)], [ping], [], frames[1..], []);
    assert WaitPacket(s, 500) == s1;
    assert ExpectTurn(s, Matcher(Auth()), 0, 500, false) == Took(ping, s1.(queue := []));
    var s2 := ReceiveNext(s1.(queue := []));
    assert frames[1..][1..] == [];
    assert s2 == State(0, 10, [LogEntry(0, Received, ping), LogEntry(10, Received, Auth())], [Auth()], [], [], []);
    assert WaitPacket(s2, 500) == s2;
    assert WaitPacket(s1.(queue := []), 500) == s2;
    assert ExpectTurn(s1.(queue := []), Matcher(Auth()), 0, 500, false) == Took(Auth(), s2.(queue := []));
  }

  // ---------------------------------------------------------------------------
  // The scenarios of tests/test_engine_buffering.py

  /** The message {"msg": name}. */
  function Msg(name: string): Json {
    JObject(map["msg" := JStr(name)])
  }

  lemma MsgMatch(a: string, b: string)
    ensures DeepMatch(Msg(a), Msg(b)) <==> a == b
    ensures Matcher(Msg(b))(Msg(a)) <==> a == b
  {
    if a != b {
      assert Msg(a).fields["msg"] == JStr(a);
      assert !DeepMatch(Msg(a).fields["msg"], Msg(b).fields["msg"]);
    }
  }

  /** A state whose queue holds `queued` and whose buffer and connection are empty. */
  function Queued(now: int, queued: seq<Json>): State {
    State(0, now, [], queued, [], [], [])
  }

  /** test_engine_buffering: B then A queued, expect A then B. The buffered
      variant holds B back and then takes it from the buffer. */
  lemma BufferedReordersTwo(now: int)
    ensures ExpectBuffered(Queued(now, [Msg("B"), Msg("A")]), Msg("A"), 500) ==
      (Matched, Queued(now, []).(skipped := [Msg("B")]))
    ensures ExpectBuffered(Queued(now, []).(skipped := [Msg("B")]), Msg("B"), 500) ==
      (Matched, Queued(now, []))
  {
    var s := Queued(now, [Msg("B"), Msg("A")]);
    MsgMatch("B", "A");
    MsgMatch("A", "A");
    MsgMatch("B", "B");
    assert FirstMatch(s.queue, Matcher(Msg("A"))) == Some(1);
    QueuedMatch(s, Matcher(Msg("A")), now, 500, true);
    assert s.skipped + s.queue[..1] == [Msg("B")];
    var s1 := Queued(now, []).(skipped := [Msg("B")]);
    assert FirstMatch(s1.skipped, Matcher(Msg("B"))) == Some(0);
    assert s1.skipped[..0] + s1.skipped[1..] == [];
  }

  /** The same scenario with the code as written: taking A drops B, so the
      second expect waits out its budget and fails. */
  lemma SourceDropsEarlyMessage(now: int)
    ensures EngineSpec.ExpectStep(Queued(now, [Msg("B"), Msg("A")]), Msg("A"), 500) == (Matched, Queued(now, []))
    ensures EngineSpec.ExpectStep(Queued(now, []), Msg("B"), 500) == (TimedOut, Queued(now + 500, []))
  {
    var s := Queued(now, [Msg("B"), Msg("A")]);
    MsgMatch("B", "A");
    MsgMatch("A", "A");
    assert FirstMatch(s.queue, Matcher(Msg("A"))) == Some(1);
    ExpectQueuedMatch(s, Msg("A"), 500);
  }

  /** test_engine_buffering_multiple: 3, 2, 1 queued, expect 1, 2, 3. All three
      succeed, the second and third from the buffer, which ends empty. */
  lemma BufferedReordersThree(now: int)
    ensures ExpectBuffered(Queued(now, [Msg("3"), Msg("2"), Msg("1")]), Msg("1"), 500) ==
      (Matched, Queued(now, []).(skipped := [Msg("3"), Msg("2")]))
    ensures ExpectBuffered(Queued(now, []).(skipped := [Msg("3"), Msg("2")]), Msg("2"), 500) ==
      (Matched, Queued(now, []).(skipped := [Msg("3")]))
    ensures ExpectBuffered(Queued(now, []).(skipped := [Msg("3")]), Msg("3"), 500) ==
      (Matched, Queued(now, []))
  {
    BufferedFirst(now);
    BufferedSecond(Queued(now, []).(skipped := [Msg("3"), Msg("2")]));
    BufferedThird(Queued(now, []).(skipped := [Msg("3")]));
  }

  lemma BufferedFirst(now: int)
    ensures ExpectBuffered(Queued(now, [Msg("3"), Msg("2"), Msg("1")]), Msg("1"), 500) ==
      (Matched, Queued(now, []).(skipped := [Msg("3"), Msg("2")]))
  {
    var s := Queued(now, [Msg("3"), Msg("2"), Msg("1")]);
    MsgMatch("3", "1"); MsgMatch("2", "1"); MsgMatch("1", "1");
    assert FirstMatch(s.queue, Matcher(Msg("1"))) == Some(2);
    QueuedMatch(s, Matcher(Msg("1")), now, 500, true);
    assert s.skipped + s.queue[..2] == [Msg("3"), Msg("2")];
    assert s.queue[3..] == [];
  }

  lemma BufferedSecond(s: State)
    requires s.skipped == [Msg("3"), Msg("2")]
    ensures ExpectBuffered(s, Msg("2"), 500) == (Matched, s.(skipped := [Msg("3")]))
  {
    MsgMatch("3", "2"); MsgMatch("2", "2");
    assert FirstMatch(s.skipped, Matcher(Msg("2"))) == Some(1);
    assert s.skipped[..1] + s.skipped[2..] == [Msg("3")];
  }

  lemma BufferedThird(s: State)
    requires s.skipped == [Msg("3")]
    ensures ExpectBuffered(s, Msg("3"), 500) == (Matched, s.(skipped := []))
  {
    MsgMatch("3", "3");
    assert FirstMatch(s.skipped, Matcher(Msg("3"))) == Some(0);
    assert s.skipped[..0] + s.skipped[1..] == [];
  }

  // ---------------------------------------------------------------------------
  // The budget of each expect

  /** Expect A within 500 ms, then B within 100 ms, with A arriving at 10 ms
      and B at 150 ms: the first expect returns at 10 ms, when A is read, so
      the budget of the second runs out at 110 ms, before B arrives, and the
      run fails at step 1. */
  lemma BudgetStartsAtPreviousMatch()
    ensures var frames := [Frame(10, Some(Msg("A"))), Frame(150, Some(Msg("B")))];
      Run(Connected(frames), Script([Models.Expect(500, Msg("A")), Models.Expect(100, Msg("B"))])) ==
      (Failed(1, Msg("B"), 100), State(0, 110, [LogEntry(10, Received, Msg("A"))], [], [], frames[1..], []))
  {
    var frames := [Frame(10, Some(Msg("A"))), Frame(150, Some(Msg("B")))];
    var items := [Models.Expect(500, Msg("A")), Models.Expect(100, Msg("B"))];
    var s := Connected(frames);
    MsgMatch("A", "A");
    var s1 := ReceiveNext(s);
    var entry := LogEntry(10, Received, Msg("A"));
    assert s1 == State(0, 10, [entry], [Msg("A")], [], frames[1..], []);
    assert WaitPacket(s, 500) == s1;
    var w := s1.(queue := []);
    assert ExpectTurn(s, Matcher(Msg("A")), 0, 500, false) == Took(Msg("A"), w);
    assert EngineSpec.ExpectStep(s, Msg("A"), 500) == (Matched, w);
    assert WaitPacket(w, 110) == w;
    assert ExpectTurn(w, Matcher(Msg("B")), 10, 100, false) == Expired(w.(now := 110));
    assert EngineSpec.ExpectStep(w, Msg("B"), 100) == (TimedOut, w.(now := 110));
    assert items[1..][1..] == [];
    assert RunFrom(w, items[1..], 1) == (Failed(1, Msg("B"), 100), w.(now := 110));
  }

  /** Frames A at 10 ms, X at 20 ms and A at 30 ms, expect A within 500 ms:
      the expect returns at 10 ms on the first A, and the later frames stay
      unread. */
  lemma FirstFrameMatchReturns()
    ensures var frames := [Frame(10, Some(Msg("A"))), Frame(20, Some(Msg("X"))), Frame(30, Some(Msg("A")))];
      EngineSpec.ExpectStep(Connected(frames), Msg("A"), 500) ==
      (Matched, State(0, 10, [LogEntry(10, Received, Msg("A"))], [], [], frames[1..], []))
  {
    var frames := [Frame(10, Some(Msg("A"))), Frame(20, Some(Msg("X"))), Frame(30, Some(Msg("A")))];
    var s := Connected(frames);
    MsgMatch("A", "A");
    var s1 := ReceiveNext(s);
    assert s1 == State(0, 10, [LogEntry(10, Received, Msg("A"))], [Msg("A")], [], frames[1..], []);
    assert WaitPacket(s, 500) == s1;
    assert ExpectTurn(s, Matcher(Msg("A")), 0, 500, false) == Took(Msg("A"), s1.(queue := []));
  }
}
