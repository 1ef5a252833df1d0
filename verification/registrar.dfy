/**
 * The test-run registrar (`TestRunRegistrar`): the choice of strategy and the
 * lifecycle contract its documentation states.
 *
 * The concrete registrars are not part of this model. What is modelled is the
 * interface's promise: the `uniqueId` given to `startTest` is the key under
 * which that test's finish is later registered, and a finish without a
 * matching start registers nothing. A state holds the mapping from caller ids
 * to server test ids and the events registered so far.
 */
module Registrar {
  import opened Wrappers
  import opened Configuration

  datatype Strategy = Reporting | NoOp | Stdout

  /** `registrar()`: the reporting registrar when reporting is enabled, the
      no-op registrar otherwise; never the debug one. */
  function SelectRegistrar(c: Config, isEnabled: EnabledRule): (s: Strategy)
    ensures s == Reporting <==> isEnabled(c.enabled)
    ensures s == NoOp <==> !isEnabled(c.enabled)
  {
    if isEnabled(c.enabled) then Reporting else NoOp
  }

  /** `stdoutRegistrar()`: the debug registrar, whatever the configuration;
      `registrar()` never yields it, for any configuration. */
  function StdoutRegistrar(): (s: Strategy)
    ensures s == Stdout
    ensures forall c: Config, isEnabled: EnabledRule :: SelectRegistrar(c, isEnabled) != s
  {
    Stdout
  }

  /** When the chain has resolved and the reporting registrar is chosen, the
      hostname and access token the reporting client needs are both present. */
  lemma ReportingHasCredentials(mode: ServerNormalization, isEnabled: EnabledRule, chain: Chain)
    requires GetConfiguration(mode, isEnabled, chain).Ok?
    requires SelectRegistrar(GetConfiguration(mode, isEnabled, chain).value, isEnabled) == Reporting
    ensures HostnameOf(GetConfiguration(mode, isEnabled, chain).value).Some?
    ensures TokenOf(GetConfiguration(mode, isEnabled, chain).value).Some?
  {
  }

  // ---------------------------------------------------------------------------
  // Lifecycle
  // ---------------------------------------------------------------------------

  datatype Event =
    | RunStarted
    | RunFinished
    | TestStarted(uniqueId: string, testId: int)
    | TestFinished(uniqueId: string, testId: int)

  /** `assignedId` is the id the server gives the test when its start is registered. */
  datatype Call = Start | Finish | StartTest(uniqueId: string, assignedId: int) | FinishTest(uniqueId: string)

  datatype State = State(tests: map<string, int>, registered: seq<Event>)

  const Initial := State(map[], [])

  /** One lifecycle call. The no-op strategy ignores every call. Otherwise a
      test start maps its `uniqueId` to the assigned id, and a test finish looks
      the id up, registers the finish under the mapped test id and forgets the
      mapping; an unmapped id is a silent no-op. */
  function Step(st: Strategy, s: State, call: Call): (r: State)
    ensures st == NoOp ==> r == s
    ensures call.FinishTest? && call.uniqueId !in s.tests ==> r == s
    ensures |r.registered| >= |s.registered| && r.registered[..|s.registered|] == s.registered
    ensures st != NoOp && call.Start? ==> r == s.(registered := s.registered + [RunStarted])
    ensures st != NoOp && call.Finish? ==> r == s.(registered := s.registered + [RunFinished])
    ensures st != NoOp && call.StartTest? ==>
      r.tests == s.tests[call.uniqueId := call.assignedId]
      && r.registered == s.registered + [TestStarted(call.uniqueId, call.assignedId)]
    ensures st != NoOp && call.FinishTest? && call.uniqueId in s.tests ==>
      r.tests == s.tests - {call.uniqueId}
      && r.registered == s.registered + [TestFinished(call.uniqueId, s.tests[call.uniqueId])]
  {
    if st == NoOp then s
    else match call
      case Start => s.(registered := s.registered + [RunStarted])
      case Finish => s.(registered := s.registered + [RunFinished])
      case StartTest(u, id) =>
        State(s.tests[u := id], s.registered + [TestStarted(u, id)])
      case FinishTest(u) =>
        if u in s.tests then State(s.tests - {u}, s.registered + [TestFinished(u, s.tests[u])])
        else s
  }

  function Run(st: Strategy, s: State, calls: seq<Call>): State
    decreases |calls|
  {
    if |calls| == 0 then s else Run(st, Step(st, s, calls[0]), calls[1..])
  }

  lemma {:induction false} RunAppend(st: Strategy, s: State, a: seq<Call>, b: seq<Call>)
    ensures Run(st, s, a + b) == Run(st, Run(st, s, a), b)
    decreases |a|
  {
    if |a| == 0 {
      assert a + b == b;
    } else {
      assert (a + b)[0] == a[0];
      assert (a + b)[1..] == a[1..] + b;
      RunAppend(st, Step(st, s, a[0]), a[1..], b);
    }
  }

  /** In the no-op strategy any sequence of calls leaves the state as it was. */
  lemma {:induction false} NoOpLeavesStateUnchanged(s: State, calls: seq<Call>)
    ensures Run(NoOp, s, calls) == s
    decreases |calls|
  {
    if |calls| > 0 {
      NoOpLeavesStateUnchanged(s, calls[1..]);
    }
  }

  predicate Touches(call: Call, u: string) {
    (call.StartTest? || call.FinishTest?) && call.uniqueId == u
  }

  /** Calls about other tests neither add, change nor remove the mapping of `u`. */
  lemma {:induction false} OtherCallsKeepMapping(st: Strategy, s: State, calls: seq<Call>, u: string)
    requires forall i | 0 <= i < |calls| :: !Touches(calls[i], u)
    ensures var r := Run(st, s, calls);
      (u in r.tests <==> u in s.tests) && (u in s.tests ==> r.tests[u] == s.tests[u])
    decreases |calls|
  {
    if |calls| > 0 {
      OtherCallsKeepMapping(st, Step(st, s, calls[0]), calls[1..], u);
    }
  }

  /** A finish registers under the test id that the matching start received,
      however many calls about other tests come in between, and the mapping
      is gone afterwards. */
  lemma StartThenFinish(st: Strategy, s: State, u: string, id: int, between: seq<Call>)
    requires st != NoOp
    requires forall i | 0 <= i < |between| :: !Touches(between[i], u)
    ensures var r := Run(st, s, [StartTest(u, id)] + between + [FinishTest(u)]);
      u !in r.tests && |r.registered| > 0 && r.registered[|r.registered| - 1] == TestFinished(u, id)
  {
    var s1 := Step(st, s, StartTest(u, id));
    assert Run(st, s, [StartTest(u, id)]) == s1;
    RunAppend(st, s, [StartTest(u, id)], between);
    OtherCallsKeepMapping(st, s1, between, u);
    var s2 := Run(st, s1, between);
    RunAppend(st, s, [StartTest(u, id)] + between, [FinishTest(u)]);
    assert Run(st, s2, [FinishTest(u)]) == Step(st, s2, FinishTest(u));
  }

  /** A finish for an id that was never started (or already finished)
      registers nothing and changes nothing. */
  lemma UnmatchedFinishIsNoOp(st: Strategy, s: State, u: string)
    requires u !in s.tests
    ensures Run(st, s, [FinishTest(u)]) == s
  {
  }

  /** Every mapped id was registered as started with its current test id, and
      every registered finish follows a registered start of the same test. */
  predicate FinishesFollowStarts(s: State) {
    && (forall u | u in s.tests :: TestStarted(u, s.tests[u]) in s.registered)
    && (forall j | 0 <= j < |s.registered| && s.registered[j].TestFinished? ::
          TestStarted(s.registered[j].uniqueId, s.registered[j].testId) in s.registered[..j])
  }

  lemma StepKeepsFinishesFollowStarts(st: Strategy, s: State, call: Call)
    requires FinishesFollowStarts(s)
    ensures FinishesFollowStarts(Step(st, s, call))
  {
    var r := Step(st, s, call);
    forall j | 0 <= j < |r.registered| && r.registered[j].TestFinished?
      ensures TestStarted(r.registered[j].uniqueId, r.registered[j].testId) in r.registered[..j]
    {
      if j < |s.registered| {
        assert r.registered[..j] == s.registered[..j];
        assert r.registered[j] == s.registered[j];
      } else {
        assert r.registered[..j] == s.registered;
      }
    }
  }

  /** From the initial state, whatever calls arrive, a finish is registered
      only for a test whose start was registered earlier under the same ids. */
  lemma {:induction false} RunKeepsFinishesFollowStarts(st: Strategy, s: State, calls: seq<Call>)
    requires FinishesFollowStarts(s)
    ensures FinishesFollowStarts(Run(st, s, calls))
    decreases |calls|
  {
    if |calls| > 0 {
      StepKeepsFinishesFollowStarts(st, s, calls[0]);
      RunKeepsFinishesFollowStarts(st, Step(st, s, calls[0]), calls[1..]);
    }
  }

  lemma FinishesFollowStartsFromInitial(st: Strategy, calls: seq<Call>)
    ensures FinishesFollowStarts(Run(st, Initial, calls))
  {
    RunKeepsFinishesFollowStarts(st, Initial, calls);
  }
}
