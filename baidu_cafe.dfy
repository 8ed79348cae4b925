/**
 * The activity-readiness loop a Cafe test case runs during set-up: probe for the
 * activity under test with a timeout and, each time the probe times out, press
 * HOME, wait, and relaunch the activity with an `am start` shell command, until a
 * probe returns.
 *
 * The probe is an oracle: the loop reads its outcomes from a script. Everything it
 * does to the outside world is recorded as an Action, in order.
 */
module BaiduCafe {
  import opened Wrappers

  const KEYCODE_HOME: int := 3
  const PROBE_TIMEOUT_MS: nat := 5000
  const SETTLE_MS: nat := 1000
  const START_TIMEOUT_MS: nat := 3000
  const START_PREFIX := "am start -a android.intent.action.MAIN -n "
  const NO_REMOTE_MESSAGE := "null == remote at launchActivityIfNotAvailable"
  const SUCCESS_MESSAGE := "get activity success"

  /** An opaque handle to an Activity object. */
  type ActivityRef = nat

  /** A Java class: the name of its package and its fully-qualified name. */
  datatype ClassRef = ClassRef(packageName: string, name: string)

  /** What one timed probe reports: it returned (after storing the activity) or it timed out (null). */
  datatype ProbeOutcome = Returned(activity: ActivityRef) | TimedOut

  /** An externally visible effect of the loop. */
  datatype Action =
    | Probe(timeoutMs: nat)                                    // ShellExecute.doInTimeout(getActivity)
    | PressKey(keyCode: int)                                   // remote.pressKey
    | Sleep(ms: nat)                                           // Thread.sleep
    | Log(message: string)                                     // Log.i
    | Shell(command: string, directory: string, timeoutMs: nat) // ShellExecute.execute

  /** How the method ends. StillWaiting: the probe script ran out while the loop was still retrying. */
  datatype LaunchOutcome =
    | NoRemote
    | Ready(activity: ActivityRef)
    | NullPointer
    | StillWaiting

  datatype LaunchRun = LaunchRun(actions: seq<Action>, outcome: LaunchOutcome)

  /** The relaunch command, as String.format builds it from the package name and the class name. */
  function StartCommand(cls: ClassRef): (cmd: string)
    ensures START_PREFIX <= cmd
    ensures |cmd| == |START_PREFIX| + |cls.packageName| + 1 + |cls.name|
    ensures cmd[|START_PREFIX| + |cls.packageName|] == '/'
    ensures cmd[|START_PREFIX|..|START_PREFIX| + |cls.packageName|] == cls.packageName
    ensures cmd[|START_PREFIX| + |cls.packageName| + 1..] == cls.name
  {
    START_PREFIX + cls.packageName + "/" + cls.name
  }

  /** What follows a timed-out probe when the activity class is known. */
  function Recovery(cls: ClassRef): seq<Action>
  {
    var cmd := StartCommand(cls);
    [PressKey(KEYCODE_HOME), Sleep(SETTLE_MS), Log("execute cmd " + cmd), Shell(cmd, "/", START_TIMEOUT_MS)]
  }

  /** `n` timed-out probes, each followed by its recovery. */
  function Cycles(cls: ClassRef, n: nat): seq<Action>
  {
    if n == 0 then [] else [Probe(PROBE_TIMEOUT_MS)] + Recovery(cls) + Cycles(cls, n - 1)
  }

  /** The `while (true)` loop run against a script of probe outcomes. */
  function Loop(activityClass: Option<ClassRef>, probes: seq<ProbeOutcome>): (r: LaunchRun)
    ensures r.outcome != NoRemote
    ensures r.outcome.StillWaiting? ==> forall j :: 0 <= j < |probes| ==> probes[j].TimedOut?
    ensures r.outcome.Ready? ==> Returned(r.outcome.activity) in probes
    ensures r.actions != [] ==> r.actions[0] == Probe(PROBE_TIMEOUT_MS)
    decreases |probes|
  {
    if probes == [] then LaunchRun([], StillWaiting)
    else match probes[0]
      case Returned(a) => LaunchRun([Probe(PROBE_TIMEOUT_MS), Log(SUCCESS_MESSAGE)], Ready(a))
      case TimedOut =>
        if activityClass == None then
          LaunchRun([Probe(PROBE_TIMEOUT_MS), PressKey(KEYCODE_HOME), Sleep(SETTLE_MS)], NullPointer)
        else
          var rest := Loop(activityClass, probes[1..]);
          LaunchRun([Probe(PROBE_TIMEOUT_MS)] + Recovery(activityClass.value) + rest.actions, rest.outcome)
  }

  /** The whole method: without a remote it only logs and returns. */
  function Launch(remoteBound: bool, activityClass: Option<ClassRef>, probes: seq<ProbeOutcome>): (r: LaunchRun)
    ensures r.outcome.NoRemote? <==> !remoteBound
    ensures !remoteBound ==> r.actions == [Log(NO_REMOTE_MESSAGE)]
  {
    if !remoteBound then LaunchRun([Log(NO_REMOTE_MESSAGE)], NoRemote) else Loop(activityClass, probes)
  }

  // ---------------------------------------------------------------------------
  // The test case
  // ---------------------------------------------------------------------------

  class CafeTestCase {
    const activityClass: Option<ClassRef>  // the class to relaunch; null unless a constructor records it
    var activity: Option<ActivityRef>      // the activity the last successful probe stored
    var actions: seq<Action>               // every effect so far, oldest first

    /** The constructor for Android after 2.1: it passes the class to the superclass only. */
    constructor ForActivity(cls: ClassRef)
      ensures activityClass == None && activity == None && actions == []
    {
      activityClass := None;
      activity := None;
      actions := [];
    }

    /** The constructor for Android up to 2.1: it records the class. */
    constructor ForPackage(packageName: string, cls: ClassRef)
      ensures activityClass == Some(cls) && activity == None && actions == []
    {
      activityClass := Some(cls);
      activity := None;
      actions := [];
    }

    /** The constructor for Android after 2.1 as it is evidently meant: it records the class too. */
    constructor ForActivityRecorded(cls: ClassRef)
      ensures activityClass == Some(cls) && activity == None && actions == []
    {
      activityClass := Some(cls);
      activity := None;
      actions := [];
    }

    /**
     * Probes up to the first success, recovering after every timeout. `remoteBound`
     * says whether the shared remote-control connection exists.
     */
    method LaunchActivityIfNotAvailable(remoteBound: bool, probes: seq<ProbeOutcome>) returns (outcome: LaunchOutcome)
      modifies this
      ensures actions == old(actions) + Launch(remoteBound, activityClass, probes).actions
      ensures outcome == Launch(remoteBound, activityClass, probes).outcome
      ensures activity == if outcome.Ready? then Some(outcome.activity) else old(activity)
    {
      if !remoteBound {
        actions := actions + [Log(NO_REMOTE_MESSAGE)];
        return NoRemote;
      }
      var i := 0;
      while true
        invariant 0 <= i <= |probes|
        invariant actions + Loop(activityClass, probes[i..]).actions == old(actions) + Loop(activityClass, probes).actions
        invariant Loop(activityClass, probes[i..]).outcome == Loop(activityClass, probes).outcome
        invariant activity == old(activity)
        decreases |probes| - i
      {
        if i == |probes| {
          // the script has no further outcome; the program itself would go on probing
          return StillWaiting;
        }
        assert probes[i..][1..] == probes[i + 1..];
        actions := actions + [Probe(PROBE_TIMEOUT_MS)];
        var ret := probes[i];
        i := i + 1;
        if ret.TimedOut? {
          actions := actions + [PressKey(KEYCODE_HOME)];
          actions := actions + [Sleep(SETTLE_MS)];
          if activityClass == None {
            return NullPointer;
          }
          var cmd := StartCommand(activityClass.value);
          assert Recovery(activityClass.value) == [PressKey(KEYCODE_HOME), Sleep(SETTLE_MS), Log("execute cmd " + cmd), Shell(cmd, "/", START_TIMEOUT_MS)];
          actions := actions + [Log("execute cmd " + cmd)];
          actions := actions + [Shell(cmd, "/", START_TIMEOUT_MS)];
        } else {
          activity := Some(ret.activity);
          actions := actions + [Log(SUCCESS_MESSAGE)];
          outcome := Ready(ret.activity);
          break;
        }
      }
    }
  }

  // ---------------------------------------------------------------------------
  // Properties of the loop
  // ---------------------------------------------------------------------------

  predicate IsProbe(a: Action) { a.Probe? }
  predicate IsHomePress(a: Action) { a == PressKey(KEYCODE_HOME) }
  predicate IsRestart(a: Action) { a.Shell? }

  /** How many actions satisfy `p`. */
  function Count(actions: seq<Action>, p: Action -> bool): nat
  {
    if actions == [] then 0 else (if p(actions[0]) then 1 else 0) + Count(actions[1..], p)
  }

  lemma {:induction false} CountAppend(a: seq<Action>, b: seq<Action>, p: Action -> bool)
    ensures Count(a + b, p) == Count(a, p) + Count(b, p)
  {
    if a == [] {
      assert a + b == b;
    } else {
      assert (a + b)[0] == a[0];
      assert (a + b)[1..] == a[1..] + b;
      CountAppend(a[1..], b, p);
    }
  }

  /** Counting the first element off. */
  lemma CountCons(x: Action, s: seq<Action>, p: Action -> bool)
    ensures Count([x] + s, p) == (if p(x) then 1 else 0) + Count(s, p)
  {
    assert ([x] + s)[0] == x;
    assert ([x] + s)[1..] == s;
  }

  /** One cycle holds one probe, one HOME press and one restart command. */
  lemma CycleCounts(cls: ClassRef)
    ensures Count([Probe(PROBE_TIMEOUT_MS)] + Recovery(cls), IsProbe) == 1
    ensures Count([Probe(PROBE_TIMEOUT_MS)] + Recovery(cls), IsHomePress) == 1
    ensures Count([Probe(PROBE_TIMEOUT_MS)] + Recovery(cls), IsRestart) == 1
  {
    var cmd := StartCommand(cls);
    var a0, a1, a2, a3, a4 := Probe(PROBE_TIMEOUT_MS), PressKey(KEYCODE_HOME), Sleep(SETTLE_MS),
      Log("execute cmd " + cmd), Shell(cmd, "/", START_TIMEOUT_MS);
    assert [Probe(PROBE_TIMEOUT_MS)] + Recovery(cls) == [a0] + ([a1] + ([a2] + ([a3] + ([a4] + []))));
    forall p: Action -> bool
      ensures Count([a0] + ([a1] + ([a2] + ([a3] + ([a4] + [])))), p)
           == (if p(a0) then 1 else 0) + (if p(a1) then 1 else 0) + (if p(a2) then 1 else 0)
            + (if p(a3) then 1 else 0) + (if p(a4) then 1 else 0)
    {
      CountCons(a4, [], p);
      CountCons(a3, [a4] + [], p);
      CountCons(a2, [a3] + ([a4] + []), p);
      CountCons(a1, [a2] + ([a3] + ([a4] + [])), p);
      CountCons(a0, [a1] + ([a2] + ([a3] + ([a4] + []))), p);
    }
  }

  /** `n` cycles hold exactly `n` probes, `n` HOME presses and `n` restart commands. */
  lemma {:induction false} CyclesCounts(cls: ClassRef, n: nat)
    ensures Count(Cycles(cls, n), IsProbe) == n
    ensures Count(Cycles(cls, n), IsHomePress) == n
    ensures Count(Cycles(cls, n), IsRestart) == n
  {
    if n > 0 {
      CyclesCounts(cls, n - 1);
      CycleCounts(cls);
      var first := [Probe(PROBE_TIMEOUT_MS)] + Recovery(cls);
      CountAppend(first, Cycles(cls, n - 1), IsProbe);
      CountAppend(first, Cycles(cls, n - 1), IsHomePress);
      CountAppend(first, Cycles(cls, n - 1), IsRestart);
    }
  }

  /**
   * When the first successful probe is the one at index `n`, the loop runs exactly
   * `n` recovery cycles, then the successful probe and its log line, and stops there.
   */
  lemma {:induction false} RetriesUntilFirstSuccess(cls: ClassRef, probes: seq<ProbeOutcome>, n: nat)
    requires n < |probes| && probes[n].Returned?
    requires forall j :: 0 <= j < n ==> probes[j].TimedOut?
    ensures Loop(Some(cls), probes)
         == LaunchRun(Cycles(cls, n) + [Probe(PROBE_TIMEOUT_MS), Log(SUCCESS_MESSAGE)], Ready(probes[n].activity))
  {
    if n > 0 {
      RetriesUntilFirstSuccess(cls, probes[1..], n - 1);
    }
  }

  /** The same, counted: `n + 1` probes and `n` HOME presses and restart commands. */
  lemma FirstSuccessCounts(cls: ClassRef, probes: seq<ProbeOutcome>, n: nat)
    requires n < |probes| && probes[n].Returned?
    requires forall j :: 0 <= j < n ==> probes[j].TimedOut?
    ensures Count(Loop(Some(cls), probes).actions, IsProbe) == n + 1
    ensures Count(Loop(Some(cls), probes).actions, IsHomePress) == n
    ensures Count(Loop(Some(cls), probes).actions, IsRestart) == n
  {
    RetriesUntilFirstSuccess(cls, probes, n);
    CyclesCounts(cls, n);
    var tail := [Probe(PROBE_TIMEOUT_MS), Log(SUCCESS_MESSAGE)];
    CountCons(Log(SUCCESS_MESSAGE), [], IsProbe);
    CountCons(Log(SUCCESS_MESSAGE), [], IsHomePress);
    CountCons(Log(SUCCESS_MESSAGE), [], IsRestart);
    assert tail == [Probe(PROBE_TIMEOUT_MS)] + [Log(SUCCESS_MESSAGE)];
    CountCons(Probe(PROBE_TIMEOUT_MS), [Log(SUCCESS_MESSAGE)], IsProbe);
    CountCons(Probe(PROBE_TIMEOUT_MS), [Log(SUCCESS_MESSAGE)], IsHomePress);
    CountCons(Probe(PROBE_TIMEOUT_MS), [Log(SUCCESS_MESSAGE)], IsRestart);
    CountAppend(Cycles(cls, n), tail, IsProbe);
    CountAppend(Cycles(cls, n), tail, IsHomePress);
    CountAppend(Cycles(cls, n), tail, IsRestart);
  }

  /**
   * There is no retry limit: however many timeouts come, the loop recovers after
   * each and is still waiting for the next probe.
   */
  lemma {:induction false} NoRetryLimit(cls: ClassRef, probes: seq<ProbeOutcome>)
    requires forall j :: 0 <= j < |probes| ==> probes[j].TimedOut?
    ensures Loop(Some(cls), probes) == LaunchRun(Cycles(cls, |probes|), StillWaiting)
  {
    if probes != [] {
      NoRetryLimit(cls, probes[1..]);
    }
  }

  /** Once the class is recorded, the loop never throws, whatever the probes report. */
  lemma {:induction false} RecordedClassNeverThrows(cls: ClassRef, probes: seq<ProbeOutcome>)
    ensures Loop(Some(cls), probes).outcome != NullPointer
  {
    if probes != [] && probes[0].TimedOut? {
      RecordedClassNeverThrows(cls, probes[1..]);
    }
  }

  /** Without a recorded class the first timeout throws, right after the HOME press and the sleep. */
  lemma TimeoutWithoutClassThrows(probes: seq<ProbeOutcome>)
    requires probes != [] && probes[0].TimedOut?
    ensures Launch(true, None, probes)
         == LaunchRun([Probe(PROBE_TIMEOUT_MS), PressKey(KEYCODE_HOME), Sleep(SETTLE_MS)], NullPointer)
  {
  }

  // ---------------------------------------------------------------------------
  // Reading the relaunch command back
  // ---------------------------------------------------------------------------

  /** Splits at the first '/', as `am` reads a component name "package/class". */
  function SplitAtSlash(s: string): Option<(string, string)>
  {
    if s == [] then None
    else if s[0] == '/' then Some(([], s[1..]))
    else match SplitAtSlash(s[1..])
      case None => None
      case Some(parts) => Some(([s[0]] + parts.0, parts.1))
  }

  /** The component the relaunch command names, if it is a relaunch command. */
  function ParseStartCommand(cmd: string): Option<ClassRef>
  {
    if START_PREFIX <= cmd then
      match SplitAtSlash(cmd[|START_PREFIX|..])
      case None => None
      case Some(parts) => Some(ClassRef(parts.0, parts.1))
    else None
  }

  lemma {:induction false} SplitAtSlashFindsFirst(a: string, b: string)
    requires '/' !in a
    ensures SplitAtSlash(a + "/" + b) == Some((a, b))
  {
    if a != [] {
      assert (a + "/" + b)[1..] == a[1..] + "/" + b;
      SplitAtSlashFindsFirst(a[1..], b);
      assert [a[0]] + a[1..] == a;
    } else {
      assert a + "/" + b == ['/'] + b;
    }
  }

  /** The command names exactly the package and class it was built from (package names hold no '/'). */
  lemma StartCommandRoundTrip(cls: ClassRef)
    requires '/' !in cls.packageName
    ensures ParseStartCommand(StartCommand(cls)) == Some(cls)
  {
    var cmd := StartCommand(cls);
    assert cmd[|START_PREFIX|..] == cls.packageName + "/" + cls.name;
    SplitAtSlashFindsFirst(cls.packageName, cls.name);
  }

  // ---------------------------------------------------------------------------
  // Scenario
  // ---------------------------------------------------------------------------

  /** Two timed-out probes and then a successful one: exactly two restarts, and the activity is stored. */
  method TwoTimeoutsScenario() returns (outcome: LaunchOutcome, restarts: nat, stored: Option<ActivityRef>)
    ensures outcome == Ready(7) && restarts == 2 && stored == Some(7)
  {
    var cls := ClassRef("com.example", "com.example.Main");
    var test := new CafeTestCase.ForPackage("com.example", cls);
    var probes := [TimedOut, TimedOut, Returned(7)];
    outcome := test.LaunchActivityIfNotAvailable(true, probes);
    FirstSuccessCounts(cls, probes, 2);
    assert test.actions == [] + Loop(Some(cls), probes).actions == Loop(Some(cls), probes).actions;
    restarts := Count(test.actions, IsRestart);
    stored := test.activity;
  }
}
