/** The orchestrator (src/main.py): `Assistant` builds the modules the
    settings enable, wires their callbacks, brings them up in a fixed
    order and down in another, fans power events out to the recorders and
    runs the daily summary without ever letting its exception escape.
    `__init__` followed by `setup` is the constructor; `setUp` keeps what
    `setup` returned. The audio recorder's source is not part of this
    model: it appears only as a flag and as the calls made on it. Every
    lifecycle call and queue hand-off the assistant makes is recorded in
    `trace`, so that their order can be stated. */
module Assistant {
  import opened Wrappers
  import opened Helpers
  import opened Files
  import Strings
  import Config
  import Transcriber
  import ScreenAnalyzer
  import ScreenCapture
  import KeyboardAnalyzer
  import KeyboardRecorder
  import Drive
  import Email
  import Summary
  import Scheduler
  import Power

  /** The modules whose lifecycle the assistant drives. */
  datatype Component =
    | AudioTranscriberPart | AudioRecorderPart
    | ScreenAnalyzerPart | ScreenCapturePart
    | KeyboardAnalyzerPart | KeyboardRecorderPart
    | SchedulerPart | PowerMonitorPart

  datatype Kind = StartCall | StopCall | PauseCall | ResumeCall

  /** One call the assistant makes on a module: `start`, `stop`, `pause`
      or `resume`, or `add_to_queue` with a file. */
  datatype Call =
    | Lifecycle(kind: Kind, part: Component)
    | Enqueued(part: Component, file: FilePath)

  /** What the process provides besides the settings: the project root,
      the prompts as loaded, the privacy lists, and the Drive account. */
  datatype Environment = Environment(
    root: string,
    screenPrompt: string, keyboardPrompt: string, summaryPrompt: string,
    excludedApps: seq<string>, excludedWindows: seq<string>,
    authenticated: bool, remote: seq<Drive.Entry>)

  // The callbacks the assistant registers, named by number.
  const SummaryCallback: nat := 0
  const CleanupCallback: nat := 1
  const SleepCallback: nat := 2
  const WakeCallback: nat := 3
  const LockCallback: nat := 4
  const UnlockCallback: nat := 5

  /** `_setup_scheduler`'s registrations. */
  const SchedulerTable: map<string, nat> := map["on_summary_time" := SummaryCallback, "on_cleanup" := CleanupCallback]

  /** `_setup_power_monitor`'s registrations. */
  const PowerTable: map<string, nat> :=
    map["on_sleep" := SleepCallback, "on_wake" := WakeCallback, "on_lock" := LockCallback, "on_unlock" := UnlockCallback]

  /** `config.<section>_enabled`: the truth of `<section>.enabled`, false
      when it is missing. */
  predicate Enabled(config: Config.Value, section: string) {
    Config.Truthy(Config.Setting(config, [section, "enabled"], Config.Bool(false)))
  }

  /** A whole-number setting; a value of any other kind is read as the
      default. */
  function NatSetting(config: Config.Value, keys: seq<string>, default: nat): nat {
    match Config.Setting(config, keys, Config.Int(default))
    case Int(i) => if i >= 0 then i else default
    case _ => default
  }

  // ---------------------------------------------------------------------
  // Calls on the present modules, in a fixed order

  /** The call on `part` when it is present, nothing otherwise. */
  function Only(present: set<Component>, part: Component, call: Call): (r: seq<Call>)
    ensures forall x :: x in r <==> part in present && x == call
  {
    if part in present then [call] else []
  }

  /** One call of the same kind on each present module of `parts`, in
      that order. */
  function CallsOn(kind: Kind, parts: seq<Component>, present: set<Component>): seq<Call>
    decreases |parts|
  {
    if |parts| == 0 then [] else Only(present, parts[0], Lifecycle(kind, parts[0])) + CallsOn(kind, parts[1..], present)
  }

  /** The calls are on the present members of `parts` and on nothing
      else. */
  lemma {:induction false} CallsOnHas(kind: Kind, parts: seq<Component>, present: set<Component>, c: Call)
    ensures c in CallsOn(kind, parts, present) <==> c.Lifecycle? && c.kind == kind && c.part in parts && c.part in present
    decreases |parts|
  {
    if |parts| > 0 {
      CallsOnHas(kind, parts[1..], present, c);
      assert c.Lifecycle? && c.part in parts ==> c.part == parts[0] || c.part in parts[1..];
    }
  }

  lemma {:induction false} CallsOnAppend(kind: Kind, xs: seq<Component>, ys: seq<Component>, present: set<Component>)
    ensures CallsOn(kind, xs + ys, present) == CallsOn(kind, xs, present) + CallsOn(kind, ys, present)
    decreases |xs|
  {
    if |xs| == 0 {
      assert xs + ys == ys;
    } else {
      assert (xs + ys)[1..] == xs[1..] + ys;
      CallsOnAppend(kind, xs[1..], ys, present);
    }
  }

  lemma CallsOnOne(kind: Kind, a: Component, present: set<Component>)
    ensures CallsOn(kind, [a], present) == Only(present, a, Lifecycle(kind, a))
  {
    assert [a][1..] == [];
  }

  lemma CallsOnTwo(kind: Kind, a: Component, b: Component, present: set<Component>)
    ensures CallsOn(kind, [a, b], present) == Only(present, a, Lifecycle(kind, a)) + Only(present, b, Lifecycle(kind, b))
  {
    assert [a, b] == [a] + [b];
    CallsOnAppend(kind, [a], [b], present);
    CallsOnOne(kind, a, present);
    CallsOnOne(kind, b, present);
  }

  lemma AppendAssoc(a: seq<Call>, b: seq<Call>, c: seq<Call>)
    ensures (a + b) + c == a + (b + c)
  {
  }

  lemma Regroup4(t: seq<Call>, a: seq<Call>, b: seq<Call>, c: seq<Call>, d: seq<Call>)
    ensures t + a + b + c + d == t + (a + b + c + d)
  {
    AppendAssoc(t, a, b);
    AppendAssoc(t, a + b, c);
    AppendAssoc(t, a + b + c, d);
  }

  // ---------------------------------------------------------------------
  // Order in a trace

  /** `x` occurs somewhere before `y`. */
  predicate Before(s: seq<Call>, x: Call, y: Call) {
    exists i, j :: 0 <= i < j < |s| && s[i] == x && s[j] == y
  }

  lemma BeforeAcross(a: seq<Call>, b: seq<Call>, x: Call, y: Call)
    requires x in a && y in b
    ensures Before(a + b, x, y)
  {
    var i :| 0 <= i < |a| && a[i] == x;
    var j :| 0 <= j < |b| && b[j] == y;
    assert (a + b)[i] == x && (a + b)[|a| + j] == y;
  }

  lemma BeforeLeft(a: seq<Call>, b: seq<Call>, x: Call, y: Call)
    requires Before(a, x, y)
    ensures Before(a + b, x, y)
  {
    var i, j :| 0 <= i < j < |a| && a[i] == x && a[j] == y;
    assert (a + b)[i] == x && (a + b)[j] == y;
  }

  lemma BeforeRight(a: seq<Call>, b: seq<Call>, x: Call, y: Call)
    requires Before(b, x, y)
    ensures Before(a + b, x, y)
  {
    var i, j :| 0 <= i < j < |b| && b[i] == x && b[j] == y;
    assert (a + b)[|a| + i] == x && (a + b)[|a| + j] == y;
  }

  /** The calls keep the order of `parts`. */
  lemma {:induction false} CallsOnOrder(kind: Kind, parts: seq<Component>, present: set<Component>, i: nat, j: nat)
    requires i < j < |parts| && parts[i] in present && parts[j] in present
    ensures Before(CallsOn(kind, parts, present), Lifecycle(kind, parts[i]), Lifecycle(kind, parts[j]))
    decreases |parts|
  {
    var head := Only(present, parts[0], Lifecycle(kind, parts[0]));
    var rest := CallsOn(kind, parts[1..], present);
    if i == 0 {
      CallsOnHas(kind, parts[1..], present, Lifecycle(kind, parts[j]));
      assert parts[1..][j - 1] == parts[j];
      BeforeAcross(head, rest, Lifecycle(kind, parts[i]), Lifecycle(kind, parts[j]));
    } else {
      CallsOnOrder(kind, parts[1..], present, i - 1, j - 1);
      assert parts[1..][i - 1] == parts[i] && parts[1..][j - 1] == parts[j];
      BeforeRight(head, rest, Lifecycle(kind, parts[i]), Lifecycle(kind, parts[j]));
    }
  }

  // ---------------------------------------------------------------------
  // start and stop

  /** `start`'s order: each worker before its producer, the scheduler and
      the power monitor last. */
  const StartParts: seq<Component> := [AudioTranscriberPart, AudioRecorderPart, ScreenAnalyzerPart, ScreenCapturePart,
                                       KeyboardAnalyzerPart, KeyboardRecorderPart, SchedulerPart, PowerMonitorPart]

  /** `StartParts` names every module. */
  lemma EveryPart()
    ensures forall m :: m in StartParts
  {
    forall m
      ensures m in StartParts
    {
      match m
      case AudioTranscriberPart => assert StartParts[0] == m;
      case AudioRecorderPart => assert StartParts[1] == m;
      case ScreenAnalyzerPart => assert StartParts[2] == m;
      case ScreenCapturePart => assert StartParts[3] == m;
      case KeyboardAnalyzerPart => assert StartParts[4] == m;
      case KeyboardRecorderPart => assert StartParts[5] == m;
      case SchedulerPart => assert StartParts[6] == m;
      case PowerMonitorPart => assert StartParts[7] == m;
    }
  }

  function StartCalls(present: set<Component>): seq<Call> {
    CallsOn(StartCall, StartParts, present)
  }

  /** The modules `start` reaches before the power monitor. */
  const StartBeforePower: seq<Component> := [AudioTranscriberPart, AudioRecorderPart, ScreenAnalyzerPart, ScreenCapturePart,
                                             KeyboardAnalyzerPart, KeyboardRecorderPart, SchedulerPart]

  /** The calls `start` makes when the scheduler's `start` raises: every
      present module up to the scheduler, whose call is made and fails. */
  function AbortedStartCalls(present: set<Component>): seq<Call> {
    CallsOn(StartCall, StartBeforePower, present)
  }

  /** The calls `start` makes, whether the scheduler's `start` goes
      through or raises. */
  function LaunchCalls(schedulerStarts: bool, present: set<Component>): seq<Call> {
    if schedulerStarts then StartCalls(present) else AbortedStartCalls(present)
  }

  /** An aborted `start` makes the calls of a full one up to the power
      monitor's, which it never makes. */
  lemma AbortedStart(present: set<Component>)
    ensures StartCalls(present) == AbortedStartCalls(present) + Only(present, PowerMonitorPart, Lifecycle(StartCall, PowerMonitorPart))
    ensures Lifecycle(StartCall, PowerMonitorPart) !in AbortedStartCalls(present)
    ensures forall m :: m != PowerMonitorPart ==> (Lifecycle(StartCall, m) in AbortedStartCalls(present) <==> m in present)
  {
    assert StartParts == StartBeforePower + [PowerMonitorPart];
    CallsOnAppend(StartCall, StartBeforePower, [PowerMonitorPart], present);
    CallsOnOne(StartCall, PowerMonitorPart, present);
    CallsOnHas(StartCall, StartBeforePower, present, Lifecycle(StartCall, PowerMonitorPart));
    forall m | m != PowerMonitorPart
      ensures Lifecycle(StartCall, m) in AbortedStartCalls(present) <==> m in present
    {
      CallsOnHas(StartCall, StartBeforePower, present, Lifecycle(StartCall, m));
      assert m in StartBeforePower by {
        match m
        case AudioTranscriberPart => assert StartBeforePower[0] == m;
        case AudioRecorderPart => assert StartBeforePower[1] == m;
        case ScreenAnalyzerPart => assert StartBeforePower[2] == m;
        case ScreenCapturePart => assert StartBeforePower[3] == m;
        case KeyboardAnalyzerPart => assert StartBeforePower[4] == m;
        case KeyboardRecorderPart => assert StartBeforePower[5] == m;
        case SchedulerPart => assert StartBeforePower[6] == m;
      }
    }
  }

  /** What the keyboard recorder's final flush hands to the analyzer. */
  function Handoff(present: set<Component>, flushed: Option<FilePath>): seq<Call> {
    if KeyboardRecorderPart in present && KeyboardAnalyzerPart in present && flushed.Some?
    then [Enqueued(KeyboardAnalyzerPart, flushed.value)] else []
  }

  /** The modules `stop` stops before the keyboard recorder's hand-off, and
      those it stops after. */
  const StopFirst: seq<Component> := [PowerMonitorPart, SchedulerPart, ScreenCapturePart, ScreenAnalyzerPart, KeyboardRecorderPart]
  const StopLast: seq<Component> := [KeyboardAnalyzerPart, AudioRecorderPart, AudioTranscriberPart]

  /** `stop`'s order: the power monitor and the scheduler first, then
      each producer before its own worker; the keyboard recorder's flush
      is handed over while its analyzer still runs. */
  function StopCalls(present: set<Component>, flushed: Option<FilePath>): seq<Call> {
    CallsOn(StopCall, StopFirst, present) + Handoff(present, flushed) + CallsOn(StopCall, StopLast, present)
  }

  /** `start` starts the present modules, and only them. */
  lemma StartsPresent(present: set<Component>)
    ensures forall m :: Lifecycle(StartCall, m) in StartCalls(present) <==> m in present
    ensures forall c :: c in StartCalls(present) ==> c.Lifecycle? && c.kind == StartCall
  {
    EveryPart();
    forall c
      ensures c in StartCalls(present) <==> c.Lifecycle? && c.kind == StartCall && c.part in present
    {
      CallsOnHas(StartCall, StartParts, present, c);
    }
  }

  /** `start` starts each worker before its producer, and the scheduler
      before the power monitor. */
  lemma StartOrder(present: set<Component>)
    ensures AudioTranscriberPart in present && AudioRecorderPart in present ==>
      Before(StartCalls(present), Lifecycle(StartCall, AudioTranscriberPart), Lifecycle(StartCall, AudioRecorderPart))
    ensures ScreenAnalyzerPart in present && ScreenCapturePart in present ==>
      Before(StartCalls(present), Lifecycle(StartCall, ScreenAnalyzerPart), Lifecycle(StartCall, ScreenCapturePart))
    ensures KeyboardAnalyzerPart in present && KeyboardRecorderPart in present ==>
      Before(StartCalls(present), Lifecycle(StartCall, KeyboardAnalyzerPart), Lifecycle(StartCall, KeyboardRecorderPart))
    ensures SchedulerPart in present && PowerMonitorPart in present ==>
      Before(StartCalls(present), Lifecycle(StartCall, SchedulerPart), Lifecycle(StartCall, PowerMonitorPart))
  {
    if AudioTranscriberPart in present && AudioRecorderPart in present {
      CallsOnOrder(StartCall, StartParts, present, 0, 1);
    }
    if ScreenAnalyzerPart in present && ScreenCapturePart in present {
      CallsOnOrder(StartCall, StartParts, present, 2, 3);
    }
    if KeyboardAnalyzerPart in present && KeyboardRecorderPart in present {
      CallsOnOrder(StartCall, StartParts, present, 4, 5);
    }
    if SchedulerPart in present && PowerMonitorPart in present {
      CallsOnOrder(StartCall, StartParts, present, 6, 7);
    }
  }

  /** `stop` stops the present modules, and only them. */
  lemma StopsPresent(present: set<Component>, flushed: Option<FilePath>)
    ensures forall m :: Lifecycle(StopCall, m) in StopCalls(present, flushed) <==> m in present
  {
    var first, last := StopFirst, StopLast;
    forall m
      ensures Lifecycle(StopCall, m) in StopCalls(present, flushed) <==> m in present
    {
      var c := Lifecycle(StopCall, m);
      CallsOnHas(StopCall, first, present, c);
      CallsOnHas(StopCall, last, present, c);
      assert m in first || m in last by {
        match m
        case PowerMonitorPart => assert first[0] == m;
        case SchedulerPart => assert first[1] == m;
        case ScreenCapturePart => assert first[2] == m;
        case ScreenAnalyzerPart => assert first[3] == m;
        case KeyboardRecorderPart => assert first[4] == m;
        case KeyboardAnalyzerPart => assert last[0] == m;
        case AudioRecorderPart => assert last[1] == m;
        case AudioTranscriberPart => assert last[2] == m;
      }
    }
  }

  /** `stop` stops the power monitor before the scheduler and each
      producer before its own worker; the keyboard recorder's last flush
      reaches the analyzer's queue between the recorder's stop and the
      analyzer's. */
  lemma StopOrder(present: set<Component>, flushed: Option<FilePath>)
    ensures SchedulerPart in present && PowerMonitorPart in present ==>
      Before(StopCalls(present, flushed), Lifecycle(StopCall, PowerMonitorPart), Lifecycle(StopCall, SchedulerPart))
    ensures ScreenAnalyzerPart in present && ScreenCapturePart in present ==>
      Before(StopCalls(present, flushed), Lifecycle(StopCall, ScreenCapturePart), Lifecycle(StopCall, ScreenAnalyzerPart))
    ensures KeyboardAnalyzerPart in present && KeyboardRecorderPart in present ==>
      Before(StopCalls(present, flushed), Lifecycle(StopCall, KeyboardRecorderPart), Lifecycle(StopCall, KeyboardAnalyzerPart))
    ensures AudioTranscriberPart in present && AudioRecorderPart in present ==>
      Before(StopCalls(present, flushed), Lifecycle(StopCall, AudioRecorderPart), Lifecycle(StopCall, AudioTranscriberPart))
    ensures KeyboardAnalyzerPart in present && KeyboardRecorderPart in present && flushed.Some? ==>
      Before(StopCalls(present, flushed), Lifecycle(StopCall, KeyboardRecorderPart), Enqueued(KeyboardAnalyzerPart, flushed.value))
      && Before(StopCalls(present, flushed), Enqueued(KeyboardAnalyzerPart, flushed.value), Lifecycle(StopCall, KeyboardAnalyzerPart))
  {
    if SchedulerPart in present && PowerMonitorPart in present {
      StopOrderFirst(present, flushed, 0, 1);
    }
    if ScreenAnalyzerPart in present && ScreenCapturePart in present {
      StopOrderFirst(present, flushed, 2, 3);
    }
    if KeyboardAnalyzerPart in present && KeyboardRecorderPart in present {
      StopOrderKeyboard(present, flushed);
    }
    if AudioTranscriberPart in present && AudioRecorderPart in present {
      StopOrderLast(present, flushed, 1, 2);
    }
  }

  /** Two modules stopped before the hand-off keep their order. */
  lemma StopOrderFirst(present: set<Component>, flushed: Option<FilePath>, i: nat, j: nat)
    requires i < j < |StopFirst| && StopFirst[i] in present && StopFirst[j] in present
    ensures Before(StopCalls(present, flushed), Lifecycle(StopCall, StopFirst[i]), Lifecycle(StopCall, StopFirst[j]))
  {
    var a, h, b := CallsOn(StopCall, StopFirst, present), Handoff(present, flushed), CallsOn(StopCall, StopLast, present);
    var x, y := Lifecycle(StopCall, StopFirst[i]), Lifecycle(StopCall, StopFirst[j]);
    CallsOnOrder(StopCall, StopFirst, present, i, j);
    BeforeLeft(a, h, x, y);
    BeforeLeft(a + h, b, x, y);
  }

  /** Two modules stopped after the hand-off keep their order. */
  lemma StopOrderLast(present: set<Component>, flushed: Option<FilePath>, i: nat, j: nat)
    requires i < j < |StopLast| && StopLast[i] in present && StopLast[j] in present
    ensures Before(StopCalls(present, flushed), Lifecycle(StopCall, StopLast[i]), Lifecycle(StopCall, StopLast[j]))
  {
    var a, h, b := CallsOn(StopCall, StopFirst, present), Handoff(present, flushed), CallsOn(StopCall, StopLast, present);
    CallsOnOrder(StopCall, StopLast, present, i, j);
    BeforeRight(a + h, b, Lifecycle(StopCall, StopLast[i]), Lifecycle(StopCall, StopLast[j]));
  }

  /** The keyboard recorder stops, then its flush is handed over, then the
      analyzer stops. */
  lemma StopOrderKeyboard(present: set<Component>, flushed: Option<FilePath>)
    requires KeyboardAnalyzerPart in present && KeyboardRecorderPart in present
    ensures Before(StopCalls(present, flushed), Lifecycle(StopCall, KeyboardRecorderPart), Lifecycle(StopCall, KeyboardAnalyzerPart))
    ensures flushed.Some? ==>
      Before(StopCalls(present, flushed), Lifecycle(StopCall, KeyboardRecorderPart), Enqueued(KeyboardAnalyzerPart, flushed.value))
      && Before(StopCalls(present, flushed), Enqueued(KeyboardAnalyzerPart, flushed.value), Lifecycle(StopCall, KeyboardAnalyzerPart))
  {
    var a, h, b := CallsOn(StopCall, StopFirst, present), Handoff(present, flushed), CallsOn(StopCall, StopLast, present);
    var kr, ka := Lifecycle(StopCall, KeyboardRecorderPart), Lifecycle(StopCall, KeyboardAnalyzerPart);
    CallsOnHas(StopCall, StopFirst, present, kr);
    CallsOnHas(StopCall, StopLast, present, ka);
    assert StopFirst[4] == KeyboardRecorderPart && StopLast[0] == KeyboardAnalyzerPart;
    BeforeAcross(a + h, b, kr, ka);
    if flushed.Some? {
      var q := Enqueued(KeyboardAnalyzerPart, flushed.value);
      BeforeAcross(a, h, kr, q);
      BeforeLeft(a + h, b, kr, q);
      BeforeAcross(a + h, b, q, ka);
    }
  }

  /** `start` in two halves of two pairs each: the stream modules, then
      the keyboard and the system modules. */
  lemma StartSplit(present: set<Component>)
    ensures StartCalls(present)
      == (CallsOn(StartCall, [AudioTranscriberPart, AudioRecorderPart], present) + CallsOn(StartCall, [ScreenAnalyzerPart, ScreenCapturePart], present))
      + (CallsOn(StartCall, [KeyboardAnalyzerPart, KeyboardRecorderPart], present) + CallsOn(StartCall, [SchedulerPart, PowerMonitorPart], present))
  {
    var a, s := [AudioTranscriberPart, AudioRecorderPart], [ScreenAnalyzerPart, ScreenCapturePart];
    var k, y := [KeyboardAnalyzerPart, KeyboardRecorderPart], [SchedulerPart, PowerMonitorPart];
    assert StartParts == (a + s) + (k + y);
    CallsOnAppend(StartCall, a + s, k + y, present);
    CallsOnAppend(StartCall, a, s, present);
    CallsOnAppend(StartCall, k, y, present);
  }

  /** `stop` in three parts: the system and screen modules, the keyboard
      pair with the hand-off between them, and the audio modules. */
  lemma StopSplit(present: set<Component>, flushed: Option<FilePath>)
    ensures StopCalls(present, flushed)
      == (CallsOn(StopCall, [PowerMonitorPart, SchedulerPart], present) + CallsOn(StopCall, [ScreenCapturePart, ScreenAnalyzerPart], present))
      + (CallsOn(StopCall, [KeyboardRecorderPart], present) + Handoff(present, flushed) + CallsOn(StopCall, [KeyboardAnalyzerPart], present))
      + CallsOn(StopCall, [AudioRecorderPart, AudioTranscriberPart], present)
  {
    var y, s, r := [PowerMonitorPart, SchedulerPart], [ScreenCapturePart, ScreenAnalyzerPart], [KeyboardRecorderPart];
    var k, a := [KeyboardAnalyzerPart], [AudioRecorderPart, AudioTranscriberPart];
    assert StopFirst == (y + s) + r;
    assert StopLast == k + a;
    CallsOnAppend(StopCall, y + s, r, present);
    CallsOnAppend(StopCall, y, s, present);
    CallsOnAppend(StopCall, k, a, present);
    var ys, rr, h, kk, aa := CallsOn(StopCall, y + s, present), CallsOn(StopCall, r, present), Handoff(present, flushed), CallsOn(StopCall, k, present), CallsOn(StopCall, a, present);
    AppendAssoc(ys + rr, h, kk + aa);
    AppendAssoc(ys + rr + h, kk, aa);
    AppendAssoc(ys, rr, h);
    AppendAssoc(ys, rr + h, kk);
  }

  // ---------------------------------------------------------------------
  // Power events

  /** `_on_sleep` and `_on_lock` (pause), `_on_wake` and `_on_unlock`
      (resume): the same call on the audio recorder, the screen capture
      and the keyboard recorder, each when present. */
  function FanOut(present: set<Component>, pause: bool): seq<Call> {
    CallsOn(if pause then PauseCall else ResumeCall, [AudioRecorderPart, ScreenCapturePart, KeyboardRecorderPart], present)
  }

  /** Whether a power event pauses: sleep and lock do, wake and unlock
      resume. */
  predicate Pauses(event: string) {
    event == "on_sleep" || event == "on_lock"
  }

  /** A pause or a resume of `part`. */
  predicate Toggles(c: Call, part: Component) {
    c.Lifecycle? && c.part == part && (c.kind == PauseCall || c.kind == ResumeCall)
  }

  /** Where a recorder stands after a trace: paused or not as its last
      pause or resume left it, if there was one. */
  function PausedBy(trace: seq<Call>, part: Component): Option<bool>
    decreases |trace|
  {
    if |trace| == 0 then None
    else if Toggles(trace[|trace| - 1], part) then Some(trace[|trace| - 1].kind == PauseCall)
    else PausedBy(trace[..|trace| - 1], part)
  }

  /** Calls that do not pause or resume a recorder leave its standing as
      it was. */
  lemma {:induction false} PausedByOthers(trace: seq<Call>, more: seq<Call>, part: Component)
    requires forall c :: c in more ==> !Toggles(c, part)
    ensures PausedBy(trace + more, part) == PausedBy(trace, part)
    decreases |more|
  {
    if |more| > 0 {
      var n := |more| - 1;
      assert (trace + more)[..|trace + more| - 1] == trace + more[..n];
      assert (trace + more)[|trace + more| - 1] == more[n];
      assert forall c :: c in more[..n] ==> c in more;
      PausedByOthers(trace, more[..n], part);
    } else {
      assert trace + more == trace;
    }
  }

  /** After pausing or resuming calls on distinct modules, each of them
      stands as that kind of call leaves it, whatever came before. */
  lemma {:induction false} LastToggle(trace: seq<Call>, pause: bool, parts: seq<Component>, present: set<Component>, part: Component)
    requires part in parts && part in present
    ensures PausedBy(trace + CallsOn(if pause then PauseCall else ResumeCall, parts, present), part) == Some(pause)
    decreases |parts|
  {
    var kind := if pause then PauseCall else ResumeCall;
    var head := Only(present, parts[0], Lifecycle(kind, parts[0]));
    var rest := CallsOn(kind, parts[1..], present);
    assert trace + CallsOn(kind, parts, present) == (trace + head) + rest;
    if part in parts[1..] {
      LastToggle(trace + head, pause, parts[1..], present, part);
    } else {
      assert parts[0] == part;
      forall c | c in rest
        ensures !Toggles(c, part)
      {
        CallsOnHas(kind, parts[1..], present, c);
      }
      PausedByOthers(trace + head, rest, part);
      assert (trace + head)[|trace + head| - 1] == Lifecycle(kind, part);
    }
  }

  /** After a power event each present recorder stands paused exactly
      when the event pauses: the last event wins, and a wake or an
      unlock resumes capture even while another pausing condition (a
      lock before a sleep) still holds. */
  lemma LastEventWins(trace: seq<Call>, present: set<Component>, pause: bool, part: Component)
    requires part in {AudioRecorderPart, ScreenCapturePart, KeyboardRecorderPart} && part in present
    ensures PausedBy(trace + FanOut(present, pause), part) == Some(pause)
  {
    LastToggle(trace, pause, [AudioRecorderPart, ScreenCapturePart, KeyboardRecorderPart], present, part);
  }

  /** The file the keyboard recorder appends to, as the path it hands on. */
  function LogFile(dataDir: string, day: Date): (f: FilePath)
    requires day.Valid()
    ensures f.Full() == KeyboardRecorder.LogPath(dataDir, day)
  {
    FilePath(Under(dataDir, DayFolder(day)), KeyboardRecorder.LogName)
  }

  // ---------------------------------------------------------------------
  // setup's module construction

  method NewAudio(config: Config.Value) returns (t: Transcriber.AudioTranscriber?)
    ensures (t != null) == Enabled(config, "audio")
    ensures t != null ==> t.outputDir == "data/transcriptions" && t.queue == [] && !t.running
  {
    t := null;
    if Enabled(config, "audio") {
      t := new Transcriber.AudioTranscriber("data/transcriptions", None, config);
    }
  }

  method NewScreen(config: Config.Value, env: Environment) returns (a: ScreenAnalyzer.ScreenAnalyzer?, c: ScreenCapture.ScreenCapture?)
    ensures (a != null) == Enabled(config, "screen") && (c != null) == Enabled(config, "screen")
    ensures a != null ==> a.outputDir == "data/screen_analysis" && a.queue == [] && !a.running
    ensures c != null ==>
      c.outputDir == "data/temp_screenshots" && c.hasCallback
      && c.interval == NatSetting(config, ["screen", "capture_interval_seconds"], 30)
      && c.excludedApps == env.excludedApps && c.excludedWindows == env.excludedWindows
      && !c.running && !c.paused
  {
    a, c := null, null;
    if Enabled(config, "screen") {
      a := new ScreenAnalyzer.ScreenAnalyzer("data/screen_analysis", None, None, config, env.screenPrompt);
      c := new ScreenCapture.ScreenCapture(NatSetting(config, ["screen", "capture_interval_seconds"], 30),
        "data/temp_screenshots", true, config, env.excludedApps, env.excludedWindows);
    }
  }

  method NewKeyboard(config: Config.Value, env: Environment) returns (a: KeyboardAnalyzer.KeyboardAnalyzer?, r: KeyboardRecorder.KeyboardRecorder?)
    ensures (a != null) == Enabled(config, "keyboard") && (r != null) == Enabled(config, "keyboard")
    ensures a != null ==> a.outputDir == "data/keyboard_analysis" && a.queue == [] && !a.running
    ensures r != null ==>
      r.dataDir == Under(Under(env.root, "data"), "keyboard") && r.hasCallback
      && r.saveInterval == NatSetting(config, ["keyboard", "save_interval_minutes"], 5) * 60
      && r.buffer == [] && !r.running && !r.paused && r.Valid()
  {
    a, r := null, null;
    if Enabled(config, "keyboard") {
      a := new KeyboardAnalyzer.KeyboardAnalyzer("data/keyboard_analysis", None, None, config, env.keyboardPrompt);
      r := new KeyboardRecorder.KeyboardRecorder(Under(Under(env.root, "data"), "keyboard"),
        NatSetting(config, ["keyboard", "save_interval_minutes"], 5), true);
    }
  }

  method NewScheduler(config: Config.Value) returns (s: Scheduler.TaskScheduler)
    ensures s.callbacks == SchedulerTable && !s.running && s.jobs == []
  {
    s := new Scheduler.TaskScheduler(config);
    s.RegisterCallback("on_summary_time", SummaryCallback);
    s.RegisterCallback("on_cleanup", CleanupCallback);
  }

  method NewPower(config: Config.Value) returns (p: Power.PowerMonitor)
    ensures p.callbacks == PowerTable && !p.running
    ensures p.pauseOnLock == Config.Setting(config, Power.PauseOnLockKey, Config.Bool(true))
  {
    p := new Power.PowerMonitor(config);
    p.RegisterCallback("on_sleep", SleepCallback);
    p.RegisterCallback("on_wake", WakeCallback);
    p.RegisterCallback("on_lock", LockCallback);
    p.RegisterCallback("on_unlock", UnlockCallback);
  }

  /** The stream modules `setup` builds: each pair exactly when its
      section is enabled, idle and with empty queues. */
  method NewStreams(config: Config.Value, env: Environment)
    returns (t: Transcriber.AudioTranscriber?, sa: ScreenAnalyzer.ScreenAnalyzer?, sc: ScreenCapture.ScreenCapture?,
             ka: KeyboardAnalyzer.KeyboardAnalyzer?, kr: KeyboardRecorder.KeyboardRecorder?)
    ensures (t != null) == Enabled(config, "audio")
    ensures (sa != null) == Enabled(config, "screen") && (sc != null) == Enabled(config, "screen")
    ensures (ka != null) == Enabled(config, "keyboard") && (kr != null) == Enabled(config, "keyboard")
    ensures t != null ==> t.queue == [] && !t.running
    ensures sc != null ==> !sc.running && !sc.paused && sc.hasCallback
    ensures kr != null ==> kr.buffer == [] && !kr.running && !kr.paused && kr.hasCallback
  {
    t := NewAudio(config);
    sa, sc := NewScreen(config, env);
    ka, kr := NewKeyboard(config, env);
  }

  /** The service modules `setup` builds: Drive and e-mail when enabled,
      the summary generator always, the scheduler and the power monitor
      with their callbacks registered. */
  method NewServices(config: Config.Value, env: Environment)
    returns (d: Drive.DriveManager?, e: Email.EmailSender?, sm: Summary.SummaryGenerator,
             sch: Scheduler.TaskScheduler, pm: Power.PowerMonitor)
    ensures (d != null) == Enabled(config, "google_drive") && (e != null) == Enabled(config, "email")
    ensures d != null ==> d.Valid()
    ensures sch.callbacks == SchedulerTable && !sch.running && sch.jobs == []
    ensures pm.callbacks == PowerTable
  {
    d, e := null, null;
    if Enabled(config, "google_drive") {
      d := new Drive.DriveManager(config, env.authenticated, env.remote);
    }
    if Enabled(config, "email") {
      e := new Email.EmailSender(config);
    }
    sm := new Summary.SummaryGenerator(config, env.summaryPrompt, env.root);
    sch := NewScheduler(config);
    pm := NewPower(config);
  }

  // ---------------------------------------------------------------------

  class Assistant {
    /** What `setup` returned. */
    const setUp: bool
    const hasAudioRecorder: bool
    const transcriber: Transcriber.AudioTranscriber?
    const screenAnalyzer: ScreenAnalyzer.ScreenAnalyzer?
    const capture: ScreenCapture.ScreenCapture?
    const keyboardAnalyzer: KeyboardAnalyzer.KeyboardAnalyzer?
    const keyboardRecorder: KeyboardRecorder.KeyboardRecorder?
    const drive: Drive.DriveManager?
    const email: Email.EmailSender?
    const summary: Summary.SummaryGenerator?
    const scheduler: Scheduler.TaskScheduler?
    const power: Power.PowerMonitor?
    var running: bool
    /** Every lifecycle call and queue hand-off made, in order. */
    var trace: seq<Call>

    /** Whether the module exists: built by setup, or, for the audio
        recorder, enabled. */
    predicate Has(part: Component)
    {
      match part
      case AudioTranscriberPart => transcriber != null
      case AudioRecorderPart => hasAudioRecorder
      case ScreenAnalyzerPart => screenAnalyzer != null
      case ScreenCapturePart => capture != null
      case KeyboardAnalyzerPart => keyboardAnalyzer != null
      case KeyboardRecorderPart => keyboardRecorder != null
      case SchedulerPart => scheduler != null
      case PowerMonitorPart => power != null
    }

    /** The modules whose lifecycle the assistant drives. */
    function Present(): (r: set<Component>)
      ensures forall m :: m in r <==> Has(m)
    {
      EveryPart();
      set m | m in StartParts && Has(m)
    }

    /** The wiring setup leaves in place: the scheduler and the power
        monitor hold the callback tables setup registered. */
    predicate Valid()
      reads scheduler, power
    {
      (scheduler != null ==> scheduler.callbacks == SchedulerTable)
      && (power != null ==> power.callbacks == PowerTable)
    }

    /** The Drive manager's own invariant, when there is a manager. */
    predicate DriveReady()
      reads drive
    {
      drive != null ==> drive.Valid()
    }

    /** `__init__` and `setup`. `loaded` is what `get_config` gave: a
        configuration error makes setup return false with no module
        built. Otherwise each stream module exists exactly when its
        section is enabled, and the summary, the scheduler and the power
        monitor always, with their callbacks registered. */
    constructor (loaded: Result<Config.Value>, env: Environment)
      ensures setUp == loaded.Ok? && !running && trace == []
      ensures !setUp ==> (forall m :: !Has(m)) && drive == null && email == null && summary == null
      ensures setUp ==>
        var config := loaded.value;
        (transcriber != null <==> Enabled(config, "audio")) && (hasAudioRecorder <==> Enabled(config, "audio"))
        && (screenAnalyzer != null <==> Enabled(config, "screen")) && (capture != null <==> Enabled(config, "screen"))
        && (keyboardAnalyzer != null <==> Enabled(config, "keyboard")) && (keyboardRecorder != null <==> Enabled(config, "keyboard"))
        && (drive != null <==> Enabled(config, "google_drive")) && (email != null <==> Enabled(config, "email"))
        && summary != null && scheduler != null && power != null
      ensures transcriber != null ==> transcriber.queue == [] && !transcriber.running
      ensures capture != null ==> !capture.running && !capture.paused
      ensures keyboardRecorder != null ==> keyboardRecorder.buffer == [] && !keyboardRecorder.running && !keyboardRecorder.paused
      ensures scheduler != null ==> !scheduler.running && scheduler.jobs == []
      ensures keyboardRecorder != null ==> keyboardRecorder.hasCallback
      ensures capture != null ==> capture.hasCallback
      ensures Valid() && DriveReady()
    {
      running := false;
      trace := [];
      if loaded.Failure? {
        setUp := false;
        hasAudioRecorder := false;
        transcriber, screenAnalyzer, capture := null, null, null;
        keyboardAnalyzer, keyboardRecorder := null, null;
        drive, email, summary, scheduler, power := null, null, null, null, null;
      } else {
        var config := loaded.value;
        setUp := true;
        hasAudioRecorder := Enabled(config, "audio");
        var t, sa, sc, ka, kr := NewStreams(config, env);
        transcriber, screenAnalyzer, capture, keyboardAnalyzer, keyboardRecorder := t, sa, sc, ka, kr;
        var d, e, sm, sch, pm := NewServices(config, env);
        drive, email, summary := d, e, sm;
        scheduler, power := sch, pm;
      }
    }

    /** The stream modules, each worker before its producer. */
    method StartStreams()
      modifies transcriber, screenAnalyzer, capture
      ensures transcriber != null ==> transcriber.running && transcriber.queue == old(transcriber.queue)
      ensures screenAnalyzer != null ==> screenAnalyzer.running
      ensures capture != null ==> capture.running
    {
      if transcriber != null {
        transcriber.Start();
      }
      if screenAnalyzer != null {
        screenAnalyzer.Start();
      }
      if capture != null {
        var _ := capture.Start();
      }
    }

    /** Whether the scheduler's `start` goes through: no scheduler, one
        already running, or a summary time `at` accepts. */
    predicate SchedulerStarts()
      reads scheduler
    {
      scheduler == null || scheduler.running || Scheduler.ValidAt(scheduler.summaryTime)
    }

    /** The keyboard pair, analyzer first, then the scheduler and the
        power monitor; `ok` is false when the scheduler's `start` raises,
        and the power monitor is then not reached. */
    method StartRest() returns (ok: bool)
      modifies keyboardAnalyzer, keyboardRecorder, scheduler, power
      ensures ok == old(SchedulerStarts())
      ensures keyboardAnalyzer != null ==> keyboardAnalyzer.running
      ensures keyboardRecorder != null ==> keyboardRecorder.running && keyboardRecorder.buffer == old(keyboardRecorder.buffer)
      ensures scheduler != null ==> scheduler.running == ok && scheduler.callbacks == old(scheduler.callbacks)
      ensures power != null ==> power.running == (ok || old(power.running)) && power.callbacks == old(power.callbacks)
    {
      if keyboardAnalyzer != null {
        keyboardAnalyzer.Start();
      }
      if keyboardRecorder != null {
        keyboardRecorder.Start();
      }
      ok := true;
      if scheduler != null {
        ok := scheduler.Start();
      }
      if ok && power != null {
        power.Start();
      }
    }

    /** Every present module started, in `start`'s order, up to a
        scheduler whose `start` raises. */
    method StartModules() returns (ok: bool)
      requires Valid()
      modifies transcriber, screenAnalyzer, capture, keyboardAnalyzer, keyboardRecorder, scheduler, power
      ensures ok == old(SchedulerStarts())
      ensures transcriber != null ==> transcriber.running && transcriber.queue == old(transcriber.queue)
      ensures screenAnalyzer != null ==> screenAnalyzer.running
      ensures capture != null ==> capture.running
      ensures keyboardAnalyzer != null ==> keyboardAnalyzer.running
      ensures keyboardRecorder != null ==> keyboardRecorder.running && keyboardRecorder.buffer == old(keyboardRecorder.buffer)
      ensures scheduler != null ==> scheduler.running == ok
      ensures power != null ==> power.running == (ok || old(power.running))
      ensures Valid()
    {
      StartStreams();
      ok := StartRest();
    }

    /** Sets the flag and appends the calls just made to `trace`. */
    method Record(flag: bool, calls: seq<Call>)
      modifies this
      ensures running == flag && trace == old(trace) + calls
    {
      running := flag;
      trace := trace + calls;
    }

    /** Sets the flag and appends the calls `start` made to `trace`. */
    method RecordStart(schedulerStarted: bool)
      modifies this
      ensures running && trace == old(trace) + LaunchCalls(schedulerStarted, Present())
    {
      Record(true, LaunchCalls(schedulerStarted, Present()));
    }

    /** `start` once setup has succeeded: the flag, then every present
        module; `trace` records the calls made, in the order `StartCalls`
        gives. When the scheduler refuses the summary time its `start`
        raises, `ok` is false, the power monitor is never started and the
        calls made are `AbortedStartCalls`. */
    method Launch() returns (ok: bool)
      requires Valid()
      modifies this, transcriber, screenAnalyzer, capture, keyboardAnalyzer, keyboardRecorder, scheduler, power
      ensures ok == old(SchedulerStarts())
      ensures running && trace == old(trace) + LaunchCalls(ok, Present())
      ensures transcriber != null ==> transcriber.running && transcriber.queue == old(transcriber.queue)
      ensures screenAnalyzer != null ==> screenAnalyzer.running
      ensures capture != null ==> capture.running
      ensures keyboardAnalyzer != null ==> keyboardAnalyzer.running
      ensures keyboardRecorder != null ==> keyboardRecorder.running && keyboardRecorder.buffer == old(keyboardRecorder.buffer)
      ensures scheduler != null ==> scheduler.running == ok
      ensures power != null ==> power.running == (ok || old(power.running))
      ensures Valid()
    {
      ok := StartModules();
      RecordStart(ok);
    }

    /** `start`: when setup failed the process exits and nothing is
        started. Otherwise the flag is set and every present module is
        started; `trace` records the calls made, in the order
        `StartCalls` gives. `raised` says that the scheduler's `start`
        raised, which ends `start` before the power monitor and the main
        loop. */
    method Start() returns (exited: bool, raised: bool)
      requires Valid()
      modifies this, transcriber, screenAnalyzer, capture, keyboardAnalyzer, keyboardRecorder, scheduler, power
      ensures exited == !setUp
      ensures raised <==> setUp && !old(SchedulerStarts())
      ensures exited ==> running == old(running) && trace == old(trace)
      ensures !exited ==> running && trace == old(trace) + LaunchCalls(!raised, Present())
      ensures !exited ==>
        (transcriber != null ==> transcriber.running) && (screenAnalyzer != null ==> screenAnalyzer.running)
        && (capture != null ==> capture.running) && (keyboardAnalyzer != null ==> keyboardAnalyzer.running)
        && (keyboardRecorder != null ==> keyboardRecorder.running) && (scheduler != null ==> scheduler.running == !raised)
        && (power != null ==> power.running == (!raised || old(power.running)))
      ensures transcriber != null ==> transcriber.queue == old(transcriber.queue)
      ensures keyboardRecorder != null ==> keyboardRecorder.buffer == old(keyboardRecorder.buffer)
      ensures Valid()
    {
      exited := !setUp;
      raised := false;
      if setUp {
        var ok := Launch();
        raised := !ok;
      }
    }

    /** `_on_keyboard_log_ready`: onto the analyzer's queue, when there is
        one. */
    method OnKeyboardLogReady(log: FilePath)
      modifies this, keyboardAnalyzer
      ensures keyboardAnalyzer != null ==>
        keyboardAnalyzer.queue == old(keyboardAnalyzer.queue) + [log]
        && keyboardAnalyzer.running == old(keyboardAnalyzer.running)
      ensures trace == old(trace) + (if keyboardAnalyzer != null then [Enqueued(KeyboardAnalyzerPart, log)] else [])
      ensures running == old(running)
    {
      if keyboardAnalyzer != null {
        keyboardAnalyzer.AddToQueue(log);
        trace := trace + [Enqueued(KeyboardAnalyzerPart, log)];
      }
    }

    /** The power monitor, the scheduler, then the screen capture before
        its analyzer. */
    method StopFront()
      modifies power, scheduler, capture, screenAnalyzer
      ensures power != null ==> !power.running && power.callbacks == old(power.callbacks)
      ensures scheduler != null ==> !scheduler.running && scheduler.jobs == [] && scheduler.callbacks == old(scheduler.callbacks)
      ensures capture != null ==> !capture.running
      ensures screenAnalyzer != null ==> !screenAnalyzer.running && screenAnalyzer.queue == old(screenAnalyzer.queue)
    {
      if power != null {
        power.Stop();
      }
      if scheduler != null {
        scheduler.Stop();
      }
      if capture != null {
        capture.Stop();
      }
      if screenAnalyzer != null {
        screenAnalyzer.Stop();
      }
    }

    /** What the keyboard recorder's final flush hands on through its
        callback: the day's keylog, when there are buffered keys and the
        append succeeds. */
    function PendingLog(day: Date, written: bool): (r: Option<FilePath>)
      requires day.Valid()
      reads keyboardRecorder
      ensures r.Some? ==> keyboardRecorder != null && r.value.Full() == KeyboardRecorder.LogPath(keyboardRecorder.dataDir, day)
    {
      if keyboardRecorder != null && keyboardRecorder.buffer != [] && written && keyboardRecorder.hasCallback
      then Some(LogFile(keyboardRecorder.dataDir, day)) else None
    }

    /** The keyboard recorder's stop flushes its buffer (`written` says
        whether the append succeeds) and hands the day's keylog to
        `_on_keyboard_log_ready`, which queues it for the analyzer; then
        the analyzer stops. */
    method StopKeyboard(day: Date, clock: Clock, written: bool, disk: Disk) returns (pending: Option<FilePath>)
      requires day.Valid() && clock.Valid()
      modifies keyboardRecorder, keyboardAnalyzer, disk
      ensures pending == old(PendingLog(day, written))
      ensures (keyboardAnalyzer != null ==> keyboardAnalyzer.queue == old(keyboardAnalyzer.queue) + (if pending.Some? then [pending.value] else []))
        && (pending.Some? ==>
              disk.files == Appended(old(disk.files), pending.value.Full(), KeyboardRecorder.Flushed(clock, Strings.Concat(old(keyboardRecorder.buffer)))))
      ensures keyboardRecorder != null && keyboardRecorder.hasCallback && (old(keyboardRecorder.buffer) == [] || !written) ==>
        disk.files == old(disk.files)
      ensures keyboardRecorder == null ==> disk.files == old(disk.files)
      ensures keyboardRecorder != null ==> !keyboardRecorder.running && keyboardRecorder.buffer == []
      ensures keyboardAnalyzer != null ==> !keyboardAnalyzer.running
    {
      pending := PendingLog(day, written);
      if keyboardRecorder != null {
        keyboardRecorder.Stop(day, clock, written, disk);
      }
      if keyboardAnalyzer != null {
        if pending.Some? {
          keyboardAnalyzer.AddToQueue(pending.value);
        }
        keyboardAnalyzer.Stop();
      }
    }

    /** Every present module stopped, in `stop`'s order. */
    method StopModules(day: Date, clock: Clock, written: bool, disk: Disk) returns (pending: Option<FilePath>)
      requires day.Valid() && clock.Valid()
      modifies transcriber, screenAnalyzer, capture, keyboardAnalyzer, keyboardRecorder, scheduler, power, disk
      ensures pending == old(PendingLog(day, written))
      ensures (keyboardAnalyzer != null ==> keyboardAnalyzer.queue == old(keyboardAnalyzer.queue) + (if pending.Some? then [pending.value] else []))
        && (pending.Some? ==>
              disk.files == Appended(old(disk.files), pending.value.Full(), KeyboardRecorder.Flushed(clock, Strings.Concat(old(keyboardRecorder.buffer)))))
      ensures keyboardRecorder != null && keyboardRecorder.hasCallback && (old(keyboardRecorder.buffer) == [] || !written) ==>
        disk.files == old(disk.files)
      ensures keyboardRecorder == null ==> disk.files == old(disk.files)
      ensures power != null ==> !power.running && power.callbacks == old(power.callbacks)
      ensures scheduler != null ==> !scheduler.running && scheduler.jobs == [] && scheduler.callbacks == old(scheduler.callbacks)
      ensures capture != null ==> !capture.running
      ensures screenAnalyzer != null ==> !screenAnalyzer.running && screenAnalyzer.queue == old(screenAnalyzer.queue)
      ensures keyboardRecorder != null ==> !keyboardRecorder.running && keyboardRecorder.buffer == []
      ensures keyboardAnalyzer != null ==> !keyboardAnalyzer.running
      ensures transcriber != null ==> !transcriber.running && transcriber.queue == old(transcriber.queue)
    {
      StopFront();
      pending := StopKeyboard(day, clock, written, disk);
      if transcriber != null {
        transcriber.Stop();
      }
    }

    /** `stop`: the flag, then every present module, the keyboard
        recorder's last flush reaching the analyzer's queue before the
        analyzer stops; `trace` records the calls made, in the order
        `StopCalls` gives. */
    method Stop(day: Date, clock: Clock, written: bool, disk: Disk)
      requires day.Valid() && clock.Valid() && Valid()
      modifies this, transcriber, screenAnalyzer, capture, keyboardAnalyzer, keyboardRecorder, scheduler, power, disk
      ensures !running
      ensures var pending := old(PendingLog(day, written));
        trace == old(trace) + StopCalls(Present(), pending)
        && (keyboardAnalyzer != null ==> keyboardAnalyzer.queue == old(keyboardAnalyzer.queue) + (if pending.Some? then [pending.value] else []))
        && (pending.Some? ==>
              disk.files == Appended(old(disk.files), pending.value.Full(), KeyboardRecorder.Flushed(clock, Strings.Concat(old(keyboardRecorder.buffer)))))
      ensures keyboardRecorder != null && keyboardRecorder.hasCallback && (old(keyboardRecorder.buffer) == [] || !written) ==>
        disk.files == old(disk.files)
      ensures keyboardRecorder == null ==> disk.files == old(disk.files)
      ensures power != null ==> !power.running
      ensures scheduler != null ==> !scheduler.running && scheduler.jobs == []
      ensures capture != null ==> !capture.running
      ensures screenAnalyzer != null ==> !screenAnalyzer.running && screenAnalyzer.queue == old(screenAnalyzer.queue)
      ensures keyboardRecorder != null ==> !keyboardRecorder.running && keyboardRecorder.buffer == []
      ensures keyboardAnalyzer != null ==> !keyboardAnalyzer.running
      ensures transcriber != null ==> !transcriber.running && transcriber.queue == old(transcriber.queue)
      ensures Valid()
    {
      var pending := StopModules(day, clock, written, disk);
      Record(false, StopCalls(Present(), pending));
    }

    /** The recorders paused or resumed: the screen capture, then the
        keyboard recorder. */
    method PauseModules(pause: bool)
      modifies capture, keyboardRecorder
      ensures capture != null ==>
        capture.paused == pause && capture.running == old(capture.running) && capture.emitted == old(capture.emitted)
      ensures keyboardRecorder != null ==>
        keyboardRecorder.paused == pause
        && keyboardRecorder.buffer == old(keyboardRecorder.buffer) && keyboardRecorder.running == old(keyboardRecorder.running)
    {
      if capture != null {
        if pause {
          capture.Pause();
        } else {
          capture.Resume();
        }
      }
      if keyboardRecorder != null {
        if pause {
          keyboardRecorder.Pause();
        } else {
          keyboardRecorder.Resume();
        }
      }
    }

    /** `_on_sleep` and `_on_lock` when `pause` is set, `_on_wake` and
        `_on_unlock` otherwise: the same call on every present recorder,
        whatever its state. */
    method PowerEvent(pause: bool)
      modifies this, capture, keyboardRecorder
      ensures trace == old(trace) + FanOut(Present(), pause) && running == old(running)
      ensures capture != null ==>
        capture.paused == pause && capture.running == old(capture.running) && capture.emitted == old(capture.emitted)
      ensures keyboardRecorder != null ==>
        keyboardRecorder.paused == pause
        && keyboardRecorder.buffer == old(keyboardRecorder.buffer) && keyboardRecorder.running == old(keyboardRecorder.running)
    {
      PauseModules(pause);
      Record(running, FanOut(Present(), pause));
    }

    /** A message reaching the power monitor's window: the monitor picks
        the event, and the callback registered for it pauses or resumes
        the recorders. Any other message leaves them as they are. */
    method PowerMessage(msg: int, wparam: int)
      requires Valid() && power != null
      modifies this, power, capture, keyboardRecorder
      ensures var event := Power.Dispatch(msg, wparam, Config.Truthy(power.pauseOnLock));
        if event.Some? then
          trace == old(trace) + FanOut(Present(), Pauses(event.value))
          && (capture != null ==> capture.paused == Pauses(event.value))
          && (keyboardRecorder != null ==> keyboardRecorder.paused == Pauses(event.value))
        else
          trace == old(trace)
          && (capture != null ==> capture.paused == old(capture.paused))
          && (keyboardRecorder != null ==> keyboardRecorder.paused == old(keyboardRecorder.paused))
      ensures power.calls == old(power.calls) + Power.Fired(PowerTable, Power.Dispatch(msg, wparam, Config.Truthy(power.pauseOnLock)))
      ensures keyboardRecorder != null ==> keyboardRecorder.buffer == old(keyboardRecorder.buffer)
      ensures running == old(running) && Valid()
    {
      var event := Power.Dispatch(msg, wparam, Config.Truthy(power.pauseOnLock));
      Power.DispatchIff(msg, wparam, Config.Truthy(power.pauseOnLock));
      power.WindowProc(msg, wparam);
      if event.Some? {
        var id := power.calls[|power.calls| - 1];
        assert id == PowerTable[event.value];
        PowerEvent(id == SleepCallback || id == LockCallback);
      }
    }

    /** `_on_audio_chunk_ready`: onto the transcriber's queue when there
        is one, and to Drive when there is a manager. */
    method OnAudioChunkReady(chunk: FilePath, localFiles: map<string, string>, today: Date, uploadFails: bool)
      requires today.Valid() && DriveReady()
      modifies this, transcriber, drive
      ensures transcriber != null ==>
        transcriber.queue == old(transcriber.queue) + [chunk] && transcriber.running == old(transcriber.running)
      ensures trace == old(trace) + (if transcriber != null then [Enqueued(AudioTranscriberPart, chunk)] else [])
      ensures drive != null ==>
        (Config.Truthy(drive.settings.backupAudio) ==> exists r :: drive.Uploaded(old(drive.State()), drive.State(), chunk, localFiles, "audio", "", today, uploadFails, r))
        && (!Config.Truthy(drive.settings.backupAudio) ==> drive.State() == old(drive.State()))
      ensures running == old(running) && DriveReady()
    {
      if transcriber != null {
        transcriber.AddToQueue(chunk);
        trace := trace + [Enqueued(AudioTranscriberPart, chunk)];
      }
      if drive != null {
        var r := drive.UploadAudio(chunk, localFiles, today, uploadFails);
      }
    }

    /** `_on_screenshot_ready`: onto the analyzer's queue only. */
    method OnScreenshotReady(shot: FilePath)
      modifies this, screenAnalyzer
      ensures screenAnalyzer != null ==>
        screenAnalyzer.queue == old(screenAnalyzer.queue) + [shot] && screenAnalyzer.running == old(screenAnalyzer.running)
      ensures trace == old(trace) + (if screenAnalyzer != null then [Enqueued(ScreenAnalyzerPart, shot)] else [])
      ensures running == old(running)
    {
      if screenAnalyzer != null {
        screenAnalyzer.AddToQueue(shot);
        trace := trace + [Enqueued(ScreenAnalyzerPart, shot)];
      }
    }

    /** The day's saved summary, `data/summaries/<day>/resumo.md` under
        the project root. */
    function SummaryFile(now: Date): FilePath
      requires summary != null && now.Valid()
    {
      FilePath(Under(summary.outputDir, DayFolder(now)), "resumo.md")
    }

    /** What the Drive half of a successful summary leaves: when the
        day's `resumo.md` exists and summaries are backed up, the upload
        `upload_summary` makes into the day folder; otherwise Drive as it
        was. */
    ghost predicate SummaryBackedUp(s0: Drive.Remote, now: Date, files: map<string, string>, uploadFails: bool)
      requires summary != null && drive != null && now.Valid()
      reads drive
    {
      if SummaryFile(now).Full() in files && Config.Truthy(drive.settings.backupSummaries)
      then exists id :: drive.Uploaded(s0, drive.State(), SummaryFile(now), files, "", "", now, uploadFails, id)
      else drive.State() == s0
    }

    /** The Drive half of `_generate_daily_summary`'s success path. */
    method BackupSummary(now: Date, files: map<string, string>, uploadFails: bool)
      requires summary != null && now.Valid() && DriveReady()
      modifies drive
      ensures drive != null ==> SummaryBackedUp(old(drive.State()), now, files, uploadFails)
      ensures DriveReady()
    {
      if drive != null {
        var file := SummaryFile(now);
        assert file.Full() == summary.SummaryPath(DayFolder(now));
        if file.Full() in files {
          var _ := drive.UploadSummary(file, files, now, uploadFails);
        }
      }
    }

    /** `_generate_daily_summary`: nothing escapes it. The day's summary
        is generated (`r` is the outcome); on success it is mailed when
        there is a sender and uploaded when there is a Drive manager and
        the file exists; on failure the error is mailed as an alert when
        there is a sender, and Drive is not touched. Without a generator
        the call itself fails. */
    method GenerateDailySummary(now: Date, clock: Clock, reply: Outcome, written: bool, delivered: bool, uploadFails: bool, disk: Disk)
      returns (r: Result<string>)
      requires now.Valid() && clock.Valid() && DriveReady()
      modifies summary, email, drive, disk
      ensures summary == null ==> r.Failure? && disk.files == old(disk.files)
      ensures summary != null ==> r == Summary.GenerateResult(
        ReadOr(old(disk.files), summary.TranscriptsPath(DayFolder(now))),
        ReadOr(old(disk.files), summary.ScreenPath(DayFolder(now))),
        ReadOr(old(disk.files), summary.KeyboardPath(DayFolder(now))), reply, written)
      ensures email != null && Config.Truthy(email.enabled) && (r.Ok? || Config.Truthy(email.sendOnError)) ==>
        email.handedOver == old(email.handedOver) + [
          if r.Ok? then Email.Mail(Email.SummarySubject(now), Email.MarkdownHtml(r.value), true, email.recipientEmail)
          else Email.Mail(Email.ErrorSubject, Email.ErrorBody(r.error), false, email.recipientEmail)]
      ensures email != null && r.Failure? && !Config.Truthy(email.sendOnError) ==> email.handedOver == old(email.handedOver)
      ensures email != null && !Config.Truthy(email.enabled) ==> email.handedOver == old(email.handedOver)
      ensures drive != null && (r.Failure? || summary.SummaryPath(DayFolder(now)) !in disk.files) ==> drive.State() == old(drive.State())
      ensures drive != null && r.Ok? && summary != null ==> SummaryBackedUp(old(drive.State()), now, disk.files, uploadFails)
      ensures DriveReady()
    {
      if summary == null {
        r := Failure("'NoneType' object has no attribute 'generate'");
      } else {
        r := summary.Generate("", now, clock, reply, written, disk);
      }
      if r.Ok? {
        if email != null {
          var _ := email.SendDailySummary(r.value, now, delivered);
        }
        BackupSummary(now, disk.files, uploadFails);
      } else {
        if email != null {
          var _ := email.SendErrorAlert(r.error, delivered);
        }
      }
    }

    /** `_cleanup_old_files`: the Drive clean-up, when there is a
        manager. */
    method CleanupOldFiles(audioCutoff: Date, screenshotsCutoff: Date)
      requires audioCutoff.Valid() && screenshotsCutoff.Valid() && DriveReady()
      modifies drive
      ensures drive != null ==> (!drive.enabled || !drive.hasService ==> drive.State() == old(drive.State()))
      ensures drive != null && drive.enabled && drive.hasService ==>
        var s1 := if Config.Truthy(drive.settings.backupAudio) then Drive.AfterCleanup(old(drive.State()), drive.folderName, "audio", DayFolder(audioCutoff)) else old(drive.State());
        drive.State() == (if Config.Truthy(drive.settings.backupScreenshots) then Drive.AfterCleanup(s1, drive.folderName, "screenshots", DayFolder(screenshotsCutoff)) else s1)
      ensures DriveReady()
    {
      if drive != null {
        drive.CleanupOldFiles(audioCutoff, screenshotsCutoff);
      }
    }
  }
}
