/** The panel's supervisor of the SSH agent helper: one pure transition with a bounded
    backoff and a crash-loop cap. */
module SupervisorModel {
  import opened Base

  const BACKOFF_BASE_MS: nat := 500
  const BACKOFF_MAX_MS: nat := 30_000
  const MAX_RESTARTS: nat := 5
  const HEALTHY_MS: nat := 60_000
  const ELSEWHERE_RETRY_MS: nat := 30_000

  datatype Phase = Disabled | Starting | Handshaking | Ready | Restarting | Backoff | Elsewhere | Failed

  datatype Code = NoError | Malformed | LineTooLong | VersionMismatch | UnknownType | Protocol
                | HandshakeTimeout | Exited | CrashLoop | LockElsewhere

  /** The paths and version the helper announced. */
  datatype Paths = Paths(socket: string, fifo: string, version: string)

  const NoPaths := Paths("", "", "")

  datatype State = State(phase: Phase, gateOpen: bool, paths: Paths, failures: nat, readyAtMs: int, error: Code)

  const Initial := State(Disabled, false, NoPaths, 0, 0, NoError)

  /** One line from the helper, as the parser reads it. */
  datatype Line = ReadyLine(paths: Paths) | Message(text: string) | Ignorable | Fatal(code: Code)

  datatype Event = Enabled(on: bool) | Started | TimedOut | Said(line: Line)
                 | Exit(lockHeld: bool) | RestartTimer | Unknown

  datatype Action = Action(start: bool, stop: bool, writeHello: bool, cancelRestart: bool,
                           restartInMs: Option<nat>, message: Option<string>)

  const NoAction := Action(false, false, false, false, None, None)

  function Pow2(n: nat): nat {
    if n == 0 then 1 else 2 * Pow2(n - 1)
  }

  function RestartDelay(failures: nat): nat {
    if failures < 1 then BACKOFF_BASE_MS else Min(BACKOFF_MAX_MS, BACKOFF_BASE_MS * Pow2(failures - 1))
  }

  function FailMidRun(s: State, code: Code): (State, Action) {
    (s.(gateOpen := false, phase := Restarting, error := code), NoAction.(stop := true, cancelRestart := true))
  }

  predicate Healthy(s: State, nowMs: int) {
    s.readyAtMs > 0 && nowMs - s.readyAtMs >= HEALTHY_MS
  }

  function FailOnExit(s: State, nowMs: int): (State, Action) {
    var failures := (if Healthy(s, nowMs) then 0 else s.failures) + 1;
    var error := if s.error == NoError then Exited else s.error;
    if failures > MAX_RESTARTS then (State(Failed, false, NoPaths, failures, 0, CrashLoop), NoAction)
    else (State(Backoff, false, NoPaths, failures, 0, error), NoAction.(restartInMs := Some(RestartDelay(failures))))
  }

  function OnLine(s: State, line: Line, nowMs: int): (State, Action) {
    if s.phase != Handshaking && s.phase != Ready then (s, NoAction)
    else match line
      case Ignorable => (s, NoAction)
      case Fatal(code) => FailMidRun(s, code)
      case ReadyLine(paths) =>
        if s.phase != Handshaking then FailMidRun(s, Protocol)
        else (s.(phase := Ready, gateOpen := true, paths := paths, readyAtMs := nowMs, error := NoError), NoAction)
      case Message(text) =>
        if s.phase == Handshaking then FailMidRun(s, Protocol) else (s, NoAction.(message := Some(text)))
  }

  function Reduce(s: State, e: Event, nowMs: int): (State, Action) {
    if e.Enabled? then
      if !e.on then
        (if s.phase == Disabled then (s, NoAction)
         else (Initial, NoAction.(stop := true, cancelRestart := true)))
      else if s.phase != Disabled && s.phase != Failed then (s, NoAction)
      else (Initial.(phase := Starting), NoAction.(start := true))
    else if s.phase == Disabled || s.phase == Failed then (s, NoAction)
    else match e
      case Started =>
        if s.phase != Starting then (s, NoAction) else (s.(phase := Handshaking), NoAction.(writeHello := true))
      case TimedOut =>
        if s.phase != Starting && s.phase != Handshaking then (s, NoAction) else FailMidRun(s, HandshakeTimeout)
      case Said(line) => OnLine(s, line, nowMs)
      case Exit(lockHeld) =>
        if lockHeld && s.readyAtMs == 0 then
          (s.(gateOpen := false, paths := NoPaths, phase := Elsewhere, error := LockElsewhere),
           NoAction.(restartInMs := Some(ELSEWHERE_RETRY_MS)))
        else FailOnExit(s, nowMs)
      case RestartTimer =>
        if s.phase != Backoff && s.phase != Elsewhere then (s, NoAction)
        else (s.(phase := Starting), NoAction.(start := true))
      case _ => (s, NoAction)
  }

  /** An event and the clock it came with. */
  datatype Timed = Timed(event: Event, nowMs: int)

  function After(s: State, events: seq<Timed>): State {
    if events == [] then s
    else Reduce(After(s, events[..|events| - 1]), events[|events| - 1].event, events[|events| - 1].nowMs).0
  }

  function ActionAt(s: State, events: seq<Timed>, i: nat): Action
    requires i < |events|
  {
    Reduce(After(s, events[..i]), events[i].event, events[i].nowMs).1
  }

  // ---- every reachable state ----

  predicate Sound(s: State) {
    && (s.gateOpen <==> s.phase == Ready)
    && (s.phase == Failed <==> s.failures > MAX_RESTARTS)
    && s.failures <= MAX_RESTARTS + 1
    && (s.phase == Disabled ==> s == Initial)
  }

  predicate SoundAction(s: State, e: Event, s': State, a: Action) {
    && (a.message.Some? ==> s.phase == Ready && s'.phase == Ready && e == Said(Message(a.message.value)))
    && (a.restartInMs.Some? ==>
          0 < a.restartInMs.value <= BACKOFF_MAX_MS && (s'.phase == Backoff || s'.phase == Elsewhere))
    && (a.writeHello ==> s.phase == Starting && s'.phase == Handshaking)
    && (a.start ==> s'.phase == Starting && s.phase in {Disabled, Failed, Backoff, Elsewhere})
    && (s.gateOpen && !s'.gateOpen ==> a.stop || e.Exit?)
  }

  lemma DelayBounded(failures: nat)
    ensures 0 < RestartDelay(failures) <= BACKOFF_MAX_MS
  {
    if failures >= 1 { Pow2Positive(failures - 1); }
  }

  /** Half a second, doubled with every failure after the first, up to thirty seconds. */
  lemma DelayDoubles(failures: nat)
    ensures RestartDelay(1) == 500
    ensures failures >= 1 ==>
              RestartDelay(failures + 1) ==
              if 2 * RestartDelay(failures) < 30_000 then 2 * RestartDelay(failures) else 30_000
  {
    if failures >= 1 { Pow2Positive(failures - 1); }
  }

  lemma {:induction false} Pow2Positive(n: nat)
    ensures Pow2(n) >= 1
  {
    if n > 0 { Pow2Positive(n - 1); }
  }

  lemma ReduceSound(s: State, e: Event, nowMs: int)
    requires Sound(s)
    ensures var (s', a) := Reduce(s, e, nowMs);
            Sound(s') && SoundAction(s, e, s', a)
  {
    hide RestartDelay;
    DelayBounded((if Healthy(s, nowMs) then 0 else s.failures) + 1);
  }

  /** In every reachable state the gate is open exactly when ready; messages pass only
      then; every restart waits at most thirty seconds; a start is issued only from disabled,
      failed, backoff or elsewhere. */
  lemma {:induction false} AlwaysSound(events: seq<Timed>)
    ensures Sound(After(Initial, events))
    ensures forall i | 0 <= i < |events| ::
              SoundAction(After(Initial, events[..i]), events[i].event, After(Initial, events[..i + 1]),
                          ActionAt(Initial, events, i))
  {
    hide Sound, SoundAction, Reduce;
    if events == [] {
      InitialSound();
    } else {
      var front := events[..|events| - 1];
      AlwaysSound(front);
      forall i | 0 <= i < |events|
        ensures SoundAction(After(Initial, events[..i]), events[i].event, After(Initial, events[..i + 1]),
                            ActionAt(Initial, events, i))
      {
        assert events[..i + 1][..i] == events[..i];
        if i < |front| {
          assert front[..i] == events[..i] && front[..i + 1] == events[..i + 1] && front[i] == events[i];
        } else {
          ReduceSound(After(Initial, front), events[i].event, events[i].nowMs);
          assert events[..i + 1] == events;
        }
      }
      ReduceSound(After(Initial, front), events[|events| - 1].event, events[|events| - 1].nowMs);
    }
  }

  lemma InitialSound()
    ensures Sound(Initial)
  {
  }

  // ---- exactly when it acts ----

  /** What an exit comes to. The lock held elsewhere before the helper was ever ready is tried
      again in thirty seconds. Otherwise it is one failure more, or the first after a minute
      of being ready; after five it is given up, and until then restarted in half a second,
      doubled with every failure after the first. */
  lemma ExitExact(s: State, lockHeld: bool, nowMs: int)
    requires s.phase != Disabled && s.phase != Failed
    ensures var (s', a) := Reduce(s, Exit(lockHeld), nowMs);
            var n := if s.readyAtMs > 0 && nowMs - s.readyAtMs >= 60_000 then 1 else s.failures + 1;
            if lockHeld && s.readyAtMs == 0 then
              s'.phase == Elsewhere && s'.failures == s.failures && a == NoAction.(restartInMs := Some(30_000))
            else if n > 5 then s'.phase == Failed && s'.error == CrashLoop && a == NoAction
            else
              && s'.phase == Backoff && s'.failures == n
              && a == NoAction.(restartInMs := Some([500, 1000, 2000, 4000, 8000][n - 1]))
  {
    var n := if s.readyAtMs > 0 && nowMs - s.readyAtMs >= 60_000 then 1 else s.failures + 1;
    hide RestartDelay;
    DelayDoubles(1);
    DelayDoubles(2);
    DelayDoubles(3);
    DelayDoubles(4);
    assert n in {1, 2, 3, 4, 5} || n > 5;
  }

  /** It ends the run: disabled, out of time, or the helper broke the protocol. */
  predicate EndsRun(s: State, e: Event) {
    match e
    case Enabled(on) => !on && s.phase != Disabled
    case TimedOut => s.phase == Starting || s.phase == Handshaking
    case Said(Fatal(_)) => s.phase == Handshaking || s.phase == Ready
    case Said(ReadyLine(_)) => s.phase == Ready
    case Said(Message(_)) => s.phase == Handshaking
    case _ => false
  }

  /** A helper is started exactly when it is enabled from disabled or failed, or its timer
      runs out; greeted exactly once it has started; stopped exactly when its run is to end;
      and its messages are passed on exactly while it is ready. */
  lemma ActsExactly(s: State, e: Event, nowMs: int)
    ensures var (s', a) := Reduce(s, e, nowMs);
            && (a.start <==> (e == Enabled(true) && (s.phase == Disabled || s.phase == Failed))
                             || (e == RestartTimer && (s.phase == Backoff || s.phase == Elsewhere)))
            && (a.writeHello <==> e == Started && s.phase == Starting)
            && (a.stop <==> EndsRun(s, e))
            && (a.cancelRestart <==> EndsRun(s, e))
            && (forall text :: a.message == Some(text) <==> s.phase == Ready && e == Said(Message(text)))
            && (a.restartInMs.Some? ==> e.Exit?)
  {
    hide RestartDelay;
  }

  // ---- the crash-loop cap ----

  /** Nothing that clears the failure history: no enabling, no exit of a run that lasted,
      no exit because the lock is held elsewhere. */
  predicate NoReset(s: State, e: Event, nowMs: int) {
    && e != Enabled(true)
    && (e.Exit? ==> !Healthy(s, nowMs) && !(e.lockHeld && s.readyAtMs == 0))
  }

  predicate Stretch(s: State, events: seq<Timed>) {
    forall i | 0 <= i < |events| :: NoReset(After(s, events[..i]), events[i].event, events[i].nowMs)
  }

  function Starts(s: State, events: seq<Timed>): nat {
    if events == [] then 0
    else Starts(s, events[..|events| - 1]) + if ActionAt(s, events, |events| - 1).start then 1 else 0
  }

  function Exits(events: seq<Timed>): nat {
    if events == [] then 0 else Exits(events[..|events| - 1]) + if events[|events| - 1].event.Exit? then 1 else 0
  }

  /** How many more starts a stretch can see. */
  function StartsLeft(s: State): int {
    match s.phase
    case Disabled => 0
    case Failed => 0
    case Backoff => MAX_RESTARTS + 1 - s.failures
    case Elsewhere => MAX_RESTARTS + 1 - s.failures
    case _ => MAX_RESTARTS - s.failures
  }

  lemma StartCosts(s: State, e: Event, nowMs: int)
    requires Sound(s) && NoReset(s, e, nowMs)
    ensures var (s', a) := Reduce(s, e, nowMs);
            && StartsLeft(s') + (if a.start then 1 else 0) <= StartsLeft(s)
            && StartsLeft(s') >= 0
  {
    hide RestartDelay;
  }

  lemma {:induction false} StretchStarts(s: State, events: seq<Timed>)
    requires Sound(s) && Stretch(s, events)
    ensures Sound(After(s, events)) && Starts(s, events) + StartsLeft(After(s, events)) <= StartsLeft(s)
    ensures StartsLeft(s) >= 0
  {
    if events != [] {
      hide Reduce, Sound, StartsLeft, NoReset;
      var n := |events| - 1;
      var front := events[..n];
      StretchPrefix(s, events);
      StretchStarts(s, front);
      assert NoReset(After(s, front), events[n].event, events[n].nowMs);
      StartCosts(After(s, front), events[n].event, events[n].nowMs);
      ReduceSound(After(s, front), events[n].event, events[n].nowMs);
    }
  }

  lemma StretchPrefix(s: State, events: seq<Timed>)
    requires events != [] && Stretch(s, events)
    ensures Stretch(s, events[..|events| - 1])
  {
    hide NoReset;
    var front := events[..|events| - 1];
    forall i | 0 <= i < |front| ensures NoReset(After(s, front[..i]), front[i].event, front[i].nowMs) {
      assert front[..i] == events[..i];
    }
  }

  /** From the moment it is enabled, a helper that never stays up is started at most
      MAX_RESTARTS + 1 times. */
  lemma CrashLoopCapped(before: seq<Timed>, on: Timed, events: seq<Timed>)
    requires on.event == Enabled(true)
    requires After(Initial, before).phase == Disabled || After(Initial, before).phase == Failed
    requires Stretch(After(Initial, before + [on]), events)
    ensures 1 + Starts(After(Initial, before + [on]), events) <= MAX_RESTARTS + 1
  {
    assert (before + [on])[..|before|] == before;
    AlwaysSound(before + [on]);
    StretchStarts(After(Initial, before + [on]), events);
  }

  predicate Off(s: State) {
    s.phase == Failed || s.phase == Disabled
  }

  lemma ExitCosts(s: State, e: Event, nowMs: int)
    requires Sound(s) && NoReset(s, e, nowMs)
    ensures var s' := Reduce(s, e, nowMs).0;
            && (Off(s) ==> Off(s'))
            && (!Off(s') ==> s'.failures == s.failures + if e.Exit? then 1 else 0)
  {
    hide RestartDelay;
  }

  /** ... and once the exits of the stretch use up the restarts, it is off, and stays off. */
  lemma {:induction false} ExitsEndIt(s: State, events: seq<Timed>)
    requires Sound(s) && Stretch(s, events)
    ensures Off(s) ==> Off(After(s, events))
    ensures !Off(After(s, events)) ==> After(s, events).failures == s.failures + Exits(events) <= MAX_RESTARTS
  {
    if events != [] {
      hide Reduce, NoReset;
      var n := |events| - 1;
      StretchPrefix(s, events);
      ExitsEndIt(s, events[..n]);
      StretchStarts(s, events[..n]);
      assert NoReset(After(s, events[..n]), events[n].event, events[n].nowMs);
      ExitCosts(After(s, events[..n]), events[n].event, events[n].nowMs);
      ReduceSound(After(s, events[..n]), events[n].event, events[n].nowMs);
    }
  }

  // ---- one helper at a time ----

  /** The helpers started and not yet gone. */
  function Running(events: seq<Timed>): int {
    Starts(Initial, events) - Exits(events)
  }

  /** Only a helper that runs exits. */
  ghost predicate RealExits(events: seq<Timed>) {
    forall i | 0 <= i < |events| && events[i].event.Exit? :: Running(events[..i]) > 0
  }

  /** A helper is up, or being told to go. */
  predicate Active(phase: Phase) {
    phase in {Starting, Handshaking, Ready, Restarting}
  }

  /** Disabling stopped a helper, and no exit has come since. */
  predicate Stopping(events: seq<Timed>) {
    && events != []
    && var front, e := events[..|events| - 1], events[|events| - 1].event;
       || (e == Enabled(false) && Active(After(Initial, front).phase))
       || (!e.Exit? && Stopping(front))
  }

  /** Enabling again before the helper that was stopped has gone. */
  predicate Rushed(events: seq<Timed>, i: nat) {
    i < |events| && events[i].event == Enabled(true) && Stopping(events[..i])
  }

  /** While nothing was rushed: a helper runs exactly while one is up or stopping. */
  predicate OneHelper(events: seq<Timed>) {
    var s := After(Initial, events);
    && Running(events) == (if Active(s.phase) || Stopping(events) then 1 else 0)
    && (Stopping(events) ==> s.phase == Disabled)
  }

  lemma OneMore(events: seq<Timed>)
    requires events != [] && OneHelper(events[..|events| - 1])
    requires events[|events| - 1].event.Exit? ==> Running(events[..|events| - 1]) > 0
    ensures if Rushed(events, |events| - 1) then Running(events) == 2 else OneHelper(events)
  {
    hide RestartDelay;
  }

  lemma {:induction false} FirstRush(events: seq<Timed>)
    requires RealExits(events)
    ensures (forall i | 0 <= i < |events| :: !Rushed(events, i)) ==> OneHelper(events)
    ensures (exists i :: 0 <= i < |events| && Rushed(events, i)) ==>
              exists k :: 0 <= k <= |events| && Running(events[..k]) > 1
  {
    hide OneHelper, Rushed, Running;
    if events == [] {
      NoneYet();
    } else {
      var n := |events| - 1;
      var front := events[..n];
      assert RealExits(front) by {
        forall i | 0 <= i < |front| && front[i].event.Exit? ensures Running(front[..i]) > 0 {
          assert front[..i] == events[..i];
        }
      }
      FirstRush(front);
      forall i | 0 <= i < n ensures Rushed(front, i) == Rushed(events, i) { SameRush(events, n, i); }
      if exists i :: 0 <= i < n && Rushed(events, i) {
        var i :| 0 <= i < n && Rushed(events, i);
        assert Rushed(front, i);
        var k :| 0 <= k <= |front| && Running(front[..k]) > 1;
        assert front[..k] == events[..k];
      } else {
        OneMore(events);
        assert events[..|events|] == events;
      }
    }
  }

  lemma NoneYet()
    ensures OneHelper([])
  {
  }

  lemma SameRush(events: seq<Timed>, n: nat, i: nat)
    requires i < n <= |events|
    ensures Rushed(events[..n], i) == Rushed(events, i)
  {
    assert events[..n][..i] == events[..i];
  }

  /** Never more than one helper runs, if and only if it is never enabled again between
      stopping a helper and that helper's exit. */
  lemma OneAtATime(events: seq<Timed>)
    requires RealExits(events)
    ensures (forall k | 0 <= k <= |events| :: Running(events[..k]) <= 1) <==>
            (forall i | 0 <= i < |events| :: !Rushed(events, i))
  {
    hide Rushed, Running, OneHelper;
    FirstRush(events);
    if forall i | 0 <= i < |events| :: !Rushed(events, i) {
      forall k | 0 <= k <= |events| ensures Running(events[..k]) <= 1 {
        var front := events[..k];
        assert RealExits(front) by {
          forall i | 0 <= i < |front| && front[i].event.Exit? ensures Running(front[..i]) > 0 {
            assert front[..i] == events[..i];
          }
        }
        forall i | 0 <= i < k ensures !Rushed(front, i) { SameRush(events, k, i); }
        FirstRush(front);
        AtMostOne(front);
      }
    }
  }

  lemma AtMostOne(events: seq<Timed>)
    requires OneHelper(events)
    ensures Running(events) <= 1
  {
  }

  /** Such a run: enabled, up, disabled and enabled again, with two helpers started and none
      gone. */
  lemma RushedRun(paths: Paths, nowMs: int)
    ensures var up := [Timed(Enabled(true), nowMs), Timed(Started, nowMs), Timed(Said(ReadyLine(paths)), nowMs)];
            var events := up + [Timed(Enabled(false), nowMs)] + [Timed(Enabled(true), nowMs)];
            RealExits(events) && Rushed(events, 4) && Running(events) == 2
  {
    var a, b, c := Timed(Enabled(true), nowMs), Timed(Started, nowMs), Timed(Said(ReadyLine(paths)), nowMs);
    var d := Timed(Enabled(false), nowMs);
    Grown([], a);
    Grown([a], b);
    Grown([a, b], c);
    Grown([a, b, c], d);
    Grown([a, b, c, d], a);
    assert [a] == [] + [a] && [a, b] == [a] + [b] && [a, b, c] == [a, b] + [c];
    assert [a, b, c, d] == [a, b, c] + [d];
    assert [a, b, c] + [d] + [a] == [a, b, c, d] + [a];
    assert ([a, b, c, d] + [a])[..4] == [a, b, c, d];
    assert After(Initial, []) == Initial;
  }

  /** One more event, all that is told of it. */
  lemma Grown(events: seq<Timed>, e: Timed)
    ensures var (s', act) := Reduce(After(Initial, events), e.event, e.nowMs);
            && After(Initial, events + [e]) == s'
            && Running(events + [e]) ==
               Running(events) + (if act.start then 1 else 0) - (if e.event.Exit? then 1 else 0)
            && Stopping(events + [e]) ==
               ((e.event == Enabled(false) && Active(After(Initial, events).phase))
                || (!e.event.Exit? && Stopping(events)))
  {
    hide Reduce;
    assert (events + [e])[..|events|] == events;
  }
}
