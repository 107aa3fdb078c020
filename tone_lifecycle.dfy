/**
 * The tone lifecycle of AudioContextHost as a pure state machine: the state
 * of the host as a value, one transition per entry point (a key press, a key
 * release, the floor timer firing, the audio context being created or closed),
 * and whole event sequences. Every entry point runs to completion before the
 * next begins, so a run of the host is exactly a fold of Step over its events.
 */
module ToneLifecycle {

  /**
   * The host's state: whether an audio context is present, the frequencies
   * of the oscillators it holds (one entry per oscillator, in creation order),
   * the session counter, whether the key is held, and whether the 150 ms
   * floor of the current session has passed.
   */
  datatype HostState = HostState(
    contextPresent: bool,
    oscillators: seq<int>,
    count: nat,
    playRequested: bool,
    minDurationElapsed: bool)

  /** Everything that can happen to the host between two quiescent moments. */
  datatype Event =
    | CreateContext
    | CloseContext
    | Play(frequencies: seq<int>)
    | Stop
    | TimerFired(token: nat)

  /** A freshly constructed host: no audio context yet, nothing held, counter at zero. */
  const Initial := HostState(false, [], 0, false, false)

  /** A tone is audible when oscillators are held on a present context. */
  predicate Audible(s: HostState) {
    s.contextPresent && s.oscillators != []
  }

  /** Releasing every oscillator and emptying the list; nothing else changes. */
  function StopInternal(s: HostState): HostState {
    s.(oscillators := [])
  }

  /**
   * A press: the previous session is released first; without a context
   * nothing else happens, otherwise a new session starts with one oscillator
   * per requested frequency.
   */
  function PlayTone(s: HostState, frequencies: seq<int>): HostState {
    var t := StopInternal(s);
    if !t.contextPresent then t
    else t.(count := t.count + 1, playRequested := true, minDurationElapsed := false,
            oscillators := frequencies)
  }

  /**
   * The floor timer of the session numbered token: stale unless token is the
   * current counter; otherwise the floor is marked elapsed, and a key already
   * released gets its deferred stop.
   */
  function FloorTimer(s: HostState, token: nat): HostState {
    if token != s.count then s
    else
      var t := s.(minDurationElapsed := true);
      if !t.playRequested then StopInternal(t) else t
  }

  /** A release: the key is no longer held; past the floor the tone stops at once. */
  function StopTone(s: HostState): HostState {
    var t := s.(playRequested := false);
    if t.minDurationElapsed then StopInternal(t) else t
  }

  function Step(s: HostState, e: Event): HostState {
    match e
    case CreateContext => s.(contextPresent := true)
    case CloseContext => s.(contextPresent := false)
    case Play(frequencies) => PlayTone(s, frequencies)
    case Stop => StopTone(s)
    case TimerFired(token) => FloorTimer(s, token)
  }

  /** The state after the events, applied in order, starting from s. */
  function Run(s: HostState, events: seq<Event>): HostState
    decreases |events|
  {
    if events == [] then s
    else Step(Run(s, events[..|events| - 1]), events[|events| - 1])
  }

  // ---------------------------------------------------------------------------
  // One transition at a time

  /** Stopping the oscillators empties the list and leaves every other part of the state alone; a second stop changes nothing. */
  lemma StopInternalLaw(s: HostState)
    ensures var r := StopInternal(s);
      r.oscillators == [] && r.contextPresent == s.contextPresent && r.count == s.count
      && r.playRequested == s.playRequested && r.minDurationElapsed == s.minDurationElapsed
    ensures StopInternal(StopInternal(s)) == StopInternal(s)
  {
  }

  /** Without a context a press only releases what was held. */
  lemma PlayWithoutContext(s: HostState, frequencies: seq<int>)
    requires !s.contextPresent
    ensures PlayTone(s, frequencies) == s.(oscillators := [])
  {
  }

  /**
   * With a context a press opens the next session: the counter goes up by
   * exactly one, the key is held, the floor is pending, and the oscillators
   * are exactly the requested frequencies; nothing of the previous session is kept.
   */
  lemma PlayWithContext(s: HostState, frequencies: seq<int>)
    requires s.contextPresent
    ensures var r := PlayTone(s, frequencies);
      r.contextPresent && r.count == s.count + 1 && r.playRequested && !r.minDurationElapsed
      && r.oscillators == frequencies
  {
  }

  /** A timer whose token is not the current counter changes nothing. */
  lemma StaleTimerIsNoOp(s: HostState, token: nat)
    requires token != s.count
    ensures FloorTimer(s, token) == s
  {
  }

  /**
   * The current session's timer marks the floor elapsed, and it empties the
   * oscillators exactly when the key has already been released.
   */
  lemma CurrentTimer(s: HostState)
    ensures var r := FloorTimer(s, s.count);
      r.minDurationElapsed && r.count == s.count && r.playRequested == s.playRequested
      && r.contextPresent == s.contextPresent
      && r.oscillators == (if s.playRequested then s.oscillators else [])
  {
  }

  /**
   * A release always clears the held flag; it empties the oscillators at
   * once exactly when the floor has passed and otherwise leaves them to the
   * pending timer. Releasing twice is the same as releasing once.
   */
  lemma StopToneLaw(s: HostState)
    ensures var r := StopTone(s);
      !r.playRequested && r.count == s.count && r.minDurationElapsed == s.minDurationElapsed
      && r.contextPresent == s.contextPresent
      && r.oscillators == (if s.minDurationElapsed then [] else s.oscillators)
    ensures StopTone(StopTone(s)) == StopTone(s)
  {
  }

  /** Only a press on a present context moves the counter, and then by one. */
  lemma StepCount(s: HostState, e: Event)
    ensures Step(s, e).count == if e.Play? && s.contextPresent then s.count + 1 else s.count
  {
  }

  // ---------------------------------------------------------------------------
  // Event sequences

  /** Running a concatenation runs its two parts one after the other. */
  lemma {:induction false} RunAppend(s: HostState, a: seq<Event>, b: seq<Event>)
    ensures Run(s, a + b) == Run(Run(s, a), b)
    decreases |b|
  {
    if b == [] {
      assert a + b == a;
    } else {
      var b' := b[..|b| - 1];
      assert (a + b)[..|a + b| - 1] == a + b';
      RunAppend(s, a, b');
    }
  }

  /** Running one more event is one more step. */
  lemma RunSnoc(s: HostState, events: seq<Event>, e: Event)
    ensures Run(s, events + [e]) == Step(Run(s, events), e)
  {
    assert (events + [e])[..|events|] == events;
  }

  /** The counter never decreases, whatever happens. */
  lemma {:induction false} CountNeverDecreases(s: HostState, events: seq<Event>)
    ensures Run(s, events).count >= s.count
    decreases |events|
  {
    if events != [] {
      var prefix := events[..|events| - 1];
      CountNeverDecreases(s, prefix);
      StepCount(Run(s, prefix), events[|events| - 1]);
    }
  }

  /**
   * A token older than the counter stays stale forever: its timer, whenever
   * it fires, changes nothing.
   */
  lemma StaleTimerStaysStale(s: HostState, events: seq<Event>, token: nat)
    requires token < s.count
    ensures Step(Run(s, events), TimerFired(token)) == Run(s, events)
  {
    CountNeverDecreases(s, events);
  }

  /** The frequencies of the last press in the events, or [] when there is none. */
  function LastPlayed(events: seq<Event>): seq<int>
    decreases |events|
  {
    if events == [] then []
    else if events[|events| - 1].Play? then events[|events| - 1].frequencies
    else LastPlayed(events[..|events| - 1])
  }

  /**
   * At most one session is ever held: starting from no oscillators, the host
   * holds either nothing or exactly the oscillators of the most recent press.
   */
  lemma {:induction false} AtMostOneSession(s: HostState, events: seq<Event>)
    requires s.oscillators == []
    ensures Run(s, events).oscillators == [] || Run(s, events).oscillators == LastPlayed(events)
    decreases |events|
  {
    if events != [] {
      AtMostOneSession(s, events[..|events| - 1]);
    }
  }

  /** Once the floor has passed and the key is released, no oscillator is held. */
  predicate NothingHeldAfterFloor(s: HostState) {
    s.minDurationElapsed && !s.playRequested ==> s.oscillators == []
  }

  /**
   * No tone outlives both its floor and its key: every entry point keeps
   * NothingHeldAfterFloor, so it holds after any events from a state where it
   * holds, the freshly constructed host among them.
   */
  lemma {:induction false} NoToneAfterFloorAndRelease(s: HostState, events: seq<Event>)
    requires NothingHeldAfterFloor(s)
    ensures NothingHeldAfterFloor(Run(s, events))
    decreases |events|
  {
    if events != [] {
      NoToneAfterFloorAndRelease(s, events[..|events| - 1]);
    }
  }

  /**
   * Events that leave a running session alone until its own floor timer
   * (numbered token) fires: releases, a context that is (re)created, and
   * timers of other sessions.
   */
  predicate Quiet(e: Event, token: nat) {
    e.Stop? || e.CreateContext? || (e.TimerFired? && e.token != token)
  }

  predicate AllQuiet(events: seq<Event>, token: nat) {
    forall i | 0 <= i < |events| :: Quiet(events[i], token)
  }

  /** True when the key has been released somewhere in the events. */
  predicate Released(events: seq<Event>) {
    exists i | 0 <= i < |events| :: events[i].Stop?
  }

  /**
   * Until its floor timer fires, a session keeps sounding all its
   * frequencies through quiet events, however early the key is released;
   * the held flag records whether it was.
   */
  lemma {:induction false} SessionSurvivesQuietEvents(s: HostState, frequencies: seq<int>, quiet: seq<Event>)
    requires s.contextPresent
    requires AllQuiet(quiet, s.count + 1)
    ensures var r := Run(PlayTone(s, frequencies), quiet);
      r.contextPresent && r.count == s.count + 1 && !r.minDurationElapsed
      && r.oscillators == frequencies && r.playRequested == !Released(quiet)
    decreases |quiet|
  {
    if quiet != [] {
      var prefix := quiet[..|quiet| - 1];
      assert AllQuiet(prefix, s.count + 1) by {
        forall i | 0 <= i < |prefix| ensures Quiet(prefix[i], s.count + 1) {
          assert prefix[i] == quiet[i];
        }
      }
      SessionSurvivesQuietEvents(s, frequencies, prefix);
      assert Quiet(quiet[|quiet| - 1], s.count + 1);
      if Released(prefix) {
        var i :| 0 <= i < |prefix| && prefix[i].Stop?;
        assert quiet[i].Stop?;
      }
      if Released(quiet) && !quiet[|quiet| - 1].Stop? {
        var i :| 0 <= i < |quiet| && quiet[i].Stop?;
        assert prefix[i].Stop?;
      }
    }
  }

  /**
   * The short-press law: a key released before the floor still sounds until
   * the session's own floor timer fires, and that timer then stops it.
   */
  lemma {:induction false} ShortPress(s: HostState, frequencies: seq<int>, quiet: seq<Event>)
    requires s.contextPresent
    requires AllQuiet(quiet, s.count + 1) && Released(quiet)
    ensures Run(PlayTone(s, frequencies), quiet).oscillators == frequencies
    ensures var r := FloorTimer(Run(PlayTone(s, frequencies), quiet), s.count + 1);
      r.oscillators == [] && r.minDurationElapsed && !r.playRequested
  {
    SessionSurvivesQuietEvents(s, frequencies, quiet);
  }

  /**
   * The long-press law: a key still held when the floor timer fires keeps
   * sounding, and its release then stops the tone at once.
   */
  lemma {:induction false} LongPress(s: HostState, frequencies: seq<int>, quiet: seq<Event>)
    requires s.contextPresent
    requires AllQuiet(quiet, s.count + 1) && !Released(quiet)
    ensures var held := FloorTimer(Run(PlayTone(s, frequencies), quiet), s.count + 1);
      held.oscillators == frequencies && held.minDurationElapsed && held.playRequested
      && StopTone(held).oscillators == []
  {
    SessionSurvivesQuietEvents(s, frequencies, quiet);
  }

  /**
   * The stale-timer law: press, release before the floor, press again; when
   * the first press's timer fires it leaves the second press sounding.
   */
  lemma StaleTimerSparesNewerSession(s: HostState, first: seq<int>, second: seq<int>)
    requires s.contextPresent
    ensures var r := Run(s, [Play(first), Stop, Play(second), TimerFired(s.count + 1)]);
      r.oscillators == second && r.count == s.count + 2 && r.playRequested && !r.minDurationElapsed
  {
    var e1, e2, e3 := Play(first), Stop, Play(second);
    var e4 := TimerFired(s.count + 1);
    assert [e1] == [] + [e1] && [e1, e2] == [e1] + [e2];
    assert [e1, e2, e3] == [e1, e2] + [e3] && [e1, e2, e3, e4] == [e1, e2, e3] + [e4];
    RunSnoc(s, [], e1);
    RunSnoc(s, [e1], e2);
    RunSnoc(s, [e1, e2], e3);
    RunSnoc(s, [e1, e2, e3], e4);
  }

  /**
   * The re-press law: a press while another tone sounds releases the old
   * oscillators before the new ones exist; the result holds only the new ones.
   */
  lemma RePress(s: HostState, first: seq<int>, second: seq<int>)
    requires s.contextPresent
    ensures Run(s, [Play(first), Play(second)]).oscillators == second
    ensures Run(s, [Play(first), Play(second)]).count == s.count + 2
  {
    assert [Play(first)] == [] + [Play(first)];
    assert [Play(first), Play(second)] == [Play(first)] + [Play(second)];
    RunSnoc(s, [], Play(first));
    RunSnoc(s, [Play(first)], Play(second));
  }
}
