/**
 * AudioContextHost: the object that turns key presses into DTMF tones. Its
 * private fields are updated in place by the press, release and floor-timer
 * entry points; each method is specified by the matching transition of
 * ToneLifecycle, whose laws are proved there.
 *
 * The audio context is modelled only as present or absent, an oscillator as
 * the frequency it plays, and the deferred floor-timer callback as the
 * method FloorTimerFired, called with the token that PlayTone returned.
 */
module AudioHost {
  import Keypad
  import opened ToneLifecycle

  datatype Option<T> = None | Some(value: T)

  class AudioContextHost {
    /** The 150 ms floor a tone sounds for however briefly its key is held. */
    static const MinDuration: nat := 150

    var contextPresent: bool
    var oscillators: seq<int>
    var count: nat
    var playRequested: bool
    var minDurationElapsed: bool

    /** Every oscillator stopped and disconnected on a context so far, in order. */
    ghost var released: seq<int>

    /** The host's fields as a ToneLifecycle state. */
    function State(): HostState
      reads this
    {
      HostState(contextPresent, oscillators, count, playRequested, minDurationElapsed)
    }

    /** The constructor does not open an audio context: only a page becoming visible does. */
    constructor ()
      ensures State() == Initial && released == []
    {
      contextPresent := false;
      oscillators := [];
      count := 0;
      playRequested := false;
      minDurationElapsed := false;
      released := [];
    }

    /** Opens an audio context unless one is already present. */
    method CreateContext()
      modifies this
      ensures contextPresent
      ensures oscillators == old(oscillators) && count == old(count)
      ensures playRequested == old(playRequested) && minDurationElapsed == old(minDurationElapsed)
      ensures State() == Step(old(State()), Event.CreateContext) && released == old(released)
    {
      if !contextPresent {
        contextPresent := true;
      }
    }

    /** Closes the audio context if there is one; the oscillator list is left as it is. */
    method CloseContext()
      modifies this
      ensures !contextPresent
      ensures oscillators == old(oscillators) && count == old(count)
      ensures playRequested == old(playRequested) && minDurationElapsed == old(minDurationElapsed)
      ensures State() == Step(old(State()), Event.CloseContext) && released == old(released)
    {
      if contextPresent {
        contextPresent := false;
      }
    }

    /** Whether an audio context is present. */
    predicate Active()
      reads this
    {
      contextPresent
    }

    /** Whether the key of the current session is held. */
    predicate Playing()
      reads this
    {
      playRequested
    }

    /**
     * Starts a tone of the given frequencies. The previous session's
     * oscillators are released first; without a context that is all.
     * Otherwise the next session starts and the token of its floor timer is
     * returned.
     */
    method PlayTone(frequencies: seq<int>) returns (timer: Option<nat>)
      modifies this
      ensures old(contextPresent) ==>
        count == old(count) + 1 && playRequested && !minDurationElapsed
        && oscillators == frequencies && timer == Some(count)
      ensures !old(contextPresent) ==>
        oscillators == [] && count == old(count) && playRequested == old(playRequested)
        && minDurationElapsed == old(minDurationElapsed) && timer == None
      ensures contextPresent == old(contextPresent)
      ensures State() == Step(old(State()), Play(frequencies))
      ensures released == old(released) + (if old(contextPresent) then old(oscillators) else [])
    {
      StopToneInternal();
      if !Active() {
        return None;
      }
      count := count + 1;
      playRequested := true;
      minDurationElapsed := false;
      // one oscillator per frequency, in order, each connected and started
      var created: seq<int> := [];
      for i := 0 to |frequencies|
        invariant created == frequencies[..i]
      {
        created := created + [frequencies[i]];
      }
      oscillators := created;
      timer := Some(count);
    }

    /** Starts the tone of a keypad key (silent, but still a new session, for an unknown key). */
    method PlayDtmfTone(key: string) returns (timer: Option<nat>)
      modifies this
      ensures old(contextPresent) ==>
        count == old(count) + 1 && playRequested && !minDurationElapsed
        && oscillators == Keypad.DtmfFrequencies(key) && timer == Some(count)
      ensures !old(contextPresent) ==> oscillators == [] && count == old(count) && timer == None
      ensures State() == Step(old(State()), Play(Keypad.DtmfFrequencies(key)))
      ensures released == old(released) + (if old(contextPresent) then old(oscillators) else [])
    {
      timer := PlayTone(Keypad.DtmfFrequencies(key));
    }

    /**
     * The floor timer of the session numbered token. A stale token changes
     * nothing; the current one marks the floor as passed and, when the key
     * was already released, stops the tone.
     */
    method FloorTimerFired(token: nat)
      modifies this
      ensures token != old(count) ==> State() == old(State())
      ensures token == old(count) ==>
        minDurationElapsed && count == old(count) && playRequested == old(playRequested)
        && contextPresent == old(contextPresent)
        && oscillators == (if old(playRequested) then old(oscillators) else [])
      ensures State() == Step(old(State()), TimerFired(token))
      ensures released == old(released)
        + (if token == old(count) && !old(playRequested) && old(contextPresent) then old(oscillators) else [])
    {
      if token != count {
        return;
      }
      minDurationElapsed := true;
      if !playRequested {
        StopToneInternal();
      }
    }

    /**
     * Empties the oscillator list; nothing else changes. With a context
     * present every oscillator is first stopped and disconnected, in order;
     * without one the list is only truncated.
     */
    method StopToneInternal()
      modifies this
      ensures oscillators == []
      ensures contextPresent == old(contextPresent) && count == old(count)
      ensures playRequested == old(playRequested) && minDurationElapsed == old(minDurationElapsed)
      ensures State() == StopInternal(old(State()))
      ensures released == old(released) + (if old(contextPresent) then old(oscillators) else [])
    {
      if Active() {
        while oscillators != []
          invariant released + oscillators == old(released) + old(oscillators)
          decreases |oscillators|
          modifies this`oscillators, this`released
        {
          released := released + [oscillators[0]];
          oscillators := oscillators[1..];
        }
      }
      oscillators := [];
    }

    /**
     * The key is released: past the floor the tone stops at once, otherwise
     * the pending floor timer stops it.
     */
    method StopTone()
      modifies this
      ensures !playRequested
      ensures oscillators == (if old(minDurationElapsed) then [] else old(oscillators))
      ensures contextPresent == old(contextPresent) && count == old(count)
      ensures minDurationElapsed == old(minDurationElapsed)
      ensures State() == Step(old(State()), Stop)
      ensures released == old(released)
        + (if old(minDurationElapsed) && old(contextPresent) then old(oscillators) else [])
    {
      playRequested := false;
      if minDurationElapsed {
        StopToneInternal();
      }
    }
  }

  /**
   * A key outside the keypad still starts a session on a present context:
   * the counter moves and the key counts as held, but no oscillator sounds.
   */
  lemma UnknownKeyStartsSilentSession(s: HostState, key: string)
    requires s.contextPresent
    requires |key| == 0 || !Keypad.IsSymbol(Keypad.UpperCase(key[0]))
    ensures var r := ToneLifecycle.PlayTone(s, Keypad.DtmfFrequencies(key));
      r.oscillators == [] && !Audible(r) && r.count == s.count + 1 && r.playRequested
  {
  }

  /**
   * Pressing '5' for less than the floor: the tone [770, 1336] sounds after
   * the release and stops when the floor timer fires. Pressing '#' past the
   * floor: [941, 1477] sounds until the release and stops with it.
   */
  method KeypadScenarios()
  {
    var host := new AudioContextHost();
    host.CreateContext();

    var timer := host.PlayDtmfTone("5");
    Keypad.GridLookup(1, 1);
    assert [Keypad.Layout[1][1]] == "5";
    host.StopTone();
    assert host.oscillators == [770, 1336];
    host.FloorTimerFired(timer.value);
    assert host.oscillators == [];

    timer := host.PlayDtmfTone("#");
    Keypad.GridLookup(3, 2);
    assert [Keypad.Layout[3][2]] == "#";
    host.FloorTimerFired(timer.value);
    assert host.oscillators == [941, 1477];
    host.StopTone();
    assert host.oscillators == [];

    // '1' pressed and released, then '2' pressed before the floor: the stale
    // timer of '1' leaves '2' sounding
    var first := host.PlayDtmfTone("1");
    host.StopTone();
    var second := host.PlayDtmfTone("2");
    Keypad.GridLookup(0, 1);
    assert [Keypad.Layout[0][1]] == "2";
    host.FloorTimerFired(first.value);
    assert host.oscillators == [697, 1336];
  }
}
