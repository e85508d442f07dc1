/**
  Properties of `handle_keys` over whole sequences of key events, in the order
  the event loop delivers them to the camera.
 */
module KeySequences {
  import opened Options
  import opened CameraModel

  /** The key state after each event of `events` has gone through `KeyTransition` in turn. */
  function RunKeys(k: KeyState, events: seq<KeyboardInput>): KeyState
    decreases |events|
  {
    if events == [] then k else RunKeys(KeyTransition(k, events[0]).next, events[1..])
  }

  lemma {:induction false} RunKeysAppend(k: KeyState, a: seq<KeyboardInput>, b: seq<KeyboardInput>)
    ensures RunKeys(k, a + b) == RunKeys(RunKeys(k, a), b)
    decreases |a|
  {
    if a == [] {
      assert a + b == b;
    } else {
      assert (a + b)[0] == a[0];
      assert (a + b)[1..] == a[1..] + b;
      RunKeysAppend(KeyTransition(k, a[0]).next, a[1..], b);
    }
  }

  predicate NoVerticalKey(events: seq<KeyboardInput>)
  {
    forall i :: 0 <= i < |events| ==> !IsVerticalKey(events[i].scancode)
  }

  predicate NoHorizontalKey(events: seq<KeyboardInput>)
  {
    forall i :: 0 <= i < |events| ==> !IsHorizontalKey(events[i].scancode)
  }

  predicate NoToggleKey(events: seq<KeyboardInput>)
  {
    forall i :: 0 <= i < |events| ==> events[i].scancode != ToggleTargetKey
  }

  /** Each intent and the target are driven by their own keys only: events on other keys never change them. */
  lemma {:induction false} OtherKeysKeepState(k: KeyState, events: seq<KeyboardInput>)
    ensures NoVerticalKey(events) ==> RunKeys(k, events).vertical == k.vertical
    ensures NoHorizontalKey(events) ==> RunKeys(k, events).horizontal == k.horizontal
    ensures NoToggleKey(events) ==> RunKeys(k, events).target == k.target
    decreases |events|
  {
    if events != [] {
      OtherKeysKeepState(KeyTransition(k, events[0]).next, events[1..]);
    }
  }

  predicate NoVerticalRelease(events: seq<KeyboardInput>)
  {
    forall i :: 0 <= i < |events| ==> !(IsVerticalKey(events[i].scancode) && events[i].state == Released)
  }

  predicate NoHorizontalRelease(events: seq<KeyboardInput>)
  {
    forall i :: 0 <= i < |events| ==> !(IsHorizontalKey(events[i].scancode) && events[i].state == Released)
  }

  /**
    A held intent is kept, whatever keys are pressed, until a key of its axis is
    released: pressing the opposite key does not take over, the first press wins.
   */
  lemma {:induction false} HeldIntentPersists(k: KeyState, events: seq<KeyboardInput>)
    ensures k.vertical.Some? && NoVerticalRelease(events) ==> RunKeys(k, events).vertical == k.vertical
    ensures k.horizontal.Some? && NoHorizontalRelease(events) ==> RunKeys(k, events).horizontal == k.horizontal
    decreases |events|
  {
    if events != [] {
      HeldIntentPersists(KeyTransition(k, events[0]).next, events[1..]);
    }
  }

  /**
    Releasing either vertical key clears the vertical intent even when the other
    key set it, and it stays clear while no vertical key is touched again.
   */
  lemma LastVerticalReleaseClears(k: KeyState, before: seq<KeyboardInput>, c: ScanCode, after: seq<KeyboardInput>)
    requires IsVerticalKey(c) && NoVerticalKey(after)
    ensures RunKeys(k, before + [KeyboardInput(c, Released)] + after).vertical.None?
  {
    var released := RunKeys(RunKeys(k, before), [KeyboardInput(c, Released)]);
    RunKeysAppend(k, before, [KeyboardInput(c, Released)]);
    RunKeysAppend(k, before + [KeyboardInput(c, Released)], after);
    OtherKeysKeepState(released, after);
  }

  /** The horizontal counterpart of `LastVerticalReleaseClears`. */
  lemma LastHorizontalReleaseClears(k: KeyState, before: seq<KeyboardInput>, c: ScanCode, after: seq<KeyboardInput>)
    requires IsHorizontalKey(c) && NoHorizontalKey(after)
    ensures RunKeys(k, before + [KeyboardInput(c, Released)] + after).horizontal.None?
  {
    var released := RunKeys(RunKeys(k, before), [KeyboardInput(c, Released)]);
    RunKeysAppend(k, before, [KeyboardInput(c, Released)]);
    RunKeysAppend(k, before + [KeyboardInput(c, Released)], after);
    OtherKeysKeepState(released, after);
  }

  /**
    From a clear intent, a press followed by a release on the same axis gives
    back the state it started from, whichever of the two keys is released.
   */
  lemma PressThenReleaseRestores(k: KeyState, press: ScanCode, release: ScanCode)
    requires (IsVerticalKey(press) && IsVerticalKey(release) && k.vertical.None?) ||
             (IsHorizontalKey(press) && IsHorizontalKey(release) && k.horizontal.None?)
    ensures RunKeys(k, [KeyboardInput(press, Pressed), KeyboardInput(release, Released)]) == k
  {
    var events := [KeyboardInput(press, Pressed), KeyboardInput(release, Released)];
    var k1 := KeyTransition(k, events[0]).next;
    assert events[1..] == [KeyboardInput(release, Released)];
    assert RunKeys(k1, events[1..]) == KeyTransition(k1, events[1]).next by {
      assert events[1..][1..] == [];
    }
  }

  function Repeat(e: KeyboardInput, n: nat): (r: seq<KeyboardInput>)
    ensures |r| == n && forall i :: 0 <= i < n ==> r[i] == e
  {
    if n == 0 then [] else [e] + Repeat(e, n - 1)
  }

  /**
    Pressing the toggle key `n` times flips between locked-on and free-look
    `n` times; whenever it ends locked on after at least one press, the target
    is the default point, wherever the old target was.
   */
  lemma {:induction false} TogglePresses(k: KeyState, n: nat)
    ensures RunKeys(k, Repeat(KeyboardInput(ToggleTargetKey, Pressed), n)).target ==
              if n == 0 then k.target
              else if (n % 2 == 0) == k.target.Some? then Some(DefaultTarget)
              else None
    decreases n
  {
    var e := KeyboardInput(ToggleTargetKey, Pressed);
    if n > 0 {
      var events := Repeat(e, n);
      assert events[0] == e && events[1..] == Repeat(e, n - 1);
      var k1 := KeyTransition(k, e).next;
      assert k1.target.Some? == k.target.None?;
      assert k1.target.Some? ==> k1.target == Some(DefaultTarget);
      TogglePresses(k1, n - 1);
    }
  }
}
