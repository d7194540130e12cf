/**
 * The keypad state `pressed_keys` and the two ways the interpreter consumes
 * queued input events: `fetch_key_events` drains everything queued, and
 * `wait_for_key` consumes events up to and including the first key press.
 * The channel the events travel on is modelled as the sequence of events
 * queued so far; a blocking receive on an empty queue is reported as
 * "no press yet" instead of blocking.
 */
module Keypad {
  import opened Options
  import opened Input

  /** There are sixteen keys on the keypad. */
  const KeyCount: nat := 16

  /** Applying one event: a mapped key becomes pressed iff the event's value is non-zero. */
  function ApplyEvent(keys: seq<bool>, e: InputEvent): (r: seq<bool>)
    requires |keys| == KeyCount
    ensures |r| == KeyCount
    ensures forall k :: 0 <= k < KeyCount && KeyIdx(e) != Some(k) ==> r[k] == keys[k]
    ensures KeyIdx(e).Some? ==> r[KeyIdx(e).value] == (e.value != 0)
  {
    match KeyIdx(e)
    case Some(idx) => keys[idx := e.value != 0]
    case None => keys
  }

  /** Applying a run of events in arrival order (the body of the loop in `fetch_key_events`). */
  function ApplyEvents(keys: seq<bool>, events: seq<InputEvent>): (r: seq<bool>)
    requires |keys| == KeyCount
    ensures |r| == KeyCount
    decreases |events|
  {
    if events == [] then keys else ApplyEvents(ApplyEvent(keys, events[0]), events[1..])
  }

  /** The setting the last event for key `k` in `events` asks for, if any event is for `k`. */
  function LastSetting(events: seq<InputEvent>, k: nat): Option<bool>
    decreases |events|
  {
    if events == [] then None
    else if KeyIdx(events[|events| - 1]) == Some(k) then Some(events[|events| - 1].value != 0)
    else LastSetting(events[..|events| - 1], k)
  }

  /** Events are applied one after the other. */
  lemma {:induction false} ApplyEventsSnoc(keys: seq<bool>, events: seq<InputEvent>, e: InputEvent)
    requires |keys| == KeyCount
    ensures ApplyEvents(keys, events + [e]) == ApplyEvent(ApplyEvents(keys, events), e)
    decreases |events|
  {
    if events == [] {
      assert [e][1..] == [];
    } else {
      assert (events + [e])[1..] == events[1..] + [e];
      ApplyEventsSnoc(ApplyEvent(keys, events[0]), events[1..], e);
    }
  }

  /** Draining a queue of events: the last event for a key wins; keys with no event keep their state. */
  lemma {:induction false} LastEventWins(keys: seq<bool>, events: seq<InputEvent>, k: nat)
    requires |keys| == KeyCount && k < KeyCount
    ensures ApplyEvents(keys, events)[k] == match LastSetting(events, k)
                                             case Some(b) => b
                                             case None => keys[k]
    decreases |events|
  {
    if events != [] {
      var front, e := events[..|events| - 1], events[|events| - 1];
      assert events == front + [e];
      ApplyEventsSnoc(keys, front, e);
      LastEventWins(keys, front, k);
    }
  }

  /** An event `wait_for_key` stops at: a mapped key with a non-zero value. */
  predicate IsPress(e: InputEvent)
  {
    KeyIdx(e).Some? && e.value != 0
  }

  /** What `wait_for_key` leaves behind: the key found (if any), the keypad, the events not consumed. */
  datatype Wait = Wait(found: Option<nat>, keys: seq<bool>, rest: seq<InputEvent>)

  /** `wait_for_key` over the queued events. */
  function WaitForKey(keys: seq<bool>, events: seq<InputEvent>): (r: Wait)
    requires |keys| == KeyCount
    ensures |r.keys| == KeyCount
    ensures r.found.Some? ==> r.found.value < KeyCount && r.keys[r.found.value]
    decreases |events|
  {
    if events == [] then Wait(None, keys, [])
    else
      match KeyIdx(events[0])
      case Some(idx) =>
        if events[0].value == 0 then WaitForKey(keys[idx := false], events[1..])
        else Wait(Some(idx), keys[idx := true], events[1..])
      case None => WaitForKey(keys, events[1..])
  }

  /**
   * `wait_for_key` stops at the first press: it returns that key's index, has
   * applied every event up to and including the press, and leaves the later
   * events queued.
   */
  lemma {:induction false} WaitForKeyStopsAtFirstPress(keys: seq<bool>, events: seq<InputEvent>, j: nat)
    requires |keys| == KeyCount
    requires j < |events| && IsPress(events[j])
    requires forall m :: 0 <= m < j ==> !IsPress(events[m])
    ensures WaitForKey(keys, events) == Wait(KeyIdx(events[j]), ApplyEvents(keys, events[..j + 1]), events[j + 1..])
    decreases j
  {
    var e, tail := events[0], events[1..];
    assert ApplyEvents(keys, events[..j + 1]) == ApplyEvents(ApplyEvent(keys, e), events[..j + 1][1..]);
    if j == 0 {
      assert events[..1][1..] == [];
    } else {
      assert !IsPress(e);
      assert events[..j + 1][1..] == tail[..j];
      assert events[j + 1..] == tail[j..];
      forall m | 0 <= m < j - 1 ensures !IsPress(tail[m]) {
        assert tail[m] == events[m + 1];
      }
      WaitForKeyStopsAtFirstPress(ApplyEvent(keys, e), tail, j - 1);
    }
  }

  /** With no press queued, `wait_for_key` applies every event, finds nothing and empties the queue. */
  lemma {:induction false} WaitForKeyWithoutPress(keys: seq<bool>, events: seq<InputEvent>)
    requires |keys| == KeyCount
    requires forall m :: 0 <= m < |events| ==> !IsPress(events[m])
    ensures WaitForKey(keys, events) == Wait(None, ApplyEvents(keys, events), [])
    decreases |events|
  {
    if events != [] {
      assert !IsPress(events[0]);
      forall m | 0 <= m < |events| - 1 ensures !IsPress(events[1..][m]) {
        assert events[1..][m] == events[m + 1];
      }
      WaitForKeyWithoutPress(ApplyEvent(keys, events[0]), events[1..]);
    }
  }

  /** `wait_for_key` finds a key exactly when some queued event is a press. */
  lemma {:induction false} WaitForKeyFindsIffPress(keys: seq<bool>, events: seq<InputEvent>)
    requires |keys| == KeyCount
    ensures WaitForKey(keys, events).found.Some? <==> exists m :: 0 <= m < |events| && IsPress(events[m])
    decreases |events|
  {
    if events != [] {
      var e, tail := events[0], events[1..];
      if !IsPress(e) {
        WaitForKeyFindsIffPress(ApplyEvent(keys, e), tail);
        if exists m :: 0 <= m < |events| && IsPress(events[m]) {
          var m :| 0 <= m < |events| && IsPress(events[m]);
          assert m > 0 && tail[m - 1] == events[m];
        }
        if exists m :: 0 <= m < |tail| && IsPress(tail[m]) {
          var m :| 0 <= m < |tail| && IsPress(tail[m]);
          assert events[m + 1] == tail[m];
        }
      }
    }
  }

  /**
   * Waiting is resumable: consuming events that hold no press and then
   * waiting on what arrives later is the same as waiting on all of them.
   */
  lemma {:induction false} WaitForKeyResumes(keys: seq<bool>, early: seq<InputEvent>, late: seq<InputEvent>)
    requires |keys| == KeyCount
    requires forall m :: 0 <= m < |early| ==> !IsPress(early[m])
    ensures WaitForKey(keys, early + late) == WaitForKey(ApplyEvents(keys, early), late)
    decreases |early|
  {
    if early != [] {
      var e := early[0];
      assert !IsPress(e);
      assert (early + late)[0] == e && (early + late)[1..] == early[1..] + late;
      forall m | 0 <= m < |early| - 1 ensures !IsPress(early[1..][m]) {
        assert early[1..][m] == early[m + 1];
      }
      WaitForKeyResumes(ApplyEvent(keys, e), early[1..], late);
    } else {
      assert early + late == late;
    }
  }
}
