/**
 * The host side of the keypad: host keyboard events and the table `key_idx`
 * that maps the sixteen host keys of `REQUIRED_KEYS` onto the CHIP-8 hex
 * keypad. The device discovery and the listener threads that produce the
 * events are not part of this model; events reach the machine as values.
 */
module Input {
  import opened Options

  /** The host (evdev) keys the interpreter names; every other key is `OtherKey`. */
  datatype Key =
    | Key1 | Key2 | Key3 | Key4
    | KeyQ | KeyW | KeyE | KeyR
    | KeyA | KeyS | KeyD | KeyF
    | KeyZ | KeyX | KeyC | KeyV
    | OtherKey(code: nat)

  /** The kind of an input event: a key event, or some other kind (relative axis, sync, ...). */
  datatype EventKind = KeyKind(key: Key) | OtherKind

  /** An input event: its kind, and its value (0 release, 1 press, 2 auto-repeat). */
  datatype InputEvent = InputEvent(kind: EventKind, value: int)

  /** `REQUIRED_KEYS`: the keys a device must have to be listened to, in source order. */
  const RequiredKeys: seq<Key> :=
    [Key1, Key2, Key3, Key4, KeyQ, KeyW, KeyE, KeyR,
     KeyA, KeyS, KeyD, KeyF, KeyZ, KeyX, KeyC, KeyV]

  /** `key_idx`: the keypad index an event's key stands for, if any. */
  function KeyIdx(event: InputEvent): (r: Option<nat>)
    ensures r.Some? <==> event.kind.KeyKind? && !event.kind.key.OtherKey?
    ensures r.Some? ==> r.value < 16
  {
    match event.kind
    case KeyKind(Key1) => Some(0x1)
    case KeyKind(Key2) => Some(0x2)
    case KeyKind(Key3) => Some(0x3)
    case KeyKind(Key4) => Some(0xc)
    case KeyKind(KeyQ) => Some(0x4)
    case KeyKind(KeyW) => Some(0x5)
    case KeyKind(KeyE) => Some(0x6)
    case KeyKind(KeyR) => Some(0xd)
    case KeyKind(KeyA) => Some(0x7)
    case KeyKind(KeyS) => Some(0x8)
    case KeyKind(KeyD) => Some(0x9)
    case KeyKind(KeyF) => Some(0xe)
    case KeyKind(KeyZ) => Some(0xa)
    case KeyKind(KeyX) => Some(0x0)
    case KeyKind(KeyC) => Some(0xb)
    case KeyKind(KeyV) => Some(0xf)
    case _ => None
  }

  /** The keys `key_idx` maps are exactly the sixteen of `REQUIRED_KEYS`. */
  lemma RequiredKeysAreNamedKeys(k: Key)
    ensures k in RequiredKeys <==> !k.OtherKey?
  {
  }

  /** A key event for `key` with the given value. */
  function KeyEvent(key: Key, value: int): InputEvent
  {
    InputEvent(KeyKind(key), value)
  }

  /**
   * The physical layout the table follows: the 4x4 block of host keys
   * 1234 / QWER / ASDF / ZXCV stands for the hex keypad
   * 123C / 456D / 789E / A0BF, position for position.
   */
  const HostRows: seq<seq<Key>> :=
    [[Key1, Key2, Key3, Key4], [KeyQ, KeyW, KeyE, KeyR],
     [KeyA, KeyS, KeyD, KeyF], [KeyZ, KeyX, KeyC, KeyV]]

  const KeypadRows: seq<seq<nat>> :=
    [[0x1, 0x2, 0x3, 0xC], [0x4, 0x5, 0x6, 0xD],
     [0x7, 0x8, 0x9, 0xE], [0xA, 0x0, 0xB, 0xF]]

  /**
   * The inverse table: the host key a player presses for hex key `idx`,
   * read off the keypad picture above.
   */
  function HostKey(idx: nat): (k: Key)
    requires idx < 16
    ensures k in RequiredKeys
  {
    match idx
    case 0x0 => KeyX
    case 0x1 => Key1
    case 0x2 => Key2
    case 0x3 => Key3
    case 0x4 => KeyQ
    case 0x5 => KeyW
    case 0x6 => KeyE
    case 0x7 => KeyA
    case 0x8 => KeyS
    case 0x9 => KeyD
    case 0xA => KeyZ
    case 0xB => KeyC
    case 0xC => Key4
    case 0xD => KeyR
    case 0xE => KeyF
    case 0xF => KeyV
  }

  /** The table sends every key of the grid to the keypad key in the same position. */
  lemma LayoutPreserved(r: nat, c: nat)
    requires r < 4 && c < 4
    ensures KeyIdx(KeyEvent(HostRows[r][c], 1)) == Some(KeypadRows[r][c])
  {
  }

  /** Every keypad index is produced by its host key. */
  lemma HostKeyMapsBack(idx: nat)
    requires idx < 16
    ensures KeyIdx(KeyEvent(HostKey(idx), 1)) == Some(idx)
  {
  }

  /** Every required key is mapped, and back again: the table is injective on `REQUIRED_KEYS`. */
  lemma KeyIdxMapsBack(k: Key)
    requires k in RequiredKeys
    ensures KeyIdx(KeyEvent(k, 1)).Some?
    ensures HostKey(KeyIdx(KeyEvent(k, 1)).value) == k
  {
  }

  /** Two required keys with the same keypad index are the same key. */
  lemma {:induction false} KeyIdxInjective(a: Key, b: Key, va: int, vb: int)
    requires a in RequiredKeys && b in RequiredKeys
    requires KeyIdx(KeyEvent(a, va)) == KeyIdx(KeyEvent(b, vb))
    ensures a == b
  {
    KeyIdxMapsBack(a);
    KeyIdxMapsBack(b);
  }

  /** Every keypad index 0..15 is produced by exactly one required key. */
  lemma {:induction false} KeypadIndexHasUniqueKey(idx: nat)
    requires idx < 16
    ensures exists k :: k in RequiredKeys && KeyIdx(KeyEvent(k, 1)) == Some(idx)
    ensures forall k :: k in RequiredKeys && KeyIdx(KeyEvent(k, 1)) == Some(idx) ==> k == HostKey(idx)
  {
    HostKeyMapsBack(idx);
    forall k | k in RequiredKeys && KeyIdx(KeyEvent(k, 1)) == Some(idx)
      ensures k == HostKey(idx)
    {
      KeyIdxMapsBack(k);
    }
  }

  /** The value of an event never affects whether or where it maps. */
  lemma KeyIdxIgnoresValue(e: InputEvent, value: int)
    ensures KeyIdx(e) == KeyIdx(e.(value := value))
  {
  }

  /** Keys not listed, and events that are not key events, map to nothing. */
  lemma UnlistedMapsToNone(e: InputEvent)
    requires !e.kind.KeyKind? || e.kind.key.OtherKey?
    ensures KeyIdx(e) == None
  {
  }

  /** A few entries of the concrete table. */
  lemma ConcreteLayout()
    ensures KeyIdx(KeyEvent(KeyX, 1)) == Some(0x0)
    ensures KeyIdx(KeyEvent(Key1, 1)) == Some(0x1)
    ensures KeyIdx(KeyEvent(Key4, 1)) == Some(0xC)
    ensures KeyIdx(KeyEvent(KeyR, 1)) == Some(0xD)
    ensures KeyIdx(KeyEvent(KeyF, 1)) == Some(0xE)
    ensures KeyIdx(KeyEvent(KeyV, 1)) == Some(0xF)
  {
  }
}
