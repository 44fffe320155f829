/**
 * The host firmware as the tap-dance callbacks see it.
 *
 * The callbacks in every keymap drive six primitives of the keyboard
 * firmware: `tap_code` / `tap_code16` (emit a key), `register_code` /
 * `unregister_code` (hold or release a key) and `layer_on` / `layer_off` /
 * `layer_move` (change the set of active layers). The firmware itself is not
 * part of this model; what follows is the behaviour the model ASSUMES of it:
 *
 *   layer_on(l)        adds l to the active layers
 *   layer_off(l)       removes l from the active layers
 *   layer_move(l)      makes {l} the only active layer
 *   register_code(k)   adds k to the held keys
 *   unregister_code(k) removes k from the held keys
 *   tap_code(k)        appends one emission of k to the output log
 *
 * The assumption is written twice, once per form it is used in: as `Apply`
 * on values (the specification), and as the methods of class `Keyboard`
 * (the in-place state the callbacks mutate).
 */
module Firmware {

  /** The modifier wrappers C(), S(), A(), G() (left Ctrl, Shift, Alt, GUI). */
  datatype Mod = Ctrl | Shift | Alt | Gui

  /** The basic keycodes the callbacks use (KC_NO, KC_TAB, KC_CAPS, ...). */
  datatype Key =
    | NoKey | Tab | CapsLock | App | LeftAlt | RightAlt | RightShift
    | LetterL | LetterQ | LeftArrow | RightArrow | Backslash | Space

  /** A 16-bit keycode: a basic key wrapped in a set of modifiers. */
  datatype Keycode = Keycode(mods: set<Mod>, key: Key)

  /** A basic keycode with no modifier, as `tap_code` sends it. */
  function Plain(k: Key): Keycode
  {
    Keycode({}, k)
  }

  /** A layer index (the position in the keymap's `enum Layers`). */
  type Layer = nat

  /**
   * What the firmware hands a tap-dance callback: the number of taps in the
   * dance and whether the key is still down when the dance is resolved.
   * The firmware supplies `count >= 1`; the callbacks themselves do not
   * rely on it.
   */
  datatype Gesture = Gesture(count: nat, pressed: bool)

  /** One call of a firmware primitive. */
  datatype Action =
    | LayerOn(layer: Layer)
    | LayerOff(layer: Layer)
    | LayerMove(layer: Layer)
    | Register(key: Key)
    | Unregister(key: Key)
    | Tap(code: Keycode)

  /** The part of the firmware state the callbacks touch. */
  datatype KeyboardState = KeyboardState(layers: set<Layer>, held: set<Key>, log: seq<Keycode>)

  /** The assumed effect of one primitive. */
  function Apply(s: KeyboardState, a: Action): KeyboardState
  {
    match a
    case LayerOn(l) => s.(layers := s.layers + {l})
    case LayerOff(l) => s.(layers := s.layers - {l})
    case LayerMove(l) => s.(layers := {l})
    case Register(k) => s.(held := s.held + {k})
    case Unregister(k) => s.(held := s.held - {k})
    case Tap(c) => s.(log := s.log + [c])
  }

  /** The effect of a sequence of primitive calls, first to last. */
  function Run(s: KeyboardState, acts: seq<Action>): KeyboardState
    decreases |acts|
  {
    if acts == [] then s else Run(Apply(s, acts[0]), acts[1..])
  }

  /** The keycodes a sequence of primitive calls emits, in order. */
  function Emitted(acts: seq<Action>): seq<Keycode>
    decreases |acts|
  {
    if acts == [] then []
    else (if acts[0].Tap? then [acts[0].code] else []) + Emitted(acts[1..])
  }

  /** `n` emissions of the same keycode. */
  function Repeat(c: Keycode, n: nat): (r: seq<Keycode>)
    ensures |r| == n
    ensures forall i :: 0 <= i < n ==> r[i] == c
  {
    if n == 0 then [] else [c] + Repeat(c, n - 1)
  }

  /** Tapping the given keycodes one after the other. */
  function Taps(cs: seq<Keycode>): seq<Action>
    decreases |cs|
  {
    if cs == [] then [] else [Tap(cs[0])] + Taps(cs[1..])
  }

  /** At most two calls: each acts on the state the previous one left. */
  lemma {:induction false} RunShort(s: KeyboardState, acts: seq<Action>)
    requires |acts| <= 2
    ensures Run(s, acts) == if |acts| == 0 then s
                            else if |acts| == 1 then Apply(s, acts[0])
                            else Apply(Apply(s, acts[0]), acts[1])
    decreases |acts|
  {
    if |acts| == 2 {
      RunShort(Apply(s, acts[0]), acts[1..]);
    }
  }

  /** Running two call sequences one after the other is running their concatenation. */
  lemma {:induction false} RunAppend(s: KeyboardState, a: seq<Action>, b: seq<Action>)
    ensures Run(s, a + b) == Run(Run(s, a), b)
    decreases |a|
  {
    if a == [] {
      assert a + b == b;
    } else {
      assert (a + b)[0] == a[0];
      assert (a + b)[1..] == a[1..] + b;
      RunAppend(Apply(s, a[0]), a[1..], b);
    }
  }

  /** The output log only ever grows, and it grows by exactly the emitted keycodes, in call order. */
  lemma {:induction false} RunLog(s: KeyboardState, acts: seq<Action>)
    ensures Run(s, acts).log == s.log + Emitted(acts)
    decreases |acts|
  {
    if acts != [] {
      RunLog(Apply(s, acts[0]), acts[1..]);
    }
  }

  /** Tapping keycodes appends exactly those keycodes, in order, and changes nothing else. */
  lemma {:induction false} RunTaps(s: KeyboardState, cs: seq<Keycode>)
    ensures Run(s, Taps(cs)) == s.(log := s.log + cs)
    decreases |cs|
  {
    if cs != [] {
      assert Taps(cs)[0] == Tap(cs[0]);
      assert Taps(cs)[1..] == Taps(cs[1..]);
      RunTaps(Apply(s, Tap(cs[0])), cs[1..]);
      assert s.log + [cs[0]] + cs[1..] == s.log + cs;
    }
  }

  /**
   * The keyboard state the callbacks update in place. Each method is one
   * firmware primitive and states the assumed effect on the three fields.
   */
  class Keyboard {
    var layers: set<Layer>
    var held: set<Key>
    var log: seq<Keycode>

    /** The current state as a value. */
    function State(): KeyboardState
      reads this
    {
      KeyboardState(layers, held, log)
    }

    constructor (s: KeyboardState)
      ensures State() == s
    {
      layers, held, log := s.layers, s.held, s.log;
    }

    method LayerOn(l: Layer)
      modifies this
      ensures layers == old(layers) + {l} && held == old(held) && log == old(log)
    {
      layers := layers + {l};
    }

    method LayerOff(l: Layer)
      modifies this
      ensures layers == old(layers) - {l} && held == old(held) && log == old(log)
    {
      layers := layers - {l};
    }

    method LayerMove(l: Layer)
      modifies this
      ensures layers == {l} && held == old(held) && log == old(log)
    {
      layers := {l};
    }

    method RegisterCode(k: Key)
      modifies this
      ensures held == old(held) + {k} && layers == old(layers) && log == old(log)
    {
      held := held + {k};
    }

    method UnregisterCode(k: Key)
      modifies this
      ensures held == old(held) - {k} && layers == old(layers) && log == old(log)
    {
      held := held - {k};
    }

    /** `tap_code`: press and release a basic keycode. */
    method TapCode(k: Key)
      modifies this
      ensures log == old(log) + [Plain(k)] && layers == old(layers) && held == old(held)
    {
      log := log + [Plain(k)];
    }

    /** `tap_code16`: press and release a keycode together with its modifiers. */
    method TapCode16(c: Keycode)
      modifies this
      ensures log == old(log) + [c] && layers == old(layers) && held == old(held)
    {
      log := log + [c];
    }
  }
}
