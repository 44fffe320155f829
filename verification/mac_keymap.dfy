/**
 * The tap-dance callbacks of the `mac` keymap: a macOS layout with a base
 * layer, a numpad layer, a navigation layer and an F-key layer.
 *
 * The file's layer enumeration lacks a comma between `_NAV` and `_FUNC`,
 * and its numpad-off callback moves to `_WIN`, a layer this keymap never
 * declares. The model takes the evidently intended meaning: the layers are
 * numbered 0 to 3 in the order written, and the numpad-off callback moves
 * to the base layer, index 0 (`_MAC`), as the Windows keymaps do.
 */
module MacKeymap {
  import opened Firmware

  // enum Layers, as intended
  const MAC: Layer := 0
  const NUM: Layer := 1
  const NAV: Layer := 2
  const FUNC: Layer := 3

  /** The layer `td_num_layer_off` returns to: the base layer. */
  const BASE: Layer := MAC

  /** Ctrl+Cmd+Q: lock macOS. */
  const MAC_LOCK := Keycode({Ctrl, Gui}, LetterQ)

  // ---------------------------------------------------------------------
  // Decision tables: which primitives each callback calls, in order.

  function NumTabFinishedActions(g: Gesture): seq<Action>
  {
    if g.count == 1 && !g.pressed then [Tap(Plain(Tab))]
    else if g.count == 2 && !g.pressed then [LayerMove(NUM)]
    else if g.count == 1 && g.pressed then [LayerOn(NUM)]
    else []
  }

  function NumTabResetActions(g: Gesture): seq<Action>
  {
    if g.count == 1 then [LayerOff(NUM)] else []
  }

  function NumLayerOffActions(g: Gesture): seq<Action>
  {
    if (g.count == 2 && !g.pressed) || (g.count == 1 && g.pressed) then [LayerMove(BASE)]
    else if g.count == 1 && !g.pressed then [Tap(Plain(Tab))]
    else []
  }

  function MacLockFinishedActions(g: Gesture): seq<Action>
  {
    if g.pressed then [Tap(MAC_LOCK)] else [Tap(Plain(RightAlt))]
  }

  // ---------------------------------------------------------------------
  // The callbacks, acting on the keyboard in place.

  method NumTabFinished(kb: Keyboard, g: Gesture)
    modifies kb
    ensures kb.State() == Run(old(kb.State()), NumTabFinishedActions(g))
  {
    if g.count == 1 && !g.pressed {
      kb.TapCode(Tab);
    } else if g.count == 2 && !g.pressed {
      kb.LayerMove(NUM);
    } else if g.count == 1 && g.pressed {
      kb.LayerOn(NUM);
    }
  }

  method NumTabReset(kb: Keyboard, g: Gesture)
    modifies kb
    ensures kb.State() == Run(old(kb.State()), NumTabResetActions(g))
  {
    if g.count == 1 {
      kb.LayerOff(NUM);
    }
  }

  method NumLayerOff(kb: Keyboard, g: Gesture)
    modifies kb
    ensures kb.State() == Run(old(kb.State()), NumLayerOffActions(g))
  {
    if (g.count == 2 && !g.pressed) || (g.count == 1 && g.pressed) {
      kb.LayerMove(BASE);
    } else if g.count == 1 && !g.pressed {
      kb.TapCode(Tab);
    }
  }

  method MacLockFinished(kb: Keyboard, g: Gesture)
    modifies kb
    ensures kb.State() == Run(old(kb.State()), MacLockFinishedActions(g))
  {
    if g.pressed {
      kb.TapCode16(MAC_LOCK);
    } else {
      kb.TapCode(RightAlt);
    }
  }

  // ---------------------------------------------------------------------
  // The Tab dance: the finished callback followed by the reset callback.

  /** The state after the Tab dance (TD_NUM_TAB). */
  function NumTabDance(s: KeyboardState, g: Gesture): KeyboardState
  {
    Run(Run(s, NumTabFinishedActions(g)), NumTabResetActions(g))
  }

  /**
   * Tab dance: a single tap or hold leaves `_NUM` off afterwards (the hold's
   * layer is temporary), while a released double tap leaves `_NUM` as the
   * only active layer (it survives the reset).
   */
  lemma NumTabDanceEffect(s: KeyboardState, g: Gesture)
    ensures var t := NumTabDance(s, g);
      && (g.count == 1 ==> t.layers == s.layers - {NUM})
      && (g.count == 2 && !g.pressed ==> t.layers == {NUM})
      && (g.count != 1 && !(g.count == 2 && !g.pressed) ==> t.layers == s.layers)
      && t.held == s.held
      && t.log == s.log + (if g.count == 1 && !g.pressed then [Plain(Tab)] else [])
  {
    RunShort(s, NumTabFinishedActions(g));
    RunShort(Run(s, NumTabFinishedActions(g)), NumTabResetActions(g));
  }

  // ---------------------------------------------------------------------
  // Properties of single callbacks.

  /** A single released tap on Tab sends Tab and leaves the layers alone. */
  lemma NumTabTap(s: KeyboardState)
    ensures Run(s, NumTabFinishedActions(Gesture(1, false))) == s.(log := s.log + [Plain(Tab)])
  {
  }

  /** A released double tap on Tab makes `_NUM` the only active layer; a held one does nothing. */
  lemma NumTabDoubleTap(s: KeyboardState, pressed: bool)
    ensures Run(s, NumTabFinishedActions(Gesture(2, pressed)))
         == if pressed then s else s.(layers := {NUM})
  {
  }

  /** A single hold on Tab turns `_NUM` on until the reset. */
  lemma NumTabHold(s: KeyboardState)
    ensures Run(s, NumTabFinishedActions(Gesture(1, true))) == s.(layers := s.layers + {NUM})
  {
  }

  /** The Tab finished callback does nothing exactly for a held double tap or three or more taps. */
  lemma NumTabNoAction(g: Gesture)
    ensures NumTabFinishedActions(g) == [] <==> g.count != 1 && !(g.count == 2 && !g.pressed)
  {
  }

  /** The reset turns `_NUM` off exactly after a single tap or hold. */
  lemma NumTabResetOnlySingle(s: KeyboardState, g: Gesture)
    ensures Run(s, NumTabResetActions(g)) == if g.count == 1 then s.(layers := s.layers - {NUM}) else s
  {
  }

  /**
   * Leaving the numpad: a released double tap or a single hold leaves only
   * the base layer active, a single released tap sends Tab, anything else
   * does nothing.
   */
  lemma NumLayerOffEffect(s: KeyboardState, g: Gesture)
    ensures var t := Run(s, NumLayerOffActions(g));
      && ((g.count == 2 && !g.pressed) || (g.count == 1 && g.pressed) ==> t == s.(layers := {BASE}))
      && (g.count == 1 && !g.pressed ==> t == s.(log := s.log + [Plain(Tab)]))
      && (g.count != 1 && !(g.count == 2 && !g.pressed) ==> t == s)
  {
  }

  /** The lock key emits exactly one keycode: Ctrl+Cmd+Q when held, Right Alt (Option) when tapped. */
  lemma MacLockEmitsOne(s: KeyboardState, g: Gesture)
    ensures Run(s, MacLockFinishedActions(g)) == s.(log := s.log + [if g.pressed then MAC_LOCK else Plain(RightAlt)])
  {
  }
}
