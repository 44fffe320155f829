/**
 * The tap-dance callbacks of the `win_only` keymap: a Windows layout with a
 * base layer, a numpad layer, a navigation layer and an F-key layer, and no
 * Alt-Tab layer.
 *
 * As in the `win` keymap, each callback is a function `...Actions(g)`
 * (the primitives it calls on gesture `g`, in order) and a method that runs
 * its decision chain against a `Keyboard`.
 */
module WinOnlyKeymap {
  import opened Firmware

  // enum Layers
  const WIN: Layer := 0
  const NUM: Layer := 1
  const NAV: Layer := 2
  const FUNC: Layer := 3

  /** Alt+Shift with no key: switch the Windows input language. */
  const WIN_LANG := Keycode({Alt, Shift}, NoKey)
  /** Win+L: lock Windows. */
  const WIN_LOCK := Keycode({Gui}, LetterL)

  // ---------------------------------------------------------------------
  // Decision tables: which primitives each callback calls, in order.

  function WinCapsFinishedActions(g: Gesture): seq<Action>
  {
    if g.count == 1 && !g.pressed then [Tap(WIN_LANG)]
    else if g.count == 2 && !g.pressed then [Tap(Plain(CapsLock))]
    else if g.count == 1 && g.pressed then [LayerOn(NAV)]
    else []
  }

  function WinCapsResetActions(g: Gesture): seq<Action>
  {
    [LayerOff(NAV)]
  }

  function NumTabFinishedActions(g: Gesture): seq<Action>
  {
    if g.count == 1 && !g.pressed then [Tap(Plain(Tab))]
    else if g.count == 2 && !g.pressed then [LayerMove(NUM)]
    else if g.count == 1 && g.pressed then [LayerOn(NUM)]
    else []
  }

  function NumTabResetActions(g: Gesture): seq<Action>
  {
    if g.count == 1 then [LayerOff(NUM)] else []
  }

  function NumLayerOffActions(g: Gesture): seq<Action>
  {
    if (g.count == 2 && !g.pressed) || (g.count == 1 && g.pressed) then [LayerMove(WIN)]
    else if g.count == 1 && !g.pressed then [Tap(Plain(Tab))]
    else []
  }

  function WinLockFinishedActions(g: Gesture): seq<Action>
  {
    if g.pressed then [Tap(WIN_LOCK)] else [Tap(Plain(App))]
  }

  // ---------------------------------------------------------------------
  // The callbacks, acting on the keyboard in place.

  method WinCapsFinished(kb: Keyboard, g: Gesture)
    modifies kb
    ensures kb.State() == Run(old(kb.State()), WinCapsFinishedActions(g))
  {
    if g.count == 1 && !g.pressed {
      kb.TapCode16(WIN_LANG);
    } else if g.count == 2 && !g.pressed {
      kb.TapCode(CapsLock);
    } else if g.count == 1 && g.pressed {
      kb.LayerOn(NAV);
    }
  }

  method WinCapsReset(kb: Keyboard, g: Gesture)
    modifies kb
    ensures kb.State() == Run(old(kb.State()), WinCapsResetActions(g))
  {
    kb.LayerOff(NAV);
  }

  method NumTabFinished(kb: Keyboard, g: Gesture)
    modifies kb
    ensures kb.State() == Run(old(kb.State()), NumTabFinishedActions(g))
  {
    if g.count == 1 && !g.pressed {
      kb.TapCode(Tab);
    } else if g.count == 2 && !g.pressed {
      kb.LayerMove(NUM);
    } else if g.count == 1 && g.pressed {
      kb.LayerOn(NUM);
    }
  }

  method NumTabReset(kb: Keyboard, g: Gesture)
    modifies kb
    ensures kb.State() == Run(old(kb.State()), NumTabResetActions(g))
  {
    if g.count == 1 {
      kb.LayerOff(NUM);
    }
  }

  method NumLayerOff(kb: Keyboard, g: Gesture)
    modifies kb
    ensures kb.State() == Run(old(kb.State()), NumLayerOffActions(g))
  {
    if (g.count == 2 && !g.pressed) || (g.count == 1 && g.pressed) {
      kb.LayerMove(WIN);
    } else if g.count == 1 && !g.pressed {
      kb.TapCode(Tab);
    }
  }

  method WinLockFinished(kb: Keyboard, g: Gesture)
    modifies kb
    ensures kb.State() == Run(old(kb.State()), WinLockFinishedActions(g))
  {
    if g.pressed {
      kb.TapCode16(WIN_LOCK);
    } else {
      kb.TapCode(App);
    }
  }

  // ---------------------------------------------------------------------
  // Whole dances: the finished callback followed by the reset callback.

  /** The state after the Caps dance (TD_WIN_CAPS). */
  function WinCapsDance(s: KeyboardState, g: Gesture): KeyboardState
  {
    Run(Run(s, WinCapsFinishedActions(g)), WinCapsResetActions(g))
  }

  /** The state after the Tab dance (TD_NUM_TAB). */
  function NumTabDance(s: KeyboardState, g: Gesture): KeyboardState
  {
    Run(Run(s, NumTabFinishedActions(g)), NumTabResetActions(g))
  }

  /** Caps dance: `_NAV` is inactive afterwards whatever the gesture; only released taps emit. */
  lemma WinCapsDanceEffect(s: KeyboardState, g: Gesture)
    ensures var t := WinCapsDance(s, g);
      && NAV !in t.layers
      && t.layers == s.layers - {NAV} && t.held == s.held
      && t.log == s.log + (if g.pressed then []
                           else if g.count == 1 then [WIN_LANG]
                           else if g.count == 2 then [Plain(CapsLock)]
                           else [])
  {
    RunShort(s, WinCapsFinishedActions(g));
    RunShort(Run(s, WinCapsFinishedActions(g)), WinCapsResetActions(g));
  }

  /**
   * Tab dance: a single tap or hold leaves `_NUM` off afterwards (the hold's
   * layer is temporary), while a released double tap leaves `_NUM` as the
   * only active layer (it survives the reset).
   */
  lemma NumTabDanceEffect(s: KeyboardState, g: Gesture)
    ensures var t := NumTabDance(s, g);
      && (g.count == 1 ==> t.layers == s.layers - {NUM})
      && (g.count == 2 && !g.pressed ==> t.layers == {NUM})
      && (g.count != 1 && !(g.count == 2 && !g.pressed) ==> t.layers == s.layers)
      && t.held == s.held
      && t.log == s.log + (if g.count == 1 && !g.pressed then [Plain(Tab)] else [])
  {
    RunShort(s, NumTabFinishedActions(g));
    RunShort(Run(s, NumTabFinishedActions(g)), NumTabResetActions(g));
  }

  // ---------------------------------------------------------------------
  // Properties of single callbacks.

  /** One or two released taps on Caps emit exactly one keycode and leave the layers alone. */
  lemma WinCapsTap(s: KeyboardState, g: Gesture)
    requires !g.pressed && (g.count == 1 || g.count == 2)
    ensures Run(s, WinCapsFinishedActions(g))
         == s.(log := s.log + [if g.count == 1 then WIN_LANG else Plain(CapsLock)])
  {
  }

  /** A single-tap hold on Caps turns `_NAV` on until the reset. */
  lemma WinCapsHold(s: KeyboardState)
    ensures Run(s, WinCapsFinishedActions(Gesture(1, true))) == s.(layers := s.layers + {NAV})
  {
  }

  /** The Caps finished callback does nothing exactly for a hold after several taps or for three or more taps. */
  lemma WinCapsNoAction(g: Gesture)
    ensures WinCapsFinishedActions(g) == [] <==> g.count != 1 && !(g.count == 2 && !g.pressed)
  {
  }

  /** A single released tap on Tab sends Tab and leaves the layers alone. */
  lemma NumTabTap(s: KeyboardState)
    ensures Run(s, NumTabFinishedActions(Gesture(1, false))) == s.(log := s.log + [Plain(Tab)])
  {
  }

  /**
   * In this keymap a released double tap on Tab makes `_NUM` the only
   * active layer, and a double tap still held does nothing.
   */
  lemma NumTabDoubleTap(s: KeyboardState, pressed: bool)
    ensures Run(s, NumTabFinishedActions(Gesture(2, pressed)))
         == if pressed then s else s.(layers := {NUM})
  {
  }

  /** The Tab finished callback does nothing exactly for a held double tap or three or more taps. */
  lemma NumTabNoAction(g: Gesture)
    ensures NumTabFinishedActions(g) == [] <==> g.count != 1 && !(g.count == 2 && !g.pressed)
  {
  }

  /** A single hold on Tab turns `_NUM` on until the reset. */
  lemma NumTabHold(s: KeyboardState)
    ensures Run(s, NumTabFinishedActions(Gesture(1, true))) == s.(layers := s.layers + {NUM})
  {
  }

  /** The reset turns `_NUM` off exactly after a single tap or hold. */
  lemma NumTabResetOnlySingle(s: KeyboardState, g: Gesture)
    ensures Run(s, NumTabResetActions(g)) == if g.count == 1 then s.(layers := s.layers - {NUM}) else s
  {
  }

  /**
   * Leaving the numpad: a released double tap or a single hold leaves only
   * the base layer active, a single released tap sends Tab, anything else
   * does nothing.
   */
  lemma NumLayerOffEffect(s: KeyboardState, g: Gesture)
    ensures var t := Run(s, NumLayerOffActions(g));
      && ((g.count == 2 && !g.pressed) || (g.count == 1 && g.pressed) ==> t == s.(layers := {WIN}))
      && (g.count == 1 && !g.pressed ==> t == s.(log := s.log + [Plain(Tab)]))
      && (g.count != 1 && !(g.count == 2 && !g.pressed) ==> t == s)
  {
  }

  /** The lock key emits exactly one keycode: Win+L when held, the App key when tapped. */
  lemma WinLockEmitsOne(s: KeyboardState, g: Gesture)
    ensures Run(s, WinLockFinishedActions(g)) == s.(log := s.log + [if g.pressed then WIN_LOCK else Plain(App)])
  {
  }
}
