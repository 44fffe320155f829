/**
 * The tap-dance callbacks of the `win` keymap: a Windows layout with a base
 * layer, a numpad layer, a navigation layer, an F-key layer and an `_ALT`
 * layer used for Alt-Tab window switching.
 *
 * For every callback there is a function `...Actions(g)` giving the
 * firmware primitives the callback calls on gesture `g`, in call order,
 * and a method of the same name without the suffix that runs the callback's
 * decision chain against a `Keyboard`. A "dance" is the firmware calling
 * the finished callback and then the reset callback on the same gesture.
 */
module WinKeymap {
  import opened Firmware

  // enum Layers
  const WIN: Layer := 0
  const NUM: Layer := 1
  const NAV: Layer := 2
  const FUNC: Layer := 3
  const ALT: Layer := 4

  /** Alt+Shift with no key: switch the Windows input language. */
  const WIN_LANG := Keycode({Alt, Shift}, NoKey)
  /** Win+L: lock Windows. */
  const WIN_LOCK := Keycode({Gui}, LetterL)
  /** Ctrl+Shift+Left: select the word to the left. */
  const SELECT_WORD_LEFT := Keycode({Ctrl, Shift}, LeftArrow)
  /** Ctrl+Shift+Alt+\: the case-change shortcut of the layout switcher. */
  const CHANGE_CASE := Keycode({Ctrl, Shift, Alt}, Backslash)

  /** What the case key sends when tapped: select, change case, unselect, space. */
  const CASE_CHANGE_KEYS := [SELECT_WORD_LEFT, CHANGE_CASE, Plain(RightArrow), Plain(Space)]

  // ---------------------------------------------------------------------
  // Decision tables: which primitives each callback calls, in order.

  function AltLayerFinishedActions(g: Gesture): seq<Action>
  {
    if g.pressed then [LayerOn(ALT)]
    else if g.count == 1 then [Tap(Plain(LeftAlt))]
    else []
  }

  function AltLayerResetActions(g: Gesture): seq<Action>
  {
    [Unregister(LeftAlt), LayerOff(ALT)]
  }

  function AltTabFinishedActions(g: Gesture): seq<Action>
  {
    if g.count == 1 then [Register(LeftAlt), Tap(Plain(Tab))] else []
  }

  function AltTabResetActions(g: Gesture): seq<Action>
  {
    []
  }

  function WinCapsFinishedActions(g: Gesture): seq<Action>
  {
    if g.count == 1 && !g.pressed then [Tap(WIN_LANG)]
    else if g.count == 2 && !g.pressed then [Tap(Plain(CapsLock))]
    else if g.count == 1 && g.pressed then [LayerOn(NAV)]
    else []
  }

  function WinCapsResetActions(g: Gesture): seq<Action>
  {
    [LayerOff(NAV)]
  }

  function NumTabFinishedActions(g: Gesture): seq<Action>
  {
    if g.count == 1 && !g.pressed then [Tap(Plain(Tab))]
    else if g.count == 2 && g.pressed then [LayerMove(NUM)]
    else if g.count == 1 && g.pressed then [LayerOn(NUM)]
    else []
  }

  function NumTabResetActions(g: Gesture): seq<Action>
  {
    if g.count == 1 then [LayerOff(NUM)] else []
  }

  function NumLayerOffActions(g: Gesture): seq<Action>
  {
    if (g.count == 2 && !g.pressed) || (g.count == 1 && g.pressed) then [LayerMove(WIN)]
    else if g.count == 1 && !g.pressed then [Tap(Plain(Tab))]
    else []
  }

  function WinLockFinishedActions(g: Gesture): seq<Action>
  {
    if g.pressed then [Tap(WIN_LOCK)] else [Tap(Plain(App))]
  }

  function CaseFinishedActions(g: Gesture): seq<Action>
  {
    if g.pressed then [Tap(Plain(RightShift))]
    else Taps(CASE_CHANGE_KEYS)
  }

  // ---------------------------------------------------------------------
  // The callbacks, acting on the keyboard in place.

  method AltLayerFinished(kb: Keyboard, g: Gesture)
    modifies kb
    ensures kb.State() == Run(old(kb.State()), AltLayerFinishedActions(g))
  {
    if g.pressed {
      kb.LayerOn(ALT);
    } else if g.count == 1 {
      kb.TapCode(LeftAlt);
    }
  }

  method AltLayerReset(kb: Keyboard, g: Gesture)
    modifies kb
    ensures kb.State() == Run(old(kb.State()), AltLayerResetActions(g))
  {
    RunShort(kb.State(), AltLayerResetActions(g));
    kb.UnregisterCode(LeftAlt);
    kb.LayerOff(ALT);
  }

  method AltTabFinished(kb: Keyboard, g: Gesture)
    modifies kb
    ensures kb.State() == Run(old(kb.State()), AltTabFinishedActions(g))
  {
    if g.count == 1 {
      RunShort(kb.State(), AltTabFinishedActions(g));
      kb.RegisterCode(LeftAlt);
      kb.TapCode(Tab);
    }
  }

  method AltTabReset(kb: Keyboard, g: Gesture)
    modifies kb
    ensures kb.State() == Run(old(kb.State()), AltTabResetActions(g))
  {
  }

  method WinCapsFinished(kb: Keyboard, g: Gesture)
    modifies kb
    ensures kb.State() == Run(old(kb.State()), WinCapsFinishedActions(g))
  {
    if g.count == 1 && !g.pressed {
      kb.TapCode16(WIN_LANG);
    } else if g.count == 2 && !g.pressed {
      kb.TapCode(CapsLock);
    } else if g.count == 1 && g.pressed {
      kb.LayerOn(NAV);
    }
  }

  method WinCapsReset(kb: Keyboard, g: Gesture)
    modifies kb
    ensures kb.State() == Run(old(kb.State()), WinCapsResetActions(g))
  {
    kb.LayerOff(NAV);
  }

  method NumTabFinished(kb: Keyboard, g: Gesture)
    modifies kb
    ensures kb.State() == Run(old(kb.State()), NumTabFinishedActions(g))
  {
    if g.count == 1 && !g.pressed {
      kb.TapCode(Tab);
    } else if g.count == 2 && g.pressed {
      kb.LayerMove(NUM);
    } else if g.count == 1 && g.pressed {
      kb.LayerOn(NUM);
    }
  }

  method NumTabReset(kb: Keyboard, g: Gesture)
    modifies kb
    ensures kb.State() == Run(old(kb.State()), NumTabResetActions(g))
  {
    if g.count == 1 {
      kb.LayerOff(NUM);
    }
  }

  method NumLayerOff(kb: Keyboard, g: Gesture)
    modifies kb
    ensures kb.State() == Run(old(kb.State()), NumLayerOffActions(g))
  {
    if (g.count == 2 && !g.pressed) || (g.count == 1 && g.pressed) {
      kb.LayerMove(WIN);
    } else if g.count == 1 && !g.pressed {
      kb.TapCode(Tab);
    }
  }

  method WinLockFinished(kb: Keyboard, g: Gesture)
    modifies kb
    ensures kb.State() == Run(old(kb.State()), WinLockFinishedActions(g))
  {
    if g.pressed {
      kb.TapCode16(WIN_LOCK);
    } else {
      kb.TapCode(App);
    }
  }

  method CaseFinished(kb: Keyboard, g: Gesture)
    modifies kb
    ensures kb.State() == Run(old(kb.State()), CaseFinishedActions(g))
  {
    if g.pressed {
      kb.TapCode(RightShift);
    } else {
      RunTaps(kb.State(), CASE_CHANGE_KEYS);
      kb.TapCode16(SELECT_WORD_LEFT);
      kb.TapCode16(CHANGE_CASE);
      kb.TapCode16(Plain(RightArrow));
      kb.TapCode16(Plain(Space));
    }
  }

  // ---------------------------------------------------------------------
  // Whole dances: the finished callback followed by the reset callback.

  /** The state after the left-Alt dance (TD_ALT_LAYER). */
  function AltLayerDance(s: KeyboardState, g: Gesture): KeyboardState
  {
    Run(Run(s, AltLayerFinishedActions(g)), AltLayerResetActions(g))
  }

  /** The state after the Alt-Tab dance (TD_ALT_TAB). */
  function AltTabDance(s: KeyboardState, g: Gesture): KeyboardState
  {
    Run(Run(s, AltTabFinishedActions(g)), AltTabResetActions(g))
  }

  /** The state after the Caps dance (TD_WIN_CAPS). */
  function WinCapsDance(s: KeyboardState, g: Gesture): KeyboardState
  {
    Run(Run(s, WinCapsFinishedActions(g)), WinCapsResetActions(g))
  }

  /** The state after the Tab dance (TD_NUM_TAB). */
  function NumTabDance(s: KeyboardState, g: Gesture): KeyboardState
  {
    Run(Run(s, NumTabFinishedActions(g)), NumTabResetActions(g))
  }

  /** Left-Alt dance: whatever the gesture, left Alt is released and `_ALT` is off afterwards. */
  lemma AltLayerDanceEffect(s: KeyboardState, g: Gesture)
    ensures var t := AltLayerDance(s, g);
      && LeftAlt !in t.held && ALT !in t.layers
      && t.layers == s.layers - {ALT} && t.held == s.held - {LeftAlt}
      && t.log == s.log + (if !g.pressed && g.count == 1 then [Plain(LeftAlt)] else [])
  {
    RunShort(s, AltLayerFinishedActions(g));
    RunShort(Run(s, AltLayerFinishedActions(g)), AltLayerResetActions(g));
  }

  /** Alt-Tab dance: a single tap leaves left Alt held and sends Tab; the reset releases nothing. */
  lemma AltTabDanceEffect(s: KeyboardState, g: Gesture)
    ensures var t := AltTabDance(s, g);
      && t.layers == s.layers
      && t.held == (if g.count == 1 then s.held + {LeftAlt} else s.held)
      && t.log == s.log + (if g.count == 1 then [Plain(Tab)] else [])
  {
    RunShort(s, AltTabFinishedActions(g));
  }

  /** Caps dance: `_NAV` is inactive afterwards whatever the gesture; only released taps emit. */
  lemma WinCapsDanceEffect(s: KeyboardState, g: Gesture)
    ensures var t := WinCapsDance(s, g);
      && NAV !in t.layers
      && t.layers == s.layers - {NAV} && t.held == s.held
      && t.log == s.log + (if g.pressed then []
                           else if g.count == 1 then [WIN_LANG]
                           else if g.count == 2 then [Plain(CapsLock)]
                           else [])
  {
    RunShort(s, WinCapsFinishedActions(g));
    RunShort(Run(s, WinCapsFinishedActions(g)), WinCapsResetActions(g));
  }

  /**
   * Tab dance: a single tap or hold leaves `_NUM` off afterwards (the hold's
   * layer is temporary), while a double tap still held at the end of the
   * dance leaves `_NUM` as the only active layer (it survives the reset).
   */
  lemma NumTabDanceEffect(s: KeyboardState, g: Gesture)
    ensures var t := NumTabDance(s, g);
      && (g.count == 1 ==> t.layers == s.layers - {NUM})
      && (g.count == 2 && g.pressed ==> t.layers == {NUM})
      && (g.count != 1 && !(g.count == 2 && g.pressed) ==> t.layers == s.layers)
      && t.held == s.held
      && t.log == s.log + (if g.count == 1 && !g.pressed then [Plain(Tab)] else [])
  {
    RunShort(s, NumTabFinishedActions(g));
    RunShort(Run(s, NumTabFinishedActions(g)), NumTabResetActions(g));
  }

  // ---------------------------------------------------------------------
  // Properties of single callbacks.

  /** A hold on the left-Alt key turns `_ALT` on until the reset. */
  lemma AltLayerHold(s: KeyboardState, g: Gesture)
    requires g.pressed
    ensures Run(s, AltLayerFinishedActions(g)) == s.(layers := s.layers + {ALT})
  {
  }

  /** The left-Alt finished callback does nothing exactly when released after more than one tap. */
  lemma AltLayerNoAction(g: Gesture)
    ensures AltLayerFinishedActions(g) == [] <==> !g.pressed && g.count != 1
  {
  }

  /** One or two released taps on Caps emit exactly one keycode and leave the layers alone. */
  lemma WinCapsTap(s: KeyboardState, g: Gesture)
    requires !g.pressed && (g.count == 1 || g.count == 2)
    ensures Run(s, WinCapsFinishedActions(g))
         == s.(log := s.log + [if g.count == 1 then WIN_LANG else Plain(CapsLock)])
  {
  }

  /** A single-tap hold on Caps turns `_NAV` on until the reset. */
  lemma WinCapsHold(s: KeyboardState)
    ensures Run(s, WinCapsFinishedActions(Gesture(1, true))) == s.(layers := s.layers + {NAV})
  {
  }

  /** The Caps finished callback does nothing exactly for a hold after several taps or for three or more taps. */
  lemma WinCapsNoAction(g: Gesture)
    ensures WinCapsFinishedActions(g) == [] <==> g.count != 1 && !(g.count == 2 && !g.pressed)
  {
  }

  /** A single released tap on Tab sends Tab and leaves the layers alone. */
  lemma NumTabTap(s: KeyboardState)
    ensures Run(s, NumTabFinishedActions(Gesture(1, false))) == s.(log := s.log + [Plain(Tab)])
  {
  }

  /**
   * In this keymap a double tap on Tab reaches `_NUM` only while the key is
   * still held; a released double tap changes nothing at all.
   */
  lemma NumTabDoubleTap(s: KeyboardState, pressed: bool)
    ensures Run(s, NumTabFinishedActions(Gesture(2, pressed)))
         == if pressed then s.(layers := {NUM}) else s
  {
  }

  /** The Tab finished callback does nothing exactly for a released double tap or three or more taps. */
  lemma NumTabNoAction(g: Gesture)
    ensures NumTabFinishedActions(g) == [] <==> g.count != 1 && !(g.count == 2 && g.pressed)
  {
  }

  /** A single hold on Tab turns `_NUM` on until the reset. */
  lemma NumTabHold(s: KeyboardState)
    ensures Run(s, NumTabFinishedActions(Gesture(1, true))) == s.(layers := s.layers + {NUM})
  {
  }

  /** The reset turns `_NUM` off exactly after a single tap or hold. */
  lemma NumTabResetOnlySingle(s: KeyboardState, g: Gesture)
    ensures Run(s, NumTabResetActions(g)) == if g.count == 1 then s.(layers := s.layers - {NUM}) else s
  {
  }

  /**
   * Leaving the numpad: a released double tap or a single hold leaves only
   * the base layer active, a single released tap sends Tab, anything else
   * does nothing.
   */
  lemma NumLayerOffEffect(s: KeyboardState, g: Gesture)
    ensures var t := Run(s, NumLayerOffActions(g));
      && ((g.count == 2 && !g.pressed) || (g.count == 1 && g.pressed) ==> t == s.(layers := {WIN}))
      && (g.count == 1 && !g.pressed ==> t == s.(log := s.log + [Plain(Tab)]))
      && (g.count != 1 && !(g.count == 2 && !g.pressed) ==> t == s)
  {
  }

  /** The lock key emits exactly one keycode: Win+L when held, the App key when tapped. */
  lemma WinLockEmitsOne(s: KeyboardState, g: Gesture)
    ensures Run(s, WinLockFinishedActions(g)) == s.(log := s.log + [if g.pressed then WIN_LOCK else Plain(App)])
  {
  }

  /**
   * The case key: Right Shift when held; otherwise select the word to the
   * left, change its case, move right and type a space, in that order.
   * Layers and held keys are untouched either way.
   */
  lemma CaseEmissionOrder(s: KeyboardState, g: Gesture)
    ensures var t := Run(s, CaseFinishedActions(g));
      && t.layers == s.layers && t.held == s.held
      && t.log == s.log + (if g.pressed then [Plain(RightShift)]
                           else [SELECT_WORD_LEFT, CHANGE_CASE, Plain(RightArrow), Plain(Space)])
  {
    if !g.pressed {
      RunTaps(s, CASE_CHANGE_KEYS);
    }
  }

  // ---------------------------------------------------------------------
  // Alt-Tab emulation across dances.

  /** The calls made by a run of Alt-Tab dances, one finished/reset pair per gesture. */
  function AltTabDances(tabs: seq<Gesture>): seq<Action>
    decreases |tabs|
  {
    if tabs == [] then []
    else AltTabFinishedActions(tabs[0]) + AltTabResetActions(tabs[0]) + AltTabDances(tabs[1..])
  }

  /** How many of the gestures are single taps. */
  function SingleTaps(tabs: seq<Gesture>): nat
    decreases |tabs|
  {
    if tabs == [] then 0 else (if tabs[0].count == 1 then 1 else 0) + SingleTaps(tabs[1..])
  }

  /**
   * Any run of Alt-Tab dances leaves the layers alone, sends one Tab per
   * single tap, and leaves left Alt held as soon as one single tap happened:
   * no reset in between releases it.
   */
  lemma {:induction false} AltTabSession(s: KeyboardState, tabs: seq<Gesture>)
    ensures var t := Run(s, AltTabDances(tabs));
      && t.layers == s.layers
      && t.held == (if SingleTaps(tabs) > 0 then s.held + {LeftAlt} else s.held)
      && t.log == s.log + Repeat(Plain(Tab), SingleTaps(tabs))
    decreases |tabs|
  {
    if tabs != [] {
      var g := tabs[0];
      assert AltTabDances(tabs) == AltTabFinishedActions(g) + AltTabDances(tabs[1..]);
      RunAppend(s, AltTabFinishedActions(g), AltTabDances(tabs[1..]));
      RunShort(s, AltTabFinishedActions(g));
      AltTabSession(Run(s, AltTabFinishedActions(g)), tabs[1..]);
      if g.count == 1 {
        assert Repeat(Plain(Tab), SingleTaps(tabs)) == [Plain(Tab)] + Repeat(Plain(Tab), SingleTaps(tabs[1..]));
      }
    }
  }

  /**
   * Window switching: hold the left-Alt key (turning `_ALT` on), run any
   * number of Alt-Tab dances on the `_ALT` layer, then let the left-Alt
   * dance reset. While the layer key is held `_ALT` stays on and Alt stays
   * held after the first single tap; after the reset Alt is released,
   * `_ALT` is off, and exactly one Tab was sent per single tap.
   */
  lemma AltTabSwitch(s: KeyboardState, hold: Gesture, tabs: seq<Gesture>)
    requires hold.pressed
    ensures var during := Run(Run(s, AltLayerFinishedActions(hold)), AltTabDances(tabs));
      && ALT in during.layers
      && (SingleTaps(tabs) > 0 ==> LeftAlt in during.held)
      && var after := Run(during, AltLayerResetActions(hold));
      && ALT !in after.layers && LeftAlt !in after.held
      && after.layers == s.layers - {ALT}
      && after.held == s.held - {LeftAlt}
      && after.log == s.log + Repeat(Plain(Tab), SingleTaps(tabs))
  {
    var on := Run(s, AltLayerFinishedActions(hold));
    RunShort(s, AltLayerFinishedActions(hold));
    AltTabSession(on, tabs);
    var during := Run(on, AltTabDances(tabs));
    RunShort(during, AltLayerResetActions(hold));
  }
}
