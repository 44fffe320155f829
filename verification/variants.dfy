/**
 * How the three keymaps relate. The Caps dance and the numpad-off dance are
 * the same decision table wherever they appear; the Tab dance's double-tap
 * rule is the one place where the `win` keymap departs from the other two.
 */
module Variants {
  import opened Firmware
  import Win = WinKeymap
  import WinOnly = WinOnlyKeymap
  import Mac = MacKeymap

  /** Both Windows keymaps use the same Caps dance, finished and reset. */
  lemma WinCapsShared(g: Gesture)
    ensures Win.WinCapsFinishedActions(g) == WinOnly.WinCapsFinishedActions(g)
    ensures Win.WinCapsResetActions(g) == WinOnly.WinCapsResetActions(g)
  {
  }

  /** The `win_only` and `mac` keymaps use the same Tab dance, finished and reset. */
  lemma NumTabSharedWinOnlyMac(g: Gesture)
    ensures WinOnly.NumTabFinishedActions(g) == Mac.NumTabFinishedActions(g)
    ensures WinOnly.NumTabResetActions(g) == Mac.NumTabResetActions(g)
  {
  }

  /** All three keymaps leave the numpad the same way, to layer 0. */
  lemma NumLayerOffShared(g: Gesture)
    ensures Win.NumLayerOffActions(g) == WinOnly.NumLayerOffActions(g) == Mac.NumLayerOffActions(g)
  {
  }

  /**
   * The double-tap rule diverges. A released double tap makes `_NUM`
   * persistent in `win_only` and `mac` but does nothing at all in `win`; a
   * double tap still held when the dance resolves makes `_NUM` persistent in
   * `win` but does nothing at all in the other two. Every other gesture has
   * the same effect in all three.
   */
  lemma NumTabDoubleTapDivergence(s: KeyboardState, g: Gesture)
    ensures g.count == 2 && !g.pressed ==>
      Win.NumTabDance(s, g) == s && WinOnly.NumTabDance(s, g).layers == {Win.NUM}
    ensures g.count == 2 && g.pressed ==>
      Win.NumTabDance(s, g).layers == {Win.NUM} && WinOnly.NumTabDance(s, g) == s
    ensures g.count != 2 ==> Win.NumTabDance(s, g) == WinOnly.NumTabDance(s, g)
  {
    Win.NumTabDanceEffect(s, g);
    WinOnly.NumTabDanceEffect(s, g);
  }
}
