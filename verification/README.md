# Tap-dance callbacks of the qk61 keymaps

This project models the custom key behaviour of three keymaps (`win`, `win_only`, `mac`) for a 61-key keyboard. The keyboard runs on a host firmware. The only logic these keymaps contain is their tap-dance callbacks. The firmware resolves a dance into a gesture: `count`, the number of taps, and `pressed`, whether the key is still held when the dance resolves. It then calls the dance's *finished* callback, and then its *reset* callback if it has one. Each callback is a short decision chain over the gesture. Each branch calls a few firmware primitives: emit a key, hold or release a key, or switch layers.

## Structure

- `firmware.dfy`, module `Firmware`, holds what the model assumes of the host firmware, which is not part of this model:
  - `layer_on(l)` adds `l` to the active layers;
  - `layer_off(l)` removes `l`;
  - `layer_move(l)` makes `{l}` the only active layer;
  - `register_code` / `unregister_code` add or remove a held key;
  - `tap_code` / `tap_code16` append one emission to an output log.

  These assumptions appear twice. `Apply`/`Run` state them on a value `KeyboardState` (layers, held keys, log). The methods of class `Keyboard` state them on the state the callbacks update in place. Keycodes are abstract: a basic key plus a set of modifiers (`A(S(KC_NO))` is `Keycode({Alt, Shift}, NoKey)`). The module also proves general facts about running primitives in sequence: `RunAppend` shows concatenation composes, `RunLog` shows the log grows by exactly the emitted keycodes in call order, and `RunTaps` covers a run of taps.
- `win_keymap.dfy`, `win_only_keymap.dfy` and `mac_keymap.dfy` each model one keymap file. Each callback is modelled twice:
  - a function `...Actions(g)` lists the primitives it calls on gesture `g`, in order;
  - a method of the callback's name runs the source's if-chain against a `Keyboard` and is proved to leave `kb.State() == Run(old(kb.State()), ...Actions(g))`.

  `...Dance(s, g)` is the finished callback followed by the reset callback on the same gesture. The lemmas state what each dance and each callback does to the layers, the held keys and the log.
- `variants.dfy`, module `Variants`, relates the three keymaps. The Caps and numpad-off tables are shared. The Tab dance's double-tap rule differs between variants.

The `mac` keymap does not compile as written. Its layer enumeration lacks a comma after `_NAV` (keymaps/mac/keymap.c:26). Its numpad-off callback moves to `_WIN`, which that file never declares (keymaps/mac/keymap.c:63). Its navigation table uses `CTRL_Z`, `PST_VAL` and related shortcuts that it never defines (keymaps/mac/keymap.c:103). The model numbers the `mac` layers 0 to 3 in the order written, and sends the numpad-off callback to layer 0 (`_MAC`). That is what the two Windows keymaps do with their `_WIN`.

## Model

| member | source | states |
|---|---|---|
| `WinKeymap.AltLayerFinished` | keymaps/win/keymap.c:63-69 | Left-Alt finished callback: a hold turns `_ALT` on; otherwise one tap taps left Alt; otherwise nothing. |
| `WinKeymap.AltLayerReset` | keymaps/win/keymap.c:71-74 | Left-Alt reset: releases left Alt, then turns `_ALT` off, whatever the gesture. |
| `WinKeymap.AltTabFinished` | keymaps/win/keymap.c:77-83 | Alt-Tab finished: on a single tap, holds left Alt and then taps Tab; otherwise nothing. |
| `WinKeymap.AltTabReset` | keymaps/win/keymap.c:85-87 | Alt-Tab reset changes nothing. |
| `WinKeymap.WinCapsFinished` | keymaps/win/keymap.c:90-98 | Caps finished: 1 released tap sends Alt+Shift; 2 released taps send CapsLock; a single hold turns `_NAV` on. |
| `WinKeymap.WinCapsReset` | keymaps/win/keymap.c:100-102 | Caps reset turns `_NAV` off unconditionally. |
| `WinKeymap.NumTabFinished` | keymaps/win/keymap.c:105-113 | Tab finished: 1 released tap sends Tab; a double tap still held moves to `_NUM`; a single hold turns `_NUM` on. |
| `WinKeymap.NumTabReset` | keymaps/win/keymap.c:115-119 | Tab reset turns `_NUM` off only when `count == 1`. |
| `WinKeymap.NumLayerOff` | keymaps/win/keymap.c:122-128 | Numpad-off: a released double tap or a single hold moves to `_WIN`; a single released tap sends Tab. |
| `WinKeymap.WinLockFinished` | keymaps/win/keymap.c:131-133 | Lock key: Win+L when held, App otherwise. |
| `WinKeymap.CaseFinished` | keymaps/win/keymap.c:136-146 | Case key: Right Shift when held, otherwise the four-key case-change sequence. |
| `WinKeymap.AltLayerDanceEffect` | keymaps/win/keymap.c:63-74 | After any left-Alt dance, left Alt is not held and `_ALT` is inactive. Nothing else is changed, and only a single released tap emits (left Alt). |
| `WinKeymap.AltLayerHold` | keymaps/win/keymap.c:64-65 | A hold adds exactly `_ALT` to the layers and changes nothing else. |
| `WinKeymap.AltLayerNoAction` | keymaps/win/keymap.c:63-69 | The left-Alt finished callback calls nothing if and only if it is released after a tap count other than 1. |
| `WinKeymap.AltTabDanceEffect` | keymaps/win/keymap.c:77-87 | A single-tap Alt-Tab dance leaves left Alt held and appends exactly Tab. Any other gesture changes nothing, and the layers never change. |
| `WinKeymap.AltTabSession` | keymaps/win/keymap.c:77-87 | Over any run of Alt-Tab dances, the layers are unchanged and one Tab is sent per single tap. Left Alt stays held from the first single tap on, because no reset releases it. |
| `WinKeymap.AltTabSwitch` | keymaps/win/keymap.c:63-87 | Alt-Tab emulation: hold the left-Alt key, run any Alt-Tab dances, then let the left-Alt dance reset. While the key is held, `_ALT` stays on and Alt stays held after a single tap. Afterwards Alt is released, `_ALT` is off and one Tab was sent per single tap. |
| `WinKeymap.WinCapsDanceEffect` | keymaps/win/keymap.c:90-102 | After any Caps dance, `_NAV` is inactive and the held keys are unchanged. The log gains Alt+Shift for one released tap, CapsLock for two, and nothing otherwise. |
| `WinKeymap.WinCapsTap` | keymaps/win/keymap.c:90-94 | One or two released taps emit exactly Alt+Shift or CapsLock, respectively, and leave layers and held keys unchanged. |
| `WinKeymap.WinCapsHold` | keymaps/win/keymap.c:95-97 | A single hold adds exactly `_NAV` to the layers. |
| `WinKeymap.WinCapsNoAction` | keymaps/win/keymap.c:90-98 | The Caps finished callback calls nothing if and only if the count is not 1 and the gesture is not a released double tap. |
| `WinKeymap.NumTabDanceEffect` | keymaps/win/keymap.c:105-119 | A single tap or hold leaves `_NUM` off after the dance, so the hold's layer is temporary. A double tap still held leaves `{_NUM}` as the only layer, so it survives the reset. Other gestures leave the layers unchanged. Held keys are unchanged, and only a single released tap emits (Tab). |
| `WinKeymap.NumTabTap` | keymaps/win/keymap.c:106-107 | One released tap appends exactly Tab and changes no layer. |
| `WinKeymap.NumTabDoubleTap` | keymaps/win/keymap.c:108-109 | In `win`, a held double tap makes `{_NUM}` the only layer, and a released double tap changes nothing at all. |
| `WinKeymap.NumTabHold` | keymaps/win/keymap.c:110-111 | A single hold adds exactly `_NUM` to the layers. |
| `WinKeymap.NumTabNoAction` | keymaps/win/keymap.c:105-113 | The Tab finished callback calls nothing if and only if the count is not 1 and the gesture is not a held double tap. |
| `WinKeymap.NumTabResetOnlySingle` | keymaps/win/keymap.c:115-119 | The Tab reset removes `_NUM` exactly when `count == 1` and otherwise changes nothing. |
| `WinKeymap.NumLayerOffEffect` | keymaps/win/keymap.c:122-128 | A released double tap or a single hold leaves only `_WIN` (layer 0) active. A single released tap appends exactly Tab. Every other gesture changes nothing. |
| `WinKeymap.WinLockEmitsOne` | keymaps/win/keymap.c:131-133 | Appends exactly one keycode (Win+L if held, App if not) and changes nothing else. |
| `WinKeymap.CaseEmissionOrder` | keymaps/win/keymap.c:136-146 | Appends Right Shift when held. Otherwise appends Ctrl+Shift+Left, Ctrl+Shift+Alt+\, Right, Space in that order. Layers and held keys are unchanged. |
| `WinOnlyKeymap.WinCapsFinished` | keymaps/win_only/keymap.c:50-58 | Caps finished: 1 released tap sends Alt+Shift; 2 released taps send CapsLock; a single hold turns `_NAV` on. |
| `WinOnlyKeymap.WinCapsReset` | keymaps/win_only/keymap.c:60-62 | Caps reset turns `_NAV` off unconditionally. |
| `WinOnlyKeymap.NumTabFinished` | keymaps/win_only/keymap.c:65-73 | Tab finished: 1 released tap sends Tab; a released double tap moves to `_NUM`; a single hold turns `_NUM` on. |
| `WinOnlyKeymap.NumTabReset` | keymaps/win_only/keymap.c:75-79 | Tab reset turns `_NUM` off only when `count == 1`. |
| `WinOnlyKeymap.NumLayerOff` | keymaps/win_only/keymap.c:82-88 | Numpad-off: a released double tap or a single hold moves to `_WIN`; a single released tap sends Tab. |
| `WinOnlyKeymap.WinLockFinished` | keymaps/win_only/keymap.c:91-93 | Lock key: Win+L when held, App otherwise. |
| `WinOnlyKeymap.WinCapsDanceEffect` | keymaps/win_only/keymap.c:50-62 | After any Caps dance, `_NAV` is inactive and the held keys are unchanged. The log gains Alt+Shift for one released tap, CapsLock for two, and nothing otherwise. |
| `WinOnlyKeymap.WinCapsTap` | keymaps/win_only/keymap.c:50-54 | One or two released taps emit exactly Alt+Shift or CapsLock, respectively, and change no layer. |
| `WinOnlyKeymap.WinCapsHold` | keymaps/win_only/keymap.c:55-56 | A single hold adds exactly `_NAV` to the layers. |
| `WinOnlyKeymap.WinCapsNoAction` | keymaps/win_only/keymap.c:50-58 | The Caps finished callback calls nothing if and only if the count is not 1 and the gesture is not a released double tap (for example, `count >= 3`, or a held double tap). |
| `WinOnlyKeymap.NumTabDanceEffect` | keymaps/win_only/keymap.c:65-79 | A single tap or hold leaves `_NUM` off after the dance. A released double tap leaves `{_NUM}` as the only layer, so it survives the reset. Other gestures leave the layers unchanged. Held keys are unchanged, and only a single released tap emits (Tab). |
| `WinOnlyKeymap.NumTabTap` | keymaps/win_only/keymap.c:66-67 | One released tap appends exactly Tab and changes no layer. |
| `WinOnlyKeymap.NumTabDoubleTap` | keymaps/win_only/keymap.c:68-69 | A released double tap makes `{_NUM}` the only layer; a held double tap changes nothing. |
| `WinOnlyKeymap.NumTabHold` | keymaps/win_only/keymap.c:70-71 | A single hold adds exactly `_NUM` to the layers. |
| `WinOnlyKeymap.NumTabNoAction` | keymaps/win_only/keymap.c:65-73 | The Tab finished callback calls nothing if and only if the count is not 1 and the gesture is not a released double tap. |
| `WinOnlyKeymap.NumTabResetOnlySingle` | keymaps/win_only/keymap.c:75-79 | The Tab reset removes `_NUM` exactly when `count == 1` and otherwise changes nothing. |
| `WinOnlyKeymap.NumLayerOffEffect` | keymaps/win_only/keymap.c:82-88 | A released double tap or a single hold leaves only `_WIN` active. A single released tap appends exactly Tab. Every other gesture changes nothing. |
| `WinOnlyKeymap.WinLockEmitsOne` | keymaps/win_only/keymap.c:91-93 | Appends exactly one keycode (Win+L if held, App if not) and changes nothing else. |
| `MacKeymap.NumTabFinished` | keymaps/mac/keymap.c:44-52 | Tab finished: 1 released tap sends Tab; a released double tap moves to `_NUM`; a single hold turns `_NUM` on. |
| `MacKeymap.NumTabReset` | keymaps/mac/keymap.c:54-58 | Tab reset turns `_NUM` off only when `count == 1`. |
| `MacKeymap.NumLayerOff` | keymaps/mac/keymap.c:61-67 | Numpad-off: a released double tap or a single hold moves to the base layer (0); a single released tap sends Tab. |
| `MacKeymap.MacLockFinished` | keymaps/mac/keymap.c:70-72 | Lock key: Ctrl+Cmd+Q when held, Right Alt (Option) otherwise. |
| `MacKeymap.NumTabDanceEffect` | keymaps/mac/keymap.c:44-58 | A single tap or hold leaves `_NUM` off after the dance. A released double tap leaves `{_NUM}` as the only layer. Other gestures leave the layers unchanged. Held keys are unchanged, and only a single released tap emits (Tab). |
| `MacKeymap.NumTabTap` | keymaps/mac/keymap.c:45-46 | One released tap appends exactly Tab and changes no layer. |
| `MacKeymap.NumTabDoubleTap` | keymaps/mac/keymap.c:47-48 | A released double tap makes `{_NUM}` the only layer; a held double tap changes nothing. |
| `MacKeymap.NumTabHold` | keymaps/mac/keymap.c:49-50 | A single hold adds exactly `_NUM` to the layers. |
| `MacKeymap.NumTabNoAction` | keymaps/mac/keymap.c:44-52 | The Tab finished callback calls nothing if and only if the count is not 1 and the gesture is not a released double tap (for example, `count >= 3`, or a held double tap). |
| `MacKeymap.NumTabResetOnlySingle` | keymaps/mac/keymap.c:54-58 | The Tab reset removes `_NUM` exactly when `count == 1`. |
| `MacKeymap.NumLayerOffEffect` | keymaps/mac/keymap.c:61-67 | A released double tap or a single hold leaves only the base layer active. A single released tap appends exactly Tab. Every other gesture changes nothing. |
| `MacKeymap.MacLockEmitsOne` | keymaps/mac/keymap.c:70-72 | Appends exactly one keycode (Ctrl+Cmd+Q if held, Right Alt if not) and changes nothing else. |
| `Variants.WinCapsShared` | keymaps/win_only/keymap.c:50-62 | The two Windows keymaps have identical Caps finished and reset tables. |
| `Variants.NumTabSharedWinOnlyMac` | keymaps/mac/keymap.c:44-58 | The `win_only` and `mac` keymaps have identical Tab finished and reset tables. |
| `Variants.NumLayerOffShared` | keymaps/mac/keymap.c:61-67 | All three numpad-off tables are identical once the `mac` base layer is layer 0. |
| `Variants.NumTabDoubleTapDivergence` | keymaps/win/keymap.c:105-119 | A released double tap changes nothing in `win` but leaves `{_NUM}` in `win_only`. A held double tap leaves `{_NUM}` in `win` but changes nothing in `win_only`. Every other gesture gives the same dance in both. |

## Left out

- The layer tables (`keymaps[][MATRIX_ROWS][MATRIX_COLS]`, `LAYOUT_tkl_ansi`) are static data. Their meaning depends on the firmware's matrix mapping and on how it resolves transparent keys.
- The `tap_dance_actions[]` registration is left out: which callback is bound to which dance, and `ACTION_TAP_DANCE_FN*`. The model assumes the pairing documented there: each dance's finished callback is followed by its reset callback, and dances registered with a single function have no reset.
- The firmware's tapping-term timing and its event loop, which compute `count` and `pressed`, are left out. The gesture is an input. `count` is an unbounded `nat`, not the firmware's 8-bit counter.
- `wait_ms(500)` in the case callback (keymaps/win/keymap.c:142) is left out because it only affects timing. The model keeps only the order of the emissions.
- The host firmware primitives are not part of this model. Their effect is the assumption stated in module `Firmware`. In particular, a tap never changes the held set. The real firmware implements `tap_code(KC_LALT)` as press-then-release, which would also release a left Alt held by `register_code`. The model does not capture that interaction.
- The active layers are an unbounded set of layer indices. The firmware's fixed-width layer bitmask and its separate default-layer state are not modelled. The layers used here are 0 to 4.
- USB HID report generation is left out. So are the vendor keycodes of the keyboard's support library (logo and RGB lighting, Bluetooth and 2.4 GHz modes, EEPROM clear, battery) and the unused `user_data` argument.
- The `mac` keymap's compile defects (see above) are not modelled. The model uses their evident intent.
