# Anne Pro 2 "sam1677" keymap: persisted LED settings

This project models the logic that the Anne Pro 2 keymap `sam1677` owns itself,
built on the QMK keyboard firmware. It has a three-field settings record: a magic
byte `0xEA`, an "LEDs on" flag and an LED profile index. The record lives in a
global variable and is persisted whole at offset 0 of non-volatile storage. Four
hooks drive it:

- the post-init hook turns the LEDs on if the flag is set and selects the profile;
- the key-event hook toggles the LEDs on a press of the custom keycode
  `KC_AP2_LED_TOGGLE`;
- the host-LED hook shows a red foreground while caps lock is on;
- the layer-change hook returns its input unchanged.

The model has four modules.

- `Keycodes` (`keycodes.dfy`) holds the board's keycode enumeration from `annepro2.h`
  and the custom toggle keycode that comes right after it.
- `Keymap` (`keymap.dfy`) describes the state machine as values. `Machine` holds
  the in-memory record, the stored record and what the LED driver has been told.
  There is one function per hook, and each function's `ensures` states what the
  hook promises.
- `Device` (`device.dfy`) is the firmware as it runs: the class `Keyboard`, whose
  fields the hooks update in place. Each method is proved to reach exactly the
  state that the matching `Keymap` function gives.
- `Sessions` (`sessions.dfy`) covers any sequence of hook calls after boot. It
  proves invariants by induction over the sequence.

The post-init hook does not load the stored settings:
`keyboards/annepro2/keymaps/sam1677/keymap.c:150` calls the storage driver's
`init_eeprom()`, and nothing in the file calls `init_settings()`. The model
follows the code (`Keymap.BootIgnoresStorage`). `InitSettings` is still
modelled as the load-and-validate routine the file defines.

The toggle is asymmetric, and the model keeps this. Switching off persists the
record. Switching on does not persist it, so a later load would come up "off"
(`Keymap.ToggleOnIsForgottenByLoad`, `Sessions.OffSurvivesReload`). No load
happens in the code shown; these lemmas say what `init_settings()` would find
if something called it.

## Model

| member | source | states |
|---|---|---|
| `Keycodes.Code` | keyboards/annepro2/annepro2.h:41-55 | each board keycode lies in `[SAFE_RANGE, AP2_SAFE_RANGE)`, so it is never the toggle keycode |
| `Keymap.Start` | keyboards/annepro2/keymaps/sam1677/keymap.c:10-16 | at start-up the record holds `{0xEA, true, 0}`; storage and the LED driver are whatever they are |
| `Keymap.SaveSettings` | keyboards/annepro2/keymaps/sam1677/keymap.c:133-135 | storage afterwards holds the whole in-memory record; memory and LEDs are unchanged |
| `Keymap.InitSettings` | keyboards/annepro2/keymaps/sam1677/keymap.c:137-146 | afterwards the magic is `0xEA` and storage equals memory; a valid stored record is adopted and storage is left alone (if and only if the stored magic was valid); otherwise both become the defaults; LEDs are untouched |
| `Keymap.KeyboardPostInit` | keyboards/annepro2/keymaps/sam1677/keymap.c:149-155 | LEDs are enabled afterwards exactly when the flag was set or they already were; the profile is always set to the record's; settings and storage are unchanged |
| `Keymap.ProcessRecord` | keyboards/annepro2/keymaps/sam1677/keymap.c:157-175 | returns false exactly for the toggle keycode; a release or any other keycode changes nothing; a press when on disables the LEDs, clears the flag and stores exactly the new record; a press when off enables the LEDs, sets the flag and leaves storage alone; magic and profile never change |
| `Keymap.LedUpdate` | keyboards/annepro2/keymaps/sam1677/keymap.c:182-191 | always returns true; the foreground becomes red `(0xFF,0x00,0x00)` with caps lock on and is reset otherwise; settings, storage, enable state and profile are untouched |
| `Keymap.LayerStateSet` | keyboards/annepro2/keymaps/sam1677/keymap.c:177-179 | the layer state is returned unchanged |
| `Keymap.SaveThenLoad` | keyboards/annepro2/keymaps/sam1677/keymap.c:133-146 | saving a record with a valid magic and loading it back gives the same record |
| `Keymap.InitSettingsIdempotent` | keyboards/annepro2/keymaps/sam1677/keymap.c:137-146 | a second load changes nothing |
| `Keymap.Ap2KeysPassThrough` | keyboards/annepro2/keymaps/sam1677/keymap.c:157-175 | every board keycode, pressed or released, is passed on to the framework with no state change |
| `Keymap.BootIgnoresStorage` | keyboards/annepro2/keymaps/sam1677/keymap.c:149-155 | as written, boot enables the LEDs and selects profile 0 whatever storage holds |
| `Keymap.ToggleOnIsForgottenByLoad` | keyboards/annepro2/keymaps/sam1677/keymap.c:159-168 | from a persisted "off", pressing the toggle turns memory on, but a load afterwards comes up off |
| `Keymap.ToggleTwiceFromOn` | keyboards/annepro2/keymaps/sam1677/keymap.c:159-168 | off then on restores memory and LEDs, while storage is left saying off |
| `Device.Keyboard.constructor` | keyboards/annepro2/keymaps/sam1677/keymap.c:16 | the global starts as `{0xEA, true, 0}` |
| `Device.Keyboard.SaveSettings` | keyboards/annepro2/keymaps/sam1677/keymap.c:133-135 | the storage field is overwritten with the record; nothing else changes |
| `Device.Keyboard.InitSettings` | keyboards/annepro2/keymaps/sam1677/keymap.c:137-146 | the in-place load and validation reaches `Keymap.InitSettings` of the old state |
| `Device.Keyboard.KeyboardPostInit` | keyboards/annepro2/keymaps/sam1677/keymap.c:149-155 | the in-place hook reaches `Keymap.KeyboardPostInit` of the old state |
| `Device.Keyboard.ProcessRecord` | keyboards/annepro2/keymaps/sam1677/keymap.c:157-175 | the in-place handler reaches `Keymap.ProcessRecord` of the old state and returns its verdict |
| `Device.Keyboard.LedUpdate` | keyboards/annepro2/keymaps/sam1677/keymap.c:182-191 | the in-place hook reaches `Keymap.LedUpdate` of the old state and returns true |
| `Sessions.InitSettingsEstablishesLag` | keyboards/annepro2/keymaps/sam1677/keymap.c:137-146 | after a load (which this file never calls at boot), storage lags memory at most by a pending "on" |
| `Sessions.BootNeedNotLag` | keyboards/annepro2/keymaps/sam1677/keymap.c:149-155 | as written, boot does not establish that lag: with storage holding a different record, memory and storage disagree after the post-init hook |
| `Sessions.SwitchOffEstablishesLag` | keyboards/annepro2/keymaps/sam1677/keymap.c:159-164 | a press of the toggle while on leaves storage equal to memory, so the lag holds from the first switch-off on, with no load |
| `Sessions.ApplyPreservesLag` | keyboards/annepro2/keymaps/sam1677/keymap.c:157-191 | from a state where storage lags memory, each hook call keeps that lag |
| `Sessions.RunPreservesLag` | keyboards/annepro2/keymaps/sam1677/keymap.c:157-191 | from any state where storage lags memory (after a load, which this file never calls at boot, or after the first switch-off), over any sequence of hook calls storage still differs from memory only by a flag that memory has "on" and storage has "off" |
| `Sessions.RunKeepsLedFollowingFlag` | keyboards/annepro2/keymaps/sam1677/keymap.c:157-191 | once the enable state this keymap has told the LED driver equals the flag, every run of this file's hooks keeps it equal |
| `Sessions.BootLedFollowsFlag` | keyboards/annepro2/keymaps/sam1677/keymap.c:149-155 | after start-up and the post-init hook, what this keymap has told the driver agrees with the flag (both "on") |
| `Sessions.RunFlipsPerPress` | keyboards/annepro2/keymaps/sam1677/keymap.c:159-168 | the flag ends up flipped exactly when the number of toggle presses is odd; magic and profile in memory never change |
| `Sessions.RunStoresOnlyOff` | keyboards/annepro2/keymaps/sam1677/keymap.c:159-168 | storage is either untouched or holds the original record with the flag cleared |
| `Sessions.OffSurvivesReload` | keyboards/annepro2/keymaps/sam1677/keymap.c:137-168 | once a valid "off" is stored and memory's magic is valid (which the firmware always keeps: it starts at `0xEA` and no hook changes it), no sequence of hook calls makes the next load come up on |
| `Sessions.RunKeepsProfile` | keyboards/annepro2/keymaps/sam1677/keymap.c:157-191 | after boot, the profile in memory and the profile this keymap has selected on the LED driver never change |
| `Sessions.RunForegroundFollowsLastCapsLock` | keyboards/annepro2/keymaps/sam1677/keymap.c:182-191 | the foreground is red or reset according to the last caps-lock report, and unchanged if there was none |

## Left out

- The layer table (`keymap.c:46-123`) is constant data built by the framework's `KEYMAP` macro. Layer resolution belongs to the framework.
- Storage is a cell holding a `Settings` value. The byte layout of the bit-field struct is up to the compiler and is not modelled.
- `init_eeprom()`, called at `keymap.c:150`, is external, and its effect is not modelled. If it loads or changes the settings, this model does not show that.
- The LED driver calls (`annepro2LedEnable`, `annepro2LedDisable`, `annepro2LedSetProfile`, `annepro2LedSetForegroundColor`, `annepro2LedResetForegroundColor`) are modelled only by their effect on the ghost record `Led`. The driver's real behaviour is not modelled.
- The `Led` record holds only what this keymap's own calls told the LED driver. The framework's LED keycodes (`KC_AP_LED_ON`, `KC_AP_LED_OFF`, `KC_AP_LED_NEXT_INTENSITY` and `KC_AP_LED_SPEED`, mapped on the FN2 layer at `keymap.c:92`) are passed on by the key-event hook and drive the LEDs themselves. So the real driver state and `led_is_on` can drift apart, and the model does not show that.
- `matrix_init_user` and `matrix_scan_user` (`keymap.c:126-131`) have empty bodies.
- The rest of `annepro2.h` is not modelled: the caps-lock record, the LED matrix, the `OVERRIDE` macro and the Bluetooth/USB and LED-control keycodes. Those keycodes are handled by framework code, which is not part of this model. Their values are modelled only so that they can be told apart from the toggle keycode.
- `SAFE_RANGE` is the framework's own constant. Its value is left open. The model assumes only that the twelve board keycodes and the toggle keycode after them fit in 16 bits, that is `SAFE_RANGE <= 0xFFFF - 12`.
- The hook's `keyrecord_t` argument is reduced to its `pressed` flag, and the `led_t` argument to its caps-lock bit. These are the only fields the hooks read.
