/** The keymap's persisted-settings state machine, as values: the settings
    record, the storage cell at offset 0, an observation of the LED driver,
    and one function per hook giving the state after the hook runs. */
module Keymap {
  import opened Keycodes

  datatype Option<T> = None | Some(value: T)

  /** An 8-bit unsigned field. */
  type Byte = x: int | 0 <= x < 0x100

  /** The framework's layer bitmask (a 32-bit unsigned value). */
  type LayerState = x: int | 0 <= x < 0x1_0000_0000

  /** The persisted settings record. */
  datatype Settings = Settings(magic: Byte, ledIsOn: bool, ledProfile: Byte)

  /** The sentinel a stored record must carry to be accepted. */
  const Magic: Byte := 0xEA

  /** The record the keymap starts with and falls back to. */
  const Defaults: Settings := Settings(Magic, true, 0)

  datatype Rgb = Rgb(red: Byte, green: Byte, blue: Byte)

  /** The caps-lock overlay colour. */
  const Red: Rgb := Rgb(0xFF, 0x00, 0x00)

  /** What the keymap has told the LED driver: whether the LEDs are enabled,
      the selected profile, and the foreground override (None once reset). */
  datatype Led = Led(enabled: bool, profile: Byte, foreground: Option<Rgb>)

  /** Everything the hooks read or change: the in-memory record, the record
      held in storage at offset 0, and the LED driver. */
  datatype Machine = Machine(settings: Settings, stored: Settings, led: Led)

  /** What a hook hands back to the framework besides the new state. */
  datatype Outcome = Outcome(next: Machine, passOn: bool)

  /** The state the keymap starts in: the in-memory record holds its
      defaults, storage and the LED driver hold whatever they hold. */
  function Start(stored: Settings, led: Led): (m: Machine)
    ensures m.settings == Defaults && m.settings.magic == Magic && m.settings.ledIsOn
    ensures m.stored == stored && m.led == led
  {
    Machine(Defaults, stored, led)
  }

  /** Writing the whole in-memory record to storage offset 0. */
  function SaveSettings(m: Machine): (r: Machine)
    ensures r.stored == m.settings
    ensures r.settings == m.settings && r.led == m.led
  {
    m.(stored := m.settings)
  }

  /** Reading the stored record and validating its magic: an accepted record
      becomes the in-memory one and storage is left alone; a rejected one is
      replaced by the defaults both in memory and in storage. Either way,
      memory and storage agree afterwards and the magic is valid. */
  function InitSettings(m: Machine): (r: Machine)
    ensures r.settings.magic == Magic
    ensures r.stored == r.settings
    ensures m.stored.magic == Magic ==> r.settings == m.stored && r.stored == m.stored
    ensures m.stored.magic != Magic ==> r.settings == Defaults && r.stored == Defaults
    ensures r.stored == m.stored <==> m.stored.magic == Magic
    ensures r.led == m.led
  {
    var read := m.(settings := m.stored);
    if read.settings.magic != Magic then
      SaveSettings(read.(settings := Defaults))
    else
      read
  }

  /** The post-init hook as written: the settings are not loaded first
      (the hook calls the storage driver's own initialisation instead), the
      LEDs are enabled when the flag is set, and the profile is always set. */
  function KeyboardPostInit(m: Machine): (r: Machine)
    ensures r.settings == m.settings && r.stored == m.stored
    ensures r.led.enabled <==> m.settings.ledIsOn || m.led.enabled
    ensures r.led.profile == m.settings.ledProfile
    ensures r.led.foreground == m.led.foreground
  {
    var enabled := if m.settings.ledIsOn then m.led.(enabled := true) else m.led;
    m.(led := enabled.(profile := m.settings.ledProfile))
  }

  /** The key-event hook. Only a press of LedToggle acts: switching off
      disables the LEDs, clears the flag and persists the record; switching on
      enables the LEDs and sets the flag without persisting. The hook tells the
      framework to stop for LedToggle (pressed or released) and to carry on
      for every other keycode. */
  function ProcessRecord(m: Machine, keycode: Keycode, pressed: bool): (r: Outcome)
    ensures r.passOn <==> keycode != LedToggle
    ensures keycode != LedToggle || !pressed ==> r.next == m
    ensures keycode == LedToggle && pressed && m.settings.ledIsOn ==>
      && !r.next.led.enabled
      && r.next.settings == m.settings.(ledIsOn := false)
      && r.next.stored == r.next.settings
    ensures keycode == LedToggle && pressed && !m.settings.ledIsOn ==>
      && r.next.led.enabled
      && r.next.settings == m.settings.(ledIsOn := true)
      && r.next.stored == m.stored
    ensures r.next.settings.ledIsOn == (m.settings.ledIsOn != (keycode == LedToggle && pressed))
    ensures r.next.led.profile == m.led.profile && r.next.led.foreground == m.led.foreground
  {
    if keycode == LedToggle then
      if pressed then
        if m.settings.ledIsOn then
          var off := m.(led := m.led.(enabled := false), settings := m.settings.(ledIsOn := false));
          Outcome(SaveSettings(off), false)
        else
          Outcome(m.(led := m.led.(enabled := true), settings := m.settings.(ledIsOn := true)), false)
      else
        Outcome(m, false)
    else
      Outcome(m, true)
  }

  /** The host-LED hook: caps lock on shows the red overlay, caps lock off
      removes any overlay; nothing but the foreground changes and the framework
      is always told to carry on. */
  function LedUpdate(m: Machine, capsLock: bool): (r: Outcome)
    ensures r.passOn
    ensures r.next.settings == m.settings && r.next.stored == m.stored
    ensures r.next.led.enabled == m.led.enabled && r.next.led.profile == m.led.profile
    ensures capsLock ==> r.next.led.foreground == Some(Red)
    ensures !capsLock ==> r.next.led.foreground == None
  {
    if capsLock then
      Outcome(m.(led := m.led.(foreground := Some(Red))), true)
    else
      Outcome(m.(led := m.led.(foreground := None)), true)
  }

  /** The layer-change hook accepts every proposed layer state unchanged. */
  function LayerStateSet(layer: LayerState): (r: LayerState)
    ensures r == layer
  {
    layer
  }

  /** Saving a record with a valid magic and loading it back yields that
      record: the save/load pair round-trips. */
  lemma SaveThenLoad(m: Machine)
    requires m.settings.magic == Magic
    ensures InitSettings(SaveSettings(m)).settings == m.settings
    ensures InitSettings(SaveSettings(m)).stored == m.settings
  {
  }

  /** Loading twice is the same as loading once: the second load finds a
      valid record and writes nothing. */
  lemma InitSettingsIdempotent(m: Machine)
    ensures InitSettings(InitSettings(m)) == InitSettings(m)
  {
  }

  /** Board keycodes are left to the framework untouched. */
  lemma Ap2KeysPassThrough(m: Machine, k: Ap2Key, pressed: bool)
    ensures ProcessRecord(m, Code(k), pressed) == Outcome(m, true)
  {
  }

  /** As written, boot ignores storage: whatever is stored, after start-up and
      the post-init hook the LEDs are enabled and profile 0 is selected. */
  lemma BootIgnoresStorage(stored: Settings, led: Led)
    ensures KeyboardPostInit(Start(stored, led)).led.enabled
    ensures KeyboardPostInit(Start(stored, led)).led.profile == 0
    ensures KeyboardPostInit(Start(stored, led)).settings == Defaults
  {
  }

  /** The asymmetry of the toggle: switching on from a state where memory and
      storage agree leaves storage saying "off", so a later load brings the
      LEDs back off. */
  lemma ToggleOnIsForgottenByLoad(m: Machine)
    requires m.stored == m.settings && m.settings.magic == Magic && !m.settings.ledIsOn
    ensures ProcessRecord(m, LedToggle, true).next.settings.ledIsOn
    ensures !InitSettings(ProcessRecord(m, LedToggle, true).next).settings.ledIsOn
  {
  }

  /** Switching off and then on again restores memory and the LEDs but leaves
      storage at "off". */
  lemma ToggleTwiceFromOn(m: Machine)
    requires m.settings.ledIsOn && m.led.enabled
    ensures var twice := ProcessRecord(ProcessRecord(m, LedToggle, true).next, LedToggle, true).next;
      && twice.settings == m.settings
      && twice.led == m.led
      && twice.stored == m.settings.(ledIsOn := false)
  {
  }
}
