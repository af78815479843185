/** The keymap as the firmware runs it: one object holding the global
    settings record, the storage cell it is persisted to, and (as ghost state)
    what the LED driver has been told. Each hook updates these in place and is
    proved to produce exactly the state the matching Keymap function gives. */
module Device {
  import opened Keycodes
  import opened Keymap

  class Keyboard {
    /** The global settings record. */
    var settings: Settings
    /** The record in non-volatile storage at offset 0. */
    var stored: Settings
    /** What the LED driver has been told so far. */
    ghost var led: Led

    /** The whole state as a value. */
    ghost function State(): Machine
      reads this
    {
      Machine(settings, stored, led)
    }

    /** Start-up: the global holds its initialiser, storage and the LED driver
        hold whatever they hold. */
    constructor (eeprom: Settings, ghost driver: Led)
      ensures State() == Keymap.Start(eeprom, driver)
      ensures settings == Defaults && stored == eeprom && led == driver
    {
      settings := Settings(0xEA, true, 0);
      stored := eeprom;
      led := driver;
    }

    method SaveSettings()
      modifies this
      ensures State() == Keymap.SaveSettings(old(State()))
      ensures stored == settings && settings == old(settings) && led == old(led)
    {
      stored := settings;
    }

    method InitSettings()
      modifies this
      ensures State() == Keymap.InitSettings(old(State()))
      ensures settings.magic == Magic && stored == settings && led == old(led)
      ensures old(stored).magic == Magic ==> settings == old(stored) && stored == old(stored)
      ensures old(stored).magic != Magic ==> settings == Defaults
    {
      settings := stored;
      if settings.magic != 0xEA {
        settings := settings.(magic := 0xEA);
        settings := settings.(ledIsOn := true);
        settings := settings.(ledProfile := 0);
        stored := settings;
      }
    }

    method KeyboardPostInit()
      modifies this
      ensures State() == Keymap.KeyboardPostInit(old(State()))
      ensures settings == old(settings) && stored == old(stored)
      ensures led.enabled == (settings.ledIsOn || old(led).enabled)
      ensures led.profile == settings.ledProfile
    {
      if settings.ledIsOn {
        led := led.(enabled := true);
      }
      led := led.(profile := settings.ledProfile);
    }

    method ProcessRecord(keycode: Keycode, pressed: bool) returns (passOn: bool)
      modifies this
      ensures Keymap.ProcessRecord(old(State()), keycode, pressed) == Outcome(State(), passOn)
      ensures passOn <==> keycode != LedToggle
      ensures keycode != LedToggle || !pressed ==> State() == old(State())
      ensures keycode == LedToggle && pressed && old(settings).ledIsOn ==>
        !led.enabled && settings == old(settings).(ledIsOn := false) && stored == settings
      ensures keycode == LedToggle && pressed && !old(settings).ledIsOn ==>
        led.enabled && settings == old(settings).(ledIsOn := true) && stored == old(stored)
    {
      if keycode == LedToggle {
        if pressed {
          if settings.ledIsOn {
            led := led.(enabled := false);
            settings := settings.(ledIsOn := false);
            SaveSettings();
          } else {
            led := led.(enabled := true);
            settings := settings.(ledIsOn := true);
          }
        }
        return false;
      }
      return true;
    }

    method LedUpdate(capsLock: bool) returns (passOn: bool)
      modifies this
      ensures Keymap.LedUpdate(old(State()), capsLock) == Outcome(State(), passOn)
      ensures passOn && settings == old(settings) && stored == old(stored)
      ensures led.foreground == if capsLock then Some(Red) else None
    {
      if capsLock {
        led := led.(foreground := Some(Rgb(0xFF, 0x00, 0x00)));
      } else {
        led := led.(foreground := None);
      }
      return true;
    }
  }
}
