/** What holds over any run of the hooks after boot: the framework calls the
    key-event, host-LED and layer-change hooks in some order, and the lemmas
    here say what the settings, storage and LEDs look like afterwards. */
module Sessions {
  import opened Keycodes
  import opened Keymap

  /** One call the framework makes into the keymap after boot. */
  datatype Event =
    | KeyEvent(keycode: Keycode, pressed: bool)
    | HostLeds(capsLock: bool)
    | LayerChange(layer: LayerState)

  function Apply(m: Machine, e: Event): Machine
  {
    match e
    case KeyEvent(k, p) => ProcessRecord(m, k, p).next
    case HostLeds(c) => LedUpdate(m, c).next
    case LayerChange(l) => m
  }

  /** The state after the events, in order. */
  function Run(m: Machine, events: seq<Event>): Machine
    decreases |events|
  {
    if events == [] then m else Run(Apply(m, events[0]), events[1..])
  }

  /** How many of the events are presses of the LED toggle. */
  function TogglePresses(events: seq<Event>): nat
  {
    if events == [] then 0
    else (if events[0] == KeyEvent(LedToggle, true) then 1 else 0) + TogglePresses(events[1..])
  }

  /** Storage lags memory in one way only: it agrees with memory except that
      it may still say "off" while memory says "on". */
  ghost predicate StorageLags(m: Machine)
  {
    m.stored.(ledIsOn := m.settings.ledIsOn) == m.settings
    && (m.stored.ledIsOn ==> m.settings.ledIsOn)
  }

  /** What this keymap has told the LED driver agrees with the flag: the last
      enable or disable it issued matches led_is_on. */
  ghost predicate LedFollowsFlag(m: Machine)
  {
    m.led.enabled == m.settings.ledIsOn
  }

  /** A load leaves memory and storage in agreement, so the lag holds. */
  lemma InitSettingsEstablishesLag(m: Machine)
    ensures StorageLags(InitSettings(m))
  {
  }

  /** The firmware as written never loads at boot, so right after start-up
      and the post-init hook storage need not lag memory in this way. */
  lemma BootNeedNotLag()
    ensures !StorageLags(KeyboardPostInit(Start(Settings(0, false, 5), Led(false, 0, None))))
  {
  }

  /** A switch-off persists the record, so from then on memory and storage
      agree and the lag holds without any load. */
  lemma SwitchOffEstablishesLag(m: Machine)
    requires m.settings.ledIsOn
    ensures ProcessRecord(m, LedToggle, true).next.stored == ProcessRecord(m, LedToggle, true).next.settings
    ensures StorageLags(ProcessRecord(m, LedToggle, true).next)
  {
  }

  lemma ApplyPreservesLag(m: Machine, e: Event)
    requires StorageLags(m)
    ensures StorageLags(Apply(m, e))
  {
  }

  /** From a state where storage lags memory (after a load, or after the
      first switch-off), no sequence of hook calls lets storage drift from
      memory beyond a pending "on". */
  lemma {:induction false} RunPreservesLag(m: Machine, events: seq<Event>)
    requires StorageLags(m)
    ensures StorageLags(Run(m, events))
    decreases |events|
  {
    if events != [] {
      ApplyPreservesLag(m, events[0]);
      RunPreservesLag(Apply(m, events[0]), events[1..]);
    }
  }

  /** Boot as written establishes that agreement: the record starts "on" and
      the post-init hook enables the LEDs. */
  lemma BootLedFollowsFlag(stored: Settings, led: Led)
    ensures LedFollowsFlag(KeyboardPostInit(Start(stored, led)))
  {
  }

  /** Once what this keymap has told the LED driver matches the flag, every
      run of its hooks keeps it matching. */
  lemma {:induction false} RunKeepsLedFollowingFlag(m: Machine, events: seq<Event>)
    requires LedFollowsFlag(m)
    ensures LedFollowsFlag(Run(m, events))
    decreases |events|
  {
    if events != [] {
      RunKeepsLedFollowingFlag(Apply(m, events[0]), events[1..]);
    }
  }

  /** The flag flips once per toggle press and nothing else in memory moves. */
  lemma {:induction false} RunFlipsPerPress(m: Machine, events: seq<Event>)
    ensures Run(m, events).settings.ledIsOn == (m.settings.ledIsOn != (TogglePresses(events) % 2 == 1))
    ensures Run(m, events).settings == m.settings.(ledIsOn := Run(m, events).settings.ledIsOn)
    decreases |events|
  {
    if events != [] {
      RunFlipsPerPress(Apply(m, events[0]), events[1..]);
    }
  }

  /** Storage is either untouched or holds memory's record with the flag
      cleared: the toggle only ever persists "off". */
  lemma {:induction false} RunStoresOnlyOff(m: Machine, events: seq<Event>)
    ensures Run(m, events).stored == m.stored
         || Run(m, events).stored == m.settings.(ledIsOn := false)
    decreases |events|
  {
    if events != [] {
      var next := Apply(m, events[0]);
      assert next.settings == m.settings.(ledIsOn := next.settings.ledIsOn);
      assert next.stored == m.stored || next.stored == m.settings.(ledIsOn := false);
      RunStoresOnlyOff(next, events[1..]);
    }
  }

  /** Once storage holds a valid record saying "off", no run of key events
      makes the next load come up with the LEDs on. */
  lemma OffSurvivesReload(m: Machine, events: seq<Event>)
    requires m.stored.magic == Magic && !m.stored.ledIsOn
    requires m.settings.magic == Magic
    ensures !InitSettings(Run(m, events)).settings.ledIsOn
  {
    RunStoresOnlyOff(m, events);
    RunFlipsPerPress(m, events);
  }

  /** The profile this keymap has selected on the LED driver and the profile
      in memory never change after boot. */
  lemma {:induction false} RunKeepsProfile(m: Machine, events: seq<Event>)
    ensures Run(m, events).led.profile == m.led.profile
    ensures Run(m, events).settings.ledProfile == m.settings.ledProfile
    decreases |events|
  {
    if events != [] {
      RunKeepsProfile(Apply(m, events[0]), events[1..]);
    }
  }

  /** The caps-lock state the host reported last, if it reported any. */
  function LastCapsLock(events: seq<Event>): Option<bool>
    decreases |events|
  {
    if events == [] then None
    else match LastCapsLock(events[1..])
      case Some(c) => Some(c)
      case None => if events[0].HostLeds? then Some(events[0].capsLock) else None
  }

  /** The foreground overlay is decided by the last caps-lock report alone:
      red if caps lock was on, none if it was off, untouched if none came. */
  lemma {:induction false} RunForegroundFollowsLastCapsLock(m: Machine, events: seq<Event>)
    ensures Run(m, events).led.foreground ==
      match LastCapsLock(events)
      case None => m.led.foreground
      case Some(c) => if c then Some(Red) else None
    decreases |events|
  {
    if events != [] {
      RunForegroundFollowsLastCapsLock(Apply(m, events[0]), events[1..]);
    }
  }
}
