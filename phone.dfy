/** The handset controller: the module globals of the controller script are
    the fields of one object, and its GPIO interrupt handlers are its methods.
    A pin read is a parameter, a pin write is a Level field, a registered
    interrupt callback is a flag per handle plus a count of live registrations
    per pin, and every external program started is appended to `executed`. */
module Phone {
  import opened Digits
  import opened Dialing

  /** The argument list of one external program run. */
  type CommandLine = seq<string>

  const TtsProgram: string := "/home/pi/smartphone/trans"
  const TtsSpeak: string := "-sp"
  const Player: string := "mplayer"
  const RebootCommand: CommandLine := ["sudo", "reboot", "now"]
  const WeatherProgram: string := "weather"

  /** What initGPIO loads from the playlist and the comments files. */
  datatype Settings = Settings(
    trackFiles: seq<string>,   // 'files'
    trackTitles: seq<string>,  // 'songs'
    tracks: int,               // 'tracks'
    musicPath: string,         // 'folder'
    texts: seq<string>,        // 'list': the spoken messages
    helpTexts: seq<string>,    // 'help'
    helpCount: int,            // 'helpsentences'
    airport: string,           // 'airport'
    icao: string)              // 'ICAO'
  {
    /** Every index the handlers use is inside its list. */
    predicate Usable() {
      1 <= tracks && tracks <= |trackFiles| && tracks <= |trackTitles| &&
      |texts| >= 8 && helpCount <= |helpTexts|
    }
  }

  /** The text-to-speech run that says `text`. */
  function Speak(text: string): CommandLine {
    [TtsProgram, TtsSpeak, text]
  }

  /** play_track's two runs for track i: say its title, then play its file. */
  function TrackCommands(s: Settings, i: int): seq<CommandLine>
    requires s.Usable() && 0 <= i < s.tracks
  {
    [Speak(s.texts[4] + " " + s.trackTitles[i]), [Player, s.musicPath + s.trackFiles[i] + ".mp3"]]
  }

  /** The runs for tracks 0 .. n-1, in order. */
  function PlaylistCommands(s: Settings, n: int): seq<CommandLine>
    requires s.Usable() && n <= s.tracks
    decreases n
  {
    if n <= 0 then [] else PlaylistCommands(s, n - 1) + TrackCommands(s, n - 1)
  }

  /** list_all_tracks: saying the numbered titles of tracks 0 .. n-1. */
  function TitleCommands(s: Settings, n: int): seq<CommandLine>
    requires s.Usable() && n <= s.tracks
    decreases n
  {
    if n <= 0 then []
    else TitleCommands(s, n - 1) + [Speak(" " + Decimal(n) + ": " + s.trackTitles[n - 1] + ", ")]
  }

  /** Saying lines[lo], ..., lines[hi - 1] one by one (nothing when hi <= lo). */
  function SpeakRange(lines: seq<string>, lo: int, hi: int): seq<CommandLine>
    requires 0 <= lo && hi <= |lines|
    decreases hi - lo
  {
    if hi <= lo then [] else SpeakRange(lines, lo, hi - 1) + [Speak(lines[hi - 1])]
  }

  /** The commands that silence the dial and use the amplifier while they run. */
  predicate Audible(c: Command) {
    c.PlayNext? || c.PlayAll? || c.ListTracks? || c.PlayNumbered? || c.Help? || c.Weather?
  }

  /** The external runs of a command, from the playlist index it starts at. */
  function Runs(c: Command, s: Settings, position: int, hookAfterTrack: nat -> Level,
                forecast: seq<string>): seq<CommandLine>
    requires s.Usable() && 0 <= position < s.tracks
    requires c.PlayNumbered? ==> c.index < s.tracks
  {
    match c
    case PlayNext => TrackCommands(s, position)
    case PlayNumbered(i) => TrackCommands(s, i)
    case PlayAll =>
      [Speak(s.texts[3] + " " + s.texts[2])] + PlaylistCommands(s, StopFrom(hookAfterTrack, s.tracks, 0))
    case ListTracks =>
      [Speak(s.texts[6] + " " + Decimal(s.tracks) + " " + s.texts[7])] + TitleCommands(s, s.tracks)
    case Help => SpeakRange(s.helpTexts, 0, s.helpCount)
    case Weather => [Speak(s.airport), [WeatherProgram, s.icao]] + SpeakRange(forecast, 4, |forecast|)
    case Reboot => [RebootCommand]
    case RebootAgain => [RebootCommand]
    case Restart => []
    case NoCommand => []
  }

  /** The playlist index after a command, from the index it starts at. */
  function PositionAfter(c: Command, tracks: int, position: int, hookAfterTrack: nat -> Level): (r: int)
    requires 0 <= position < tracks
    requires c.PlayNumbered? ==> c.index < tracks
    ensures 0 <= r < tracks
  {
    match c
    case PlayNext => NextPosition(position, tracks)
    case PlayNumbered(i) => NextPosition(i, tracks)
    case PlayAll => PlayAllPosition(hookAfterTrack, tracks)
    case _ => position
  }

  class RotaryPhone {
    const settings: Settings

    var pulses: nat                 // pulses
    var dialerStatus: Level         // dialer_status (False at start reads as Low)
    var dialedNumber: string        // dialed_number
    var trackPosition: int          // track_position
    var isPlaying: bool             // is_playing

    // Levels last written to the output pins.
    var hangoutLed: Level           // pin_hangout_led
    var dialerLed: Level            // pin_dialer_led
    var dialCounterLed: Level       // pin_dial_counter_led

    // Whether each handle variable holds a registration that is still live.
    var hangoutLive: bool           // cb_hangout_handler
    var dialerLive: bool            // cb_dialer_handler
    var counterLive: bool           // cb_counter_handler

    // Live pigpio registrations on the hook, dial-detect and dial-counter pins.
    var hangoutRegistrations: nat
    var dialerRegistrations: nat
    var counterRegistrations: nat

    var amplifierCycles: nat        // calls of ampli_on_off
    var executed: seq<CommandLine>  // external programs started, in order

    ghost predicate Valid()
      reads this
    {
      settings.Usable() &&
      0 <= trackPosition < settings.tracks &&
      AllDigits(dialedNumber) &&
      (hangoutLive ==> hangoutRegistrations >= 1) &&
      (dialerLive ==> dialerRegistrations >= 1) &&
      (counterLive ==> counterRegistrations >= 1)
    }

    /** Between interrupts: the hook pin is always watched, no pin ever has
        more than the one registration its handle holds, the two dial
        interrupts are on or off together, and a lit ready LED means the
        dial interrupts are on. */
    ghost predicate AtRest()
      reads this
    {
      hangoutLive && hangoutRegistrations == 1 &&
      dialerLive == counterLive &&
      dialerRegistrations == (if dialerLive then 1 else 0) &&
      counterRegistrations == (if counterLive then 1 else 0) &&
      (dialCounterLed == High ==> dialerLive) &&
      (hangoutLed == High ==> dialerLive) &&
      dialerLed == Low
    }

    /** What check_number did with `number`: it selected command c, and the
        state moved as that command prescribes. */
    twostate predicate Performed(c: Command, number: string, hookAfterTrack: nat -> Level,
                                 forecast: seq<string>)
      reads this
    {
      settings.Usable() && 0 <= old(trackPosition) < settings.tracks &&
      (c.PlayNumbered? ==> c.index < settings.tracks) &&
      dialedNumber == (if c == Restart then "" else number) &&
      executed == old(executed) + Runs(c, settings, old(trackPosition), hookAfterTrack, forecast) &&
      trackPosition == PositionAfter(c, settings.tracks, old(trackPosition), hookAfterTrack) &&
      hangoutLed == (if c == Restart then Low else old(hangoutLed)) &&
      (Audible(c) ==>
         !isPlaying && amplifierCycles == old(amplifierCycles) + 2 &&
         hangoutLive && (dialerLive <==> old(hangoutLed) == High) &&
         dialCounterLed == old(hangoutLed)) &&
      (!Audible(c) ==>
         isPlaying == old(isPlaying) && amplifierCycles == old(amplifierCycles) &&
         hangoutLive == old(hangoutLive) && dialerLive == old(dialerLive) &&
         counterLive == old(counterLive) &&
         dialCounterLed == (if c == Restart then Low else old(dialCounterLed)))
    }

    /** initGPIO, with the two files already loaded into `settings`. */
    constructor (settings: Settings)
      requires settings.Usable()
      ensures Valid() && AtRest()
      ensures this.settings == settings
      ensures dialerLive && counterLive
      ensures hangoutLed == Low && dialCounterLed == Low
      ensures pulses == 0 && dialerStatus == Low && dialedNumber == ""
      ensures trackPosition == 0 && isPlaying
      ensures executed == [] && amplifierCycles == 0
    {
      this.settings := settings;
      pulses, dialerStatus, dialedNumber := 0, Low, "";
      trackPosition, isPlaying := 0, true;
      hangoutLed, dialerLed, dialCounterLed := Low, Low, Low;
      hangoutLive, dialerLive, counterLive := false, false, false;
      hangoutRegistrations, dialerRegistrations, counterRegistrations := 0, 0, 0;
      amplifierCycles, executed := 0, [];
      new;
      SetCallbacks();
      Reinit();
    }

    /** set_callbacks: register all three interrupts and light the ready LED. */
    method SetCallbacks()
      requires Valid()
      modifies this`hangoutLive, this`dialerLive, this`counterLive,
               this`hangoutRegistrations, this`dialerRegistrations, this`counterRegistrations,
               this`dialCounterLed
      ensures Valid()
      ensures hangoutLive && dialerLive && counterLive
      ensures hangoutRegistrations == old(hangoutRegistrations) + 1
      ensures dialerRegistrations == old(dialerRegistrations) + 1
      ensures counterRegistrations == old(counterRegistrations) + 1
      ensures dialCounterLed == High
    {
      hangoutRegistrations, hangoutLive := hangoutRegistrations + 1, true;
      dialerRegistrations, dialerLive := dialerRegistrations + 1, true;
      counterRegistrations, counterLive := counterRegistrations + 1, true;
      dialCounterLed := High;
    }

    /** release_callbacks: cancel the three handles and switch the ready LED
        off. Cancelling a handle already cancelled does nothing. */
    method ReleaseCallbacks()
      requires Valid()
      modifies this`hangoutLive, this`dialerLive, this`counterLive,
               this`hangoutRegistrations, this`dialerRegistrations, this`counterRegistrations,
               this`dialCounterLed
      ensures Valid()
      ensures !hangoutLive && !dialerLive && !counterLive
      ensures hangoutRegistrations == old(hangoutRegistrations) - (if old(hangoutLive) then 1 else 0)
      ensures dialerRegistrations == old(dialerRegistrations) - (if old(dialerLive) then 1 else 0)
      ensures counterRegistrations == old(counterRegistrations) - (if old(counterLive) then 1 else 0)
      ensures dialCounterLed == Low
    {
      if hangoutLive {
        hangoutRegistrations, hangoutLive := hangoutRegistrations - 1, false;
      }
      if dialerLive {
        dialerRegistrations, dialerLive := dialerRegistrations - 1, false;
      }
      if counterLive {
        counterRegistrations, counterLive := counterRegistrations - 1, false;
      }
      dialCounterLed := Low;
    }

    /** cb_release_rotary: cancel the two dial handles and switch the ready LED off. */
    method CbReleaseRotary()
      requires Valid()
      modifies this`dialerLive, this`counterLive,
               this`dialerRegistrations, this`counterRegistrations, this`dialCounterLed
      ensures Valid()
      ensures !dialerLive && !counterLive
      ensures dialerRegistrations == old(dialerRegistrations) - (if old(dialerLive) then 1 else 0)
      ensures counterRegistrations == old(counterRegistrations) - (if old(counterLive) then 1 else 0)
      ensures dialCounterLed == Low
    {
      if counterLive {
        counterRegistrations, counterLive := counterRegistrations - 1, false;
      }
      if dialerLive {
        dialerRegistrations, dialerLive := dialerRegistrations - 1, false;
      }
      dialCounterLed := Low;
    }

    /** cb_set_rotary: register the two dial interrupts and light the ready LED. */
    method CbSetRotary()
      requires Valid()
      modifies this`dialerLive, this`counterLive,
               this`dialerRegistrations, this`counterRegistrations, this`dialCounterLed
      ensures Valid()
      ensures dialerLive && counterLive
      ensures dialerRegistrations == old(dialerRegistrations) + 1
      ensures counterRegistrations == old(counterRegistrations) + 1
      ensures dialCounterLed == High
    {
      dialerRegistrations, dialerLive := dialerRegistrations + 1, true;
      counterRegistrations, counterLive := counterRegistrations + 1, true;
      dialCounterLed := High;
    }

    /** cb_set_hangout: register the hook interrupt. */
    method CbSetHangout()
      requires Valid()
      modifies this`hangoutLive, this`hangoutRegistrations
      ensures Valid()
      ensures hangoutLive && hangoutRegistrations == old(hangoutRegistrations) + 1
    {
      hangoutRegistrations, hangoutLive := hangoutRegistrations + 1, true;
    }

    /** runCmd: start an external program; its exit code is never used. */
    method RunCmd(cmd: CommandLine)
      modifies this`executed
      ensures executed == old(executed) + [cmd]
    {
      executed := executed + [cmd];
    }

    /** ampli_on_off: press the amplifier's power and mode buttons once. */
    method AmpliOnOff()
      modifies this`amplifierCycles
      ensures amplifierCycles == old(amplifierCycles) + 1
    {
      amplifierCycles := amplifierCycles + 1;
    }

    /** reinit: switch the three LEDs off and forget the dialled number. The
        assignments to track_position and is_playing that follow in the source
        bind names local to the function, so the playlist index and the
        playing flag stay as they are. */
    method Reinit()
      modifies this`dialCounterLed, this`hangoutLed, this`dialerLed, this`dialedNumber
      ensures dialCounterLed == Low && hangoutLed == Low && dialerLed == Low
      ensures dialedNumber == ""
      ensures trackPosition == old(trackPosition) && isPlaying == old(isPlaying)
    {
      dialCounterLed := Low;
      hangoutLed := Low;
      dialerLed := Low;
      dialedNumber := "";
    }

    /** play_tts_sentence: amplifier on, say message msg, amplifier off. */
    method PlayTtsSentence(msg: nat)
      requires Valid() && msg < |settings.texts|
      modifies this`isPlaying, this`amplifierCycles, this`executed
      ensures Valid()
      ensures executed == old(executed) + [Speak(settings.texts[msg])]
      ensures amplifierCycles == old(amplifierCycles) + 2 && !isPlaying
    {
      isPlaying := true;
      AmpliOnOff();
      RunCmd(Speak(settings.texts[msg]));
      if isPlaying {
        AmpliOnOff();
        isPlaying := false;
      }
    }

    /** play_track: say and play the track at the playlist index, then step
        the index on, back to the first track after the last. */
    method PlayTrack()
      requires Valid()
      modifies this`isPlaying, this`amplifierCycles, this`executed, this`trackPosition
      ensures Valid()
      ensures trackPosition == NextPosition(old(trackPosition), settings.tracks)
      ensures executed == old(executed) + TrackCommands(settings, old(trackPosition))
      ensures amplifierCycles == old(amplifierCycles) + 2 && !isPlaying
    {
      isPlaying := true;
      AmpliOnOff();
      RunCmd(Speak(settings.texts[4] + " " + settings.trackTitles[trackPosition]));
      RunCmd([Player, settings.musicPath + settings.trackFiles[trackPosition] + ".mp3"]);
      trackPosition := trackPosition + 1;
      if trackPosition == settings.tracks {
        trackPosition := 0;
      }
      if isPlaying {
        AmpliOnOff();
        isPlaying := false;
      }
    }

    /** play_all_tracks: play the playlist from its first track until its end,
        or until the hook switch reads low after a track. The index the loop
        stops at is then wrapped into the playlist (see the findings). */
    method PlayAllTracks(hookAfterTrack: nat -> Level)
      requires Valid()
      modifies this`isPlaying, this`amplifierCycles, this`executed, this`trackPosition
      ensures Valid()
      ensures executed == old(executed) + [Speak(settings.texts[3] + " " + settings.texts[2])]
                          + PlaylistCommands(settings, StopFrom(hookAfterTrack, settings.tracks, 0))
      ensures trackPosition == PlayAllPosition(hookAfterTrack, settings.tracks)
      ensures amplifierCycles == old(amplifierCycles) + 2 && !isPlaying
    {
      isPlaying := true;
      AmpliOnOff();
      trackPosition := 0;
      RunCmd(Speak(settings.texts[3] + " " + settings.texts[2]));
      PlayUntilHangup(hookAfterTrack);
      if trackPosition == settings.tracks {
        trackPosition := 0;
      }
      if isPlaying {
        AmpliOnOff();
        isPlaying := false;
      }
    }

    /** The loop of play_all_tracks, from the first track. */
    method PlayUntilHangup(hookAfterTrack: nat -> Level)
      requires settings.Usable() && trackPosition == 0
      modifies this`executed, this`trackPosition
      ensures trackPosition == StopFrom(hookAfterTrack, settings.tracks, 0)
      ensures 0 < trackPosition <= settings.tracks
      ensures executed == old(executed) + PlaylistCommands(settings, trackPosition)
    {
      while trackPosition < settings.tracks
        invariant 0 <= trackPosition <= settings.tracks
        invariant StopFrom(hookAfterTrack, settings.tracks, trackPosition)
                  == StopFrom(hookAfterTrack, settings.tracks, 0)
        invariant executed == old(executed) + PlaylistCommands(settings, trackPosition)
      {
        var i := trackPosition;
        RunCmd(Speak(settings.texts[4] + " " + settings.trackTitles[i]));
        RunCmd([Player, settings.musicPath + settings.trackFiles[i] + ".mp3"]);
        assert executed == old(executed) + PlaylistCommands(settings, i + 1);
        trackPosition := i + 1;
        if hookAfterTrack(i) == Low {
          assert StopFrom(hookAfterTrack, settings.tracks, i) == i + 1;
          break;
        }
      }
    }

    /** list_all_tracks: say how many tracks there are, then each numbered title. */
    method ListAllTracks()
      requires Valid()
      modifies this`isPlaying, this`amplifierCycles, this`executed
      ensures Valid()
      ensures executed == old(executed)
                          + [Speak(settings.texts[6] + " " + Decimal(settings.tracks) + " " + settings.texts[7])]
                          + TitleCommands(settings, settings.tracks)
      ensures amplifierCycles == old(amplifierCycles) + 2 && !isPlaying
    {
      isPlaying := true;
      AmpliOnOff();
      RunCmd(Speak(settings.texts[6] + " " + Decimal(settings.tracks) + " " + settings.texts[7]));
      ghost var start := executed;
      var counter := 0;
      while counter < settings.tracks
        invariant 0 <= counter <= settings.tracks
        invariant executed == start + TitleCommands(settings, counter)
        invariant isPlaying && amplifierCycles == old(amplifierCycles) + 1
      {
        RunCmd(Speak(" " + Decimal(counter + 1) + ": " + settings.trackTitles[counter] + ", "));
        counter := counter + 1;
      }
      if isPlaying {
        AmpliOnOff();
        isPlaying := false;
      }
    }

    /** say_help: say the first helpCount help notes, in order. */
    method SayHelp()
      requires Valid()
      modifies this`isPlaying, this`amplifierCycles, this`executed
      ensures Valid()
      ensures executed == old(executed) + SpeakRange(settings.helpTexts, 0, settings.helpCount)
      ensures amplifierCycles == old(amplifierCycles) + 2 && !isPlaying
    {
      isPlaying := true;
      AmpliOnOff();
      ghost var start := executed;
      var counter := 0;
      while counter < settings.helpCount
        invariant 0 <= counter && (counter <= settings.helpCount || counter == 0)
        invariant executed == start + SpeakRange(settings.helpTexts, 0, counter)
        invariant isPlaying && amplifierCycles == old(amplifierCycles) + 1
      {
        RunCmd(Speak(settings.helpTexts[counter]));
        counter := counter + 1;
      }
      if isPlaying {
        AmpliOnOff();
        isPlaying := false;
      }
    }

    /** get_weather: say the airport, run the weather program, and say every
        line of its report from the fifth on. */
    method GetWeather(forecast: seq<string>)
      requires Valid()
      modifies this`isPlaying, this`amplifierCycles, this`executed
      ensures Valid()
      ensures executed == old(executed) + [Speak(settings.airport), [WeatherProgram, settings.icao]]
                          + SpeakRange(forecast, 4, |forecast|)
      ensures amplifierCycles == old(amplifierCycles) + 2 && !isPlaying
    {
      isPlaying := true;
      AmpliOnOff();
      RunCmd(Speak(settings.airport));
      RunCmd([WeatherProgram, settings.icao]);
      ghost var start := executed;
      var w := 4;
      while w < |forecast|
        invariant 4 <= w && (w <= |forecast| || w == 4)
        invariant executed == start + SpeakRange(forecast, 4, if w <= |forecast| then w else |forecast|)
        invariant isPlaying && amplifierCycles == old(amplifierCycles) + 1
      {
        RunCmd(Speak(forecast[w]));
        w := w + 1;
      }
      if isPlaying {
        AmpliOnOff();
        isPlaying := false;
      }
    }

    /** hangout: the hook switch changed. Lifting the handset lights the hook
        LED, greets the user and turns every interrupt on; putting it down
        says goodbye, resets, and leaves only the hook interrupt on. */
    method Hangout(hookLevel: Level)
      requires Valid() && AtRest()
      modifies this
      ensures Valid() && AtRest()
      ensures hangoutLed == hookLevel && dialCounterLed == hookLevel
      ensures dialerLive == (hookLevel == High)
      ensures executed == old(executed) + [Speak(settings.texts[if hookLevel == High then 0 else 1])]
      ensures amplifierCycles == old(amplifierCycles) + 2 && !isPlaying
      ensures dialedNumber == (if hookLevel == High then old(dialedNumber) else "")
      ensures trackPosition == old(trackPosition)
      ensures pulses == old(pulses) && dialerStatus == old(dialerStatus)
    {
      if hookLevel == High {
        ReleaseCallbacks();
        hangoutLed := High;
        PlayTtsSentence(0);
        SetCallbacks();
      } else {
        ReleaseCallbacks();
        PlayTtsSentence(1);
        hangoutLed := Low;
        Reinit();
        CbSetHangout();
      }
    }

    /** The audio part of a command of check_number. */
    method Play(c: Command, hookAfterTrack: nat -> Level, forecast: seq<string>)
      requires Valid() && Audible(c)
      requires c.PlayNumbered? ==> c.index < settings.tracks
      modifies this`isPlaying, this`amplifierCycles, this`executed, this`trackPosition
      ensures Valid()
      ensures executed == old(executed) + Runs(c, settings, old(trackPosition), hookAfterTrack, forecast)
      ensures trackPosition == PositionAfter(c, settings.tracks, old(trackPosition), hookAfterTrack)
      ensures amplifierCycles == old(amplifierCycles) + 2 && !isPlaying
    {
      match c {
        case PlayNext =>
          PlayTrack();
          assert Runs(c, settings, old(trackPosition), hookAfterTrack, forecast)
                 == TrackCommands(settings, old(trackPosition));
        case PlayAll =>
          PlayAllTracks(hookAfterTrack);
        case ListTracks =>
          ListAllTracks();
          assert PositionAfter(c, settings.tracks, old(trackPosition), hookAfterTrack)
                 == old(trackPosition);
        case PlayNumbered(i) =>
          trackPosition := i;
          PlayTrack();
          assert Runs(c, settings, old(trackPosition), hookAfterTrack, forecast)
                 == TrackCommands(settings, i);
        case Help =>
          SayHelp();
          assert PositionAfter(c, settings.tracks, old(trackPosition), hookAfterTrack)
                 == old(trackPosition);
        case Weather =>
          GetWeather(forecast);
          assert PositionAfter(c, settings.tracks, old(trackPosition), hookAfterTrack)
                 == old(trackPosition);
      }
    }

    /** check_number: run the command the dialled number selects. Every
        command that plays audio turns the dial off while it runs, and on
        again afterwards only if the hook LED is lit. */
    method CheckNumber(hookAfterTrack: nat -> Level, forecast: seq<string>)
      requires Valid() && AtRest()
      modifies this
      ensures Valid() && AtRest()
      ensures Performed(CommandFor(old(dialedNumber), settings.tracks), old(dialedNumber),
                        hookAfterTrack, forecast)
      ensures pulses == old(pulses) && dialerStatus == old(dialerStatus)
    {
      if dialedNumber != "" {
        var command := Dispatch(Value(dialedNumber), settings.tracks);
        if command == Restart {
          dialedNumber := "";
          Reinit();
        } else if command == Reboot || command == RebootAgain {
          RunCmd(RebootCommand);
        } else if Audible(command) {
          PlayGuarded(command, hookAfterTrack, forecast);
        }
      }
    }

    /** The wrapper every audio branch of check_number repeats: cancel the
        callbacks, run the command, watch the hook again, and turn the dial
        back on only if the hook LED is lit. */
    method PlayGuarded(c: Command, hookAfterTrack: nat -> Level, forecast: seq<string>)
      requires Valid() && AtRest() && Audible(c)
      requires c.PlayNumbered? ==> c.index < settings.tracks
      modifies this
      ensures Valid() && AtRest()
      ensures Performed(c, old(dialedNumber), hookAfterTrack, forecast)
      ensures pulses == old(pulses) && dialerStatus == old(dialerStatus)
    {
      ReleaseCallbacks();
      Play(c, hookAfterTrack, forecast);
      CbSetHangout();
      if hangoutLed == High {
        CbSetRotary();
      }
    }

    /** dial_detect: the dial-detect pin changed. It acts only while the
        handset is off hook: a rising edge starts a digit (the pulse count is
        reset), a full number is discarded, and otherwise a counted digit is
        queued and the number checked for a command. */
    method DialDetect(hookLevel: Level, detectLevel: Level, hookAfterTrack: nat -> Level,
                      forecast: seq<string>)
      requires Valid() && AtRest() && dialerLive
      modifies this
      ensures Valid() && AtRest()
      ensures hookLevel == Low ==> unchanged(this)
      ensures hookLevel == High ==> dialerStatus == detectLevel && dialerLed == Low
      ensures hookLevel == High && detectLevel == High ==> pulses == 0
      ensures hookLevel == High && (detectLevel == High || old(pulses) == 0 || |old(dialedNumber)| >= MaxNumbers) ==>
                pulses == (if detectLevel == High then 0 else old(pulses)) &&
                Performed(NoCommand, if |old(dialedNumber)| >= MaxNumbers then "" else old(dialedNumber),
                          hookAfterTrack, forecast)
      ensures hookLevel == High && detectLevel == Low && old(pulses) != 0 && |old(dialedNumber)| < MaxNumbers ==>
                pulses == (if old(pulses) == 20 then 0 else old(pulses)) &&
                var number := old(dialedNumber) + Decimal(DigitOf(old(pulses)));
                AllDigits(number) &&
                Performed(CommandFor(number, settings.tracks), number, hookAfterTrack, forecast)
      ensures |old(dialedNumber)| <= MaxNumbers && (detectLevel == High || old(pulses) <= 20) ==>
                |dialedNumber| <= MaxNumbers
    {
      if hookLevel == High {
        dialerStatus := detectLevel;
        if dialerStatus == High {
          pulses := 0;
          dialerLed := High;
        }
        if |dialedNumber| >= MaxNumbers {
          dialedNumber := "";
        } else {
          if pulses != 0 {
            QueueDigit(hookAfterTrack, forecast);
          }
        }
        dialerLed := Low;
      }
    }

    /** The end of a digit in dial_detect: the counted pulses become a digit,
        which is queued onto the number, and the number is checked. */
    method QueueDigit(hookAfterTrack: nat -> Level, forecast: seq<string>)
      requires Valid() && AtRest() && pulses != 0 && |dialedNumber| < MaxNumbers
      modifies this
      ensures Valid() && AtRest()
      ensures pulses == (if old(pulses) == 20 then 0 else old(pulses))
      ensures dialerStatus == old(dialerStatus)
      ensures var number := old(dialedNumber) + Decimal(DigitOf(old(pulses)));
              AllDigits(number) &&
              Performed(CommandFor(number, settings.tracks), number, hookAfterTrack, forecast)
      ensures old(pulses) <= 20 ==> |dialedNumber| <= MaxNumbers
    {
      if pulses == 20 {
        pulses := 0;
      }
      AllDigitsConcat(dialedNumber, Decimal(pulses / 2));
      dialedNumber := dialedNumber + Decimal(pulses / 2);
      CheckNumber(hookAfterTrack, forecast);
    }

    /** pulse_count: an edge on the dial-counter pin counts while a digit is
        being dialled, and only then. */
    method PulseCount()
      requires Valid() && AtRest() && counterLive
      modifies this`pulses
      ensures Valid() && AtRest()
      ensures pulses == old(pulses) + (if dialerStatus == High then 1 else 0)
    {
      if dialerStatus == High {
        pulses := pulses + 1;
      }
    }
  }
}
