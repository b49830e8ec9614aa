# PiRotary: rotary-dial decoder and command dispatcher

A model of the controller script of a rotary telephone turned into a music
and voice player (`smartphone/PiRotary.py`). The script reacts to three GPIO
interrupts. The hook switch (`hangout`) greets the user and arms the dial.
The dial-detect pin (`dial_detect`) marks the start and end of each dialled
digit. The dial-counter pin (`pulse_count`) counts the edges of the dial
pulses. Each digit is queued into a number of at most three characters, and
`check_number` maps that number to a command. The commands are: restart
(666), play the next track (321), play the whole playlist (123), list the
titles (124), play track `n - 401` (401 to 400 + tracks), help (111),
reboot (999) and weather (100).

The model has three modules:

- `Digits` (`digits.dfy`): `str()` and `int()` on the decimal text of the
  dialled number, with the round trip between them.
- `Dialing` (`dialing.dfy`): the pure arithmetic. It turns a pulse count
  into a digit and picks a command for a number, taking the first branch of
  `check_number` that matches. It also covers how `play_track` and
  `play_all_tracks` step the playlist index.
- `Phone` (`phone.dfy`): class `RotaryPhone`. The module globals become its
  fields and the interrupt handlers become its methods.
  - A pin read is a method parameter. The hook-pin read after each track of
    `play_all_tracks` is a function from the track number to a level. The
    lines the weather program prints are a sequence of strings.
  - Reading back the output pin of the hook LED gives the level last written
    to it.
  - A pin write sets a `Level` field.
  - Each callback handle is a flag that says whether it still holds a live
    registration. Each pin also has a count of its live pigpio
    registrations.
  - Every external program started is appended to the `executed` log.

`AtRest()` states what holds between interrupts:

- The hook interrupt is always registered.
- No pin ever carries more than one registration.
- The two dial interrupts are on or off together.
- A lit ready LED or hook LED means the dial interrupts are on.
- The dialer LED is off.

Every handler keeps `AtRest()` true.

In the source, every audio command of `check_number` repeats the same
wrapper: cancel the callbacks, run the command, re-register the hook
callback, and re-register the dial callbacks if the hook LED is lit. The
model writes this wrapper once, in `PlayGuarded`, which `CheckNumber` calls
for every audio command. The command-specific part is in `Play`, and
`Dispatch` keeps the source's branch order.

`cb_release_rotary` (PiRotary.py:207-220) is defined in the source but
never called there. `CbReleaseRotary` models it, and no other member of the
model calls it either.

## Model

| member | source | states |
|---|---|---|
| `Digits.Decimal` | smartphone/PiRotary.py:594 | `str(n)` is a non-empty digit string, one character exactly when n < 10 |
| `Digits.Value` | smartphone/PiRotary.py:614 | `int()` of a k-digit string is below 10^k |
| `Digits.ValueAppend` | smartphone/PiRotary.py:594 | queuing digit d onto a number turns its value v into 10v + d |
| `Digits.DecimalRoundTrip` | smartphone/PiRotary.py:594 | `int(str(n)) == n` |
| `Dialing.DigitOf` | smartphone/PiRotary.py:588-594 | a count of exactly 20 pulses gives digit 0; any other count is halved and rounded down; a count from 1 to 20 gives a single digit below 10 |
| `Dialing.PulsesFor` | smartphone/PiRotary.py:589-594 | the pulse count a full dial of digit d produces (2d, or 20 for 0) lies in 1..20 and decodes back to d |
| `Dialing.Dispatch` | smartphone/PiRotary.py:613-698 | first-match branch order: 666, 321, 123, 124, 111 and 100 select restart, next track, whole playlist, title list, help and weather, and each of these commands is selected by its own code only; a number in 401..400+tracks other than 666 plays track n-401, which is in [0, tracks); 999 reboots only when there are fewer than 599 tracks; the second 999 test is never reached; every other number selects nothing |
| `Dialing.CommandFor` | smartphone/PiRotary.py:613-614 | the empty number selects nothing; any command needs a number whose value is at least 100 |
| `Dialing.ShortNumbersSelectNothing` | smartphone/PiRotary.py:613-698 | a number of one or two digits never selects a command |
| `Dialing.NextPosition` | smartphone/PiRotary.py:397-401 | the index moves on by one, or wraps to 0 from the last track; it stays in [0, tracks) |
| `Dialing.Advance` | smartphone/PiRotary.py:397-401 | after any number of `play_track` steps the index is still in [0, tracks) |
| `Dialing.AdvanceWithinLap` | smartphone/PiRotary.py:397-401 | k steps (k <= tracks) move the index to p + k, minus tracks past the end |
| `Dialing.PlayNextFullLap` | smartphone/PiRotary.py:620-629 | dialling 321 once per track brings the index back to where it started |
| `Dialing.PlayNextReachesEveryTrack` | smartphone/PiRotary.py:620-629 | every track is reached with fewer than `tracks` dials of 321 |
| `Dialing.StopFrom` | smartphone/PiRotary.py:284-301 | the index where the loop of `play_all_tracks` stops: past every track after which the hook read high; it stops at the end of the list, or right after the first track after which the hook read low |
| `Dialing.PlayAllEndsPastLastTrack` | smartphone/PiRotary.py:276-301 | as written, if the handset stays off hook through the playlist, the loop leaves the index equal to `tracks`, outside the playlist |
| `Dialing.PlayAllPosition` | smartphone/PiRotary.py:276-301 | corrected: the index left by `play_all_tracks` is the loop's stop position modulo `tracks`, so it is in [0, tracks) |
| `Phone.PositionAfter` | smartphone/PiRotary.py:613-698 | the playlist index after any command stays in [0, tracks) (corrected for 123, see Findings) |
| `Phone.RotaryPhone.constructor` | smartphone/PiRotary.py:110-169 | `initGPIO`: all three interrupts live, all LEDs off (`reinit` switches off the ready LED that `set_callbacks` lit), empty number, index 0, `is_playing` true, `dialer_status` low |
| `Phone.RotaryPhone.SetCallbacks` | smartphone/PiRotary.py:172-187 | registers one more callback on each of the three pins, and the ready LED is high |
| `Phone.RotaryPhone.ReleaseCallbacks` | smartphone/PiRotary.py:190-204 | cancels the three handles (cancelling one already cancelled changes nothing), and the ready LED is low |
| `Phone.RotaryPhone.CbReleaseRotary` | smartphone/PiRotary.py:207-220 | cancels the two dial handles, and the ready LED is low |
| `Phone.RotaryPhone.CbSetRotary` | smartphone/PiRotary.py:223-236 | registers the two dial callbacks, and the ready LED is high |
| `Phone.RotaryPhone.CbSetHangout` | smartphone/PiRotary.py:239-246 | registers the hook callback |
| `Phone.RotaryPhone.RunCmd` | smartphone/PiRotary.py:423-437 | appends exactly the given command line to the log |
| `Phone.RotaryPhone.AmpliOnOff` | smartphone/PiRotary.py:737-759 | counts one press cycle of the amplifier buttons |
| `Phone.RotaryPhone.Reinit` | smartphone/PiRotary.py:705-719 | the three LEDs are low and the number is empty; the playlist index and `is_playing` are unchanged |
| `Phone.RotaryPhone.PlayTtsSentence` | smartphone/PiRotary.py:505-523 | says message `msg`; the amplifier cycles twice and `is_playing` ends false |
| `Phone.RotaryPhone.PlayTrack` | smartphone/PiRotary.py:374-406 | announces and plays the track at the index, then moves the index to the next position; the index stays in [0, tracks) |
| `Phone.RotaryPhone.PlayUntilHangup` | smartphone/PiRotary.py:283-301 | from index 0, plays tracks 0 .. stop-1 in order and leaves the index at `StopFrom`'s stop position, which is in 1..tracks (as written: it can equal `tracks`) |
| `Phone.RotaryPhone.PlayAllTracks` | smartphone/PiRotary.py:261-306 | the intro, then the tracks up to the stop position; the index ends at `PlayAllPosition` (corrected, see Findings) |
| `Phone.RotaryPhone.ListAllTracks` | smartphone/PiRotary.py:309-342 | says the track count, then each numbered title in order |
| `Phone.RotaryPhone.SayHelp` | smartphone/PiRotary.py:345-371 | says the first `helpsentences` help notes in order (none when the count is 0 or negative) |
| `Phone.RotaryPhone.GetWeather` | smartphone/PiRotary.py:440-483 | says the airport, runs the weather program, then says each report line from the fifth on |
| `Phone.RotaryPhone.Hangout` | smartphone/PiRotary.py:526-556 | the hook LED and the ready LED follow the hook level; the dial is armed exactly when the hook is high; hook low empties the number; the index is unchanged |
| `Phone.RotaryPhone.Play` | smartphone/PiRotary.py:619-694 | runs the audio part of a command: the log grows by `Runs` and the index becomes `PositionAfter` (corrected for 123, see Findings) |
| `Phone.RotaryPhone.PlayGuarded` | smartphone/PiRotary.py:619-694 | the wrapper of every audio branch: `Performed` holds for the command; the hook interrupt is on again, the dial is re-armed exactly when the hook LED is lit, and the number and the pulse count are unchanged (corrected for 123, see Findings) |
| `Phone.RotaryPhone.CheckNumber` | smartphone/PiRotary.py:602-702 | `Performed`: the command `CommandFor` selects is carried out. An audio command re-arms the dial exactly when the hook LED is lit. 666 empties the number and switches the LEDs off. A number that selects nothing changes nothing. The index stays in [0, tracks) (corrected for 123, see Findings) |
| `Phone.RotaryPhone.DialDetect` | smartphone/PiRotary.py:559-599 | nothing changes unless the hook reads high. Otherwise it ends with the dialer LED low. A rising edge zeroes the pulses and queues nothing. A full number is emptied and nothing is queued. Otherwise the digit `DigitOf(pulses)` is queued and the number checked. The number stays within 3 characters while each digit takes at most 20 pulses. The index stays in [0, tracks) (corrected for 123, see Findings) |
| `Phone.RotaryPhone.QueueDigit` | smartphone/PiRotary.py:588-597 | the end of a digit: `DigitOf(pulses)` is queued onto the number, 20 pulses are reset to 0, and `Performed` holds for the command the new number selects; the number stays within 3 characters while the digit took at most 20 pulses (corrected for 123, see Findings) |
| `Phone.RotaryPhone.PulseCount` | smartphone/PiRotary.py:722-734 | adds exactly 1 to the pulse count when `dialer_status` is high, and leaves it unchanged otherwise |

## Findings

| source | as written | input that shows it | evidently intended | confidence | as-written member | corrected member |
|---|---|---|---|---|---|---|
| smartphone/PiRotary.py:284-301 | `play_all_tracks` leaves `track_position` equal to `tracks` once it has played the last track, and nothing wraps it back | tracks = 2, handset off hook through both tracks, dial 123 and then 321: `play_track` reads `track_titles[2]`, past the end of a two-title playlist | keep the index inside [0, tracks), wrapping to 0 the way `play_track` does at lines 399-401 | medium, not executed | `Dialing.PlayAllEndsPastLastTrack` | `Dialing.PlayAllPosition` |

## Left out

- `PISCOPE/pigpio.h` is not part of this model. It holds only the
  declarations of the GPIO library.
- Pin set-up (`set_mode`, `set_pull_up_down`) is not modelled.
- Pin reads become parameters. Reads of the hook-LED output pin return the
  level last written to it.
- Running external programs (`subprocess.Popen`) is not modelled, and exit
  codes are not kept. Each run is recorded as its argument list.
- The weather program's output is a parameter. Decoding it as ASCII, and a
  possible decoding error, are not modelled.
- `time.sleep` in `ampli_on_off` is not modelled. Its four pin writes are
  counted as one cycle.
- `ampli_status` is left out: it is always set to false and never read.
- Loading the two JSON files is not modelled. Their contents are the
  constructor's `Settings`.
- `Settings.Usable` requires at least one track and lists long enough for
  every index the handlers use. The model needs a valid playlist index, so a
  phone with no tracks is left out as a whole, although with no tracks the
  source still runs 123, 124, 111, 100, 666 and 999, and only 321 reaches
  the empty list. Lists shorter than the count, which would raise
  `IndexError`, are left out too.
- The Python exceptions a handler could raise are not modelled. For
  example, `cancel()` on the initial `0` handle raises; the constructor
  registers every handle before any cancel.
- The pigpio callback thread and the busy loop of `__main__` are not
  modelled. Interrupts are sequential method calls. A handler is called only
  while its callback is registered, which is a precondition of the handler.
- `debug_message` prints only when `DEBUG` is true, and `DEBUG` is false.
- `wrong_command` is never called: its only call is commented out.
- `tts_message` is folded into `PlayTtsSentence`.
- The local `num_messages` in `initGPIO` is never used.
- `Phone.RotaryPhone.PlayAllTracks` wraps the index to 0 after the loop. The
  source does not, as the Findings table explains.
- `Phone.RotaryPhone.Valid`, `Phone.PositionAfter`, `Phone.RotaryPhone.Play`,
  `Phone.RotaryPhone.PlayGuarded`, `Phone.RotaryPhone.CheckNumber`,
  `Phone.RotaryPhone.QueueDigit` and `Phone.RotaryPhone.DialDetect` keep the
  index in [0, tracks) only because of that correction. In the source, 123
  can leave it equal to `tracks`.
