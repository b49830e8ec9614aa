/** The arithmetic of the rotary dial: edge pulses to a digit, a dialled number
    to the command it selects, and the steps of the playlist index. */
module Dialing {
  import opened Digits

  /** A GPIO level as pigpio reads and writes it (PI_LOW = 0, PI_HIGH = 1). */
  datatype Level = Low | High

  /** max_numbers: the longest dialled number kept before it is discarded. */
  const MaxNumbers: nat := 3

  /** The digit queued for a pulse count. The counter sees both edges of each
      dial pulse, so digit k (1 to 9) arrives as 2k edges and digit 0, which is
      ten dial pulses, as twenty; any other count is halved and rounded down. */
  function DigitOf(pulses: nat): (d: nat)
    ensures 1 <= pulses <= 20 ==> d < 10 && |Decimal(d)| == 1
    ensures pulses == 20 ==> d == 0
    ensures pulses != 20 ==> 2 * d <= pulses < 2 * d + 2
  {
    if pulses == 20 then 0 else pulses / 2
  }

  /** The edge count a full dial of digit d produces: two edges per dial
      pulse, and ten dial pulses for 0. Decoding it gives d back. */
  function PulsesFor(d: nat): (pulses: nat)
    requires d < 10
    ensures 1 <= pulses <= 20
    ensures DigitOf(pulses) == d
  {
    if d == 0 then 20 else 2 * d
  }

  /** The branches of check_number, in source order. */
  datatype Command =
    | Restart                  // 666: back to the initial conditions
    | PlayNext                 // 321: play the track at the playlist index
    | PlayAll                  // 123: play the whole playlist
    | ListTracks               // 124: say the playlist titles
    | PlayNumbered(index: nat) // 401 .. 400 + tracks: play track number - 401
    | Help                     // 111: say the help notes
    | Reboot                   // 999, first test: reboot the system
    | Weather                  // 100: say the weather report
    | RebootAgain              // 999, second test (after 100)
    | NoCommand                // anything else: nothing happens

  /** The command a dialled number selects: the first branch of check_number
      whose test the number passes. */
  function Dispatch(n: int, tracks: int): (c: Command)
    ensures c != RebootAgain
    ensures c == Restart <==> n == 666
    ensures c == PlayNext <==> n == 321
    ensures c == PlayAll <==> n == 123
    ensures c == ListTracks <==> n == 124
    ensures c == Help <==> n == 111
    ensures c == Weather <==> n == 100
    ensures c.PlayNumbered? ==> 0 <= c.index < tracks && n == 401 + c.index
    ensures 400 < n <= 400 + tracks && n != 666 ==> c == PlayNumbered(n - 401)
    ensures c == Reboot <==> n == 999 && tracks < 599
    ensures c == NoCommand <==>
              n !in {666, 321, 123, 124, 111, 999, 100} && !(400 < n <= 400 + tracks)
  {
    if n == 666 then Restart
    else if n == 321 then PlayNext
    else if n == 123 then PlayAll
    else if n == 124 then ListTracks
    else if n <= tracks + 400 && n > 400 then PlayNumbered(n - 401)
    else if n == 111 then Help
    else if n == 999 then Reboot
    else if n == 100 then Weather
    else if n == 999 then RebootAgain
    else NoCommand
  }

  /** check_number on the text of the dialled number: nothing for the empty
      text, otherwise the command its integer value selects. */
  function CommandFor(number: string, tracks: int): (c: Command)
    requires AllDigits(number)
    ensures number == "" ==> c == NoCommand
    ensures c != NoCommand ==> |number| >= 1 && Value(number) >= 100
  {
    if number == "" then NoCommand else Dispatch(Value(number), tracks)
  }

  /** Every command code has three digits, so a number of one or two digits
      never selects anything: the user has to dial all three. */
  lemma ShortNumbersSelectNothing(number: string, tracks: int)
    requires AllDigits(number) && |number| <= 2
    ensures CommandFor(number, tracks) == NoCommand
  {
    if number != "" {
      assert Pow10(|number|) <= 100 by {
        if |number| == 1 {
          assert Pow10(1) == 10 * Pow10(0);
        } else {
          assert Pow10(2) == 10 * Pow10(1) == 100;
        }
      }
    }
  }

  /** play_track's step of the playlist index: one on, back to 0 at the end. */
  function NextPosition(position: int, tracks: int): (r: int)
    requires 0 <= position < tracks
    ensures 0 <= r < tracks
    ensures r == position + 1 || (r == 0 && position == tracks - 1)
  {
    if position + 1 == tracks then 0 else position + 1
  }

  /** The playlist index after k plays of the next track. */
  function Advance(position: int, tracks: int, k: nat): (r: int)
    requires 0 <= position < tracks
    ensures 0 <= r < tracks
  {
    if k == 0 then position else NextPosition(Advance(position, tracks, k - 1), tracks)
  }

  /** Within one lap the index moves on by k, wrapping once past the end. */
  lemma {:induction false} AdvanceWithinLap(position: int, tracks: int, k: nat)
    requires 0 <= position < tracks && k <= tracks
    ensures Advance(position, tracks, k) ==
            if position + k < tracks then position + k else position + k - tracks
  {
    if k > 0 {
      AdvanceWithinLap(position, tracks, k - 1);
    }
  }

  /** Dialling 321 as many times as there are tracks comes back to the start. */
  lemma PlayNextFullLap(position: int, tracks: int)
    requires 0 <= position < tracks
    ensures Advance(position, tracks, tracks) == position
  {
    AdvanceWithinLap(position, tracks, tracks);
  }

  /** Every track is reached by dialling 321 fewer times than there are tracks. */
  lemma PlayNextReachesEveryTrack(position: int, tracks: int, target: int)
    requires 0 <= position < tracks && 0 <= target < tracks
    ensures exists k: nat :: k < tracks && Advance(position, tracks, k) == target
  {
    var k: nat := if target >= position then target - position else target + tracks - position;
    AdvanceWithinLap(position, tracks, k);
    assert Advance(position, tracks, k) == target;
  }

  /** Where the loop of play_all_tracks leaves the playlist index when it is
      at i: after each track the index has already moved on, and the loop ends
      at the end of the list or right after a track at whose end the hook
      switch reads low (the handset was put down). */
  function StopFrom(hookAfterTrack: nat -> Level, tracks: int, i: nat): (r: nat)
    ensures i < tracks ==> i < r <= tracks
    ensures i >= tracks ==> r == i
    ensures forall k: nat :: i <= k < r - 1 ==> hookAfterTrack(k) == High
    ensures i < r < tracks ==> hookAfterTrack(r - 1) == Low
    decreases tracks - i
  {
    if i >= tracks then i
    else if hookAfterTrack(i) == Low then i + 1
    else StopFrom(hookAfterTrack, tracks, i + 1)
  }

  /** As written, a pass over the whole playlist with the handset off hook
      leaves the index equal to the number of tracks, one past the last track,
      so the index is no longer a track of the playlist. */
  lemma PlayAllEndsPastLastTrack(hookAfterTrack: nat -> Level, tracks: int)
    requires tracks >= 1
    requires forall k: nat :: k + 1 < tracks ==> hookAfterTrack(k) == High
    ensures StopFrom(hookAfterTrack, tracks, 0) == tracks
    ensures !(0 <= StopFrom(hookAfterTrack, tracks, 0) < tracks)
  {
  }

  /** The index play_all_tracks leaves behind, brought back into the playlist
      the way play_track wraps it. */
  function PlayAllPosition(hookAfterTrack: nat -> Level, tracks: int): (r: int)
    requires tracks >= 1
    ensures 0 <= r < tracks
    ensures r == StopFrom(hookAfterTrack, tracks, 0) % tracks
  {
    var stop := StopFrom(hookAfterTrack, tracks, 0);
    if stop == tracks then 0 else stop
  }
}
