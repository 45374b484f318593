/** `AudioManager`: the radio playlist state machine and the synthesized cues.

    A cue is modelled as the schedule of tones it starts on the shared audio clock, relative
    to the moment it is called: frequency in hundredths of a hertz, times in milliseconds,
    gains in thousandths. The Web Audio node graph itself is an opaque effect. */
module Audio {

  import opened Common

  /** Every gain envelope ends at 0.01 via an exponential ramp. */
  const FloorGain := 10

  /** One oscillator with its gain envelope: it starts at `startMs` at `peakGain`, its
      frequency moves from `freq` to `sweepTo` by `sweepEndMs`, the gain ramps to 0.01 by
      `rampEndMs`, and the oscillator stops at `stopMs`. `lowpass` is the cutoff of a
      low-pass filter between oscillator and gain, when there is one. */
  datatype Tone = Tone(freq: nat, sweepTo: nat, sweepEndMs: nat, lowpass: Option<nat>,
                       startMs: nat, stopMs: nat, peakGain: nat, rampEndMs: nat)

  /** The envelope shape every cue shares: the tone sounds for a positive time, its gain
      decays from a peak above the floor and reaches the floor exactly when it stops, and any
      frequency sweep ends then too. */
  predicate Enveloped(t: Tone) {
    t.startMs < t.stopMs && FloorGain < t.peakGain &&
    t.rampEndMs == t.stopMs && t.sweepEndMs == t.stopMs
  }

  /** A fixed-pitch tone started at `startMs` that rings for `ringMs`. */
  function Blip(freq: nat, startMs: nat, ringMs: nat, peakGain: nat): Tone {
    Tone(freq, freq, startMs + ringMs, None, startMs, startMs + ringMs, peakGain, startMs + ringMs)
  }

  /** The `notes.forEach((freq, i) => ...)` pattern: note i starts `staggerMs * i` after the
      call and rings for `ringMs`. */
  function Arpeggio(freqs: seq<nat>, staggerMs: nat, ringMs: nat, peakGain: nat): (tones: seq<Tone>)
    requires ringMs > 0 && peakGain > FloorGain
    ensures |tones| == |freqs|
    ensures forall i :: 0 <= i < |tones| ==>
      Enveloped(tones[i]) && tones[i].freq == freqs[i] && tones[i].sweepTo == freqs[i] &&
      tones[i].startMs == staggerMs * i && tones[i].stopMs == tones[i].startMs + ringMs &&
      tones[i].peakGain == peakGain
  {
    seq(|freqs|, i requires 0 <= i < |freqs| => Blip(freqs[i], staggerMs * i, ringMs, peakGain))
  }

  /** The hookah bubble: one sine swept from 120 Hz down to 80 Hz through a 300 Hz low-pass
      filter; sweep, gain decay and oscillator all end 500 ms after the call. */
  function BubblingCue(): (tones: seq<Tone>)
    ensures |tones| == 1 && Enveloped(tones[0])
    ensures tones[0].freq == 12000 && tones[0].sweepTo == 8000 && tones[0].freq > tones[0].sweepTo
    ensures tones[0].lowpass == Some(30000) && tones[0].startMs == 0 && tones[0].stopMs == 500
    ensures tones[0].peakGain == 300
  {
    [Tone(12000, 8000, 500, Some(30000), 0, 500, 300, 500)]
  }

  /** Card deal: 150 Hz for 150 ms, gain 0.2 decaying to 0.01 at the stop. */
  function DealCue(): (tones: seq<Tone>)
    ensures |tones| == 1 && Enveloped(tones[0]) && tones[0].lowpass == None
    ensures tones[0].freq == 15000 && tones[0].startMs == 0 && tones[0].stopMs == 150
    ensures tones[0].peakGain == 200
  {
    [Blip(15000, 0, 150, 200)]
  }

  /** Card flip: 200 Hz for 100 ms, gain 0.3. */
  function FlipCue(): (tones: seq<Tone>)
    ensures |tones| == 1 && Enveloped(tones[0]) && tones[0].lowpass == None
    ensures tones[0].freq == 20000 && tones[0].startMs == 0 && tones[0].stopMs == 100
    ensures tones[0].peakGain == 300
  {
    [Blip(20000, 0, 100, 300)]
  }

  /** Chip: 1200 Hz for 80 ms, gain 0.2. */
  function ChipCue(): (tones: seq<Tone>)
    ensures |tones| == 1 && Enveloped(tones[0]) && tones[0].lowpass == None
    ensures tones[0].freq == 120000 && tones[0].startMs == 0 && tones[0].stopMs == 80
    ensures tones[0].peakGain == 200
  {
    [Blip(120000, 0, 80, 200)]
  }

  /** Win: C5, E5, G5 rising, started 100 ms apart, each ringing 500 ms at gain 0.3; the notes
      overlap (each starts before the previous stops) and the last one ends at 700 ms. */
  function WinCue(): (tones: seq<Tone>)
    ensures |tones| == 3
    ensures forall i :: 0 <= i < 3 ==>
      Enveloped(tones[i]) && tones[i].startMs == 100 * i && tones[i].stopMs == tones[i].startMs + 500 &&
      tones[i].peakGain == 300
    ensures tones[0].freq == 52325 && tones[1].freq == 65925 && tones[2].freq == 78399
    ensures forall i :: 0 < i < 3 ==> tones[i - 1].freq < tones[i].freq && tones[i].startMs < tones[i - 1].stopMs
    ensures tones[2].stopMs == 700
  {
    Arpeggio([52325, 65925, 78399], 100, 500, 300)
  }

  /** Lose: G4, F4, D4 falling, started 150 ms apart, each ringing 400 ms at gain 0.25; the
      last one ends at 700 ms. */
  function LoseCue(): (tones: seq<Tone>)
    ensures |tones| == 3
    ensures forall i :: 0 <= i < 3 ==>
      Enveloped(tones[i]) && tones[i].startMs == 150 * i && tones[i].stopMs == tones[i].startMs + 400 &&
      tones[i].peakGain == 250
    ensures tones[0].freq == 39200 && tones[1].freq == 34923 && tones[2].freq == 29366
    ensures forall i :: 0 < i < 3 ==> tones[i - 1].freq > tones[i].freq && tones[i].startMs < tones[i - 1].stopMs
    ensures tones[2].stopMs == 700
  {
    Arpeggio([39200, 34923, 29366], 150, 400, 250)
  }

  datatype Cue = Bubbling | Deal | Flip | Chip | Win | Lose

  /** The tones a cue starts. Calls never share state: two calls of the same cue layer two
      independent copies of this schedule. */
  function Tones(c: Cue): (tones: seq<Tone>)
    ensures 1 <= |tones| <= 3
    ensures forall i :: 0 <= i < |tones| ==> Enveloped(tones[i]) && tones[i].stopMs <= 700
  {
    match c
    case Bubbling => BubblingCue()
    case Deal => DealCue()
    case Flip => FlipCue()
    case Chip => ChipCue()
    case Win => WinCue()
    case Lose => LoseCue()
  }

  /** The state the radio controls read and write: whether the radio is on and which song is
      selected. */
  datatype RadioState = RadioState(playing: bool, index: nat)

  /** `playRadio`: with an empty playlist nothing changes; otherwise the radio is on. */
  function PlayState(s: RadioState, songs: nat): (r: RadioState)
    ensures r.index == s.index
    ensures r.playing <==> songs > 0 || s.playing
  {
    if songs == 0 then s else s.(playing := true)
  }

  /** `stopRadio`: the radio is off, whatever it was. */
  function StopState(s: RadioState): (r: RadioState)
    ensures !r.playing && r.index == s.index
  {
    s.(playing := false)
  }

  /** `toggleRadio`: with a non-empty playlist it flips the radio on or off. */
  function ToggleState(s: RadioState, songs: nat): (r: RadioState)
    ensures r.index == s.index
    ensures songs > 0 ==> r.playing == !s.playing
    ensures songs == 0 ==> !r.playing
  {
    if s.playing then StopState(s) else PlayState(s, songs)
  }

  /** With songs to play, toggling twice restores the radio; with none it ends off. */
  lemma ToggleTwice(s: RadioState, songs: nat)
    ensures songs > 0 ==> ToggleState(ToggleState(s, songs), songs) == s
    ensures songs == 0 ==> ToggleState(ToggleState(s, songs), songs) == s.(playing := false)
  {
  }

  /** `nextSong`, run when a song ends: the next song, wrapping around, and the radio on. */
  function NextState(s: RadioState, songs: nat): (r: RadioState)
    requires songs > 0
    ensures r.playing && r.index < songs
    ensures r.index == (s.index + 1) % songs
  {
    PlayState(s.(index := (s.index + 1) % songs), songs)
  }

  function NextStates(s: RadioState, songs: nat, k: nat): RadioState
    requires songs > 0
  {
    if k == 0 then s else NextState(NextStates(s, songs, k - 1), songs)
  }

  /** k song endings advance the index by k modulo the playlist length, keeping the radio on;
      after as many endings as there are songs the playlist is back at its starting song. */
  lemma {:induction false} NextStatesAdvance(s: RadioState, songs: nat, k: nat)
    requires songs > 0 && s.index < songs
    ensures NextStates(s, songs, k).index == (s.index + k) % songs
    ensures k > 0 ==> NextStates(s, songs, k).playing
    ensures k == songs ==> NextStates(s, songs, k).index == s.index
  {
    NextStatesIndex(s, songs, k);
    if k == songs {
      ModUnique(s.index + k, songs, 1, s.index);
    }
  }

  lemma {:induction false} NextStatesIndex(s: RadioState, songs: nat, k: nat)
    requires songs > 0 && s.index < songs
    ensures NextStates(s, songs, k).index == (s.index + k) % songs
    ensures k > 0 ==> NextStates(s, songs, k).playing
  {
    if k == 0 {
      ModUnique(s.index, songs, 0, s.index);
    } else {
      var prev := NextStates(s, songs, k - 1);
      NextStatesIndex(s, songs, k - 1);
      assert NextStates(s, songs, k).index == (prev.index + 1) % songs;
      ModSuccessor(s.index + k - 1, songs);
    }
  }

  /** Taking the remainder after each increment is the same as taking it once. */
  lemma ModSuccessor(j: nat, n: nat)
    requires n > 0
    ensures (j % n + 1) % n == (j + 1) % n
  {
    var q, r := j / n, j % n;
    if r + 1 < n {
      ModUnique(r + 1, n, 0, r + 1);
      ModUnique(j + 1, n, q, r + 1);
    } else {
      ModUnique(r + 1, n, 1, 0);
      ModUnique(j + 1, n, q + 1, 0);
    }
  }

  lemma ModUnique(a: int, n: int, q: int, r: int)
    requires n > 0 && 0 <= r < n && a == q * n + r
    ensures a % n == r
  {
    var q', r' := a / n, a % n;
    assert (q - q') * n == r' - r;
    if q > q' {
      MulAtLeast(q - q', n);
    } else if q < q' {
      MulAtLeast(q' - q, n);
    }
  }

  lemma MulAtLeast(d: int, n: int)
    requires d >= 1 && n > 0
    ensures d * n >= n
  {
  }

  /** What the `Audio` element was last asked to do. */
  datatype Request = NoRequest | PlayRequested | PauseRequested

  /** The playlist the manager is built with. */
  const TunisianSongs: seq<string> := ["/assets/audio/song1.mp3", "/assets/audio/song2.mp3", "/assets/audio/song3.mp3"]

  /** Over the three-song playlist, three song endings bring the radio back to the song it
      started on, playing. */
  lemma TunisianPlaylistCycles(s: RadioState)
    requires s.index < |TunisianSongs|
    ensures NextStates(s, |TunisianSongs|, 3) == s.(playing := true)
  {
    NextStatesAdvance(s, |TunisianSongs|, 3);
  }

  class Radio {
    const songs: seq<string>
    var radioPlaying: bool
    var currentSongIndex: nat
    /** The `src` of the radio's `Audio` element. */
    var src: string
    var request: Request

    ghost predicate Valid()
      reads this
    {
      |songs| > 0 ==> currentSongIndex < |songs|
    }

    function State(): RadioState
      reads this
    {
      RadioState(radioPlaying, currentSongIndex)
    }

    /** The manager starts silent on the first song of its playlist (the source always passes
        the three-song list `TunisianSongs`). */
    constructor (playlist: seq<string>)
      ensures Valid() && songs == playlist
      ensures !radioPlaying && currentSongIndex == 0 && src == "" && request == NoRequest
    {
      songs := playlist;
      radioPlaying := false;
      currentSongIndex := 0;
      src := "";
      request := NoRequest;
    }

    method ToggleRadio()
      requires Valid()
      modifies this
      ensures Valid()
      ensures State() == ToggleState(old(State()), |songs|)
      ensures old(radioPlaying) ==> request == PauseRequested && src == old(src)
      ensures !old(radioPlaying) && |songs| == 0 ==> src == old(src) && request == old(request)
      ensures !old(radioPlaying) && |songs| > 0 ==> src == songs[currentSongIndex] && request == PlayRequested
    {
      if radioPlaying {
        StopRadio();
      } else {
        PlayRadio();
      }
    }

    /** Selects the current song and asks the element to play it; the radio counts as on even
        if playback is later refused. An empty playlist changes nothing. */
    method PlayRadio()
      requires Valid()
      modifies this
      ensures Valid()
      ensures State() == PlayState(old(State()), |songs|)
      ensures |songs| == 0 ==> src == old(src) && request == old(request)
      ensures |songs| > 0 ==> src == songs[currentSongIndex] && request == PlayRequested
    {
      if |songs| == 0 {
        return;
      }
      src := songs[currentSongIndex];
      request := PlayRequested;
      radioPlaying := true;
    }

    method StopRadio()
      requires Valid()
      modifies this
      ensures Valid()
      ensures State() == StopState(old(State()))
      ensures src == old(src) && request == PauseRequested
    {
      request := PauseRequested;
      radioPlaying := false;
    }

    /** The element's `ended` event: advance to the next song and play it. Only a song that
        was playing can end, so the playlist is not empty here. */
    method NextSong()
      requires Valid() && |songs| > 0
      modifies this
      ensures Valid()
      ensures State() == NextState(old(State()), |songs|)
      ensures src == songs[currentSongIndex] && request == PlayRequested
    {
      currentSongIndex := (currentSongIndex + 1) % |songs|;
      PlayRadio();
    }
  }
}
