/**
 * The mini-player bar at the bottom of the home screen (AudioPlayerView).
 *
 * The view owns a play/pause button and an optional player for the one
 * bundled track, sample.mp3. The player is created lazily on the first tap
 * that finds the track and manages to build a player from it; after that
 * every tap flips the player between playing and paused and sets the button's
 * icon to match.
 *
 * The file has two layers: an abstract state (ViewState) with a pure
 * transition function Tap, about which the properties are proved, and the
 * classes Player, Button and AudioPlayerView, whose tap method is proved to
 * move the objects exactly as Tap moves the abstract state.
 */
module AudioPlayer {

  /** System image names the button shows. */
  const PlayIcon: string := "play.fill"
  const PauseIcon: string := "pause.fill"

  /** What an attempt to load the bundled track yields: the bundle has no
      sample.mp3, the player cannot be built from the file (`try?` gives nil),
      or a player is built. Bundle lookup and decoding are outside the model,
      so the outcome is an input of the tap. */
  datatype LoadOutcome = ResourceMissing | ConstructionFailed | Loaded

  datatype Option<T> = None | Some(value: T)

  /** The abstract state of the view: the player handle (None is a nil
      handle, Some(b) a loaded player whose isPlaying flag is b) and the
      system name of the image on the play/pause button. */
  datatype ViewState = ViewState(player: Option<bool>, icon: string)

  /** A freshly built view: no player, button shows "play.fill". */
  const Initial: ViewState := ViewState(None, PlayIcon)

  /** The icon is one of the two names, and it is "play.fill" while no player
      has been stored. Every state reachable by taps is consistent
      (TapsConsistent). The icon
      can still disagree with a loaded player's flag: the track may end on
      its own, which stops the player without touching the icon. */
  predicate Consistent(s: ViewState)
  {
    (s.icon == PlayIcon || s.icon == PauseIcon) &&
    (s.player.None? ==> s.icon == PlayIcon)
  }

  /** One tap on the play/pause button. A load is attempted only while the
      handle is nil; a missing resource returns at once, a failed
      construction leaves the handle nil (so the next tap tries again), and a
      new player starts out not playing. With a player present, a playing one
      is paused and the icon set to "play.fill", otherwise it is played and
      the icon set to "pause.fill". */
  function Tap(s: ViewState, load: LoadOutcome): (t: ViewState)
    // the handle is non-nil afterwards exactly when it was, or the load succeeded
    ensures t.player.Some? <==> s.player.Some? || load == Loaded
    // a tap that ends without a player changes nothing
    ensures t.player.None? ==> t == s
    // right after a tap with a player, the icon shows pause exactly when playing
    ensures t.player.Some? ==> (t.icon == PauseIcon <==> t.player.value)
    ensures Consistent(s) ==> Consistent(t)
  {
    var player := if s.player.None? && load == Loaded then Some(false) else s.player;
    match player
    case None => s
    case Some(playing) =>
      if playing then ViewState(Some(false), PlayIcon) else ViewState(Some(true), PauseIcon)
  }

  /** Once a player is stored, the load outcome plays no part: no load is
      attempted and the player is never replaced. */
  lemma LoadOnlyWhenNil(s: ViewState, a: LoadOutcome, b: LoadOutcome)
    requires s.player.Some?
    ensures Tap(s, a) == Tap(s, b)
    ensures Tap(s, a).player.Some?
  {
  }

  /** A tap that does not find sample.mp3 returns with the handle nil and the
      icon unchanged. */
  lemma MissingResourceIsNoOp(s: ViewState)
    requires s.player.None?
    ensures Tap(s, ResourceMissing) == s
  {
  }

  /** A failed construction plays nothing and changes nothing, and the next
      tap attempts the load again: if that one succeeds, the track plays. */
  lemma FailedConstructionRetries(s: ViewState)
    requires s.player.None?
    ensures Tap(s, ConstructionFailed) == s
    ensures Tap(Tap(s, ConstructionFailed), Loaded) == ViewState(Some(true), PauseIcon)
  {
  }

  /** A tap on a playing player pauses it and shows "play.fill". */
  lemma TapPausesPlaying(s: ViewState, load: LoadOutcome)
    requires s.player == Some(true)
    ensures Tap(s, load) == ViewState(Some(false), PlayIcon)
  {
  }

  /** A tap on a loaded player that is not playing plays it and shows
      "pause.fill". */
  lemma TapPlaysStopped(s: ViewState, load: LoadOutcome)
    requires s.player == Some(false)
    ensures Tap(s, load) == ViewState(Some(true), PauseIcon)
  {
  }

  /** Two taps with a loaded player restore its playing flag, and leave the
      icon matching it; from a state whose icon already matched the flag, the
      two taps restore the whole state. */
  lemma DoubleTapRestores(s: ViewState, a: LoadOutcome, b: LoadOutcome)
    requires s.player.Some?
    ensures Tap(Tap(s, a), b).player == s.player
    ensures Tap(Tap(s, a), b).icon == (if s.player.value then PauseIcon else PlayIcon)
    ensures (s.icon == PauseIcon <==> s.player.value) && Consistent(s) ==> Tap(Tap(s, a), b) == s
  {
  }

  /** The state after a sequence of taps, the i-th of which sees load
      outcome loads[i] (if it attempts a load at all). */
  function TapAll(s: ViewState, loads: seq<LoadOutcome>): ViewState
    decreases |loads|
  {
    if loads == [] then s else Tap(TapAll(s, loads[..|loads| - 1]), loads[|loads| - 1])
  }

  /** Taps none of whose loads succeeds leave a fresh view as it was. */
  lemma {:induction false} TapsWithoutLoad(loads: seq<LoadOutcome>)
    requires Loaded !in loads
    ensures TapAll(Initial, loads) == Initial
    decreases |loads|
  {
    if loads != [] {
      var prefix := loads[..|loads| - 1];
      assert forall k :: 0 <= k < |prefix| ==> prefix[k] == loads[k];
      TapsWithoutLoad(prefix);
    }
  }

  /** From a fresh view, if the first successful load happens at tap i, then
      after all the taps the player is playing exactly when the number of
      taps from i on is odd, and the icon agrees with it. */
  lemma {:induction false} TapsAfterFirstLoad(loads: seq<LoadOutcome>, i: nat)
    requires i < |loads| && loads[i] == Loaded && Loaded !in loads[..i]
    ensures TapAll(Initial, loads).player == Some((|loads| - i) % 2 == 1)
    ensures TapAll(Initial, loads).icon == (if (|loads| - i) % 2 == 1 then PauseIcon else PlayIcon)
    decreases |loads|
  {
    var prefix := loads[..|loads| - 1];
    if |loads| == i + 1 {
      assert prefix == loads[..i];
      TapsWithoutLoad(prefix);
    } else {
      assert prefix[..i] == loads[..i];
      TapsAfterFirstLoad(prefix, i);
    }
  }

  /** Every state reachable from a fresh view by taps is consistent. */
  lemma {:induction false} TapsConsistent(loads: seq<LoadOutcome>)
    ensures Consistent(TapAll(Initial, loads))
    decreases |loads|
  {
    if loads != [] {
      TapsConsistent(loads[..|loads| - 1]);
    }
  }

  /** N taps from a fresh view whose first load succeeds: the player is
      playing after an odd number of taps and paused after an even one. */
  lemma TapsWithValidAsset(loads: seq<LoadOutcome>)
    requires |loads| > 0 && loads[0] == Loaded
    ensures TapAll(Initial, loads).player == Some(|loads| % 2 == 1)
  {
    assert loads[..0] == [];
    TapsAfterFirstLoad(loads, 0);
  }

  /** The player object: AVAudioPlayer reduced to its isPlaying flag. */
  class Player {
    var isPlaying: bool

    /** A player built from a file is not playing yet. */
    constructor ()
      ensures !isPlaying
    {
      isPlaying := false;
    }

    method Play()
      modifies this
      ensures isPlaying
    {
      isPlaying := true;
    }

    method Pause()
      modifies this
      ensures !isPlaying
    {
      isPlaying := false;
    }
  }

  /** A button reduced to the system name of the image it shows. */
  class Button {
    var imageName: string

    constructor (imageName: string)
      ensures this.imageName == imageName
    {
      this.imageName := imageName;
    }

    method SetImage(name: string)
      modifies this
      ensures imageName == name
    {
      imageName := name;
    }
  }

  class AudioPlayerView {
    const playPauseButton: Button
    var audioPlayer: Player?

    /** The abstract state the objects stand for. */
    function State(): ViewState
      reads this, playPauseButton, audioPlayer
    {
      ViewState(if audioPlayer == null then None else Some(audioPlayer.isPlaying),
                playPauseButton.imageName)
    }

    /** A new view has no player and shows "play.fill". */
    constructor ()
      ensures State() == Initial
      ensures fresh(playPauseButton)
    {
      playPauseButton := new Button(PlayIcon);
      audioPlayer := null;
    }

    /** The button's action. The state moves as Tap says; a stored player is
        kept (the same object), and a player stored by this tap is new. */
    method PlayPauseTapped(load: LoadOutcome)
      modifies this, playPauseButton, audioPlayer
      ensures State() == Tap(old(State()), load)
      ensures old(audioPlayer) != null ==> audioPlayer == old(audioPlayer)
      ensures old(audioPlayer) == null && audioPlayer != null ==> fresh(audioPlayer)
    {
      if audioPlayer == null {
        if load == ResourceMissing {
          return;
        }
        if load == Loaded {
          audioPlayer := new Player();
        } else {
          audioPlayer := null;
        }
      }

      if audioPlayer != null {
        if audioPlayer.isPlaying {
          audioPlayer.Pause();
          playPauseButton.SetImage(PlayIcon);
        } else {
          audioPlayer.Play();
          playPauseButton.SetImage(PauseIcon);
        }
      }
    }
  }

  /** A fresh view with a valid asset: three taps give playing, paused,
      playing, with the icon following. */
  method ValidAssetScenario() returns (view: AudioPlayerView)
    ensures view.audioPlayer != null && view.audioPlayer.isPlaying
    ensures view.playPauseButton.imageName == PauseIcon
  {
    view := new AudioPlayerView();
    view.PlayPauseTapped(Loaded);
    assert view.State() == ViewState(Some(true), PauseIcon);
    view.PlayPauseTapped(Loaded);
    assert view.State() == ViewState(Some(false), PlayIcon);
    view.PlayPauseTapped(Loaded);
  }

  /** A fresh view whose bundle lacks the track: a tap creates no player and
      leaves the icon at "play.fill". */
  method MissingAssetScenario() returns (view: AudioPlayerView)
    ensures view.audioPlayer == null
    ensures view.playPauseButton.imageName == PlayIcon
  {
    view := new AudioPlayerView();
    view.PlayPauseTapped(ResourceMissing);
  }
}
