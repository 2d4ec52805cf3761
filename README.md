# SpotifyUI home screen: verified model of its behaviour

SpotifyUI is a single static music-app home screen for iOS. Almost all of it
is layout. Two parts carry behaviour, and this project models both in Dafny:

- **The mini-player's play/pause button** (`AudioPlayerView`,
  module `AudioPlayer`, file `audio_player.dfy`). The view holds an optional
  player for the bundled track `sample.mp3` and a button whose image is
  `"play.fill"` or `"pause.fill"`. A tap loads the player if the handle is
  still nil. A missing resource or a failed construction leaves the handle
  nil, so the next tap tries again. With a player present, the tap pauses a
  playing player (icon `"play.fill"`) or plays a stopped one (icon
  `"pause.fill"`). The classes `Player` (a player reduced to its `isPlaying`
  flag), `Button` and `AudioPlayerView` mirror the objects the source
  mutates. Their tap method is proved to move the objects exactly as the pure
  transition `Tap` moves the abstract `ViewState`. The properties are proved
  about `Tap` and about `TapAll`, which runs a sequence of taps.
- **The content builders of `ViewController`** (module `ViewController`,
  file `view_controller.dfy`). A stack view is an object holding the
  sequence of its arranged subviews. Chips, grid tiles and carousel cards are
  records of the data they carry. The grid's row stack views are separate,
  fresh objects: the source adds a row to the vertical stack view first and
  only then fills it through `currentRowStackView`, and the model keeps that
  aliasing. The row contents are specified by `Rows`, a recursive chunking
  into pairs, and lemmas prove its shape, its order preservation and where
  each tile lands.

The data arrays that the source hard-codes are parameters of the builder
methods. The source's literals are the constants `ButtonTitles`,
`GridButtonData`, `StyleCardData` and `ArtistData`.

The abstract load outcome (`LoadOutcome`: `ResourceMissing`,
`ConstructionFailed`, `Loaded`) stands for the bundle lookup and the
`try? AVAudioPlayer(contentsOf:)` call. It is an input of each tap.

The code keeps no separate Stopped and Paused states, only a nil handle or a
loaded player with an `isPlaying` flag. It retries the load on every tap
while the handle is nil (Audioplayer.swift:111-114).

## Model

| member | source | states |
|---|---|---|
| `AudioPlayer.Tap` | SpotifyUI-1/Audioplayer.swift:110-125 | After a tap the handle is non-nil exactly when it was before or the load succeeded. A tap that ends without a player changes nothing. Right after a tap with a player, the icon is "pause.fill" exactly when the player is playing. Consistency (icon is one of the two names, and "play.fill" while nil) is preserved. |
| `AudioPlayer.LoadOnlyWhenNil` | SpotifyUI-1/Audioplayer.swift:111-114 | Once a player is stored, the load outcome has no effect on the tap and the player stays stored. |
| `AudioPlayer.MissingResourceIsNoOp` | SpotifyUI-1/Audioplayer.swift:112 | With a nil handle and no sample.mp3, the tap leaves handle and icon as they were. |
| `AudioPlayer.FailedConstructionRetries` | SpotifyUI-1/Audioplayer.swift:111-116 | A failed construction changes nothing, and the next tap tries the load again; if it succeeds the track plays with icon "pause.fill". |
| `AudioPlayer.TapPausesPlaying` | SpotifyUI-1/Audioplayer.swift:117-119 | A playing player is paused and the icon set to "play.fill". |
| `AudioPlayer.TapPlaysStopped` | SpotifyUI-1/Audioplayer.swift:120-122 | A loaded player that is not playing is played and the icon set to "pause.fill". |
| `AudioPlayer.DoubleTapRestores` | SpotifyUI-1/Audioplayer.swift:117-122 | Two taps with a loaded player restore its playing flag and leave the icon matching it; when the icon already matched, the whole state is restored. |
| `AudioPlayer.TapsWithoutLoad` | SpotifyUI-1/Audioplayer.swift:110-116 | From a fresh view, taps none of whose loads succeeds leave the view exactly as built. |
| `AudioPlayer.TapsAfterFirstLoad` | SpotifyUI-1/Audioplayer.swift:110-125 | From a fresh view, if the first successful load is at tap i, the player is playing after n taps exactly when n - i is odd, and the icon agrees. |
| `AudioPlayer.TapsWithValidAsset` | SpotifyUI-1/Audioplayer.swift:110-125 | From a fresh view whose first load succeeds, n taps leave the player playing exactly when n is odd. |
| `AudioPlayer.TapsConsistent` | SpotifyUI-1/Audioplayer.swift:35-125 | Every state reachable from a fresh view by taps is consistent: the icon is "play.fill" or "pause.fill", and "play.fill" while the handle is nil. |
| `AudioPlayer.Player.constructor` | SpotifyUI-1/Audioplayer.swift:113 | A newly built player is not playing, so the first successful tap plays it. |
| `AudioPlayer.Player.Play` | SpotifyUI-1/Audioplayer.swift:121 | The player is playing afterwards. |
| `AudioPlayer.Player.Pause` | SpotifyUI-1/Audioplayer.swift:118 | The player is not playing afterwards. |
| `AudioPlayer.Button.SetImage` | SpotifyUI-1/Audioplayer.swift:119-122 | The button shows the given system image name afterwards. |
| `AudioPlayer.AudioPlayerView.constructor` | SpotifyUI-1/Audioplayer.swift:35-54 | A new view has a nil player handle and its button shows "play.fill". |
| `AudioPlayer.AudioPlayerView.PlayPauseTapped` | SpotifyUI-1/Audioplayer.swift:110-125 | The objects' new state is Tap of their old state; a stored player is kept as the same object, and a player stored by this tap is newly created. |
| `AudioPlayer.ValidAssetScenario` | SpotifyUI-1/Audioplayer.swift:110-125 | Three taps on a fresh view with a valid asset end with the player playing and the icon "pause.fill". |
| `AudioPlayer.MissingAssetScenario` | SpotifyUI-1/Audioplayer.swift:112 | A tap on a fresh view without the asset creates no player and leaves the icon "play.fill". |
| `ViewController.RowsShape` | SpotifyUI-1/ViewController.swift:132-141 | n tiles give (n + 1) / 2 rows; every row holds one or two tiles, and every row but the last holds two. |
| `ViewController.RowsFlatten` | SpotifyUI-1/ViewController.swift:134-141 | The rows read in order give back the tiles in their original order, none dropped or repeated. |
| `ViewController.RowsAt` | SpotifyUI-1/ViewController.swift:134-140 | Tile i lands in row i / 2 at position i % 2, so a row opens exactly at each even index. |
| `ViewController.RowsSnoc` | SpotifyUI-1/ViewController.swift:135-140 | One more tile opens a new row after an even count and joins the last row after an odd count. |
| `ViewController.RowsOpenThenFill` | SpotifyUI-1/ViewController.swift:135-140 | Opening an empty row at an even count and then appending the tile to the last row gives the rows of the longer tile list. |
| `ViewController.SampleGrid` | SpotifyUI-1/ViewController.swift:125-130 | The four sample tiles form two rows of two, in data order. |
| `ViewController.ViewController.constructor` | SpotifyUI-1/ViewController.swift:12-216 | The controller's stack views are new and empty. |
| `ViewController.ViewController.AddHorizontalButtons` | SpotifyUI-1/ViewController.swift:73-98 | Exactly one chip per title is appended, in title order, after the existing subviews; the chip at index 0 is highlighted and every other chip keeps the default style. |
| `ViewController.ViewController.AddGridButtons` | SpotifyUI-1/ViewController.swift:124-185 | The existing rows stay; the rows appended are new, pairwise distinct stack views, as many as Rows of the tiles, each holding the matching row of Rows of the tiles. |
| `ViewController.ViewController.AddHorizontalButtonsWithText` | SpotifyUI-1/ViewController.swift:247-264 | Exactly one card per data triple is appended, in data order, with that triple's image name, title and description; the existing subviews stay. |
| `ViewController.ViewController.AddHorizontalButtonsToSecondSection` | SpotifyUI-1/ViewController.swift:389-401 | Exactly one card per artist triple is appended to the given stack view, in data order, with that triple's image name, title and description; the existing subviews stay. |
| `ViewController.SampleScreen` | SpotifyUI-1/ViewController.swift:35-48 | Built from the sample data, the screen has seven chips with only "K" highlighted, two grid rows of two tiles ending with "Workout", five style cards ending with "Party" and four artist cards starting with "Taylor Swift". |

## Left out

- Layout: Auto Layout constraints, scroll views, fonts, colours other than the chip highlight flag, corner radii and shadows. They carry no logic.
- Image lookup (`UIImage(named:)` / `UIImage(systemName:)`): images are represented by their names only.
- AudioPlayer.Player.Play: a failed `play()` is not modelled. `AVAudioPlayer.play()` returns false when playback cannot start, and the source ignores that result and shows "pause.fill" anyway. The model assumes `play()` always starts playback, so the icon agreement in `Tap` and the parity facts of `TapsAfterFirstLoad` and `TapsWithValidAsset` hold under that assumption.
- Player internals: decoding, audio output, and the track ending on its own. A track that ends stops the player without changing the icon, so icon and flag are claimed to agree only right after a tap.
- Bundle lookup and player construction: replaced by the `LoadOutcome` input of each tap.
- The progress slider, which holds a fixed value and is not connected to playback.
- `init?(coder:)`, which only stops the program.
- The target-action wiring of the button and the UI event loop: a tap is a method call.
- The computed properties `secondHorizontalScrollView` and `secondHorizontalStackView`, which only construct views.
- `viewDidLoad` is modelled only as `SampleScreen`, which runs the four builders on the sample data; the scroll-view setup methods and labels around them are layout.
- The two identical `createButtonWithImageAndText` functions of the source are modelled as one function.
- Chips are records, so the highlight is set on a copy before it is appended; the source mutates the new button object before appending it, with the same result.
