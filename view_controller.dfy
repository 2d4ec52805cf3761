/**
 * The home screen's content builders (ViewController).
 *
 * Four loops fill stack views: the filter chips (one per title, only the
 * first highlighted), the grid of playlist tiles (two per row, each row a
 * horizontal stack view inside the vertical one), and the two carousels of
 * image/title/description cards. A stack view is modelled as an object
 * holding the sequence of its arranged subviews; buttons and cards are
 * records of the data they carry. Layout, fonts, colours other than the
 * chip highlight, and image lookup are not modelled.
 */
module ViewController {

  /** A UIStackView reduced to the sequence of its arranged subviews. */
  class StackView<T> {
    var arrangedSubviews: seq<T>

    constructor ()
      ensures arrangedSubviews == []
    {
      arrangedSubviews := [];
    }

    method AddArrangedSubview(view: T)
      modifies this
      ensures arrangedSubviews == old(arrangedSubviews) + [view]
    {
      arrangedSubviews := arrangedSubviews + [view];
    }
  }

  /** A filter chip: its title, and whether it carries the highlighted
      style (green background) rather than the default dark-gray one. */
  datatype Chip = Chip(title: string, highlighted: bool)

  /** A playlist tile of the grid. */
  datatype GridButton = GridButton(title: string, imageName: string)

  /** A carousel card: image name, title and description. */
  datatype Card = Card(imageName: string, title: string, description: string)

  /** The data the screen is built from. */
  const ButtonTitles: seq<string> :=
    ["K", "All", "Music", "Podcasts", "Audiobooks", "Stories", "Ebooks"]

  const GridButtonData: seq<(string, string)> := [
    ("Trending Now", "trendingnow (1)"),
    ("Top Hits", "chillsongs"),
    ("Chill Vibes", "chillvibes"),
    ("Workout", "workout")
  ]

  const StyleCardData: seq<(string, string, string)> := [
    ("traditional (1)", "Traditional", "Classic and timeless styles"),
    ("modern", "Modern", "Contemporary and chic designs"),
    ("intage", "Vintage", "Elegant and nostalgic appeal"),
    ("Gym", "Gym", "Comfortable and casual wear"),
    ("sporty", "Party", "party wear")
  ]

  const ArtistData: seq<(string, string, string)> := [
    ("taylor", "Taylor Swift", "Pop sensation and icon"),
    ("ed", "Ed Sheeran", "Singer-songwriter extraordinaire"),
    ("adele", "Adele", "Soulful and powerful ballads"),
    ("drake", "Drake", "Hip-hop and R&B maestro")
  ]

  /** A chip in the default style. */
  function CreateHorizontalButton(title: string): Chip
  {
    Chip(title, false)
  }

  function CreateGridButton(title: string, imageName: string): GridButton
  {
    GridButton(title, imageName)
  }

  function CreateButtonWithImageAndText(imageName: string, title: string, description: string): Card
  {
    Card(imageName, title, description)
  }

  /** The tiles the grid data stands for, in data order. */
  function GridButtons(data: seq<(string, string)>): (tiles: seq<GridButton>)
  {
    seq(|data|, i requires 0 <= i < |data| => CreateGridButton(data[i].0, data[i].1))
  }

  /** The tiles cut into rows of two, front to back; the last row holds one
      tile when their number is odd. */
  function Rows<T>(tiles: seq<T>): seq<seq<T>>
    decreases |tiles|
  {
    if |tiles| <= 2 then
      (if tiles == [] then [] else [tiles])
    else
      [tiles[..2]] + Rows(tiles[2..])
  }

  /** There are ceil(n / 2) rows for n tiles; every row holds one or two
      tiles, and every row but the last holds two. */
  lemma {:induction false} RowsShape<T>(tiles: seq<T>)
    ensures |Rows(tiles)| == (|tiles| + 1) / 2
    ensures forall k :: 0 <= k < |Rows(tiles)| ==> 1 <= |Rows(tiles)[k]| <= 2
    ensures forall k :: 0 <= k < |Rows(tiles)| - 1 ==> |Rows(tiles)[k]| == 2
    decreases |tiles|
  {
    if |tiles| > 2 {
      RowsShape(tiles[2..]);
      var rest := Rows(tiles[2..]);
      assert Rows(tiles) == [tiles[..2]] + rest;
      assert forall k :: 1 <= k < |Rows(tiles)| ==> Rows(tiles)[k] == rest[k - 1];
    }
  }

  function Flatten<T>(rows: seq<seq<T>>): seq<T>
    decreases |rows|
  {
    if rows == [] then [] else rows[0] + Flatten(rows[1..])
  }

  /** Reading the rows in order gives back the tiles in their order: none
      dropped, none repeated. */
  lemma {:induction false} RowsFlatten<T>(tiles: seq<T>)
    ensures Flatten(Rows(tiles)) == tiles
    decreases |tiles|
  {
    if |tiles| > 2 {
      var rest := Rows(tiles[2..]);
      assert ([tiles[..2]] + rest)[1..] == rest;
      RowsFlatten(tiles[2..]);
      assert tiles[..2] + tiles[2..] == tiles;
    } else if tiles != [] {
      assert [tiles][1..] == [];
    }
  }

  /** Tile i sits in row i / 2 at position i % 2: a row begins at every even
      index. */
  lemma {:induction false} RowsAt<T>(tiles: seq<T>, i: nat)
    requires i < |tiles|
    ensures i / 2 < |Rows(tiles)| && i % 2 < |Rows(tiles)[i / 2]|
    ensures Rows(tiles)[i / 2][i % 2] == tiles[i]
    decreases |tiles|
  {
    if |tiles| > 2 && i >= 2 {
      RowsAt(tiles[2..], i - 2);
      assert (i - 2) / 2 == i / 2 - 1 && (i - 2) % 2 == i % 2;
    }
  }

  /** One more tile opens a new row when the count so far is even, and
      joins the last row when it is odd. */
  lemma {:induction false} RowsSnoc<T>(tiles: seq<T>, x: T)
    ensures |tiles| % 2 == 0 ==> Rows(tiles + [x]) == Rows(tiles) + [[x]]
    ensures |tiles| % 2 == 1 ==>
      Rows(tiles + [x]) == Rows(tiles)[..|Rows(tiles)| - 1] + [Rows(tiles)[|Rows(tiles)| - 1] + [x]]
    decreases |tiles|
  {
    var longer := tiles + [x];
    if tiles == [] {
      assert longer == [x];
    } else if |tiles| == 2 {
      assert longer[..2] == tiles && longer[2..] == [x];
    } else if |tiles| > 2 {
      assert longer[..2] == tiles[..2];
      assert longer[2..] == tiles[2..] + [x];
      var rest := Rows(tiles[2..]);
      assert Rows(tiles) == [tiles[..2]] + rest;
      assert Rows(longer) == [tiles[..2]] + Rows(tiles[2..] + [x]);
      RowsSnoc(tiles[2..], x);
      if |tiles| % 2 == 0 {
        assert |tiles[2..]| % 2 == 0;
        assert Rows(tiles[2..] + [x]) == rest + [[x]];
        assert [tiles[..2]] + (rest + [[x]]) == ([tiles[..2]] + rest) + [[x]];
      } else {
        assert |rest| >= 1;
        assert Rows(tiles)[..|Rows(tiles)| - 1] == [tiles[..2]] + rest[..|rest| - 1];
        assert Rows(tiles)[|Rows(tiles)| - 1] == rest[|rest| - 1];
      }
    }
  }

  /** The loop's step: with a new empty row opened at an even count, the
      next tile goes at the end of the last row. */
  lemma RowsOpenThenFill<T>(tiles: seq<T>, x: T, grown: seq<seq<T>>)
    requires grown == if |tiles| % 2 == 0 then Rows(tiles) + [[]] else Rows(tiles)
    ensures |grown| > 0
    ensures Rows(tiles + [x]) == grown[..|grown| - 1] + [grown[|grown| - 1] + [x]]
  {
    RowsSnoc(tiles, x);
    if |tiles| % 2 == 0 {
      assert grown[..|grown| - 1] == Rows(tiles);
      assert grown[|grown| - 1] + [x] == [x];
    }
  }

  /** The sample grid: two rows of two. */
  lemma SampleGrid()
    ensures Rows(GridButtons(GridButtonData)) == [
      [GridButton("Trending Now", "trendingnow (1)"), GridButton("Top Hits", "chillsongs")],
      [GridButton("Chill Vibes", "chillvibes"), GridButton("Workout", "workout")]
    ]
  {
    var tiles := GridButtons(GridButtonData);
    assert tiles[..2] == [GridButton("Trending Now", "trendingnow (1)"), GridButton("Top Hits", "chillsongs")];
    assert tiles[2..] == [GridButton("Chill Vibes", "chillvibes"), GridButton("Workout", "workout")];
  }

  class ViewController {
    const buttonStackView: StackView<Chip>
    const verticalStackView: StackView<StackView<GridButton>>
    const horizontalStackView: StackView<Card>

    constructor ()
      ensures fresh(buttonStackView) && fresh(verticalStackView) && fresh(horizontalStackView)
      ensures buttonStackView.arrangedSubviews == []
      ensures verticalStackView.arrangedSubviews == []
      ensures horizontalStackView.arrangedSubviews == []
    {
      buttonStackView := new StackView();
      verticalStackView := new StackView();
      horizontalStackView := new StackView();
    }

    /** Appends one chip per title, in title order; the chip at index 0 is
        highlighted and every other one keeps the default style. */
    method AddHorizontalButtons(buttonTitles: seq<string>)
      modifies buttonStackView
      ensures |buttonStackView.arrangedSubviews| == |old(buttonStackView.arrangedSubviews)| + |buttonTitles|
      ensures buttonStackView.arrangedSubviews[..|old(buttonStackView.arrangedSubviews)|]
           == old(buttonStackView.arrangedSubviews)
      ensures forall i :: 0 <= i < |buttonTitles| ==>
        buttonStackView.arrangedSubviews[|old(buttonStackView.arrangedSubviews)| + i]
          == Chip(buttonTitles[i], i == 0)
    {
      ghost var start := |buttonStackView.arrangedSubviews|;
      for index := 0 to |buttonTitles|
        invariant |buttonStackView.arrangedSubviews| == start + index
        invariant buttonStackView.arrangedSubviews[..start] == old(buttonStackView.arrangedSubviews)
        invariant forall i :: 0 <= i < index ==>
          buttonStackView.arrangedSubviews[start + i] == Chip(buttonTitles[i], i == 0)
      {
        var button := CreateHorizontalButton(buttonTitles[index]);
        if index == 0 {
          button := button.(highlighted := true);
        }
        buttonStackView.AddArrangedSubview(button);
      }
    }

    /** Appends the tiles to the vertical stack view in rows of two: at every
        even index a new, empty row stack view is added, and each tile goes
        into the current (last added) row. The rows added are new objects
        and hold exactly Rows of the tiles; the rows already there stay. */
    method AddGridButtons(buttonData: seq<(string, string)>)
      modifies verticalStackView
      ensures |verticalStackView.arrangedSubviews|
           == |old(verticalStackView.arrangedSubviews)| + |Rows(GridButtons(buttonData))|
      ensures verticalStackView.arrangedSubviews[..|old(verticalStackView.arrangedSubviews)|]
           == old(verticalStackView.arrangedSubviews)
      ensures forall k :: |old(verticalStackView.arrangedSubviews)| <= k < |verticalStackView.arrangedSubviews| ==>
        fresh(verticalStackView.arrangedSubviews[k]) &&
        verticalStackView.arrangedSubviews[k].arrangedSubviews
          == Rows(GridButtons(buttonData))[k - |old(verticalStackView.arrangedSubviews)|]
      ensures forall j, k :: |old(verticalStackView.arrangedSubviews)| <= j < k < |verticalStackView.arrangedSubviews| ==>
        verticalStackView.arrangedSubviews[j] != verticalStackView.arrangedSubviews[k]
    {
      ghost var tiles := GridButtons(buttonData);
      ghost var rows: seq<StackView<GridButton>> := [];
      ghost var contents: seq<seq<GridButton>> := [];
      var currentRowStackView: StackView?<GridButton> := null;
      for index := 0 to |buttonData|
        invariant verticalStackView.arrangedSubviews == old(verticalStackView.arrangedSubviews) + rows
        invariant contents == Rows(tiles[..index]) && |rows| == |contents|
        invariant forall k :: 0 <= k < |rows| ==> fresh(rows[k]) && rows[k].arrangedSubviews == contents[k]
        invariant forall j, k :: 0 <= j < k < |rows| ==> rows[j] != rows[k]
        invariant index > 0 ==>
          0 < |rows| && currentRowStackView == rows[|rows| - 1] &&
          forall k :: 0 <= k < |rows| - 1 ==> rows[k] != currentRowStackView
      {
        if index % 2 == 0 {
          currentRowStackView := new StackView();
          verticalStackView.AddArrangedSubview(currentRowStackView);
          rows, contents := rows + [currentRowStackView], contents + [[]];
        }
        var button := CreateGridButton(buttonData[index].0, buttonData[index].1);
        if currentRowStackView != null {
          currentRowStackView.AddArrangedSubview(button);
        }
        assert tiles[..index + 1] == tiles[..index] + [button];
        RowsOpenThenFill(tiles[..index], button, contents);
        contents := contents[..|contents| - 1] + [contents[|contents| - 1] + [button]];
      }
      assert tiles[..|buttonData|] == tiles;
      assert contents == Rows(tiles);
      ghost var start := |old(verticalStackView.arrangedSubviews)|;
      forall k | start <= k < |verticalStackView.arrangedSubviews|
        ensures verticalStackView.arrangedSubviews[k] == rows[k - start]
        ensures verticalStackView.arrangedSubviews[k].arrangedSubviews == Rows(tiles)[k - start]
      {
      }
    }

    /** The first carousel: one card per data triple, in data order, carrying
        that triple's image name, title and description. */
    method AddHorizontalButtonsWithText(buttonData: seq<(string, string, string)>)
      modifies horizontalStackView
      ensures |horizontalStackView.arrangedSubviews| == |old(horizontalStackView.arrangedSubviews)| + |buttonData|
      ensures horizontalStackView.arrangedSubviews[..|old(horizontalStackView.arrangedSubviews)|]
           == old(horizontalStackView.arrangedSubviews)
      ensures forall i :: 0 <= i < |buttonData| ==>
        horizontalStackView.arrangedSubviews[|old(horizontalStackView.arrangedSubviews)| + i]
          == Card(buttonData[i].0, buttonData[i].1, buttonData[i].2)
    {
      ghost var start := |horizontalStackView.arrangedSubviews|;
      for index := 0 to |buttonData|
        invariant |horizontalStackView.arrangedSubviews| == start + index
        invariant horizontalStackView.arrangedSubviews[..start] == old(horizontalStackView.arrangedSubviews)
        invariant forall i :: 0 <= i < index ==>
          horizontalStackView.arrangedSubviews[start + i]
            == Card(buttonData[i].0, buttonData[i].1, buttonData[i].2)
      {
        var data := buttonData[index];
        var buttonView := CreateButtonWithImageAndText(data.0, data.1, data.2);
        horizontalStackView.AddArrangedSubview(buttonView);
      }
    }

    /** The second carousel ("Artists You Like"), filled into the stack view
        it is given: one card per data triple, in data order. */
    method AddHorizontalButtonsToSecondSection(stackView: StackView<Card>, artistData: seq<(string, string, string)>)
      modifies stackView
      ensures |stackView.arrangedSubviews| == |old(stackView.arrangedSubviews)| + |artistData|
      ensures stackView.arrangedSubviews[..|old(stackView.arrangedSubviews)|] == old(stackView.arrangedSubviews)
      ensures forall i :: 0 <= i < |artistData| ==>
        stackView.arrangedSubviews[|old(stackView.arrangedSubviews)| + i]
          == Card(artistData[i].0, artistData[i].1, artistData[i].2)
    {
      ghost var start := |stackView.arrangedSubviews|;
      for index := 0 to |artistData|
        invariant |stackView.arrangedSubviews| == start + index
        invariant stackView.arrangedSubviews[..start] == old(stackView.arrangedSubviews)
        invariant forall i :: 0 <= i < index ==>
          stackView.arrangedSubviews[start + i] == Card(artistData[i].0, artistData[i].1, artistData[i].2)
      {
        var data := artistData[index];
        var buttonView := CreateButtonWithImageAndText(data.0, data.1, data.2);
        stackView.AddArrangedSubview(buttonView);
      }
    }
  }

  /** The screen as viewDidLoad fills it from the sample data: seven chips
      with only "K" highlighted, two grid rows of two tiles, five style cards
      and four artist cards (the artists go into a stack view of their own). */
  method SampleScreen() returns (controller: ViewController, artists: StackView<Card>)
    ensures |controller.buttonStackView.arrangedSubviews| == 7
    ensures controller.buttonStackView.arrangedSubviews[0] == Chip("K", true)
    ensures forall i :: 1 <= i < 7 ==> !controller.buttonStackView.arrangedSubviews[i].highlighted
    ensures |controller.verticalStackView.arrangedSubviews| == 2
    ensures forall k :: 0 <= k < 2 ==> |controller.verticalStackView.arrangedSubviews[k].arrangedSubviews| == 2
    ensures controller.verticalStackView.arrangedSubviews[1].arrangedSubviews[1] == GridButton("Workout", "workout")
    ensures |controller.horizontalStackView.arrangedSubviews| == 5
    ensures controller.horizontalStackView.arrangedSubviews[4] == Card("sporty", "Party", "party wear")
    ensures |artists.arrangedSubviews| == 4
    ensures artists.arrangedSubviews[0] == Card("taylor", "Taylor Swift", "Pop sensation and icon")
  {
    controller := new ViewController();
    controller.AddHorizontalButtons(ButtonTitles);
    assert controller.buttonStackView.arrangedSubviews[0 + 0] == Chip(ButtonTitles[0], true);
    ghost var chips := controller.buttonStackView.arrangedSubviews;
    forall i | 1 <= i < 7
      ensures !chips[i].highlighted
    {
      assert chips[0 + i] == Chip(ButtonTitles[i], i == 0);
    }
    controller.AddGridButtons(GridButtonData);
    SampleGrid();
    controller.AddHorizontalButtonsWithText(StyleCardData);
    assert controller.horizontalStackView.arrangedSubviews[0 + 4] == Card(StyleCardData[4].0, StyleCardData[4].1, StyleCardData[4].2);
    artists := new StackView();
    controller.AddHorizontalButtonsToSecondSection(artists, ArtistData);
    assert artists.arrangedSubviews[0 + 0] == Card(ArtistData[0].0, ArtistData[0].1, ArtistData[0].2);
  }
}
