/** The state of the home page: its four `useState` cells, the handlers that replace them, and
    the two effects that recompute the filtered list. The fetched live streams are not state of
    the page: they arrive from outside and are passed to the members that read them. */
module Home {
  import opened Wrappers
  import opened Sequences
  import opened Selection
  import opened Catalog

  class HomePage {
    var isMosaicMode: bool
    var selectedStreams: seq<string>
    var selectedTags: seq<string>
    var filteredStreamers: seq<Stream>

    /** What the handlers keep: no tag id is selected twice, no non-empty channel name is in
        the mosaic twice. */
    ghost predicate Valid()
      reads this
    {
      NoDuplicates(selectedTags) && NonEmptyNamesUnique(selectedStreams)
    }

    /** The shown list is the filter of the given data by the current selection. */
    ghost predicate ViewCurrent(data: Option<seq<Stream>>)
      reads this
    {
      filteredStreamers == FilterByTags(data, selectedTags)
    }

    /** Every cell starts empty and mosaic mode starts off. */
    constructor ()
      ensures Valid() && ViewCurrent(None)
      ensures !isMosaicMode && selectedStreams == [] && selectedTags == [] && filteredStreamers == []
    {
      isMosaicMode := false;
      selectedStreams := [];
      selectedTags := [];
      filteredStreamers := [];
    }

    /** A card's mosaic button: the channel leaves the mosaic if `find` returns a truthy
        name, and joins it at the end otherwise. */
    method HandleStreamToMosaic(channelName: string)
      requires Valid()
      modifies this
      ensures Valid()
      ensures selectedStreams == MosaicToggle(old(selectedStreams), channelName)
      ensures isMosaicMode == old(isMosaicMode) && selectedTags == old(selectedTags)
      ensures filteredStreamers == old(filteredStreamers)
    {
      MosaicToggleKeepsNamesUnique(selectedStreams, channelName);
      selectedStreams := MosaicToggle(selectedStreams, channelName);
    }

    /** A tag chip: its id leaves the selection if selected and joins it at the end otherwise.
        The shown list is not touched here; the effect `SelectedTagsChanged` follows. */
    method HandleTagClick(tag: Tag)
      requires Valid()
      modifies this
      ensures Valid()
      ensures selectedTags == ToggleTag(old(selectedTags), tag.id)
      ensures isMosaicMode == old(isMosaicMode) && selectedStreams == old(selectedStreams)
      ensures filteredStreamers == old(filteredStreamers)
    {
      ToggleTagKeepsNoDuplicates(selectedTags, tag.id);
      selectedTags := ToggleTag(selectedTags, tag.id);
    }

    /** `filterByTags(tags)` over the fetched data: replaces the shown list. */
    method ApplyTagFilter(data: Option<seq<Stream>>, tags: seq<string>)
      modifies this
      ensures filteredStreamers == FilterByTags(data, tags)
      ensures isMosaicMode == old(isMosaicMode) && selectedStreams == old(selectedStreams)
      ensures selectedTags == old(selectedTags)
    {
      filteredStreamers := FilterByTags(data, tags);
    }

    /** New data arrived: the first effect shows it unfiltered, then the second, whose callback
        changed with the data, filters it by the current selection. */
    method StreamsChanged(data: Option<seq<Stream>>)
      modifies this
      ensures ViewCurrent(data)
      ensures isMosaicMode == old(isMosaicMode) && selectedStreams == old(selectedStreams)
      ensures selectedTags == old(selectedTags)
    {
      filteredStreamers := data.GetOr([]);
      ApplyTagFilter(data, selectedTags);
    }

    /** The selection changed: the second effect filters the data by it. */
    method SelectedTagsChanged(data: Option<seq<Stream>>)
      modifies this
      ensures ViewCurrent(data)
      ensures isMosaicMode == old(isMosaicMode) && selectedStreams == old(selectedStreams)
      ensures selectedTags == old(selectedTags)
    {
      ApplyTagFilter(data, selectedTags);
    }

    /** The "Simultâneo" button flips mosaic mode and leaves both selections alone, so turning
        the mode on hands the mosaic the selection made before. */
    method ToggleMosaicMode()
      modifies this
      ensures isMosaicMode == !old(isMosaicMode)
      ensures isMosaicMode ==> MosaicChannels() == Some(old(selectedStreams))
      ensures !isMosaicMode ==> MosaicChannels() == None
      ensures selectedStreams == old(selectedStreams) && selectedTags == old(selectedTags)
      ensures filteredStreamers == old(filteredStreamers)
    {
      isMosaicMode := !isMosaicMode;
    }

    /** The channels handed to the mosaic: the mosaic selection while the mode is on, and no
        mosaic at all while it is off. */
    function MosaicChannels(): Option<seq<string>>
      reads this
    {
      if isMosaicMode then Some(selectedStreams) else None
    }
  }

  /** Flipping mosaic mode twice restores the whole page state, and what the mosaic would show
      on re-enabling is the selection made before turning it off. */
  method MosaicModeTwice(page: HomePage)
    modifies page
    ensures page.isMosaicMode == old(page.isMosaicMode)
    ensures page.selectedStreams == old(page.selectedStreams)
    ensures page.selectedTags == old(page.selectedTags)
    ensures page.filteredStreamers == old(page.filteredStreamers)
    ensures page.MosaicChannels() == old(page.MosaicChannels())
  {
    page.ToggleMosaicMode();
    page.ToggleMosaicMode();
  }

  /** A fresh page: a channel chosen and unchosen leaves the mosaic selection empty and the
      mode untouched. */
  method MosaicScenario(channelName: string)
    requires channelName != ""
  {
    var page := new HomePage();
    page.HandleStreamToMosaic(channelName);
    page.HandleStreamToMosaic(channelName);
    MosaicToggleTwiceRestores([], channelName);
    assert page.selectedStreams == [] && !page.isMosaicMode;
  }

  /** A fresh page given one tagged and one untagged stream: clicking the tag and letting the
      effect run shows only the tagged stream; clicking it again shows both. */
  method TagScenario()
  {
    var page := new HomePage();
    var tagged, untagged := Stream("1", Some(["pt"])), Stream("2", Some([]));
    var data := Some([tagged, untagged]);
    FilterExample();
    page.StreamsChanged(data);
    assert page.filteredStreamers == [tagged, untagged];
    page.HandleTagClick(Tag("pt", "Portuguese"));
    assert page.selectedTags == [] + ["pt"] == ["pt"];
    page.SelectedTagsChanged(data);
    assert page.filteredStreamers == [tagged];
    ToggleTagTwiceRestores([], "pt");
    page.HandleTagClick(Tag("pt", "Portuguese"));
    page.SelectedTagsChanged(data);
    assert page.selectedTags == [] && page.filteredStreamers == [tagged, untagged];
  }
}
