/** The live streams the page lists and the tag filter over them. */
module Catalog {
  import opened Wrappers
  import opened Sequences
  import opened Selection

  /** A clickable tag: its id is what the selection stores, its name is what is shown. */
  datatype Tag = Tag(id: string, name: string)

  /** A fetched live stream; its tag ids may be missing (`stream.tags?.`). */
  datatype Stream = Stream(id: string, tags: Option<seq<string>>)

  /** `selected.every((tag) => tags?.includes(tag))`, one selected id after the other. */
  predicate EveryTagIncluded(selected: seq<string>, tags: Option<seq<string>>)
  {
    if selected == [] then true
    else tags.Some? && selected[0] in tags.value && EveryTagIncluded(selected[1..], tags)
  }

  /** The `every` test holds exactly when nothing is selected, or the tags are present and
      contain every selected id; missing tags fail it as soon as one id is selected. */
  lemma {:induction false} EveryTagIncludedMeans(selected: seq<string>, tags: Option<seq<string>>)
    ensures EveryTagIncluded(selected, tags) <==>
      selected == [] || (tags.Some? && forall t :: t in selected ==> t in tags.value)
  {
    if selected != [] {
      EveryTagIncludedMeans(selected[1..], tags);
      assert selected == [selected[0]] + selected[1..];
    }
  }

  /** `streams.filter(...)` with the `every` test: the matching streams, in their order. */
  function KeepMatching(streams: seq<Stream>, selected: seq<string>): (r: seq<Stream>)
    ensures forall st :: st in r <==> st in streams && EveryTagIncluded(selected, st.tags)
    ensures forall st ::
      multiset(r)[st] == if EveryTagIncluded(selected, st.tags) then multiset(streams)[st] else 0
  {
    if streams == [] then []
    else
      assert streams == [streams[0]] + streams[1..];
      if EveryTagIncluded(selected, streams[0].tags)
      then [streams[0]] + KeepMatching(streams[1..], selected)
      else KeepMatching(streams[1..], selected)
  }

  /** The filtered streams are the fetched ones with some deleted, the rest in order. */
  lemma {:induction false} KeepMatchingIsSubsequence(streams: seq<Stream>, selected: seq<string>)
    ensures Subsequence(KeepMatching(streams, selected), streams)
  {
    if streams != [] {
      KeepMatchingIsSubsequence(streams[1..], selected);
      var r := KeepMatching(streams, selected);
      if EveryTagIncluded(selected, streams[0].tags) {
        assert r[0] == streams[0] && r[1..] == KeepMatching(streams[1..], selected);
      }
    }
  }

  /** Requiring more ids keeps a subsequence of what fewer ids keep. */
  lemma {:induction false} KeepMatchingNarrows(streams: seq<Stream>, fewer: seq<string>, more: seq<string>)
    requires forall t :: t in fewer ==> t in more
    ensures Subsequence(KeepMatching(streams, more), KeepMatching(streams, fewer))
  {
    if streams != [] {
      KeepMatchingNarrows(streams[1..], fewer, more);
      var st := streams[0];
      EveryTagIncludedMeans(fewer, st.tags);
      EveryTagIncludedMeans(more, st.tags);
      if fewer != [] {
        assert fewer[0] in more;
      }
      var rm, rf := KeepMatching(streams, more), KeepMatching(streams, fewer);
      if EveryTagIncluded(more, st.tags) {
        assert EveryTagIncluded(fewer, st.tags);
        assert rm[0] == st && rm[1..] == KeepMatching(streams[1..], more);
        assert rf[0] == st && rf[1..] == KeepMatching(streams[1..], fewer);
      } else if EveryTagIncluded(fewer, st.tags) {
        assert rf[1..] == KeepMatching(streams[1..], fewer);
      }
    }
  }

  /** What `filterByTags(selected)` hands to `setFilteredStreamers`, given the fetched data:
      with a selection, the matching streams (none when nothing has arrived); without one, all
      of the fetched streams. */
  function FilterByTags(data: Option<seq<Stream>>, selected: seq<string>): (r: seq<Stream>)
  {
    if |selected| > 0 then
      match data
      case Some(streams) => KeepMatching(streams, selected)
      case None => []
    else data.GetOr([])
  }

  /** An empty selection shows every fetched stream, or nothing before data arrives. */
  lemma FilterEmptySelection(data: Option<seq<Stream>>)
    ensures data.Some? ==> FilterByTags(data, []) == data.value
    ensures data.None? ==> FilterByTags(data, []) == []
  {
  }

  /** With a selection, a stream is shown exactly when it was fetched, has its tags, and they
      contain every selected id; a stream without tags is never shown. */
  lemma FilterKeepsExactly(data: Option<seq<Stream>>, selected: seq<string>, st: Stream)
    requires selected != []
    ensures st in FilterByTags(data, selected) <==>
      && data.Some? && st in data.value
      && st.tags.Some? && forall t :: t in selected ==> t in st.tags.value
    ensures st.tags.None? ==> st !in FilterByTags(data, selected)
  {
    EveryTagIncludedMeans(selected, st.tags);
  }

  /** Each shown stream keeps its multiplicity in the fetched list; the others are gone. */
  lemma FilterCounts(streams: seq<Stream>, selected: seq<string>, st: Stream)
    requires selected != []
    ensures multiset(FilterByTags(Some(streams), selected))[st] ==
      if st.tags.Some? && forall t :: t in selected ==> t in st.tags.value
      then multiset(streams)[st] else 0
  {
    EveryTagIncludedMeans(selected, st.tags);
  }

  /** The filtered list is an order-preserving subsequence of the fetched one, never longer. */
  lemma FilterIsSubsequence(data: Option<seq<Stream>>, selected: seq<string>)
    ensures Subsequence(FilterByTags(data, selected), data.GetOr([]))
    ensures |FilterByTags(data, selected)| <= |data.GetOr([])|
  {
    if |selected| > 0 && data.Some? {
      KeepMatchingIsSubsequence(data.value, selected);
    } else {
      SubsequenceReflexive(data.GetOr([]));
    }
    SubsequenceLength(FilterByTags(data, selected), data.GetOr([]));
  }

  /** A selection that requires every id of another shows a subsequence of what it shows. */
  lemma FilterNarrows(data: Option<seq<Stream>>, fewer: seq<string>, more: seq<string>)
    requires forall t :: t in fewer ==> t in more
    ensures Subsequence(FilterByTags(data, more), FilterByTags(data, fewer))
  {
    if fewer != [] {
      assert fewer[0] in more;
      if data.Some? {
        KeepMatchingNarrows(data.value, fewer, more);
      }
    } else {
      FilterIsSubsequence(data, more);
    }
  }

  /** Clicking a tag that was not selected never adds a stream to the view. */
  lemma SelectingTagNarrows(data: Option<seq<Stream>>, selected: seq<string>, id: string)
    requires id !in selected
    ensures Subsequence(FilterByTags(data, ToggleTag(selected, id)), FilterByTags(data, selected))
    ensures |FilterByTags(data, ToggleTag(selected, id))| <= |FilterByTags(data, selected)|
  {
    FilterNarrows(data, selected, ToggleTag(selected, id));
    SubsequenceLength(FilterByTags(data, ToggleTag(selected, id)), FilterByTags(data, selected));
  }

  /** One tagged and one untagged stream: selecting the tag shows only the first. */
  lemma FilterExample()
    ensures
      var tagged, untagged := Stream("1", Some(["pt"])), Stream("2", Some([]));
      && FilterByTags(Some([tagged, untagged]), ["pt"]) == [tagged]
      && FilterByTags(Some([tagged, untagged]), []) == [tagged, untagged]
  {
  }
}
