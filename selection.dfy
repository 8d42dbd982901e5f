/** The two selection toggles of the home page: tag ids and the channels chosen for the mosaic. */
module Selection {
  import opened Wrappers
  import opened Sequences

  /** The list `handleTagClick` hands to `setSelectedTags`: an id already selected is removed
      (every occurrence of it), any other id is appended at the end. */
  function ToggleTag(selected: seq<string>, id: string): (r: seq<string>)
    ensures id in r <==> id !in selected
    ensures forall y :: y != id ==> (y in r <==> y in selected)
  {
    if id in selected then Without(selected, id) else selected + [id]
  }

  /** Both branches of the tag toggle: on a present id, all its occurrences go and the rest keep
      their order and multiplicity; on an absent id, the old list is followed by the id. */
  lemma ToggleTagEffect(selected: seq<string>, id: string)
    ensures id in selected ==>
      && id !in ToggleTag(selected, id)
      && multiset(ToggleTag(selected, id)) == multiset(selected)[id := 0]
      && Subsequence(ToggleTag(selected, id), selected)
    ensures id !in selected ==> ToggleTag(selected, id) == selected + [id]
  {
    WithoutIsSubsequence(selected, id);
  }

  /** Selecting an id and clicking it again restores the selection exactly. */
  lemma ToggleTagTwiceRestores(selected: seq<string>, id: string)
    requires id !in selected
    ensures ToggleTag(ToggleTag(selected, id), id) == selected
  {
    WithoutConcat(selected, [id], id);
    WithoutAbsent(selected, id);
    assert Without([id], id) == [];
  }

  /** Clicking a selected id twice restores which ids are selected, but moves the id to the end. */
  lemma ToggleTagTwicePresent(selected: seq<string>, id: string)
    requires id in selected
    ensures ToggleTag(ToggleTag(selected, id), id) == Without(selected, id) + [id]
    ensures forall y :: y in ToggleTag(ToggleTag(selected, id), id) <==> y in selected
  {
  }

  /** Clicking tags never makes an id appear twice in the selection. */
  lemma ToggleTagKeepsNoDuplicates(selected: seq<string>, id: string)
    requires NoDuplicates(selected)
    ensures NoDuplicates(ToggleTag(selected, id))
  {
    if id in selected {
      WithoutKeepsNoDuplicates(selected, id);
    } else {
      AppendKeepsNoDuplicates(selected, id);
    }
  }

  /** `selected.find((stream) => stream === name)`: the first element equal to `name`, if any. */
  function Find(selected: seq<string>, name: string): (r: Option<string>)
    ensures r.Some? <==> name in selected
    ensures r.Some? ==> r.value == name
  {
    if selected == [] then None
    else if selected[0] == name then Some(selected[0])
    else Find(selected[1..], name)
  }

  /** How `if (stream)` reads the result of `find`: `undefined` and the empty string are falsy. */
  predicate Truthy(found: Option<string>)
  {
    found.Some? && found.value != ""
  }

  /** The list `handleStreamToMosaic` hands to `setSelectedStreams`. Presence is decided by
      the truthiness of what `find` returned, so a found empty name counts as absent. */
  function MosaicToggle(selected: seq<string>, name: string): (r: seq<string>)
    ensures name != "" ==> r == ToggleTag(selected, name)
    ensures name == "" ==> r == selected + [""]
  {
    var found := Find(selected, name);
    if Truthy(found) then Without(selected, found.value) else selected + [name]
  }

  /** Choosing a channel for the mosaic and choosing it again restores the list exactly. */
  lemma MosaicToggleTwiceRestores(selected: seq<string>, name: string)
    requires name != "" && name !in selected
    ensures MosaicToggle(MosaicToggle(selected, name), name) == selected
  {
    ToggleTagTwiceRestores(selected, name);
  }

  /** The empty name is appended on every click: two clicks leave two copies. */
  lemma MosaicEmptyNameAccumulates(selected: seq<string>)
    ensures MosaicToggle(MosaicToggle(selected, ""), "") == selected + ["", ""]
  {
  }

  /** Every non-empty channel name occurs at most once in the mosaic selection. */
  ghost predicate NonEmptyNamesUnique(selected: seq<string>)
  {
    NoDuplicates(Without(selected, ""))
  }

  /** The mosaic toggle keeps non-empty names unique, whatever name is clicked. */
  lemma MosaicToggleKeepsNamesUnique(selected: seq<string>, name: string)
    requires NonEmptyNamesUnique(selected)
    ensures NonEmptyNamesUnique(MosaicToggle(selected, name))
  {
    WithoutConcat(selected, [name], "");
    if name == "" {
      assert Without([""], "") == [];
      assert Without(selected, "") + [] == Without(selected, "");
    } else if name in selected {
      WithoutCommutes(selected, name, "");
      WithoutKeepsNoDuplicates(Without(selected, ""), name);
    } else {
      assert Without([name], "") == [name];
      AppendKeepsNoDuplicates(Without(selected, ""), name);
    }
  }
}
