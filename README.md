# Home page selection and tag filtering

A model of the logic inside the `Home` page of the stream-listing front end. The page lists
the live streams fetched from `/public/streams`. A user clicks tags to narrow the list to the
streams that carry every clicked tag. They also pick channels for a "mosaic" that plays
several streams side by side, and a button switches mosaic mode on and off.

The model has five modules:

- `Wrappers` holds `Option`, which stands for a value that may be `undefined`. `GetOr` is
  JavaScript's `??`.
- `Sequences` holds `Without` (which is `filter((t) => t !== x)`), the order-preserving
  `Subsequence` relation and `NoDuplicates`, with their lemmas.
- `Selection` holds the two toggles as pure functions, with their properties. `ToggleTag` is
  the list `handleTagClick` computes. `MosaicToggle` is the list `handleStreamToMosaic`
  computes. `MosaicToggle` keeps the source's presence test: the result of `find` is read for
  truthiness, so a found empty channel name counts as absent and is appended again.
- `Catalog` holds the `Tag` and `Stream` values and the `every`/`includes` test
  (`EveryTagIncluded`). It also holds `KeepMatching` (the `filter` call) and `FilterByTags`
  (the whole of `filterByTags` over the fetched data), with their properties.
- `Home` holds `HomePage`, a class with the four `useState` cells as fields. Each handler is a
  method that replaces its cell, and the two `useEffect` callbacks are methods too. `Valid()`
  is the invariant the handlers keep: no tag id is selected twice, and no non-empty channel
  name is in the mosaic twice. `ViewCurrent(data)` says the shown list is the filter of the
  data by the current selection. Two client methods without postconditions hold assertions
  that Dafny verifies against the class's contracts. `MosaicScenario` chooses a channel twice
  on a fresh page and asserts the mosaic selection is empty again. `TagScenario` gives the page
  one stream tagged "pt" and one stream with an empty tag list, then clicks the "pt" tag twice, asserting
  what is shown after each click.

The fetched streams are not page state in the model. The network supplies them, so they are
passed as an `Option<seq<Stream>>` parameter, where `None` means no data has arrived.

Behaviour of the selections worth knowing:

- The selections are lists, not sets. Clicking a selected tag removes every copy of its id,
  and clicking any other tag appends its id at the end.
- Clicking a tag twice restores the selection list exactly only when the id was not selected.
  When it was selected, two clicks restore which ids are selected but move the id to the end
  (`ToggleTagTwicePresent`).
- The mosaic toggle is not symmetric for the empty channel name, which is appended on every
  click (`MosaicEmptyNameAccumulates`).

## Model

| member | source | states |
|---|---|---|
| `Sequences.Without` | src/pages/Home.tsx:51 | the result holds exactly the elements of the list other than the removed value, each as often as before, and never the removed value |
| `Selection.ToggleTag` | src/pages/Home.tsx:49-55 | after a tag click, the clicked id is selected exactly when it was not selected before; every other id keeps its membership |
| `Selection.ToggleTagEffect` | src/pages/Home.tsx:50-54 | clicking a selected id removes all its occurrences and keeps the other ids in their original order and number; clicking an unselected id yields the old list followed by that id |
| `Selection.ToggleTagTwiceRestores` | src/pages/Home.tsx:49-55 | clicking an unselected tag and then clicking it again restores the selection list exactly |
| `Selection.ToggleTagTwicePresent` | src/pages/Home.tsx:49-55 | clicking a selected tag twice restores which ids are selected, but the id moves to the end of the list |
| `Selection.ToggleTagKeepsNoDuplicates` | src/pages/Home.tsx:49-55 | a tag click never makes an id appear twice in a selection that had no repeated id |
| `Selection.Find` | src/pages/Home.tsx:41 | `find` returns a value exactly when the name is in the list, and the value it returns is that name |
| `Selection.MosaicToggle` | src/pages/Home.tsx:40-47 | for a non-empty channel name, the mosaic toggle is the same remove-all/append toggle as the tag click; for the empty name it always appends, because a found empty string is falsy |
| `Selection.MosaicToggleTwiceRestores` | src/pages/Home.tsx:40-47 | choosing a non-empty channel that was not chosen, then choosing it again, restores the mosaic selection exactly |
| `Selection.MosaicEmptyNameAccumulates` | src/pages/Home.tsx:41-45 | two clicks on the empty channel name leave two more copies of it, not the original list |
| `Selection.MosaicToggleKeepsNamesUnique` | src/pages/Home.tsx:40-47 | whatever channel is clicked, no non-empty channel name ends up in the mosaic selection twice |
| `Catalog.EveryTagIncludedMeans` | src/pages/Home.tsx:61 | the `every` test passes exactly when no id is selected, or when the stream's tags are present and contain every selected id |
| `Catalog.KeepMatching` | src/pages/Home.tsx:60-62 | a stream is in the filtered list exactly when it is in the fetched list and passes the test; each passing stream keeps its number of occurrences and the others have none |
| `Catalog.KeepMatchingIsSubsequence` | src/pages/Home.tsx:60-62 | the filtered list is the fetched list with some streams deleted and the rest in their original order |
| `Catalog.KeepMatchingNarrows` | src/pages/Home.tsx:61 | when one selection requires every id of another, the larger selection keeps an order-preserving subsequence of what the smaller one keeps |
| `Catalog.FilterEmptySelection` | src/pages/Home.tsx:64-66 | with no tag selected, the shown list is the whole fetched list, or empty when no data has arrived |
| `Catalog.FilterKeepsExactly` | src/pages/Home.tsx:59-63 | with a tag selected, a stream is shown if and only if it was fetched, its tags are present and they contain every selected id; a stream without tags is never shown |
| `Catalog.FilterCounts` | src/pages/Home.tsx:59-63 | with a tag selected, each shown stream appears as often as it was fetched, and a stream that fails the test does not appear |
| `Catalog.FilterIsSubsequence` | src/pages/Home.tsx:59-66 | in both branches the shown list is an order-preserving subsequence of the fetched list (or of the empty list), so it is never longer |
| `Catalog.FilterNarrows` | src/pages/Home.tsx:59-66 | a selection that requires every id of another shows a subsequence of what the other shows, including when the other is empty |
| `Catalog.SelectingTagNarrows` | src/pages/Home.tsx:53 | selecting one more tag never adds a stream to the shown list, and never makes it longer |
| `Catalog.FilterExample` | src/pages/Home.tsx:57-69 | with a stream tagged "pt" and one whose tag list is empty, selecting "pt" shows only the first, and selecting nothing shows both |
| `Home.HomePage.constructor` | src/pages/Home.tsx:29-32 | mosaic mode starts off, and both selections and the shown list start empty |
| `Home.HomePage.HandleStreamToMosaic` | src/pages/Home.tsx:40-47 | the mosaic selection becomes the mosaic toggle of the old one, the non-empty names stay unique, and no other cell changes |
| `Home.HomePage.HandleTagClick` | src/pages/Home.tsx:49-55 | the tag selection becomes the toggle of the old one by the tag's id, ids stay unique, and no other cell changes (the shown list waits for the effect) |
| `Home.HomePage.ApplyTagFilter` | src/pages/Home.tsx:57-69 | the shown list becomes the filter of the fetched data by the given ids; the other cells do not change |
| `Home.HomePage.StreamsChanged` | src/pages/Home.tsx:71-77 | after new data arrives and both effects have run, the shown list is that data filtered by the current selection |
| `Home.HomePage.SelectedTagsChanged` | src/pages/Home.tsx:75-77 | after the selection changes and its effect has run, the shown list is the data filtered by the new selection |
| `Home.HomePage.ToggleMosaicMode` | src/pages/Home.tsx:101 | the button negates mosaic mode and leaves both selections and the shown list unchanged; when it turns the mode on, the mosaic is given the selection made before the press, and when it turns the mode off, no mosaic is shown |
| `Home.MosaicModeTwice` | src/pages/Home.tsx:187 | two presses of the mosaic button restore every cell of the page and what the mosaic is given, so re-enabling shows the earlier mosaic selection |

## Left out

- The three `useFetch` requests and their `isLoading` and `data` lifecycle (src/pages/Home.tsx:34-38) are network I/O through a library that is not part of this model. The fetched live streams are an input value, and the tags and vods are not modelled.
- React decides when effects run. That scheduling is not modelled. `StreamsChanged` and `SelectedTagsChanged` model the outcome: the effects at lines 71-77 have run to completion, in their declared order.
- All rendering is presentation and is left out: the JSX, the Chakra styling, breakpoint sizing, skeleton placeholders, the tag chips' colours and the vods grid (src/pages/Home.tsx:79-189). The one exception is which channels the mosaic receives (line 187).
- The "Estou com sorte" button (src/pages/Home.tsx:105-112) has no handler, so there is no behaviour to model.
- The `Stream` and `Tag` type files and the `Mosaic`, `Card` and `LandingLayout` components are not part of this model. `Stream` carries only an `id` and its optional tag ids. The id's type is declared outside the modelled file, so the model picks `string`. Only its equality matters to the model: it decides when two streams are equal in the multiset and subsequence lemmas. The page itself uses the id only as a rendering key (src/pages/Home.tsx:158). Which name a card passes to `handleStreamToMosaic` is decided in `Card`, so the model takes it as a parameter.
- src/component/mainPage/MainPage.tsx is layout only. Its two state cells are set by forwarding values from child components declared outside the modelled files, so it is not modelled.
- String equality (`===`, `includes`) is modelled as sequence equality on `seq<char>`, which agrees with JavaScript's comparison of strings by code units for strings without unpaired surrogates. A Dafny `char` is a Unicode scalar value, so a JavaScript string holding an unpaired surrogate has no `seq<char>` counterpart and is outside the model.
