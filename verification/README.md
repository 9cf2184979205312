# Moop (movie showtime browser): theater codes and the main shell

This project models the two pieces of the Android app that carry logic of
their own, and proves properties of them in Dafny 4.11.

- **`Codes`** (`codes.dfy`) models the theater-code response of the data
  layer. A `CodeResponse` holds one `CodeGroup` per cinema chain: CGV, Lotte
  Cinema and Megabox. A group lists `AreaGroup`s, and an area lists
  `Theater`s. `Theater` is an abstract type because its fields play no part
  here. `ToAreaGroupList` is Kotlin's `flatMap` over the three groups, taken
  in that fixed order. `ToTheaterList` is `flatMap` over the resulting areas.
  `FlatMap` is defined once, generically, and the queries use it the way the
  Kotlin code does. The proofs show:
  - the area list is `cgv.list + lotte.list + megabox.list`;
  - the theater list is the CGV theaters, then the Lotte theaters, then the
    Megabox theaters, and its length is the sum of the areas' list lengths;
  - a theater is in the list iff some area of some chain lists it;
  - each chain's theaters form one contiguous block, and the blocks come in
    chain order;
  - the theater list is empty iff every area lists no theater.

  Both queries are Dafny functions over immutable datatypes. They cannot
  change the response, so their purity holds by construction.
- **`MainShell`** (`main_shell.dfy`) models the shell activity. It is a
  small state record, `Shell`, with three fields:
  - the bottom sheet's state (`Hidden`, `Collapsed` or `Expanded`), which is
    `None` while the library's behaviour reference is still null;
  - the tab mode last handed to the presenter;
  - the screen last committed to the tab container.

  The shell's handlers are pure transition functions on this record:
  - `SetSubPanelVisibility` is the compare-and-set. It returns whether
    anything changed.
  - `OnBackPressed` is the back key. It hides a shown panel instead of
    falling through; only when no panel is shown does it fall through to the
    default back action.
  - `ParseToTabMode` is the closed item-to-tab mapping. An unknown item is an
    `Err` carrying `UnknownResourceId`.
  - `OnNavigationItemSelected` is the navigation listener.
  - `Render` is the view-state dispatch.
  - `OnCreate` is the set-up.

  `Run` feeds an event sequence through the handlers. Lemmas about `Run`
  show two things. The sheet and the selected tab, once set up, stay set up.
  A run fails exactly when it selects an unknown navigation item.

The generated resource ids `R.id.action_now` and `R.id.action_settings` are
build-time integer constants whose values this model cannot know. They are
parameters (`ResourceIds`). The only thing required of them is that they
differ, which a Java `switch` over them needs in order to compile.

Two consequences of following the code closely:
- `renderInternal(SettingsState)` (MainActivity.java:92-94) never reads a
  payload from the view state, so `MainViewState` carries none.
- Selecting a tab only hands the tab mode to the presenter
  (MainActivity.java:108). The screen is swapped later, when `render` is
  called. The model keeps these two steps apart.

## Model

| member | source | states |
|---|---|---|
| Codes.FlatMap | data/src/main/java/soup/movie/data/model/response/CodeResponse.kt:13-16 | flatMap's result is as long as the sum of the lengths of the images of all elements, and it is empty for an empty input |
| Codes.FlatMapAppend | data/src/main/java/soup/movie/data/model/response/CodeResponse.kt:13-16 | flatMap over a concatenation equals the concatenation of the two flatMaps, so the input order is kept |
| Codes.FlatMapOfThree | data/src/main/java/soup/movie/data/model/response/CodeResponse.kt:13 | flatMap over a three-element list is the three images concatenated in list order |
| Codes.FlatMapMember | data/src/main/java/soup/movie/data/model/response/CodeResponse.kt:13-16 | an element is in flatMap's result iff it is in the image of some input element (both directions) |
| Codes.ToAreaGroupList | data/src/main/java/soup/movie/data/model/response/CodeResponse.kt:12-13 | the area list is exactly cgv.list, then lotte.list, then megabox.list, and its length is the sum of the three lengths |
| Codes.ToTheaterList | data/src/main/java/soup/movie/data/model/response/CodeResponse.kt:12-16 | the theater list is the CGV theaters, then the Lotte theaters, then the Megabox theaters; its length is the sum of theaterList lengths over all areas of all three chains |
| Codes.ChainTheatersMember | data/src/main/java/soup/movie/data/model/response/CodeResponse.kt:16 | a theater is among one chain's flattened theaters iff one of that chain's areas lists it |
| Codes.TheaterListMember | data/src/main/java/soup/movie/data/model/response/CodeResponse.kt:12-16 | a theater is in the theater list iff some area of cgv, lotte or megabox lists it |
| Codes.AreaGroupListMember | data/src/main/java/soup/movie/data/model/response/CodeResponse.kt:12-13 | an area is in the area list iff one of the three chains lists it |
| Codes.TheaterListBlock | data/src/main/java/soup/movie/data/model/response/CodeResponse.kt:13-16 | each chain's theaters occupy one contiguous block of the theater list, at that chain's offset and in that chain's own order |
| Codes.TheaterAt | data/src/main/java/soup/movie/data/model/response/CodeResponse.kt:13-16 | the theater at any index comes from the chain that owns that index, at the matching position of that chain's block, and some area of that chain lists it |
| Codes.ChainsInOrder | data/src/main/java/soup/movie/data/model/response/CodeResponse.kt:13-16 | for chains c1 before c2 (CGV before Lotte before Megabox), the p-th theater of c1 and the q-th theater of c2 are in the theater list at Offset(c1)+p and Offset(c2)+q, and the first index is smaller than the second |
| Codes.EmptyResponse | data/src/main/java/soup/movie/data/model/response/CodeResponse.kt:12-16 | when all three groups have no areas, both the area list and the theater list are empty |
| Codes.TheaterListEmpty | data/src/main/java/soup/movie/data/model/response/CodeResponse.kt:12-16 | the theater list is empty iff every area of every chain has an empty theater list |
| MainShell.SetSubPanelVisibility | app/src/main/java/soup/movie/ui/main/MainActivity.java:61-69 | targets COLLAPSED when show is true and HIDDEN otherwise; returns true iff the sheet exists and was not at the target, which is exactly when the shell changed; afterwards an existing sheet is at the target; an absent sheet stays absent; the tab fields are untouched |
| MainShell.SetSubPanelVisibilityIdempotent | app/src/main/java/soup/movie/ui/main/MainActivity.java:61-69 | a second call with the same argument returns false and leaves the shell unchanged |
| MainShell.OnBackPressed | app/src/main/java/soup/movie/ui/main/MainActivity.java:54-59 | back is consumed iff the panel is COLLAPSED or EXPANDED, and then the panel becomes HIDDEN and nothing else changes; otherwise back falls through to the default action and the shell is unchanged |
| MainShell.BackPressedTwice | app/src/main/java/soup/movie/ui/main/MainActivity.java:54-69 | from any shell, a second consecutive back press always falls through and changes nothing |
| MainShell.ShowThenBack | app/src/main/java/soup/movie/ui/main/MainActivity.java:54-69 | showing a hidden panel reports a change, and a back press then consumes the key and restores the original shell |
| MainShell.BackAfterCreate | app/src/main/java/soup/movie/ui/main/MainActivity.java:54-59 | right after creation the back key falls through to the default action |
| MainShell.ParseToTabMode | app/src/main/java/soup/movie/ui/main/MainActivity.java:147-156 | action_now maps to TAB_MODE_NOW and action_settings to TAB_MODE_SETTINGS, each iff the id is that item; any other id is the unknown-resource-id error |
| MainShell.ParseToTabModeInverse | app/src/main/java/soup/movie/ui/main/MainActivity.java:147-156 | parsing is the inverse of the tab-to-item mapping: each tab mode is produced by exactly its own navigation item |
| MainShell.OnNavigationItemSelected | app/src/main/java/soup/movie/ui/main/MainActivity.java:105-110 | a known item hands the presenter the tab mode whose item was tapped and leaves the sheet and the display alone; an unknown item fails with the unknown-resource-id error |
| MainShell.Render | app/src/main/java/soup/movie/ui/main/MainActivity.java:79-94 | rendering NowState displays the Now screen and SettingsState the Settings screen; the sheet and the tab mode are untouched |
| MainShell.RenderLastWins | app/src/main/java/soup/movie/ui/main/MainActivity.java:79-100 | the last fragment commit replaces the earlier one, so only the last render decides what is displayed |
| MainShell.InitBottomNavigationView | app/src/main/java/soup/movie/ui/main/MainActivity.java:102-112 | selecting action_now by default makes Now the tab mode and changes nothing else |
| MainShell.InitBottomSheetView | app/src/main/java/soup/movie/ui/main/MainActivity.java:114-117 | after set-up the sheet exists and is HIDDEN; the tab fields are untouched |
| MainShell.OnCreate | app/src/main/java/soup/movie/ui/main/MainActivity.java:32-45 | after creation the panel is HIDDEN, so it is not shown, and the selected tab is Now |
| MainShell.RunPreservesSetUp | app/src/main/java/soup/movie/ui/main/MainActivity.java:54-110 | no sequence of back presses, visibility requests, item selections, renders or sheet moves removes the sheet or the selected tab once they are set up |
| MainShell.RunFailsIffUnknownItem | app/src/main/java/soup/movie/ui/main/MainActivity.java:147-156 | a run of events fails iff one of its events selects a navigation item other than action_now and action_settings |

## Left out

- `setScrim` and `onSlide` (MainActivity.java:131-145) are left out. They
  map the slide offset to a foreground alpha using floating point, only on
  newer SDK versions, and the effect is purely cosmetic.
- `setSubPanel` (the sub-panel title), `onDestroy`, the theme, the title,
  logging, `findViewById`, the fragment transaction itself and the empty
  `onStateChanged` switch are left out. They are platform plumbing. A commit
  is modelled only as which screen is displayed.
- The peek height and hideability of the bottom sheet, its drag gestures, and
  its transient DRAGGING and SETTLING states are left out. The sheet is a
  cell holding one of three states. The user moving it is the `SheetMoved`
  event.
- `MainPresenter` and `MainContract` are not part of this model. The tab
  mode is recorded as handed over. What the presenter renders in response is
  left out, because that code is not available.
- The Settings presenter, the Now-screen contract and the search view model
  are left out. They only delegate to unseen utilities, async dialogs and a
  repository called on an IO dispatcher, or they hold no logic at all.
- MainShell.OnCreate: promises nothing about the displayed screen after
  creation. The default selection runs the listener, which hands the tab
  mode to the presenter, and the presenter may render in response. That
  code is not available, so the displayed screen is left as it was.
- `Render` handles a closed two-variant view state. The Java `instanceof`
  chain silently ignores any third subclass of `MainViewState`. There is no
  third subclass in the code, so that case is not modelled.
