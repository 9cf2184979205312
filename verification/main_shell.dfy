/**
  The main shell screen of the app: a bottom navigation bar that switches
  between the "Now" tab and the "Settings" tab, and a sub-panel held in a
  bottom sheet that can be hidden, collapsed (peeking) or expanded.

  The bottom sheet's behaviour object belongs to the UI library; the shell
  only reads its state and overwrites it, and the reference to it is null
  until the sheet has been set up. It is modelled as an optional state cell.
  A fragment commit into the tab container is modelled as recording which
  screen is displayed. The presenter that receives the selected tab mode is
  not part of this model: the shell records the tab mode it was handed.
 */
module MainShell {

  datatype Option<T> = None | Some(value: T)

  /** The states of the bottom sheet that the shell reads and writes. */
  datatype PanelState = Hidden | Collapsed | Expanded

  /** The two tab modes of the shell's contract. */
  datatype TabMode = TabModeNow | TabModeSettings

  /** The view states the presenter hands to `render`. */
  datatype MainViewState = NowState | SettingsState

  /** The fragment shown in the tab container. */
  datatype Screen = NowScreen | SettingsScreen

  /**
    The generated resource identifiers of the two navigation items. They are
    build-time constants; a `switch` over them only compiles when they differ.
   */
  datatype ResourceIds = ResourceIds(actionNow: int, actionSettings: int)

  predicate ValidIds(ids: ResourceIds) {
    ids.actionNow != ids.actionSettings
  }

  /** The programming error raised for a navigation item the shell does not know. */
  datatype ShellError = UnknownResourceId(itemId: int)

  datatype Result<T> = Ok(value: T) | Err(error: ShellError)

  /**
    The shell's state: the bottom sheet's state (None while the behaviour
    reference is null), the tab mode last handed to the presenter, and the
    screen last committed to the tab container.
   */
  datatype Shell = Shell(behavior: Option<PanelState>, tabMode: Option<TabMode>, displayed: Option<Screen>)

  /** The shell as the platform creates it, before any view is set up. */
  const Unset: Shell := Shell(None, None, None)

  // ---------------------------------------------------------------------------
  // Sub-panel visibility and the back key
  // ---------------------------------------------------------------------------

  /** The sheet state a visibility request aims for. */
  function TargetState(show: bool): PanelState {
    if show then Collapsed else Hidden
  }

  datatype PanelUpdate = PanelUpdate(shell: Shell, changed: bool)

  /**
    Compare-and-set on the sheet state: move the sheet to the target state
    and report true, or report false when there is no sheet behaviour yet or
    it is already in the target state.
   */
  function SetSubPanelVisibility(s: Shell, show: bool): (u: PanelUpdate)
    ensures u.changed <==> s.behavior.Some? && s.behavior.value != TargetState(show)
    ensures u.changed <==> u.shell != s
    ensures s.behavior.Some? ==> u.shell.behavior == Some(TargetState(show))
    ensures s.behavior.None? ==> u.shell.behavior.None?
    ensures u.shell.tabMode == s.tabMode && u.shell.displayed == s.displayed
  {
    var target := TargetState(show);
    match s.behavior
    case Some(state) =>
      if state != target then PanelUpdate(s.(behavior := Some(target)), true)
      else PanelUpdate(s, false)
    case None => PanelUpdate(s, false)
  }

  /** A second identical request changes nothing and reports false. */
  lemma SetSubPanelVisibilityIdempotent(s: Shell, show: bool)
    ensures var u := SetSubPanelVisibility(s, show);
      SetSubPanelVisibility(u.shell, show) == PanelUpdate(u.shell, false)
  {
  }

  /** The sub-panel is on screen: peeking or fully expanded. */
  predicate PanelShown(s: Shell) {
    s.behavior == Some(Collapsed) || s.behavior == Some(Expanded)
  }

  /** What the back key did: hid the panel, or fell through to the default action. */
  datatype BackAction = Consumed | DefaultBack

  datatype BackResult = BackResult(shell: Shell, action: BackAction)

  /**
    The back key first hides a shown sub-panel and is consumed by doing so;
    otherwise it falls through to the platform's default back action and the
    shell is left as it was.
   */
  function OnBackPressed(s: Shell): (b: BackResult)
    ensures b.action == Consumed <==> PanelShown(s)
    ensures PanelShown(s) ==> b.shell == s.(behavior := Some(Hidden))
    ensures !PanelShown(s) ==> b.shell == s
  {
    var u := SetSubPanelVisibility(s, false);
    if u.changed then BackResult(u.shell, Consumed) else BackResult(s, DefaultBack)
  }

  /** From any shell, a second consecutive back press always falls through. */
  lemma BackPressedTwice(s: Shell)
    ensures OnBackPressed(OnBackPressed(s).shell).action == DefaultBack
    ensures OnBackPressed(OnBackPressed(s).shell).shell == OnBackPressed(s).shell
  {
  }

  /** Showing a hidden panel and then pressing back restores the shell exactly. */
  lemma ShowThenBack(s: Shell)
    requires s.behavior == Some(Hidden)
    ensures SetSubPanelVisibility(s, true).changed
    ensures OnBackPressed(SetSubPanelVisibility(s, true).shell) == BackResult(s, Consumed)
  {
  }

  // ---------------------------------------------------------------------------
  // Tabs
  // ---------------------------------------------------------------------------

  /** The navigation item that stands for a tab mode. */
  function ItemIdOf(ids: ResourceIds, mode: TabMode): int {
    match mode
    case TabModeNow => ids.actionNow
    case TabModeSettings => ids.actionSettings
  }

  predicate IsKnownItem(ids: ResourceIds, itemId: int) {
    itemId == ids.actionNow || itemId == ids.actionSettings
  }

  /** The closed mapping from navigation item to tab mode; any other item is an error. */
  function ParseToTabMode(ids: ResourceIds, itemId: int): (r: Result<TabMode>)
    requires ValidIds(ids)
    ensures r == Ok(TabModeNow) <==> itemId == ids.actionNow
    ensures r == Ok(TabModeSettings) <==> itemId == ids.actionSettings
    ensures r.Err? <==> !IsKnownItem(ids, itemId)
    ensures r.Err? ==> r.error == UnknownResourceId(itemId)
  {
    if itemId == ids.actionNow then Ok(TabModeNow)
    else if itemId == ids.actionSettings then Ok(TabModeSettings)
    else Err(UnknownResourceId(itemId))
  }

  /** Parsing inverts ItemIdOf: each tab mode has exactly one navigation item. */
  lemma ParseToTabModeInverse(ids: ResourceIds, itemId: int, mode: TabMode)
    requires ValidIds(ids)
    ensures ParseToTabMode(ids, ItemIdOf(ids, mode)) == Ok(mode)
    ensures ParseToTabMode(ids, itemId) == Ok(mode) <==> itemId == ItemIdOf(ids, mode)
  {
  }

  /**
    A tap on a navigation item hands the parsed tab mode to the presenter;
    an unknown item raises the programming error instead.
   */
  function OnNavigationItemSelected(s: Shell, ids: ResourceIds, itemId: int): (r: Result<Shell>)
    requires ValidIds(ids)
    ensures r.Ok? <==> IsKnownItem(ids, itemId)
    ensures r.Ok? ==> r.value.tabMode.Some? && ItemIdOf(ids, r.value.tabMode.value) == itemId
    ensures r.Ok? ==> r.value.behavior == s.behavior && r.value.displayed == s.displayed
    ensures r.Err? ==> r.error == UnknownResourceId(itemId)
  {
    match ParseToTabMode(ids, itemId)
    case Ok(mode) => Ok(s.(tabMode := Some(mode)))
    case Err(e) => Err(e)
  }

  /** Commit a fragment to the tab container. */
  function Commit(s: Shell, screen: Screen): Shell {
    s.(displayed := Some(screen))
  }

  /**
    Dispatch a view state to the screen that shows it: the Now state displays
    the Now screen and the Settings state the Settings screen; the sheet and
    the tab mode are not touched.
   */
  function Render(s: Shell, vs: MainViewState): (t: Shell)
    ensures vs.NowState? ==> t.displayed == Some(NowScreen)
    ensures vs.SettingsState? ==> t.displayed == Some(SettingsScreen)
    ensures t.behavior == s.behavior && t.tabMode == s.tabMode
  {
    match vs
    case NowState => Commit(s, NowScreen)
    case SettingsState => Commit(s, SettingsScreen)
  }

  /** Only the last render decides what is displayed. */
  lemma RenderLastWins(s: Shell, first: MainViewState, second: MainViewState)
    ensures Render(Render(s, first), second) == Render(s, second)
  {
  }

  // ---------------------------------------------------------------------------
  // Creation
  // ---------------------------------------------------------------------------

  /** Select the Now item by default, which runs the item listener. */
  function InitBottomNavigationView(s: Shell, ids: ResourceIds): (t: Shell)
    requires ValidIds(ids)
    ensures t == s.(tabMode := Some(TabModeNow))
  {
    OnNavigationItemSelected(s, ids, ids.actionNow).value
  }

  /** Attach the sheet behaviour, starting hidden. */
  function InitBottomSheetView(s: Shell): (t: Shell)
    ensures t.behavior == Some(Hidden)
    ensures t.tabMode == s.tabMode && t.displayed == s.displayed
  {
    s.(behavior := Some(Hidden))
  }

  /**
    Creating the shell sets up the navigation bar, then the sheet: afterwards
    the panel is hidden and the Now tab is selected.
   */
  function OnCreate(ids: ResourceIds): (s: Shell)
    requires ValidIds(ids)
    ensures s.behavior == Some(Hidden)
    ensures s.tabMode == Some(TabModeNow)
    ensures !PanelShown(s)
  {
    InitBottomSheetView(InitBottomNavigationView(Unset, ids))
  }

  // ---------------------------------------------------------------------------
  // Event sequences
  // ---------------------------------------------------------------------------

  /**
    The inputs the shell reacts to. `SheetMoved` is the sheet changing state
    by itself (the user dragging it), which the shell only observes.
   */
  datatype Event =
    | BackPressed
    | PanelVisibility(show: bool)
    | ItemSelected(itemId: int)
    | RenderState(vs: MainViewState)
    | SheetMoved(state: PanelState)

  function Step(s: Shell, ids: ResourceIds, e: Event): Result<Shell>
    requires ValidIds(ids)
  {
    match e
    case BackPressed => Ok(OnBackPressed(s).shell)
    case PanelVisibility(show) => Ok(SetSubPanelVisibility(s, show).shell)
    case ItemSelected(itemId) => OnNavigationItemSelected(s, ids, itemId)
    case RenderState(vs) => Ok(Render(s, vs))
    case SheetMoved(state) =>
      if s.behavior.Some? then Ok(s.(behavior := Some(state))) else Ok(s)
  }

  /** Feed events to the shell in order; the first unknown item stops the run. */
  function Run(s: Shell, ids: ResourceIds, es: seq<Event>): Result<Shell>
    requires ValidIds(ids)
    decreases |es|
  {
    if |es| == 0 then Ok(s)
    else match Step(s, ids, es[0])
      case Err(e) => Err(e)
      case Ok(t) => Run(t, ids, es[1..])
  }

  /** The shell is set up: it has a sheet behaviour and a selected tab mode. */
  predicate SetUp(s: Shell) {
    s.behavior.Some? && s.tabMode.Some?
  }

  /** No sequence of events takes the sheet or the selected tab away again. */
  lemma {:induction false} RunPreservesSetUp(s: Shell, ids: ResourceIds, es: seq<Event>)
    requires ValidIds(ids) && SetUp(s)
    ensures Run(s, ids, es).Ok? ==> SetUp(Run(s, ids, es).value)
    decreases |es|
  {
    if |es| > 0 {
      match Step(s, ids, es[0])
      case Err(_) =>
      case Ok(t) => RunPreservesSetUp(t, ids, es[1..]);
    }
  }

  /** A run fails exactly when one of its events selects an unknown navigation item. */
  lemma {:induction false} RunFailsIffUnknownItem(s: Shell, ids: ResourceIds, es: seq<Event>)
    requires ValidIds(ids)
    ensures Run(s, ids, es).Err? <==>
      exists k :: 0 <= k < |es| && es[k].ItemSelected? && !IsKnownItem(ids, es[k].itemId)
    decreases |es|
  {
    if |es| > 0 {
      match Step(s, ids, es[0])
      case Err(_) =>
        assert es[0].ItemSelected? && !IsKnownItem(ids, es[0].itemId);
      case Ok(t) =>
        RunFailsIffUnknownItem(t, ids, es[1..]);
        assert !(es[0].ItemSelected? && !IsKnownItem(ids, es[0].itemId));
        if Run(s, ids, es).Err? {
          var k :| 0 <= k < |es[1..]| && es[1..][k].ItemSelected? && !IsKnownItem(ids, es[1..][k].itemId);
          assert es[k + 1] == es[1..][k];
        } else {
          forall k | 0 <= k < |es| && es[k].ItemSelected?
            ensures IsKnownItem(ids, es[k].itemId)
          {
            if k > 0 {
              assert es[1..][k - 1] == es[k];
            }
          }
        }
    }
  }

  /** From a freshly created shell, the back key falls through until the panel is shown. */
  lemma BackAfterCreate(ids: ResourceIds)
    requires ValidIds(ids)
    ensures OnBackPressed(OnCreate(ids)) == BackResult(OnCreate(ids), DefaultBack)
  {
  }
}
