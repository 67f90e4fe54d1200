/** Presentation state: four independent fields, each with its own setter,
    and a toggle for the sidebar. Nothing here is persisted. */
module UiModel {
  import opened Common

  datatype Theme = Light | Dark | System

  datatype UiState = UiState(isSidebarOpen: bool, activeModal: Option<string>, theme: Theme, isPageLoading: bool)

  /** The store's initial values. */
  function Initial(): (r: UiState)
    ensures r.isSidebarOpen && r.activeModal.None? && !r.isPageLoading
    ensures ThemeName(r.theme) == "system"
  {
    UiState(true, None, System, false)
  }

  function ToggleSidebar(s: UiState): (r: UiState)
    ensures r.isSidebarOpen != s.isSidebarOpen
    ensures r.(isSidebarOpen := s.isSidebarOpen) == s
  {
    s.(isSidebarOpen := !s.isSidebarOpen)
  }

  function SetSidebarOpen(s: UiState, open: bool): (r: UiState)
    ensures r.isSidebarOpen == open
    ensures r.(isSidebarOpen := s.isSidebarOpen) == s
  {
    s.(isSidebarOpen := open)
  }

  function OpenModal(s: UiState, modalId: string): (r: UiState)
    ensures r.activeModal == Some(modalId)
    ensures r.(activeModal := s.activeModal) == s
  {
    s.(activeModal := Some(modalId))
  }

  function CloseModal(s: UiState): (r: UiState)
    ensures r.activeModal.None?
    ensures r.(activeModal := s.activeModal) == s
  {
    s.(activeModal := None)
  }

  function SetTheme(s: UiState, theme: Theme): (r: UiState)
    ensures r.theme == theme
    ensures r.(theme := s.theme) == s
  {
    s.(theme := theme)
  }

  function SetPageLoading(s: UiState, loading: bool): (r: UiState)
    ensures r.isPageLoading == loading
    ensures r.(isPageLoading := s.isPageLoading) == s
  {
    s.(isPageLoading := loading)
  }

  /** The name each theme is stored under. */
  function ThemeName(t: Theme): (r: string)
    ensures r in {"light", "dark", "system"}
  {
    match t
    case Light => "light"
    case Dark => "dark"
    case System => "system"
  }

  datatype Action =
    | ToggleSidebarAction
    | SetSidebarOpenAction(open: bool)
    | OpenModalAction(modalId: string)
    | CloseModalAction
    | SetThemeAction(theme: Theme)
    | SetPageLoadingAction(loading: bool)

  function Apply(s: UiState, a: Action): UiState {
    match a
    case ToggleSidebarAction => ToggleSidebar(s)
    case SetSidebarOpenAction(b) => SetSidebarOpen(s, b)
    case OpenModalAction(id) => OpenModal(s, id)
    case CloseModalAction => CloseModal(s)
    case SetThemeAction(t) => SetTheme(s, t)
    case SetPageLoadingAction(b) => SetPageLoading(s, b)
  }

  function Run(s: UiState, actions: seq<Action>): UiState
    decreases |actions|
  {
    if actions == [] then s else Run(Apply(s, actions[0]), actions[1..])
  }

  /** Whether an action writes the theme field. */
  predicate WritesTheme(a: Action) {
    a.SetThemeAction?
  }

  lemma InitialValues()
    ensures Initial().isSidebarOpen && Initial().activeModal.None?
    ensures ThemeName(Initial().theme) == "system" && !Initial().isPageLoading
  {
  }

  lemma ToggleTwiceIsIdentity(s: UiState)
    ensures ToggleSidebar(s).isSidebarOpen == !s.isSidebarOpen
    ensures ToggleSidebar(ToggleSidebar(s)) == s
  {
  }

  lemma SettersAreIdempotent(s: UiState, open: bool, modalId: string, theme: Theme, loading: bool)
    ensures SetSidebarOpen(SetSidebarOpen(s, open), open) == SetSidebarOpen(s, open)
    ensures OpenModal(OpenModal(s, modalId), modalId) == OpenModal(s, modalId)
    ensures CloseModal(CloseModal(s)) == CloseModal(s)
    ensures SetTheme(SetTheme(s, theme), theme) == SetTheme(s, theme)
    ensures SetPageLoading(SetPageLoading(s, loading), loading) == SetPageLoading(s, loading)
  {
  }

  /** Opening a modal replaces whatever modal was open. */
  lemma OpenModalReplaces(s: UiState, first: string, second: string)
    ensures OpenModal(OpenModal(s, first), second) == OpenModal(s, second)
    ensures OpenModal(s, second).activeModal == Some(second)
  {
  }

  /** Each action changes its own field and no other. */
  lemma ActionsTouchOneField(s: UiState, a: Action)
    ensures !a.ToggleSidebarAction? && !a.SetSidebarOpenAction? ==> Apply(s, a).isSidebarOpen == s.isSidebarOpen
    ensures !a.OpenModalAction? && !a.CloseModalAction? ==> Apply(s, a).activeModal == s.activeModal
    ensures !a.SetThemeAction? ==> Apply(s, a).theme == s.theme
    ensures !a.SetPageLoadingAction? ==> Apply(s, a).isPageLoading == s.isPageLoading
  {
  }

  /** A run without setTheme ends with the theme it started with. */
  lemma {:induction false} ThemeOnlyBySetTheme(s: UiState, actions: seq<Action>)
    requires forall i :: 0 <= i < |actions| ==> !WritesTheme(actions[i])
    ensures Run(s, actions).theme == s.theme
    decreases |actions|
  {
    if actions != [] {
      ActionsTouchOneField(s, actions[0]);
      ThemeOnlyBySetTheme(Apply(s, actions[0]), actions[1..]);
    }
  }
}

/** The UI store object: one shared instance whose actions overwrite one
    field each. */
module UiStore {
  import opened Common
  import opened UiModel

  class Store {
    var isSidebarOpen: bool
    var activeModal: Option<string>
    var theme: Theme
    var isPageLoading: bool

    function State(): UiState
      reads this
    {
      UiState(isSidebarOpen, activeModal, theme, isPageLoading)
    }

    constructor ()
      ensures State() == Initial()
    {
      isSidebarOpen, activeModal, theme, isPageLoading := true, None, System, false;
    }

    method ToggleSidebar()
      modifies this
      ensures State() == UiModel.ToggleSidebar(old(State()))
    {
      isSidebarOpen := !isSidebarOpen;
    }

    method SetSidebarOpen(open: bool)
      modifies this
      ensures State() == UiModel.SetSidebarOpen(old(State()), open)
    {
      isSidebarOpen := open;
    }

    method OpenModal(modalId: string)
      modifies this
      ensures State() == UiModel.OpenModal(old(State()), modalId)
    {
      activeModal := Some(modalId);
    }

    method CloseModal()
      modifies this
      ensures State() == UiModel.CloseModal(old(State()))
    {
      activeModal := None;
    }

    method SetTheme(t: Theme)
      modifies this
      ensures State() == UiModel.SetTheme(old(State()), t)
    {
      theme := t;
    }

    method SetPageLoading(loading: bool)
      modifies this
      ensures State() == UiModel.SetPageLoading(old(State()), loading)
    {
      isPageLoading := loading;
    }
  }
}
