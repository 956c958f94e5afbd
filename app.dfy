/** The top-level model of the trainer's terminal interface
    (pkg/tui/app.go): which screen is shown, which panel has the keyboard,
    the bootstrap animation, the scenario being played, and how each message
    moves them along. The commands the program hands back to its event loop
    are returned as a list of effects; the engine, the cluster manager and
    the completion store are reached only through those effects, while the
    sidebar, content, progress and terminal components are owned objects
    updated in place. */
module App {
  import opened Common
  import opened ScenarioTypes
  import opened Registry
  import opened TuiLayout
  import opened AppTree
  import Versions
  import Sidebar
  import Content
  import Progress
  import Terminal

  datatype View =
    | ViewVersionSelect
    | ViewBootstrap
    | ViewDashboard
    | ViewScenarioRunning
    | ViewSuccess
    | ViewConfirmRestart
    | ViewConfirmQuit

  datatype FocusArea = FocusSidebar | FocusContent | FocusTerminal

  /** The messages the application reacts to. A finished bootstrap carries,
      besides the cluster's kubeconfig and error, the outcome of what the
      handler then does on its own: building the Kubernetes client, opening
      the completion store and loading it. */
  datatype Msg =
    | KeyMsg(key: Terminal.Key)
    | WindowSizeMsg(width: int, height: int)
    | SpinnerTickMsg
    | BootstrapDoneMsg(kubeconfig: string, err: Option<string>, clientErr: Option<string>,
                       storeOpened: bool, loaded: Option<map<string, bool>>)
    | CheckResultMsg(result: Result)
    | TickMsg
    | ProgressTickMsg
    | FinalDelayMsg
    | ScenarioStartedMsg(startErr: Option<string>)
    | TerminalOutputMsg

  /** What the application asks of the outside world. */
  datatype Effect =
    | EnsureCluster(version: Versions.SupportedVersion)  // create or reuse the cluster, then BootstrapDoneMsg
    | ProgressTickIn800ms                                  // then ProgressTickMsg
    | FinalDelayIn500ms                                    // then FinalDelayMsg
    | CheckTickInInterval                                  // after the 2-second check interval, TickMsg
    | CheckScenario                                        // the engine's check, then CheckResultMsg
    | StartScenario(id: string)                            // the engine's start, then ScenarioStartedMsg
    | TerminalRefresh                                      // the command a started shell returns
    | CleanupAndQuit                                       // the engine's cleanup, then exit
    | EngineCleanup                                        // the engine's cleanup, done at once
    | MarkCompleted(id: string)                            // record a completion in the store

  /** What starting the shell runs into: whether the temporary credential
      file can be created and written, the name it gets, and whether the
      shell starts on a pseudo-terminal. */
  datatype ShellStart = ShellStart(created: bool, written: bool, tempName: string, ptyStarted: bool)

  const QuitKeys: set<string> := {"q", "ctrl+c"}
  /** Left, shift+tab and up move a dialog's selection back. */
  const BackKeys: set<string> := {"left", "h", "shift+tab", "up", "k"}
  /** Right, tab and down move it forward. */
  const ForwardKeys: set<string> := {"right", "l", "tab", "down", "j"}

  /** Escape and the quit key cancel a dialog. */
  const CancelKeys: set<string> := {"esc", "q", "ctrl+c"}

  /** What a key means on the success screen and in the dialogs. */
  datatype Binding = BindBack | BindForward | BindEnter | BindCancel | BindYes | BindNo | BindMenu | BindRetry | BindOther

  /** The bindings are disjoint, so the order in which a screen tries them
      does not matter. */
  function BindingOf(name: string): (b: Binding)
    ensures b == BindBack <==> name in BackKeys
    ensures b == BindForward <==> name in ForwardKeys
    ensures b == BindEnter <==> name == "enter"
    ensures b == BindCancel <==> name in CancelKeys
    ensures b == BindYes <==> name == "y"
    ensures b == BindNo <==> name == "n"
    ensures b == BindMenu <==> name == "m"
    ensures b == BindRetry <==> name == "r"
  {
    if name in BackKeys then BindBack
    else if name in ForwardKeys then BindForward
    else if name == "enter" then BindEnter
    else if name in CancelKeys then BindCancel
    else if name == "y" then BindYes
    else if name == "n" then BindNo
    else if name == "m" then BindMenu
    else if name == "r" then BindRetry
    else BindOther
  }

  /** What a key means on the version list. */
  datatype ListKey = ListUp | ListDown | ListEnter | ListOther

  function ListKeyOf(name: string): (k: ListKey)
    ensures k == ListUp <==> name in {"up", "k"}
    ensures k == ListDown <==> name in {"down", "j"}
    ensures k == ListEnter <==> name == "enter"
  {
    if name in {"up", "k"} then ListUp
    else if name in {"down", "j"} then ListDown
    else if name == "enter" then ListEnter
    else ListOther
  }

  /** The shortcuts of the running scenario's screen. */
  datatype Shortcut = ShortCheck | ShortToggleHints | ShortNextHint | ShortPrevHint | ShortEscape | NoShortcut

  function ShortcutOf(name: string): (s: Shortcut)
    ensures s == ShortCheck <==> name == "c"
    ensures s == ShortToggleHints <==> name == "h"
    ensures s == ShortNextHint <==> name == "n"
    ensures s == ShortPrevHint <==> name == "p"
    ensures s == ShortEscape <==> name == "esc"
  {
    if name == "c" then ShortCheck
    else if name == "h" then ShortToggleHints
    else if name == "n" then ShortNextHint
    else if name == "p" then ShortPrevHint
    else if name == "esc" then ShortEscape
    else NoShortcut
  }

  /** The number of supported versions the version list offers. */
  const VersionCount := 2

  /** The cluster the scenarios run in. */
  const ClusterName := "k8s-dojo"

  /** Tab moves the keyboard Sidebar → Content → Terminal → Sidebar. */
  function NextFocus(f: FocusArea): (r: FocusArea)
    ensures r != f
  {
    match f
    case FocusSidebar => FocusContent
    case FocusContent => FocusTerminal
    case FocusTerminal => FocusSidebar
  }

  /** Three presses of Tab come back to the panel that had the keyboard,
      having visited the other two. */
  lemma FocusCycle(f: FocusArea)
    ensures NextFocus(NextFocus(NextFocus(f))) == f
    ensures {f, NextFocus(f), NextFocus(NextFocus(f))} == {FocusSidebar, FocusContent, FocusTerminal}
  {
  }

  /** A two-button dialog's selection after moving back: Go's `%`. */
  function SelectionBack(sel: int): (r: int)
    ensures 0 <= sel <= 1 ==> r == 1 - sel
  {
    GoRem(sel - 1 + 2, 2)
  }

  /** A two-button dialog's selection after moving forward. */
  function SelectionForward(sel: int): (r: int)
    ensures 0 <= sel <= 1 ==> r == 1 - sel
  {
    GoRem(sel + 1, 2)
  }

  /** Both directions flip between the buttons, so either one undoes the
      other. */
  lemma SelectionMovesUndo(sel: int)
    requires 0 <= sel <= 1
    ensures SelectionBack(SelectionForward(sel)) == sel
    ensures SelectionForward(SelectionBack(sel)) == sel
  {
  }

  /** The commands offered for a scenario: switch to the dojo's context,
      then list the scenario namespace's pods. */
  function QuickCommands(namespace: string): seq<string>
  {
    ["kubectl config use-context kind-" + ClusterName, "kubectl get pods -n " + namespace]
  }

  // --------------------------------------------------------- panel sizes

  /** The height of the information panel for a main area `mainH` rows
      high: 40% of it, rounded toward zero, at least 8 rows. */
  function InfoHeight(mainH: int): int
  {
    var h := GoDiv(mainH * 40, 100);
    if h < 8 then 8 else h
  }

  /** The terminal panel takes the rest of the main area. */
  function TerminalHeight(mainH: int): int
  {
    mainH - InfoHeight(mainH)
  }

  /** For every window size the two panels split the main area exactly, the
      information panel is at least 8 rows and no taller than the terminal,
      and the terminal keeps at least 11 rows, so its emulator, 2 rows
      smaller, is never clamped. */
  lemma {:induction false} PanelsSplitMainArea(w: int, h: int)
    ensures var mainH := MainAreaHeight(NewLayout(w, h));
      InfoHeight(mainH) + TerminalHeight(mainH) == mainH &&
      8 <= InfoHeight(mainH) <= TerminalHeight(mainH) &&
      TerminalHeight(mainH) >= 11
  {
    NewLayoutIsNeverTooSmall(w, h);
    var mainH := MainAreaHeight(NewLayout(w, h));
    assert mainH >= 19;
    GoDivNonNegative(mainH * 40, 100);
    var q := (mainH * 40) / 100;
    assert q * 100 <= mainH * 40;
  }

  // ------------------------------------------------------ bootstrap steps

  /** Steps before `lead` are complete, the one at `lead` is under way, and
      the rest wait. */
  predicate StepsAt(steps: seq<Progress.ProgressStep>, lead: int)
  {
    forall i :: 0 <= i < |steps| ==> steps[i].complete == (i < lead) && steps[i].active == (i == lead)
  }

  /** The steps the bootstrap screen opens with: Docker and Kind are found,
      the node image is being pulled. */
  function InitialSteps(): (r: seq<Progress.ProgressStep>)
    ensures |r| == 5 && StepsAt(r, 2)
  {
    [Progress.ProgressStep("Docker detected", true, false),
     Progress.ProgressStep("Kind installed", true, false),
     Progress.ProgressStep("Pulling node image", false, true),
     Progress.ProgressStep("Starting control plane", false, false),
     Progress.ProgressStep("Configuring kubeconfig", false, false)]
  }

  /** One progress tick at step `step`: the step before it is completed and
      no longer under way, and `step` is under way. */
  function TickSteps(steps: seq<Progress.ProgressStep>, step: int): (r: seq<Progress.ProgressStep>)
    requires 0 <= step < |steps|
  {
    var s := if step > 0 then steps[step - 1 := steps[step - 1].(complete := true, active := false)] else steps;
    s[step := s[step].(active := true)]
  }

  /** Ticking keeps the labels, and moves the lead to the ticked step whether
      the lead was there already or one step behind. */
  lemma TickMovesLead(steps: seq<Progress.ProgressStep>, step: int)
    requires 0 <= step < |steps|
    requires StepsAt(steps, step - 1) || StepsAt(steps, step)
    ensures |TickSteps(steps, step)| == |steps|
    ensures forall i :: 0 <= i < |steps| ==> TickSteps(steps, step)[i].text == steps[i].text
    ensures StepsAt(TickSteps(steps, step), step)
  {
  }

  /** How the step list reads with its lead at `lead`: done before it,
      working at it, pending after it. */
  lemma StepListReading(steps: seq<Progress.ProgressStep>, lead: int, i: int)
    requires StepsAt(steps, lead) && 0 <= i < |steps|
    ensures Progress.IconOf(steps[i]) ==
      (if i < lead then Progress.Done else if i == lead then Progress.Working else Progress.Pending)
  {
  }

  /** Marks every step complete and none under way, keeping the labels. */
  method CompleteSteps(a: array<Progress.ProgressStep>)
    modifies a
    ensures StepsAt(a[..], a.Length)
    ensures forall i :: 0 <= i < a.Length ==> a[i].text == old(a[i].text)
  {
    for i := 0 to a.Length
      invariant StepsAt(a[..i], i)
      invariant forall j :: 0 <= j < a.Length ==> a[j].text == old(a[j].text)
      invariant forall j :: i <= j < a.Length ==> a[j] == old(a[j])
    {
      a[i] := a[i].(complete := true, active := false);
    }
  }


  /** Every field of the application that is not a component. The program's
      model is a struct that its handlers receive by value and hand back
      changed, so these fields are kept as one value that each handler
      replaces. */
  datatype AppState = AppState(
    view: View,
    /** The screen a quit dialog returns to. */
    previousView: View,
    focus: FocusArea,
    selectedVersion: int,
    bootstrapErr: Option<string>,
    /** The cluster is up and the registry built. */
    bootstrapRealDone: bool,
    /** The next step the animation will mark as under way. */
    bootstrapStep: int,
    kubeconfig: string,
    /** The scenario registry; the engine exists exactly when it does. */
    registry: Option<Registry>,
    /** Whether the completion store was opened. */
    storeOpen: bool,
    completedScenarios: map<string, bool>,
    /** A dialog's selected button: 0 is Yes, 1 is No. */
    confirmSelection: int,
    /** The success screen's selected button: 1 is Retry. */
    successButton: int,
    currentScenario: Option<Entry>,
    lastCheckResult: Result,
    width: int,
    height: int,
    layout: Layout,
    quitting: bool)
  {
    /** Version selection and bootstrap, with or without a quit dialog over
        the version list: no scenario has been picked yet. */
    predicate PreDashboard()
    {
      view == ViewVersionSelect || view == ViewBootstrap ||
      (view == ViewConfirmQuit && previousView == ViewVersionSelect)
    }

    /** The dashboard, or a dialog over it. */
    predicate OnDashboard()
    {
      view == ViewDashboard || view == ViewConfirmRestart ||
      (view == ViewConfirmQuit && previousView == ViewDashboard)
    }

    /** A screen that is about the current scenario. */
    predicate InScenario()
    {
      view == ViewScenarioRunning || view == ViewSuccess || view == ViewConfirmRestart ||
      (view == ViewConfirmQuit && (previousView == ViewScenarioRunning || previousView == ViewSuccess))
    }

    /** The selections stay on a button or a version; a quit dialog returns
        to a screen that can open one; no scenario is current before the
        dashboard, and one is on every screen about it, with an engine; the
        dashboard's sidebar holds the keyboard. */
    predicate Consistent()
    {
      0 <= selectedVersion < VersionCount &&
      0 <= confirmSelection <= 1 && 0 <= successButton <= 1 &&
      (previousView == ViewVersionSelect || previousView == ViewDashboard ||
       previousView == ViewScenarioRunning || previousView == ViewSuccess) &&
      (PreDashboard() ==> currentScenario.None?) &&
      (OnDashboard() ==> focus == FocusSidebar) &&
      (InScenario() ==> currentScenario.Some? && registry.Some?)
    }
  }

  /** The state a new application starts in: the version list with the
      first version selected, an 80 by 24 layout and nothing loaded. */
  const InitialState := AppState(ViewVersionSelect, ViewVersionSelect, FocusSidebar, 0, None, false, 0,
    "", None, false, map[], 0, 0, None, Result(false, ""), 0, 0, NewLayout(80, 24), false)

  class AppModel {
    const sidebar: Sidebar.SidebarModel
    const content: Content.ContentModel
    const bootstrap: Progress.ProgressModel
    const terminal: Terminal.TerminalModel
    /** The descriptions and hints of the scenarios, by ID. */
    const details: string -> Detail

    var st: AppState

    /** The panels' focus flags follow the focus field. */
    ghost predicate FocusStyled()
      reads this, sidebar, content, terminal
    {
      sidebar.focused == (st.focus == FocusSidebar) &&
      content.focused == (st.focus == FocusContent) &&
      terminal.focused == (st.focus == FocusTerminal)
    }

    /** The bootstrap screen shows five steps; the animation is between the
        third and the last, the bar is filled to the step's fraction, and
        the step list leads at the animation's step or one behind it. */
    ghost predicate BootShape()
      reads this, bootstrap
    {
      |bootstrap.steps| == 5 && 2 <= st.bootstrapStep <= 5 &&
      bootstrap.percent == st.bootstrapStep as real / 5.0 &&
      (StepsAt(bootstrap.steps, st.bootstrapStep - 1) || StepsAt(bootstrap.steps, st.bootstrapStep))
    }

    /** The panels keep their own invariants. */
    ghost predicate PanelsValid()
      reads sidebar, content, terminal
    {
      content.Valid() && terminal.Valid() &&
      Sidebar.Ready(sidebar.items, sidebar.expanded, sidebar.cursor)
    }

    /** The panels keep their invariants and the fields are consistent; the
        sidebar is empty until there is a registry; once past the bootstrap
        the panels show the focus; and the bootstrap screen has its shape. */
    ghost predicate Valid()
      reads this, sidebar, content, bootstrap, terminal
    {
      PanelsValid() && st.Consistent() &&
      (st.registry.None? ==> sidebar.items == []) &&
      (!st.PreDashboard() ==> FocusStyled()) &&
      (st.view == ViewBootstrap ==> BootShape())
    }

    /** A credential file name the shell may be given. */
    ghost predicate ShellFresh(shell: ShellStart)
      reads terminal
    {
      shell.tempName != "" && shell.tempName !in terminal.files
    }

    /** A new application shows the version list; no panel has the keyboard
        yet. */
    constructor (envShell: string, details: string -> Detail)
      ensures Valid()
      ensures fresh(sidebar) && fresh(content) && fresh(bootstrap) && fresh(terminal)
      ensures this.details == details
      ensures st == InitialState
      ensures !sidebar.focused && !content.focused && !terminal.focused
    {
      sidebar := new Sidebar.SidebarModel();
      content := new Content.ContentModel();
      bootstrap := new Progress.ProgressModel();
      terminal := new Terminal.TerminalModel(envShell);
      this.details := details;
      st := InitialState;
    }

    // ------------------------------------------------------ shared steps

    /** Hands each panel its focus flag. */
    method UpdateFocusStyles()
      requires PanelsValid()
      modifies sidebar, content, terminal
      ensures PanelsValid() && FocusStyled()
      ensures sidebar.Snapshot() == old(sidebar.Snapshot()).(focused := st.focus == FocusSidebar)
      ensures content.Snapshot() == old(content.Snapshot()).(focused := st.focus == FocusContent)
      ensures terminal.Snapshot() == old(terminal.Snapshot()).(focused := st.focus == FocusTerminal)
    {
      sidebar.SetFocus(st.focus == FocusSidebar);
      content.SetFocus(st.focus == FocusContent);
      terminal.SetFocus(st.focus == FocusTerminal);
    }

    /** Rebuilds the sidebar's tree from the registry and the completions:
        every registered scenario is listed once, under its category. */
    method BuildSidebar()
      requires st.registry.Some?
      modifies sidebar
      ensures Sidebar.Ready(sidebar.items, sidebar.expanded, sidebar.cursor)
      ensures SidebarTree(sidebar.items, List(st.registry.value), st.completedScenarios, details)
      ensures sidebar.totalCount == |st.registry.value.scenarios|
      ensures sidebar.focused == old(sidebar.focused) && sidebar.cursor == 0
    {
      var scenarios := List(st.registry.value);
      var items := BuildSidebarItems(scenarios, st.completedScenarios, details);
      TreeIsWellFormed(items, scenarios, st.completedScenarios, details);
      TreeCountsEveryScenario(items, scenarios, st.completedScenarios, details);
      sidebar.SetItems(items);
    }

    /** Rebuilds the sidebar, keeping the model valid; the rebuilt sidebar
        counts every registered scenario. */
    method RefreshSidebar()
      requires Valid() && st.registry.Some?
      modifies sidebar
      ensures Valid()
      ensures sidebar.totalCount == |st.registry.value.scenarios|
      ensures sidebar.focused == old(sidebar.focused)
    {
      BuildSidebar();
    }

    /** The quit key outside the bootstrap screen and the dialogs: a quit
        dialog opens over the current screen with No selected. */
    method AskQuit()
      requires Valid()
      requires st.view != ViewBootstrap && st.view != ViewConfirmQuit && st.view != ViewConfirmRestart
      modifies this
      ensures Valid()
      ensures st == old(st).(previousView := old(st.view), view := ViewConfirmQuit, confirmSelection := 1)
    {
      st := st.(previousView := st.view, view := ViewConfirmQuit, confirmSelection := 1);
    }

    /** The content panel shows scenario `e`: its name, description and
        namespace, its commands and its hints from the first, and a status
        saying it is being set up. */
    method ShowScenario(e: Entry)
      requires content.Valid()
      modifies content
      ensures content.Valid()
      ensures content.Snapshot() == old(content.Snapshot()).(title := e.name,
        description := details(e.id).description, namespace := e.namespace,
        status := "Setting up scenario environment...", statusOK := false,
        commands := QuickCommands(e.namespace), hints := details(e.id).hints, currentHint := 0)
    {
      content.SetScenario(e.name, details(e.id).description, e.namespace);
      content.SetCommands(QuickCommands(e.namespace));
      content.SetHints(details(e.id).hints);
      content.SetStatus("Setting up scenario environment...", false);
    }

    /** Starts the shell in the terminal panel; a shell that is running
        already is left alone. */
    method StartShell(shell: ShellStart) returns (refresh: bool)
      requires terminal.Valid() && ShellFresh(shell)
      modifies terminal
      ensures terminal.Valid()
      ensures terminal.focused == old(terminal.focused) && terminal.kubeconfig == old(terminal.kubeconfig)
      ensures refresh == !old(terminal.running)
      ensures terminal.running <==>
        old(terminal.running) ||
        ((terminal.kubeconfig == "" || (shell.created && shell.written)) && shell.ptyStarted)
    {
      refresh := terminal.Start(shell.created, shell.written, shell.tempName, shell.ptyStarted);
    }

    /** Opens the scenario `e`: the content panel shows it, the terminal
        gets the keyboard and the shell is started, and the engine is asked
        to set the scenario up. */
    method StartSelectedScenario(e: Entry, shell: ShellStart) returns (effects: seq<Effect>)
      requires Valid() && ShellFresh(shell)
      requires st.registry.Some? && st.currentScenario == Some(e)
      modifies this, sidebar, content, terminal
      ensures Valid()
      ensures st == old(st).(view := ViewScenarioRunning, focus := FocusTerminal)
      ensures content.title == e.name && content.namespace == e.namespace
      ensures content.hints == details(e.id).hints && content.currentHint == 0
      ensures content.commands == QuickCommands(e.namespace)
      ensures content.status == "Setting up scenario environment..." && !content.statusOK
      ensures terminal.focused && !sidebar.focused && !content.focused
      ensures terminal.running <==>
        old(terminal.running) ||
        ((terminal.kubeconfig == "" || (shell.created && shell.written)) && shell.ptyStarted)
      ensures effects == [StartScenario(e.id)] + (if old(terminal.running) then [] else [TerminalRefresh])
    {
      st := st.(view := ViewScenarioRunning, focus := FocusTerminal);
      var refresh := OpenScenarioPanels(e, shell);
      effects := [StartScenario(e.id)] + (if refresh then [TerminalRefresh] else []);
    }

    /** The panels' part of opening the scenario `e`: the content panel
        shows it, each panel takes the focus the model holds and the shell
        is started. */
    method OpenScenarioPanels(e: Entry, shell: ShellStart) returns (refresh: bool)
      requires PanelsValid() && ShellFresh(shell)
      modifies sidebar, content, terminal
      ensures PanelsValid() && FocusStyled()
      ensures content.title == e.name && content.namespace == e.namespace
      ensures content.hints == details(e.id).hints && content.currentHint == 0
      ensures content.commands == QuickCommands(e.namespace)
      ensures content.status == "Setting up scenario environment..." && !content.statusOK
      ensures refresh == !old(terminal.running)
      ensures terminal.running <==>
        old(terminal.running) ||
        ((terminal.kubeconfig == "" || (shell.created && shell.written)) && shell.ptyStarted)
    {
      ShowScenario(e);
      UpdateFocusStyles();
      refresh := StartShell(shell);
    }

    // ----------------------------------------------------- version list

    /** Up and down move through the versions without leaving the list;
        Enter opens the bootstrap screen at its third step and asks for the
        cluster. */
    method UpdateVersionSelect(name: string) returns (effects: seq<Effect>)
      requires Valid() && st.view == ViewVersionSelect
      modifies this, bootstrap
      ensures Valid()
      ensures ListKeyOf(name) == ListUp ==>
        st == old(st).(selectedVersion := Max(old(st.selectedVersion) - 1, 0)) &&
        effects == [] && unchanged(bootstrap)
      ensures ListKeyOf(name) == ListDown ==>
        st == old(st).(selectedVersion := Min(old(st.selectedVersion) + 1, VersionCount - 1)) &&
        effects == [] && unchanged(bootstrap)
      ensures ListKeyOf(name) == ListEnter ==>
        var v := Versions.SupportedVersions()[old(st.selectedVersion)];
        st == old(st).(view := ViewBootstrap, bootstrapStep := 2) &&
        bootstrap.Snapshot() == old(bootstrap.Snapshot()).(title := "Preparing Training Environment",
          subtitle := "Creating Kind cluster (" + v.version + ")...", steps := InitialSteps(), percent := 0.4) &&
        effects == [EnsureCluster(v), ProgressTickIn800ms]
      ensures ListKeyOf(name) == ListOther ==> st == old(st) && effects == [] && unchanged(bootstrap)
    {
      effects := [];
      match ListKeyOf(name)
      case ListUp =>
        if st.selectedVersion > 0 {
          st := st.(selectedVersion := st.selectedVersion - 1);
        }
      case ListDown =>
        if st.selectedVersion < VersionCount - 1 {
          st := st.(selectedVersion := st.selectedVersion + 1);
        }
      case ListEnter =>
        var v := Versions.SupportedVersions()[st.selectedVersion];
        ShowBootstrap(v);
        effects := [EnsureCluster(v), ProgressTickIn800ms];
      case ListOther =>
    }

    /** Opens the bootstrap screen for creating a cluster of version v: the
        first two steps are done and the third under way, and the bar is
        filled to match. */
    method ShowBootstrap(v: Versions.SupportedVersion)
      requires Valid() && st.view == ViewVersionSelect
      modifies this, bootstrap
      ensures Valid()
      ensures st == old(st).(view := ViewBootstrap, bootstrapStep := 2)
      ensures bootstrap.Snapshot() == old(bootstrap.Snapshot()).(title := "Preparing Training Environment",
        subtitle := "Creating Kind cluster (" + v.version + ")...", steps := InitialSteps(), percent := 0.4)
    {
      st := st.(view := ViewBootstrap, bootstrapStep := 2);
      LabelBootstrap(v);
    }

    /** Titles the bootstrap screen for version v and sets its steps and bar
        to the third step. */
    method LabelBootstrap(v: Versions.SupportedVersion)
      modifies bootstrap
      ensures bootstrap.Snapshot() == old(bootstrap.Snapshot()).(title := "Preparing Training Environment",
        subtitle := "Creating Kind cluster (" + v.version + ")...", steps := InitialSteps(), percent := 0.4)
    {
      bootstrap.SetTitle("Preparing Training Environment");
      bootstrap.SetSubtitle("Creating Kind cluster (" + v.version + ")...");
      var steps := InitialSteps();
      bootstrap.SetSteps(steps);
      bootstrap.SetPercent(2 as real / |steps| as real);
    }

    // -------------------------------------------------------- dashboard

    /** The scenario Enter opens on the dashboard: the registered scenario
        under the cursor, if the cursor is on a scenario line. */
    function Picked(name: string): (r: Option<Entry>)
      reads this, sidebar
      ensures r.Some? ==> st.registry.Some? && r.value in st.registry.value.scenarios
    {
      var sel := sidebar.SelectedItem();
      if name == "enter" && sel.Some? && !sel.value.isCategory && st.registry.Some?
      then Get(st.registry.value, sel.value.id)
      else None
    }

    /** Makes `e` current and opens it, or, when it is already completed,
        asks whether to restart it with No selected. */
    method PickScenario(e: Entry, shell: ShellStart) returns (effects: seq<Effect>)
      requires Valid() && st.view == ViewDashboard && st.registry.Some? && ShellFresh(shell)
      modifies this, sidebar, content, terminal
      ensures Valid()
      ensures IsDone(old(st.completedScenarios), e.id) ==>
        st == old(st).(view := ViewConfirmRestart, confirmSelection := 1, currentScenario := Some(e)) &&
        effects == [] && unchanged(sidebar, content, terminal)
      ensures !IsDone(old(st.completedScenarios), e.id) ==>
        st == old(st).(view := ViewScenarioRunning, focus := FocusTerminal, currentScenario := Some(e)) &&
        terminal.focused && |effects| > 0 && effects[0] == StartScenario(e.id) &&
        FinalDelayIn500ms !in effects && CheckScenario !in effects
    {
      if IsDone(st.completedScenarios, e.id) {
        st := st.(currentScenario := Some(e), view := ViewConfirmRestart, confirmSelection := 1);
        return [];
      }
      st := st.(currentScenario := Some(e));
      effects := StartSelectedScenario(e, shell);
    }

    /** Enter on a registered scenario picks it; every other key goes to
        the sidebar, which keeps its cursor on a line. */
    method UpdateDashboard(name: string, shell: ShellStart) returns (effects: seq<Effect>)
      requires Valid() && st.view == ViewDashboard && ShellFresh(shell)
      modifies this, sidebar, content, terminal
      ensures Valid()
      ensures old(Picked(name)).Some? ==>
        var e := old(Picked(name)).value;
        st.currentScenario == Some(e) && st.quitting == old(st.quitting) &&
        (IsDone(old(st.completedScenarios), e.id) ==> st.view == ViewConfirmRestart && effects == []) &&
        (!IsDone(old(st.completedScenarios), e.id) ==>
           st.view == ViewScenarioRunning && |effects| > 0 && effects[0] == StartScenario(e.id))
      ensures old(Picked(name)).None? ==>
        st == old(st) && effects == [] && unchanged(content, terminal) &&
        sidebar.Snapshot() == old(sidebar.Snapshot()).(cursor := sidebar.cursor, expanded := sidebar.expanded) &&
        sidebar.Snapshot() == Sidebar.AfterKey(old(sidebar.Snapshot()), name)
      ensures FinalDelayIn500ms !in effects && CheckScenario !in effects
    {
      var e := Picked(name);
      if e.Some? {
        effects := PickScenario(e.value, shell);
        return;
      }
      Sidebar.UpdateKeepsCursorOnLine(sidebar, name);
      effects := [];
    }

    // ------------------------------------------------- running scenario

    /** Escape from a running scenario as evidently intended: the engine
        cleans up, the shell stops and its credential file is removed, and
        the dashboard opens with the sidebar holding the keyboard. */
    method LeaveScenario() returns (effects: seq<Effect>)
      requires Valid() && st.view == ViewScenarioRunning
      modifies this, sidebar, content, terminal
      ensures Valid()
      ensures st == old(st).(view := ViewDashboard, currentScenario := None, focus := FocusSidebar)
      ensures sidebar.focused && !content.focused && !terminal.focused
      ensures !terminal.running && terminal.kubeconfigPath == ""
      ensures terminal.files == old(terminal.files) - {old(terminal.kubeconfigPath)}
      ensures effects == [EngineCleanup]
    {
      effects := if st.registry.Some? then [EngineCleanup] else [];
      terminal.StopReleasingCredentials();
      st := st.(view := ViewDashboard, currentScenario := None, focus := FocusSidebar);
      UpdateFocusStyles();
    }

    /** Escape from a running scenario as written: the focus is left where
        it was, so the dashboard's sidebar may not hold the keyboard, and
        the shell is stopped with the terminal's own Stop. */
    method LeaveScenarioAsWritten() returns (effects: seq<Effect>)
      requires Valid() && st.view == ViewScenarioRunning
      modifies this, terminal
      ensures st == old(st).(view := ViewDashboard, currentScenario := None)
      ensures terminal.focused == old(terminal.focused) && !terminal.running
      ensures effects == [EngineCleanup]
    {
      effects := if st.registry.Some? then [EngineCleanup] else [];
      terminal.Stop();
      st := st.(view := ViewDashboard, currentScenario := None);
    }

    /** A shortcut of the running scenario's screen, taken when the shell
        does not hold the keyboard: c asks for a check, h, n and p show,
        advance and go back through the hints, and Escape leaves the
        scenario. Returns whether the key is used up. */
    method RunShortcut(s: Shortcut) returns (effects: seq<Effect>, consumed: bool)
      requires Valid() && st.view == ViewScenarioRunning && st.focus != FocusTerminal
      modifies this, sidebar, content, terminal
      ensures Valid()
      ensures consumed <==> s == ShortCheck || s == ShortEscape
      ensures s == ShortCheck ==> st == old(st) && effects == [CheckScenario] && unchanged(sidebar, content, terminal)
      ensures s == ShortEscape ==>
        st == old(st).(view := ViewDashboard, currentScenario := None, focus := FocusSidebar) &&
        sidebar.focused && !terminal.running && effects == [EngineCleanup]
      ensures s == ShortToggleHints ==>
        content.Snapshot() == old(content.Snapshot()).(showHints := !old(content.showHints))
      ensures s == ShortNextHint ==>
        content.Snapshot() == old(content.Snapshot()).(currentHint := Content.NextHintIndex(old(content.currentHint), |content.hints|))
      ensures s == ShortPrevHint ==>
        content.Snapshot() == old(content.Snapshot()).(currentHint := Content.PrevHintIndex(old(content.currentHint), |content.hints|))
      ensures s == NoShortcut ==> unchanged(content)
      ensures !consumed ==> st == old(st) && effects == [] && unchanged(sidebar, terminal)
    {
      effects, consumed := [], false;
      match s
      case ShortCheck =>
        effects, consumed := [CheckScenario], true;
      case ShortToggleHints =>
        content.ToggleHints();
      case ShortNextHint =>
        content.NextHint();
      case ShortPrevHint =>
        content.PrevHint();
      case ShortEscape =>
        effects := LeaveScenario();
        consumed := true;
      case NoShortcut =>
    }

    /** The key reaches the focused panel: the sidebar, or the shell, which
        receives its bytes; the information panel's scrolling is not
        modelled. */
    method ForwardToPanel(k: Terminal.Key)
      requires Valid() && st.view == ViewScenarioRunning
      modifies sidebar, terminal
      ensures Valid()
      ensures st.focus == FocusSidebar ==>
        unchanged(terminal) &&
        sidebar.Snapshot() == Sidebar.AfterKey(old(sidebar.Snapshot()), Terminal.KeyName(k))
      ensures st.focus == FocusContent ==> unchanged(sidebar, terminal)
      ensures st.focus == FocusTerminal ==>
        unchanged(sidebar) &&
        terminal.Snapshot() == old(terminal.Snapshot()).(shellInput := old(terminal.shellInput) +
          (if terminal.hasPty && terminal.running && Terminal.KeyBytes(k).Some?
           then Terminal.KeyBytes(k).value else []))
    {
      if st.focus == FocusSidebar {
        Sidebar.UpdateKeepsCursorOnLine(sidebar, Terminal.KeyName(k));
      } else if st.focus == FocusTerminal {
        terminal.Update(k);
      }
    }

    /** A key on the running scenario's screen: a shortcut first, unless the
        shell holds the keyboard; then, unless the shortcut used it up, the
        focused panel. So h, n and p with the sidebar focused also collapse,
        or move through, the sidebar. */
    method UpdateScenarioRunning(k: Terminal.Key) returns (effects: seq<Effect>)
      requires Valid() && st.view == ViewScenarioRunning
      modifies this, sidebar, content, terminal
      ensures Valid()
      ensures old(st.focus) != FocusTerminal && ShortcutOf(Terminal.KeyName(k)) == ShortCheck ==>
        st == old(st) && effects == [CheckScenario] && unchanged(sidebar, content, terminal)
      ensures old(st.focus) != FocusTerminal && ShortcutOf(Terminal.KeyName(k)) == ShortEscape ==>
        st == old(st).(view := ViewDashboard, currentScenario := None, focus := FocusSidebar) &&
        sidebar.focused && !terminal.running && effects == [EngineCleanup]
      ensures old(st.focus) != FocusTerminal && ShortcutOf(Terminal.KeyName(k)) == ShortToggleHints ==>
        st == old(st) && effects == [] &&
        content.Snapshot() == old(content.Snapshot()).(showHints := !old(content.showHints))
      ensures old(st.focus) != FocusTerminal && ShortcutOf(Terminal.KeyName(k)) == ShortNextHint ==>
        content.Snapshot() == old(content.Snapshot()).(currentHint :=
          Content.NextHintIndex(old(content.currentHint), |content.hints|))
      ensures old(st.focus) != FocusTerminal && ShortcutOf(Terminal.KeyName(k)) == ShortPrevHint ==>
        content.Snapshot() == old(content.Snapshot()).(currentHint :=
          Content.PrevHintIndex(old(content.currentHint), |content.hints|))
      ensures old(st.focus) != FocusTerminal && ShortcutOf(Terminal.KeyName(k)) == NoShortcut ==>
        unchanged(content)
      ensures old(st.focus) == FocusSidebar && ShortcutOf(Terminal.KeyName(k)) !in {ShortCheck, ShortEscape} ==>
        unchanged(terminal) && sidebar.Snapshot() == Sidebar.AfterKey(old(sidebar.Snapshot()), Terminal.KeyName(k))
      ensures old(st.focus) == FocusContent && ShortcutOf(Terminal.KeyName(k)) !in {ShortCheck, ShortEscape} ==>
        unchanged(sidebar, terminal)
      ensures !(old(st.focus) != FocusTerminal &&
                ShortcutOf(Terminal.KeyName(k)) in {ShortCheck, ShortEscape}) ==>
        st == old(st) && effects == []
      ensures old(st.focus) == FocusTerminal ==>
        unchanged(sidebar, content) &&
        terminal.Snapshot() == old(terminal.Snapshot()).(shellInput := old(terminal.shellInput) +
          (if terminal.hasPty && terminal.running && Terminal.KeyBytes(k).Some?
           then Terminal.KeyBytes(k).value else []))
      ensures FinalDelayIn500ms !in effects
    {
      if st.focus != FocusTerminal {
        var consumed;
        effects, consumed := RunShortcut(ShortcutOf(Terminal.KeyName(k)));
        if consumed {
          return;
        }
      }
      ForwardToPanel(k);
      effects := [];
    }

    // ---------------------------------------------------- success screen

    /** Retry: the scenario is set up again and checks resume; the shell is
        left as it is. */
    method Retry() returns (effects: seq<Effect>)
      requires Valid() && st.view == ViewSuccess
      modifies this
      ensures Valid()
      ensures st == old(st).(view := ViewScenarioRunning)
      ensures effects == [StartScenario(st.currentScenario.value.id), CheckTickInInterval]
    {
      st := st.(view := ViewScenarioRunning);
      effects := [StartScenario(st.currentScenario.value.id), CheckTickInInterval];
    }

    /** Back to the dashboard: the scenario counts as completed, the engine
        cleans up, the sidebar is rebuilt and holds the keyboard, and no
        scenario is current. */
    method ReturnToDashboard() returns (effects: seq<Effect>)
      requires Valid() && st.view == ViewSuccess
      modifies this, sidebar, content, terminal
      ensures Valid()
      ensures st == old(st).(view := ViewDashboard, focus := FocusSidebar,
        completedScenarios := old(st.completedScenarios)[old(st.currentScenario).value.id := true],
        currentScenario := None, lastCheckResult := Result(false, ""))
      ensures sidebar.totalCount == |st.registry.value.scenarios|
      ensures sidebar.focused && !content.focused && !terminal.focused
      ensures effects == [EngineCleanup]
    {
      var completed := st.completedScenarios;
      if st.currentScenario.Some? {
        completed := completed[st.currentScenario.value.id := true];
      }
      effects := if st.registry.Some? then [EngineCleanup] else [];
      st := st.(completedScenarios := completed, view := ViewDashboard, focus := FocusSidebar,
        currentScenario := None, lastCheckResult := Result(false, ""));
      UpdateFocusStyles();
      RefreshSidebar();
    }

    /** The success screen: the arrows and tab move between its two
        buttons, Enter presses the selected one, m returns to the dashboard
        and r retries. */
    method UpdateSuccess(name: string) returns (effects: seq<Effect>)
      requires Valid() && st.view == ViewSuccess
      modifies this, sidebar, content, terminal
      ensures Valid()
      ensures BindingOf(name) in {BindBack, BindForward} ==>
        st == old(st).(successButton := st.successButton) && effects == []
      ensures BindingOf(name) == BindRetry || (BindingOf(name) == BindEnter && old(st.successButton) == 1) ==>
        st == old(st).(view := ViewScenarioRunning) &&
        effects == [StartScenario(old(st.currentScenario).value.id), CheckTickInInterval]
      ensures BindingOf(name) == BindMenu || (BindingOf(name) == BindEnter && old(st.successButton) != 1) ==>
        st.view == ViewDashboard && st.currentScenario.None? && st.focus == FocusSidebar &&
        st.quitting == old(st.quitting) &&
        st.completedScenarios == old(st.completedScenarios)[old(st.currentScenario).value.id := true] &&
        effects == [EngineCleanup]
      ensures BindingOf(name) in {BindCancel, BindYes, BindNo, BindOther} ==> st == old(st) && effects == []
    {
      var b := BindingOf(name);
      if b == BindBack || b == BindForward {
        // the success screen's buttons are not part of this model
        var button :| 0 <= button <= 1;
        st := st.(successButton := button);
        effects := [];
      } else if b == BindRetry || (b == BindEnter && st.successButton == 1) {
        effects := Retry();
      } else if b == BindMenu || b == BindEnter {
        effects := ReturnToDashboard();
      } else {
        effects := [];
      }
    }

    // ----------------------------------------------------------- dialogs

    /** The restart dialog: the arrows and tab flip the selection, Enter on
        Yes or y opens the scenario again, and Enter on No, n, Escape or the
        quit key go back to the dashboard with no scenario current. */
    method UpdateConfirmRestart(name: string, shell: ShellStart) returns (effects: seq<Effect>)
      requires Valid() && st.view == ViewConfirmRestart && ShellFresh(shell)
      modifies this, sidebar, content, terminal
      ensures Valid()
      ensures BindingOf(name) in {BindBack, BindForward} ==>
        st == old(st).(confirmSelection := 1 - old(st.confirmSelection)) && effects == []
      ensures BindingOf(name) == BindYes || (BindingOf(name) == BindEnter && old(st.confirmSelection) == 0) ==>
        st == old(st).(view := ViewScenarioRunning, focus := FocusTerminal) &&
        terminal.focused && |effects| > 0 && effects[0] == StartScenario(old(st.currentScenario).value.id) &&
        FinalDelayIn500ms !in effects && CheckScenario !in effects
      ensures BindingOf(name) in {BindNo, BindCancel} || (BindingOf(name) == BindEnter && old(st.confirmSelection) != 0) ==>
        st == old(st).(view := ViewDashboard, currentScenario := None) && effects == []
      ensures BindingOf(name) in {BindMenu, BindRetry, BindOther} ==> st == old(st) && effects == []
    {
      var b := BindingOf(name);
      if b == BindYes || (b == BindEnter && st.confirmSelection == 0) {
        effects := RestartScenario(shell);
      } else {
        RestartDialogStays(b);
        effects := [];
      }
    }

    /** The restart dialog's keys other than the one that restarts: flip the
        selection, go back to the dashboard, or nothing. */
    method RestartDialogStays(b: Binding)
      requires Valid() && st.view == ViewConfirmRestart
      requires !(b == BindYes || (b == BindEnter && st.confirmSelection == 0))
      modifies this
      ensures Valid()
      ensures b in {BindBack, BindForward} ==> st == old(st).(confirmSelection := 1 - old(st.confirmSelection))
      ensures b in {BindNo, BindCancel, BindEnter} ==> st == old(st).(view := ViewDashboard, currentScenario := None)
      ensures b in {BindMenu, BindRetry, BindOther} ==> st == old(st)
    {
      if b == BindBack {
        st := st.(confirmSelection := SelectionBack(st.confirmSelection));
      } else if b == BindForward {
        st := st.(confirmSelection := SelectionForward(st.confirmSelection));
      } else if b == BindNo || b == BindCancel || b == BindEnter {
        st := st.(view := ViewDashboard, currentScenario := None);
      }
    }

    /** Yes in the restart dialog: the scenario it was opened for starts
        again, with the terminal holding the keyboard. */
    method RestartScenario(shell: ShellStart) returns (effects: seq<Effect>)
      requires Valid() && st.view == ViewConfirmRestart && ShellFresh(shell)
      modifies this, sidebar, content, terminal
      ensures Valid()
      ensures st == old(st).(view := ViewScenarioRunning, focus := FocusTerminal)
      ensures terminal.focused && |effects| > 0 && effects[0] == StartScenario(old(st.currentScenario).value.id)
      ensures FinalDelayIn500ms !in effects && CheckScenario !in effects
    {
      effects := StartSelectedScenario(st.currentScenario.value, shell);
    }

    /** The quit dialog as evidently intended: the arrows and tab flip the
        selection, Enter on Yes or y quit, and Enter on No, n, Escape or the
        quit key return to the screen the dialog was opened over. */
    method UpdateConfirmQuit(name: string) returns (effects: seq<Effect>)
      requires Valid() && st.view == ViewConfirmQuit
      modifies this
      ensures Valid()
      ensures BindingOf(name) in {BindBack, BindForward} ==>
        st == old(st).(confirmSelection := 1 - old(st.confirmSelection)) && effects == []
      ensures BindingOf(name) == BindYes || (BindingOf(name) == BindEnter && old(st.confirmSelection) == 0) ==>
        st == old(st).(quitting := true) && effects == [CleanupAndQuit]
      ensures BindingOf(name) in {BindNo, BindCancel} || (BindingOf(name) == BindEnter && old(st.confirmSelection) != 0) ==>
        st == old(st).(view := old(st.previousView)) && effects == []
      ensures BindingOf(name) in {BindMenu, BindRetry, BindOther} ==> st == old(st) && effects == []
    {
      effects := [];
      var b := BindingOf(name);
      if b == BindBack {
        st := st.(confirmSelection := SelectionBack(st.confirmSelection));
      } else if b == BindForward {
        st := st.(confirmSelection := SelectionForward(st.confirmSelection));
      } else if b == BindYes || (b == BindEnter && st.confirmSelection == 0) {
        st := st.(quitting := true);
        effects := [CleanupAndQuit];
      } else if b == BindNo || b == BindCancel || b == BindEnter {
        st := st.(view := st.previousView);
      }
    }

    /** The quit dialog as written: Enter on No goes to the dashboard
        whatever screen the dialog was opened over. */
    method UpdateConfirmQuitAsWritten(name: string) returns (effects: seq<Effect>)
      requires Valid() && st.view == ViewConfirmQuit
      modifies this
      ensures BindingOf(name) == BindEnter && old(st.confirmSelection) != 0 ==>
        st == old(st).(view := ViewDashboard) && effects == []
      ensures !(BindingOf(name) == BindEnter && old(st.confirmSelection) != 0) ==> Valid()
    {
      if BindingOf(name) == BindEnter && st.confirmSelection != 0 {
        st := st.(view := ViewDashboard);
        effects := [];
      } else {
        effects := UpdateConfirmQuit(name);
      }
    }

    // ---------------------------------------------------------- messages

    /** The key goes to the screen shown. */
    method DispatchKey(k: Terminal.Key, shell: ShellStart) returns (effects: seq<Effect>)
      requires Valid() && ShellFresh(shell)
      modifies this, sidebar, content, bootstrap, terminal
      ensures Valid()
      ensures old(st.view) == ViewScenarioRunning && old(st.focus) == FocusTerminal ==>
        st == old(st) && effects == [] &&
        terminal.shellInput == old(terminal.shellInput) +
          (if terminal.hasPty && terminal.running && Terminal.KeyBytes(k).Some?
           then Terminal.KeyBytes(k).value else [])
      ensures old(st.view) == ViewBootstrap ==>
        st == old(st) && bootstrap.Snapshot() == old(bootstrap.Snapshot()) && effects == []
      ensures old(st.view) != ViewVersionSelect ==> bootstrap.Snapshot() == old(bootstrap.Snapshot())
      ensures FinalDelayIn500ms !in effects
      ensures CheckScenario in effects ==> old(st.view) == ViewScenarioRunning
      ensures !old(st.quitting) && st.quitting ==> effects == [CleanupAndQuit]
    {
      var name := Terminal.KeyName(k);
      match st.view
      case ViewVersionSelect =>
        effects := UpdateVersionSelect(name);
      case ViewBootstrap =>
        bootstrap.Update(Progress.OtherMsg);
        effects := [];
      case ViewDashboard =>
        effects := UpdateDashboard(name, shell);
      case ViewScenarioRunning =>
        effects := UpdateScenarioRunning(k);
      case ViewSuccess | ViewConfirmRestart | ViewConfirmQuit =>
        effects := DispatchButtonsKey(name, shell);
    }

    /** The key goes to the success screen or the dialog shown: none of them
        touches the bootstrap screen, arms the final delay or asks for a
        check. */
    method DispatchButtonsKey(name: string, shell: ShellStart) returns (effects: seq<Effect>)
      requires Valid() && ShellFresh(shell)
      requires st.view == ViewSuccess || st.view == ViewConfirmRestart || st.view == ViewConfirmQuit
      modifies this, sidebar, content, terminal
      ensures Valid()
      ensures FinalDelayIn500ms !in effects && CheckScenario !in effects
      ensures !old(st.quitting) && st.quitting ==> effects == [CleanupAndQuit]
    {
      if st.view == ViewSuccess {
        effects := UpdateSuccess(name);
      } else if st.view == ViewConfirmRestart {
        effects := UpdateConfirmRestart(name, shell);
      } else {
        effects := UpdateConfirmQuit(name);
      }
    }

    /** Tab on the running scenario's screen passes the keyboard on. */
    method CycleFocus()
      requires Valid() && st.view == ViewScenarioRunning
      modifies this, sidebar, content, terminal
      ensures Valid()
      ensures st == old(st).(focus := NextFocus(old(st.focus)))
      ensures terminal.Snapshot() == old(terminal.Snapshot()).(focused := st.focus == FocusTerminal)
      ensures unchanged(bootstrap)
    {
      st := st.(focus := NextFocus(st.focus));
      UpdateFocusStyles();
    }

    /** A key press. The quit key quits at once on the bootstrap screen,
        is left to the dialogs, is ignored while the shell holds the
        keyboard, and opens the quit dialog elsewhere. Tab on the running
        scenario's screen passes the keyboard on. The key then goes to the
        screen shown; so ctrl+c reaches the shell while it holds the
        keyboard. */
    method HandleKey(k: Terminal.Key, shell: ShellStart) returns (effects: seq<Effect>)
      requires Valid() && ShellFresh(shell)
      modifies this, sidebar, content, bootstrap, terminal
      ensures Valid()
      ensures Terminal.KeyName(k) in QuitKeys && old(st.view) == ViewBootstrap ==>
        st == old(st).(quitting := true) && effects == [CleanupAndQuit]
      ensures (Terminal.KeyName(k) in QuitKeys &&
               (old(st.view) in {ViewVersionSelect, ViewDashboard, ViewSuccess} ||
                (old(st.view) == ViewScenarioRunning && old(st.focus) != FocusTerminal))) ==>
          st == old(st).(previousView := old(st.view), view := ViewConfirmQuit, confirmSelection := 1) &&
          effects == []
      ensures old(st.view) == ViewScenarioRunning && old(st.focus) == FocusTerminal && Terminal.KeyName(k) != "tab" ==>
        st == old(st) && effects == [] &&
        terminal.shellInput == old(terminal.shellInput) +
          (if terminal.hasPty && terminal.running && Terminal.KeyBytes(k).Some?
           then Terminal.KeyBytes(k).value else [])
      ensures old(st.view) == ViewBootstrap ==>
        st.view == ViewBootstrap && bootstrap.Snapshot() == old(bootstrap.Snapshot())
      ensures FinalDelayIn500ms !in effects
      ensures CheckScenario in effects ==> old(st.view) == ViewScenarioRunning
      ensures !old(st.quitting) && st.quitting ==> effects == [CleanupAndQuit]
    {
      var name := Terminal.KeyName(k);
      var allowQuit := !(st.view == ViewScenarioRunning && st.focus == FocusTerminal);
      if allowQuit && name in QuitKeys {
        if st.view == ViewBootstrap {
          st := st.(quitting := true);
          return [CleanupAndQuit];
        }
        if st.view != ViewConfirmQuit && st.view != ViewConfirmRestart {
          AskQuit();
          return [];
        }
      }
      if name == "tab" && st.view == ViewScenarioRunning {
        CycleFocus();
      }
      effects := DispatchKey(k, shell);
    }

    /** A new window size: the layout is recomputed and each panel sized;
        the main area is split 40/60 between the information panel and the
        terminal, and the terminal's emulator gets the panel's inner size
        without ever being clamped. */
    method HandleWindowSize(w: int, h: int)
      requires Valid()
      modifies this, sidebar, content, bootstrap, terminal
      ensures Valid()
      ensures st == old(st).(width := w, height := h, layout := NewLayout(w, h))
      ensures PanelsSized(w, h)
      ensures bootstrap.Snapshot() == old(bootstrap.Snapshot()).(width := w, barWidth := Progress.BarWidth(w))
      ensures terminal.focused == old(terminal.focused) && terminal.running == old(terminal.running)
      ensures terminal.shellInput == old(terminal.shellInput)
      ensures terminal.Snapshot() == old(terminal.Snapshot()).(width := terminal.width, height := terminal.height,
        termCols := terminal.termCols, termRows := terminal.termRows,
        ptySize := if terminal.hasPty then Some(Terminal.WinSize(U16(terminal.termRows), U16(terminal.termCols))) else old(terminal.ptySize))
      ensures sidebar.Snapshot() == old(sidebar.Snapshot()).(width := sidebar.width, height := sidebar.height)
      ensures content.Snapshot() == old(content.Snapshot()).(width := content.width, height := content.height,
        viewportWidth := content.viewportWidth, viewportHeight := content.viewportHeight)
    {
      st := st.(width := w, height := h, layout := NewLayout(w, h));
      SizePanels(w, h);
      bootstrap.SetWidth(w);
    }

    /** The panels' sizes for a w by h window: the sidebar takes the main
        area's height, the information panel and the terminal share it, each
        panel's inner area is its own size less its frame, and the shell
        always has at least 32 columns and 9 rows. */
    predicate PanelsSized(w: int, h: int)
      reads sidebar, content, terminal
    {
      var l := NewLayout(w, h);
      var mainH := MainAreaHeight(l);
      sidebar.width == l.sidebarWidth && sidebar.height == mainH &&
      content.width == l.contentWidth && content.height == InfoHeight(mainH) &&
      content.viewportWidth == l.contentWidth - 6 && content.viewportHeight == InfoHeight(mainH) - 10 &&
      terminal.width == l.contentWidth && terminal.height == TerminalHeight(mainH) &&
      terminal.termCols == l.contentWidth - 4 && terminal.termRows == TerminalHeight(mainH) - 2 &&
      content.height + terminal.height == mainH &&
      terminal.termCols >= 32 && terminal.termRows >= 9
    }

    /** Sizes the sidebar, the information panel and the terminal for a w by
        h window. */
    method SizePanels(w: int, h: int)
      requires PanelsValid()
      modifies sidebar, content, terminal
      ensures PanelsValid() && PanelsSized(w, h)
      ensures sidebar.Snapshot() == old(sidebar.Snapshot()).(width := sidebar.width, height := sidebar.height)
      ensures content.Snapshot() == old(content.Snapshot()).(width := content.width, height := content.height,
        viewportWidth := content.viewportWidth, viewportHeight := content.viewportHeight)
      ensures terminal.focused == old(terminal.focused) && terminal.running == old(terminal.running)
      ensures terminal.shellInput == old(terminal.shellInput)
      ensures terminal.Snapshot() == old(terminal.Snapshot()).(width := terminal.width, height := terminal.height,
        termCols := terminal.termCols, termRows := terminal.termRows,
        ptySize := if terminal.hasPty then Some(Terminal.WinSize(U16(terminal.termRows), U16(terminal.termCols))) else old(terminal.ptySize))
    {
      var l := NewLayout(w, h);
      PanelsSplitMainArea(w, h);
      var mainH := MainAreaHeight(l);
      sidebar.SetSize(l.sidebarWidth, mainH);
      content.SetSize(l.contentWidth, InfoHeight(mainH));
      terminal.SetSize(l.contentWidth, TerminalHeight(mainH));
    }

    /** Installs what a finished bootstrap brings: the kubeconfig, for the
        shell too, the registry, the completions when the store opens and
        loads, and the sidebar listing every scenario. */
    method InstallRegistry(kc: string, reg: Registry, storeOpened: bool, loaded: Option<map<string, bool>>)
      requires Valid()
      modifies this, sidebar, terminal
      ensures Valid()
      ensures st == old(st).(kubeconfig := kc, registry := Some(reg), storeOpen := storeOpened,
          completedScenarios := if storeOpened && loaded.Some? then loaded.value else old(st.completedScenarios),
          bootstrapRealDone := true)
      ensures terminal.Snapshot() == old(terminal.Snapshot()).(kubeconfig := kc)
      ensures sidebar.totalCount == |reg.scenarios|
    {
      var completed := if storeOpened && loaded.Some? then loaded.value else st.completedScenarios;
      st := st.(kubeconfig := kc, registry := Some(reg), storeOpen := storeOpened,
        completedScenarios := completed, bootstrapRealDone := true);
      InstallPanels(kc);
    }

    /** The panels' part of installing a registry: the shell gets the
        kubeconfig and the sidebar lists the registered scenarios. */
    method InstallPanels(kc: string)
      requires PanelsValid() && st.registry.Some?
      modifies sidebar, terminal
      ensures PanelsValid()
      ensures terminal.Snapshot() == old(terminal.Snapshot()).(kubeconfig := kc)
      ensures sidebar.totalCount == |st.registry.value.scenarios| && sidebar.focused == old(sidebar.focused)
    {
      terminal.SetKubeconfig(kc);
      BuildSidebar();
    }

    /** Completes the step list and fills the bar, announcing the cluster
        as ready. */
    method FinishSteps()
      modifies bootstrap
      ensures bootstrap.Snapshot() == old(bootstrap.Snapshot()).(subtitle := "Cluster ready!",
        steps := bootstrap.steps, percent := 1.0)
      ensures |bootstrap.steps| == |old(bootstrap.steps)| && StepsAt(bootstrap.steps, |bootstrap.steps|)
      ensures forall i :: 0 <= i < |bootstrap.steps| ==> bootstrap.steps[i].text == old(bootstrap.steps[i].text)
    {
      var steps := bootstrap.GetSteps();
      bootstrap.SetSubtitle("Cluster ready!");
      CompleteSteps(steps);
      bootstrap.SetSteps(steps[..]);
      bootstrap.SetPercent(1.0);
    }

    /** A finished bootstrap. A cluster or client error is recorded and
        nothing else happens. Otherwise the registry is installed and, when
        the animation has already run out, the step list is completed and
        the final delay is armed. */
    method HandleBootstrapDone(kc: string, err: Option<string>, clientErr: Option<string>,
                               storeOpened: bool, loaded: Option<map<string, bool>>)
      returns (effects: seq<Effect>)
      requires Valid()
      modifies this, sidebar, bootstrap, terminal
      ensures Valid()
      ensures err.Some? ==>
        st == old(st).(bootstrapErr := err) && effects == [] && unchanged(sidebar, bootstrap, terminal)
      ensures err.None? && clientErr.Some? ==>
        st == old(st).(bootstrapErr := clientErr) && effects == [] && unchanged(sidebar, bootstrap, terminal)
      ensures err.None? && clientErr.None? ==>
        st == old(st).(kubeconfig := kc, registry := Some(NewRegistry()), storeOpen := storeOpened,
          completedScenarios := if storeOpened && loaded.Some? then loaded.value else old(st.completedScenarios),
          bootstrapRealDone := true) &&
        sidebar.totalCount == 30
      ensures err.None? && clientErr.None? && old(st.bootstrapStep) >= |old(bootstrap.steps)| ==>
        bootstrap.subtitle == "Cluster ready!" && bootstrap.percent == 1.0 &&
        |bootstrap.steps| == |old(bootstrap.steps)| && StepsAt(bootstrap.steps, |bootstrap.steps|) &&
        effects == [FinalDelayIn500ms]
      ensures err.None? && clientErr.None? && old(st.bootstrapStep) < |old(bootstrap.steps)| ==>
        unchanged(bootstrap) && effects == []
    {
      if err.Some? {
        st := st.(bootstrapErr := err);
        return [];
      }
      if clientErr.Some? {
        st := st.(bootstrapErr := clientErr);
        return [];
      }
      InstallRegistry(kc, NewRegistry(), storeOpened, loaded);
      effects := FinishIfAnimationDone();
    }

    /** With the cluster up: when the animation has already run out, the
        step list is completed and the final delay is armed; otherwise the
        animation's next tick will see that the cluster is up. */
    method FinishIfAnimationDone() returns (effects: seq<Effect>)
      requires Valid()
      modifies bootstrap
      ensures Valid()
      ensures st.bootstrapStep >= |old(bootstrap.steps)| ==>
        bootstrap.subtitle == "Cluster ready!" && bootstrap.percent == 1.0 &&
        |bootstrap.steps| == |old(bootstrap.steps)| && StepsAt(bootstrap.steps, |bootstrap.steps|) &&
        effects == [FinalDelayIn500ms]
      ensures st.bootstrapStep < |old(bootstrap.steps)| ==> unchanged(bootstrap) && effects == []
    {
      if st.bootstrapStep >= |bootstrap.steps| {
        FinishSteps();
        return [FinalDelayIn500ms];
      }
      effects := [];
    }

    /** A check's result. With an engine, the status line shows it; a
        solved scenario is recorded as completed, in the store too when it
        is open, and the success screen opens. Anything else arms the next
        check. A solved result with no current scenario (it arrived after
        the scenario was left) is treated as unsolved. */
    method HandleCheckResult(r: Result) returns (effects: seq<Effect>)
      requires Valid()
      modifies this, content
      ensures Valid()
      ensures old(st.registry).Some? && r.solved && old(st.currentScenario).Some? ==>
        var id := old(st.currentScenario).value.id;
        st == old(st).(lastCheckResult := r, view := ViewSuccess,
          completedScenarios := old(st.completedScenarios)[id := true]) &&
        effects == (if st.storeOpen then [MarkCompleted(id)] else [])
      ensures !(old(st.registry).Some? && r.solved && old(st.currentScenario).Some?) ==>
        st == old(st).(lastCheckResult := r) && effects == [CheckTickInInterval]
      ensures old(st.registry).Some? ==>
        content.Snapshot() == old(content.Snapshot()).(status := r.message, statusOK := r.solved)
      ensures old(st.registry).None? ==> unchanged(content)
    {
      if st.registry.Some? {
        content.SetStatus(r.message, r.solved);
      }
      effects := RecordResult(r);
    }

    /** The model's part of a check's result: a solved one for the current
        scenario marks it completed and opens the success screen; any other
        arms the next check. */
    method RecordResult(r: Result) returns (effects: seq<Effect>)
      requires Valid()
      modifies this
      ensures Valid()
      ensures st.registry.Some? && r.solved && old(st.currentScenario).Some? ==>
        var id := old(st.currentScenario).value.id;
        st == old(st).(lastCheckResult := r, view := ViewSuccess,
          completedScenarios := old(st.completedScenarios)[id := true]) &&
        effects == (if st.storeOpen then [MarkCompleted(id)] else [])
      ensures !(st.registry.Some? && r.solved && old(st.currentScenario).Some?) ==>
        st == old(st).(lastCheckResult := r) && effects == [CheckTickInInterval]
    {
      if st.registry.Some? && r.solved && st.currentScenario.Some? {
        var id := st.currentScenario.value.id;
        effects := if st.storeOpen then [MarkCompleted(id)] else [];
        st := st.(lastCheckResult := r, completedScenarios := st.completedScenarios[id := true],
          view := ViewSuccess);
      } else {
        st := st.(lastCheckResult := r);
        effects := [CheckTickInInterval];
      }
    }

    /** The check's result as written: a solved result that arrives when no
        scenario is current dereferences the missing scenario, and the
        program panics. */
    method HandleCheckResultAsWritten(r: Result) returns (effects: seq<Effect>, panics: bool)
      requires Valid()
      modifies this, content
      ensures panics <==> old(st.registry).Some? && r.solved && old(st.currentScenario).None?
      ensures !panics ==> Valid()
    {
      panics := st.registry.Some? && r.solved && st.currentScenario.None?;
      if panics {
        st := st.(lastCheckResult := r);
        content.SetStatus(r.message, r.solved);
        effects := [];
        return;
      }
      effects := HandleCheckResult(r);
    }

    /** Advances the step list at the animation's step: the step before it
        completes and the step itself gets under way, and the bar is filled
        to the step's fraction. */
    method TickStep()
      requires 0 <= st.bootstrapStep < |bootstrap.steps|
      modifies bootstrap
      ensures bootstrap.Snapshot() == old(bootstrap.Snapshot()).(steps := TickSteps(old(bootstrap.steps), st.bootstrapStep),
        percent := (st.bootstrapStep + 1) as real / |old(bootstrap.steps)| as real)
    {
      var step := st.bootstrapStep;
      var steps := bootstrap.GetSteps();
      var n := steps.Length;
      ghost var before := steps[..];
      if step > 0 {
        steps[step - 1] := steps[step - 1].(complete := true, active := false);
      }
      steps[step] := steps[step].(active := true);
      assert steps[..] == TickSteps(before, step);
      bootstrap.SetSteps(steps[..]);
      bootstrap.SetPercent((step + 1) as real / n as real);
    }

    /** An animation tick on the bootstrap screen. Past the last step it arms
        the final delay once the cluster is up, and otherwise says it is
        finishing; before that it moves the step list on, arms the next tick,
        and the bar only grows. */
    method HandleProgressTick() returns (effects: seq<Effect>)
      requires Valid()
      modifies this, bootstrap
      ensures Valid()
      ensures old(st.view) != ViewBootstrap ==> st == old(st) && unchanged(bootstrap) && effects == []
      ensures old(st.view) == ViewBootstrap && old(st.bootstrapStep) >= |old(bootstrap.steps)| ==>
        st == old(st) &&
        (st.bootstrapRealDone ==> unchanged(bootstrap) && effects == [FinalDelayIn500ms]) &&
        (!st.bootstrapRealDone ==>
           bootstrap.Snapshot() == old(bootstrap.Snapshot()).(subtitle := "Finalizing cluster setup...") &&
           effects == [])
      ensures old(st.view) == ViewBootstrap && old(st.bootstrapStep) < |old(bootstrap.steps)| ==>
        st == old(st).(bootstrapStep := old(st.bootstrapStep) + 1) &&
        bootstrap.steps == TickSteps(old(bootstrap.steps), old(st.bootstrapStep)) &&
        StepsAt(bootstrap.steps, old(st.bootstrapStep)) &&
        bootstrap.percent == st.bootstrapStep as real / 5.0 &&
        bootstrap.percent > old(bootstrap.percent) &&
        effects == [ProgressTickIn800ms]
    {
      if st.view != ViewBootstrap {
        return [];
      }
      if st.bootstrapStep >= |bootstrap.steps| {
        if st.bootstrapRealDone {
          return [FinalDelayIn500ms];
        }
        bootstrap.SetSubtitle("Finalizing cluster setup...");
        return [];
      }
      AdvanceAnimation();
      effects := [ProgressTickIn800ms];
    }

    /** Moves the animation one step on: the step list and the bar follow,
        and the bar grows. */
    method AdvanceAnimation()
      requires Valid() && st.view == ViewBootstrap && st.bootstrapStep < |bootstrap.steps|
      modifies this, bootstrap
      ensures Valid()
      ensures st == old(st).(bootstrapStep := old(st.bootstrapStep) + 1)
      ensures bootstrap.steps == TickSteps(old(bootstrap.steps), old(st.bootstrapStep))
      ensures StepsAt(bootstrap.steps, old(st.bootstrapStep))
      ensures bootstrap.percent == st.bootstrapStep as real / 5.0 && bootstrap.percent > old(bootstrap.percent)
      ensures bootstrap.Snapshot() == old(bootstrap.Snapshot()).(steps := bootstrap.steps, percent := bootstrap.percent)
    {
      TickMovesLead(bootstrap.steps, st.bootstrapStep);
      TickStep();
      st := st.(bootstrapStep := st.bootstrapStep + 1);
    }

    /** The end of the bootstrap: the dashboard opens with the sidebar
        holding the keyboard. */
    method FinalizeBootstrap()
      requires Valid()
      modifies this, sidebar, content, terminal
      ensures Valid()
      ensures st == old(st).(view := ViewDashboard, focus := FocusSidebar)
      ensures sidebar.focused && !content.focused && !terminal.focused
    {
      st := st.(view := ViewDashboard, focus := FocusSidebar);
      UpdateFocusStyles();
    }

    /** The engine's answer to a scenario start: an error is shown, success
        is announced and the first check is armed. */
    method HandleScenarioStarted(startErr: Option<string>) returns (effects: seq<Effect>)
      requires Valid()
      modifies content
      ensures Valid()
      ensures startErr.Some? ==>
        content.Snapshot() == old(content.Snapshot()).(status := "Failed to start scenario: " + startErr.value,
          statusOK := false) && effects == []
      ensures startErr.None? ==>
        content.Snapshot() == old(content.Snapshot()).(
          status := "Scenario started. Use kubectl in the terminal below to investigate!", statusOK := false) &&
        effects == [CheckTickInInterval]
    {
      if startErr.Some? {
        content.SetStatus("Failed to start scenario: " + startErr.value, false);
        return [];
      }
      content.SetStatus("Scenario started. Use kubectl in the terminal below to investigate!", false);
      effects := [CheckTickInInterval];
    }

    /** One message. The model stays valid; the final delay is armed only
        once the cluster is up; checks are asked for only from the running
        scenario's screen; the bootstrap screen is left only when the final
        delay fires, and its bar never moves back; and quitting always
        comes with the engine's cleanup. */
    method Update(msg: Msg, shell: ShellStart) returns (effects: seq<Effect>)
      requires Valid() && ShellFresh(shell)
      modifies this, sidebar, content, bootstrap, terminal
      ensures Valid()
      ensures FinalDelayIn500ms in effects ==> st.bootstrapRealDone
      ensures CheckScenario in effects ==> old(st.view) == ViewScenarioRunning
      ensures old(st.view) == ViewBootstrap && st.view != ViewBootstrap ==> msg == FinalDelayMsg
      ensures old(st.view) == ViewBootstrap && st.view == ViewBootstrap ==> bootstrap.percent >= old(bootstrap.percent)
      ensures !old(st.quitting) && st.quitting ==> effects == [CleanupAndQuit]
    {
      if msg.KeyMsg? {
        effects := HandleKey(msg.key, shell);
      } else if msg.WindowSizeMsg? {
        HandleWindowSize(msg.width, msg.height);
        effects := [];
      } else if msg.BootstrapDoneMsg? {
        effects := HandleBootstrapDone(msg.kubeconfig, msg.err, msg.clientErr, msg.storeOpened, msg.loaded);
      } else if msg.SpinnerTickMsg? || msg.ProgressTickMsg? || msg.FinalDelayMsg? {
        effects := HandleBootstrapMsg(msg);
      } else {
        effects := HandleScenarioMsg(msg);
      }
    }

    /** The bootstrap screen's own messages: the spinner, the animation's
        ticks and the final delay. */
    method HandleBootstrapMsg(msg: Msg) returns (effects: seq<Effect>)
      requires Valid()
      requires msg.SpinnerTickMsg? || msg.ProgressTickMsg? || msg.FinalDelayMsg?
      modifies this, sidebar, content, bootstrap, terminal
      ensures Valid()
      ensures FinalDelayIn500ms in effects ==> st.bootstrapRealDone
      ensures CheckScenario !in effects && st.quitting == old(st.quitting)
      ensures old(st.view) == ViewBootstrap && st.view != ViewBootstrap ==> msg == FinalDelayMsg
      ensures old(st.view) == ViewBootstrap && st.view == ViewBootstrap ==> bootstrap.percent >= old(bootstrap.percent)
      ensures msg.SpinnerTickMsg? ==>
        st == old(st) && bootstrap.Snapshot() == old(bootstrap.Snapshot()).(spinnerTicks :=
          old(bootstrap.spinnerTicks) + if old(st.view) == ViewBootstrap then 2 else 1)
    {
      match msg
      case SpinnerTickMsg =>
        bootstrap.Update(Progress.SpinnerTick);
        if st.view == ViewBootstrap {
          // the bootstrap screen's own handler passes the tick on once more
          bootstrap.Update(Progress.SpinnerTick);
        }
        effects := [];
      case ProgressTickMsg =>
        effects := HandleProgressTick();
      case FinalDelayMsg =>
        FinalizeBootstrap();
        effects := [];
    }

    /** The messages of a running scenario: a check's result, the check
        timer, the engine's answer to a start and the shell's output. */
    method HandleScenarioMsg(msg: Msg) returns (effects: seq<Effect>)
      requires Valid()
      requires msg.CheckResultMsg? || msg.TickMsg? || msg.ScenarioStartedMsg? || msg.TerminalOutputMsg?
      modifies this, content
      ensures Valid()
      ensures FinalDelayIn500ms !in effects && st.quitting == old(st.quitting)
      ensures CheckScenario in effects ==> old(st.view) == ViewScenarioRunning
      ensures old(st.view) == ViewBootstrap ==> st.view == ViewBootstrap
    {
      match msg
      case CheckResultMsg(r) =>
        effects := HandleCheckResult(r);
      case TickMsg =>
        effects := if st.view == ViewScenarioRunning then [CheckScenario] else [];
      case ScenarioStartedMsg(startErr) =>
        effects := HandleScenarioStarted(startErr);
      case TerminalOutputMsg =>
        effects := [];
    }
  }

  // ------------------------------------------------------------- findings

  /** Escape from a scenario whose information panel has the keyboard, as
      written: the dashboard opens with the focus still on the content
      panel, the model's invariant is broken, and the sidebar the dashboard
      hands its keys to ignores them. */
  method EscapeLeavesSidebarDeaf(app: AppModel, key: string)
    requires app.Valid() && app.st.view == ViewScenarioRunning && app.st.focus == FocusContent
    modifies app, app.terminal, app.sidebar
    ensures app.st.view == ViewDashboard && !app.Valid()
    ensures app.sidebar.Snapshot() == old(app.sidebar.Snapshot())
  {
    var _ := app.LeaveScenarioAsWritten();
    app.sidebar.Update(key);
  }

  /** The same Escape with the corrected handler: the sidebar holds the
      keyboard on the dashboard, so its keys take effect. */
  method EscapeFocusesSidebar(app: AppModel)
    requires app.Valid() && app.st.view == ViewScenarioRunning && app.st.focus == FocusContent
    modifies app, app.sidebar, app.content, app.terminal
    ensures app.Valid() && app.st.view == ViewDashboard && app.sidebar.focused
  {
    var _ := app.LeaveScenario();
  }

  /** Quit then Enter on No from the version list, as written: the dashboard
      opens with no cluster and no scenario to pick. */
  method QuitDialogNoAsWritten(app: AppModel)
    requires app.Valid() && app.st.view == ViewVersionSelect && app.st.registry.None?
    modifies app
    ensures app.st.view == ViewDashboard && app.st.registry.None?
    ensures app.sidebar.SelectedItem().None?
  {
    app.AskQuit();
    var _ := app.UpdateConfirmQuitAsWritten("enter");
  }

  /** The same keys with the corrected dialog return to the version list as
      it was. */
  method QuitDialogNoReturns(app: AppModel)
    requires app.Valid() && app.st.view == ViewVersionSelect
    modifies app
    ensures app.Valid()
    ensures app.st == old(app.st).(previousView := ViewVersionSelect, confirmSelection := 1)
  {
    app.AskQuit();
    var _ := app.UpdateConfirmQuit("enter");
  }

  /** A solved result that arrives after Escape left the scenario, as
      written: the program panics. */
  method StaleSolvedResultPanics(app: AppModel, message: string) returns (panics: bool)
    requires app.Valid() && app.st.view == ViewScenarioRunning
    modifies app, app.sidebar, app.content, app.terminal
    ensures panics
  {
    var _ := app.LeaveScenario();
    var _, p := app.HandleCheckResultAsWritten(Result(true, message));
    panics := p;
  }

  /** With the corrected handler the same result is shown and the next
      check armed, and the dashboard stays. */
  method StaleSolvedResultIgnored(app: AppModel, message: string) returns (effects: seq<Effect>)
    requires app.Valid() && app.st.view == ViewScenarioRunning
    modifies app, app.sidebar, app.content, app.terminal
    ensures app.Valid() && app.st.view == ViewDashboard
    ensures effects == [CheckTickInInterval]
  {
    var _ := app.LeaveScenario();
    effects := app.HandleCheckResult(Result(true, message));
  }
}
