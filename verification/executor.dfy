/** The executor: routes a command, given its name and the layer it was issued
    in, to at most one handler. Each sub-router is the ordered chain of name
    comparisons of yazi's `Executor`, written as an `if` chain: the first name that
    matches decides, and a name that matches nothing is dropped (`None`). */
module Executor {
  import opened Wrappers
  import opened Shared
  import opened Cx

  /** Prefix of the manager-layer names that address the tab collection. */
  const TabPrefix: string := "tab_"

  /** The subsystems a layer's commands can reach at all. */
  function Reachable(layer: Layer): set<Subsystem> {
    match layer
    case App => {Subsystem.App}
    case Manager => {Subsystem.Manager, ActiveTab, Subsystem.Tabs, Subsystem.Tasks, Subsystem.Help, Subsystem.App}
    case Tasks => {Subsystem.Tasks, Subsystem.Help, Subsystem.App}
    case Pick => {Subsystem.Pick, Subsystem.Help, Subsystem.App}
    case Input => {Subsystem.Input, Subsystem.Completion, Subsystem.Help, Subsystem.App}
    case Confirm => {Subsystem.Confirm}
    case Help => {Subsystem.Help, Subsystem.App}
    case Completion => {Subsystem.Completion, Subsystem.Input, Subsystem.Help, Subsystem.App}
    case Which => {Subsystem.Which}
  }

  /** Routes a command: exactly one sub-router is chosen by the layer; only the
      input layer looks at the mode and at the `trigger` flag. */
  function Route(layer: Layer, mode: InputMode, name: string, trigger: bool): (r: Option<Destination>)
    ensures r.Some? ==> r.value.target in Reachable(layer)
  {
    match layer
    case App => AppRoute(name)
    case Manager => ManagerRoute(name)
    case Tasks => TasksRoute(name)
    case Pick => PickRoute(name)
    case Input => InputRoute(mode, name, trigger)
    case Confirm => ConfirmRoute(name)
    case Help => HelpRoute(name)
    case Completion => CompletionRoute(name)
    case Which => WhichRoute(name)
  }

  /** The application's own commands: each calls the app method of the same name. */
  function AppRoute(name: string): (r: Option<Destination>)
    ensures r.Some? ==> r.value == Call(Subsystem.App, name)
  {
    if name == "accept_payload" then Some(Call(Subsystem.App, name))
    else if name == "notify" then Some(Call(Subsystem.App, name))
    else if name == "plugin" then Some(Call(Subsystem.App, name))
    else if name == "plugin_do" then Some(Call(Subsystem.App, name))
    else if name == "update_notify" then Some(Call(Subsystem.App, name))
    else if name == "update_progress" then Some(Call(Subsystem.App, name))
    else if name == "resize" then Some(Call(Subsystem.App, name))
    else if name == "stop" then Some(Call(Subsystem.App, name))
    else if name == "resume" then Some(Call(Subsystem.App, name))
    else None
  }

  /** `manager.name(cmd)` */
  function ToManager(name: string): Option<Destination> {
    Some(Call(Subsystem.Manager, name))
  }

  /** `manager.name(cmd, &tasks)` */
  function ToManagerWithTasks(name: string): Option<Destination> {
    Some(Destination(Subsystem.Manager, name, CmdAndTasks))
  }

  /** `manager.active_mut().name(cmd)` */
  function ToActive(name: string): Option<Destination> {
    Some(Call(ActiveTab, name))
  }

  /** `manager.tabs.handler(cmd)`, reached by the name `tab_<handler>`. */
  function ToTabs(handler: string): Option<Destination> {
    Some(Call(Subsystem.Tabs, handler))
  }

  /** The file-manager layer: the manager itself, its active tab, and the tab
      collection under the `tab_` prefix; then `tasks_show`, `help`, `plugin`.
      The chain is split where the comments of yazi's `Executor::manager` group it. */
  function ManagerRoute(name: string): (r: Option<Destination>)
    ensures r.Some? ==> r.value.target in Reachable(Layer.Manager)
  {
    HeadChain(name,
    LifecycleChain(name,
    NavigationChain(name,
    ToggleChain(name,
    OperationChain(name,
    TabOperationChain(name,
    FilterChain(name,
    FindChain(name,
    SortingChain(name,
    TabsChain(name,
    ManagerFallback(name)))))))))))
  }

  /** The head of the manager chain: the manager's own update and preview handlers. */
  const HeadOwn: set<string> := {"update_tasks", "update_yanked", "hover", "peek", "seek"}
  const HeadOwnWithTasks: set<string> := {"update_files", "update_mimes", "update_paged"}

  function HeadChain(name: string, otherwise: Option<Destination>): (r: Option<Destination>)
    ensures r == if name in HeadOwn then ToManager(name)
                 else if name in HeadOwnWithTasks then ToManagerWithTasks(name)
                 else otherwise
  {
    if name == "update_tasks" then ToManager(name)
    else if name == "update_files" then ToManagerWithTasks(name)
    else if name == "update_mimes" then ToManagerWithTasks(name)
    else if name == "update_paged" then ToManagerWithTasks(name)
    else if name == "update_yanked" then ToManager(name)
    else if name == "hover" then ToManager(name)
    else if name == "peek" then ToManager(name)
    else if name == "seek" then ToManager(name)
    else otherwise
  }

  /** The rest of the ungrouped part: spotting, quitting, closing, suspending. */
  const LifecycleOwn: set<string> := {"suspend"}
  const LifecycleOwnWithTasks: set<string> := {"refresh", "quit", "close"}
  const LifecycleActive: set<string> := {"spot", "escape", "update_peeked", "update_spotted"}

  function LifecycleChain(name: string, otherwise: Option<Destination>): (r: Option<Destination>)
    ensures r == if name in LifecycleOwn then ToManager(name)
                 else if name in LifecycleOwnWithTasks then ToManagerWithTasks(name)
                 else if name in LifecycleActive then ToActive(name)
                 else otherwise
  {
    if name == "spot" then ToActive(name)
    else if name == "refresh" then ToManagerWithTasks(name)
    else if name == "quit" then ToManagerWithTasks(name)
    else if name == "close" then ToManagerWithTasks(name)
    else if name == "suspend" then ToManager(name)
    else if name == "escape" then ToActive(name)
    else if name == "update_peeked" then ToActive(name)
    else if name == "update_spotted" then ToActive(name)
    else otherwise
  }

  const NavigationNames: set<string> := {"arrow", "leave", "enter", "back", "forward", "cd", "reveal"}

  function NavigationChain(name: string, otherwise: Option<Destination>): (r: Option<Destination>)
    ensures r == if name in NavigationNames then ToActive(name) else otherwise
  {
    if name == "arrow" then ToActive(name)
    else if name == "leave" then ToActive(name)
    else if name == "enter" then ToActive(name)
    else if name == "back" then ToActive(name)
    else if name == "forward" then ToActive(name)
    else if name == "cd" then ToActive(name)
    else if name == "reveal" then ToActive(name)
    else otherwise
  }

  const ToggleNames: set<string> := {"toggle", "toggle_all", "visual_mode", "select", "select_all"}

  function ToggleChain(name: string, otherwise: Option<Destination>): (r: Option<Destination>)
    ensures r == if name in ToggleNames then ToActive(name) else otherwise
  {
    if name == "toggle" then ToActive(name)
    else if name == "toggle_all" then ToActive(name)
    else if name == "visual_mode" then ToActive(name)
    else if name == "select" then ToActive(name)
    else if name == "select_all" then ToActive(name)
    else otherwise
  }

  /** The file operations the manager performs itself. */
  const OperationOwn: set<string> := {"yank", "unyank", "create", "rename"}
  const OperationOwnWithTasks: set<string> := {"open", "open_do", "paste", "link", "hardlink", "remove", "remove_do"}

  function OperationChain(name: string, otherwise: Option<Destination>): (r: Option<Destination>)
    ensures r == if name in OperationOwn then ToManager(name)
                 else if name in OperationOwnWithTasks then ToManagerWithTasks(name)
                 else otherwise
  {
    if name == "open" then ToManagerWithTasks(name)
    else if name == "open_do" then ToManagerWithTasks(name)
    else if name == "yank" then ToManager(name)
    else if name == "unyank" then ToManager(name)
    else if name == "paste" then ToManagerWithTasks(name)
    else if name == "link" then ToManagerWithTasks(name)
    else if name == "hardlink" then ToManagerWithTasks(name)
    else if name == "remove" then ToManagerWithTasks(name)
    else if name == "remove_do" then ToManagerWithTasks(name)
    else if name == "create" then ToManager(name)
    else if name == "rename" then ToManager(name)
    else otherwise
  }

  /** The operations the active tab performs. */
  const OperationActive: set<string> := {"copy", "shell", "hidden", "linemode", "search", "search_do"}

  function TabOperationChain(name: string, otherwise: Option<Destination>): (r: Option<Destination>)
    ensures r == if name in OperationActive then ToActive(name) else otherwise
  {
    if name == "copy" then ToActive(name)
    else if name == "shell" then ToActive(name)
    else if name == "hidden" then ToActive(name)
    else if name == "linemode" then ToActive(name)
    else if name == "search" then ToActive(name)
    else if name == "search_do" then ToActive(name)
    else otherwise
  }

  const FilterNames: set<string> := {"filter", "filter_do"}

  function FilterChain(name: string, otherwise: Option<Destination>): (r: Option<Destination>)
    ensures r == if name in FilterNames then ToActive(name) else otherwise
  {
    if name == "filter" then ToActive(name)
    else if name == "filter_do" then ToActive(name)
    else otherwise
  }

  const FindNames: set<string> := {"find", "find_do", "find_arrow"}

  function FindChain(name: string, otherwise: Option<Destination>): (r: Option<Destination>)
    ensures r == if name in FindNames then ToActive(name) else otherwise
  {
    if name == "find" then ToActive(name)
    else if name == "find_do" then ToActive(name)
    else if name == "find_arrow" then ToActive(name)
    else otherwise
  }

  /** Sorting: the one active-tab handler that also receives the task engine. */
  function SortingChain(name: string, otherwise: Option<Destination>): (r: Option<Destination>)
    ensures r == if name == "sort" then Some(Destination(ActiveTab, name, CmdAndTasks)) else otherwise
  {
    if name == "sort" then Some(Destination(ActiveTab, name, CmdAndTasks))
    else otherwise
  }

  /** The handlers of the tab collection, each reached as `tab_<handler>`. */
  const TabHandlers: set<string> := {"create", "close", "switch", "swap"}

  function TabsChain(name: string, otherwise: Option<Destination>): (r: Option<Destination>)
    ensures r == if exists h :: h in TabHandlers && name == TabPrefix + h
                 then ToTabs(name[|TabPrefix|..]) else otherwise
  {
    if name == TabPrefix + "create" then ToTabs("create")
    else if name == TabPrefix + "close" then ToTabs("close")
    else if name == TabPrefix + "switch" then ToTabs("switch")
    else if name == TabPrefix + "swap" then ToTabs("swap")
    else otherwise
  }

  /** What the manager layer accepts once its own chain is exhausted. */
  function ManagerFallback(name: string): (r: Option<Destination>)
    ensures r.Some? <==> name in {"tasks_show", "help", "plugin"}
  {
    if name == "tasks_show" then Some(Destination(Subsystem.Tasks, "toggle", NoArgs))
    else if name == "help" then Some(HelpToggle(Layer.Manager))
    else if name == "plugin" then Some(PluginCall)
    else None
  }

  /** The background-tasks panel; `close` is an alias of its `toggle`. */
  function TasksRoute(name: string): (r: Option<Destination>)
    ensures r.Some? ==> r.value.target in Reachable(Layer.Tasks)
    ensures name == "help" ==> r == Some(HelpToggle(Layer.Tasks))
    ensures name == "plugin" ==> r == Some(PluginCall)
    ensures r.Some? && name !in {"help", "plugin"} ==>
              r.value == Call(Subsystem.Tasks, if name == "close" then "toggle" else name)
  {
    if name == "close" then Some(Call(Subsystem.Tasks, "toggle"))
    else if name == "arrow" then Some(Call(Subsystem.Tasks, name))
    else if name == "inspect" then Some(Call(Subsystem.Tasks, name))
    else if name == "cancel" then Some(Call(Subsystem.Tasks, name))
    else if name == "open_with" then Some(Call(Subsystem.Tasks, name))
    else if name == "process_exec" then Some(Call(Subsystem.Tasks, name))
    else if name == "help" then Some(HelpToggle(Layer.Tasks))
    else if name == "plugin" then Some(PluginCall)
    else None
  }

  /** The picker. */
  function PickRoute(name: string): (r: Option<Destination>)
    ensures r.Some? ==> r.value.target in Reachable(Layer.Pick)
    ensures name == "help" ==> r == Some(HelpToggle(Layer.Pick))
    ensures name == "plugin" ==> r == Some(PluginCall)
    ensures r.Some? && name !in {"help", "plugin"} ==> r.value == Call(Subsystem.Pick, name)
  {
    if name == "show" then Some(Call(Subsystem.Pick, name))
    else if name == "close" then Some(Call(Subsystem.Pick, name))
    else if name == "arrow" then Some(Call(Subsystem.Pick, name))
    else if name == "help" then Some(HelpToggle(Layer.Pick))
    else if name == "plugin" then Some(PluginCall)
    else None
  }

  /** The text input. A mode-independent set comes first, then `complete`, whose
      destination depends on the `trigger` flag, then the set the mode allows. */
  function InputRoute(mode: InputMode, name: string, trigger: bool): (r: Option<Destination>)
    ensures r.Some? ==> r.value.target in Reachable(Layer.Input)
    ensures name == "complete" ==>
              r == Some(if trigger then Call(Subsystem.Completion, "trigger") else Call(Subsystem.Input, "complete"))
    ensures name == "help" ==> r == (if mode == Normal then Some(HelpToggle(Layer.Input)) else None)
    ensures name == "plugin" ==> r == (if mode == Normal then Some(PluginCall) else None)
    ensures r.Some? && name !in {"complete", "help", "plugin"} ==>
              r.value == Call(Subsystem.Input, if name == "move" then "move_" else name)
  {
    if name == "show" then Some(Call(Subsystem.Input, name))
    else if name == "close" then Some(Call(Subsystem.Input, name))
    else if name == "escape" then Some(Call(Subsystem.Input, name))
    else if name == "move" then Some(Call(Subsystem.Input, "move_"))
    else if name == "backward" then Some(Call(Subsystem.Input, name))
    else if name == "forward" then Some(Call(Subsystem.Input, name))
    else if name == "complete" then
      if trigger then Some(Call(Subsystem.Completion, "trigger")) else Some(Call(Subsystem.Input, "complete"))
    else match mode
      case Normal => InputNormalRoute(name)
      case Insert => InputInsertRoute(name)
  }

  /** The names the input accepts only in Normal mode, then `help` and `plugin`. */
  function InputNormalRoute(name: string): (r: Option<Destination>)
    ensures name == "help" ==> r == Some(HelpToggle(Layer.Input))
    ensures name == "plugin" ==> r == Some(PluginCall)
    ensures r.Some? && name !in {"help", "plugin"} ==> r.value == Call(Subsystem.Input, name)
  {
    if name == "insert" then Some(Call(Subsystem.Input, name))
    else if name == "visual" then Some(Call(Subsystem.Input, name))
    else if name == "delete" then Some(Call(Subsystem.Input, name))
    else if name == "yank" then Some(Call(Subsystem.Input, name))
    else if name == "paste" then Some(Call(Subsystem.Input, name))
    else if name == "undo" then Some(Call(Subsystem.Input, name))
    else if name == "redo" then Some(Call(Subsystem.Input, name))
    else if name == "help" then Some(HelpToggle(Layer.Input))
    else if name == "plugin" then Some(PluginCall)
    else None
  }

  /** The names the input accepts only in Insert mode; no fallback follows them. */
  function InputInsertRoute(name: string): (r: Option<Destination>)
    ensures r.Some? ==> r.value == Call(Subsystem.Input, name)
  {
    if name == "backspace" then Some(Call(Subsystem.Input, name))
    else if name == "kill" then Some(Call(Subsystem.Input, name))
    else None
  }

  /** The confirm dialog; `arrow` also receives the manager. No fallback at all. */
  function ConfirmRoute(name: string): (r: Option<Destination>)
    ensures r.Some? ==> r.value == Destination(Subsystem.Confirm, name, if name == "arrow" then CmdAndManager else Cmd)
  {
    if name == "arrow" then Some(Destination(Subsystem.Confirm, name, CmdAndManager))
    else if name == "show" then Some(Call(Subsystem.Confirm, name))
    else if name == "close" then Some(Call(Subsystem.Confirm, name))
    else None
  }

  /** The help overlay; `close` toggles it off, returning focus to where it was opened. */
  function HelpRoute(name: string): (r: Option<Destination>)
    ensures r.Some? ==> r.value.target in Reachable(Layer.Help)
    ensures name == "close" ==> r == Some(HelpToggle(Layer.Help))
    ensures name == "plugin" ==> r == Some(PluginCall)
    ensures name == "help" ==> r.None?
    ensures r.Some? && name !in {"close", "plugin"} ==> r.value == Call(Subsystem.Help, name)
  {
    if name == "escape" then Some(Call(Subsystem.Help, name))
    else if name == "arrow" then Some(Call(Subsystem.Help, name))
    else if name == "filter" then Some(Call(Subsystem.Help, name))
    else if name == "close" then Some(HelpToggle(Layer.Help))
    else if name == "plugin" then Some(PluginCall)
    else None
  }

  /** The completion popup; `close_input` closes the input box directly. */
  function CompletionRoute(name: string): (r: Option<Destination>)
    ensures r.Some? ==> r.value.target in Reachable(Layer.Completion)
    ensures name == "close_input" ==> r == Some(Call(Subsystem.Input, "close"))
    ensures name == "help" ==> r == Some(HelpToggle(Layer.Completion))
    ensures name == "plugin" ==> r == Some(PluginCall)
    ensures r.Some? && name !in {"close_input", "help", "plugin"} ==> r.value == Call(Subsystem.Completion, name)
  {
    if name == "trigger" then Some(Call(Subsystem.Completion, name))
    else if name == "show" then Some(Call(Subsystem.Completion, name))
    else if name == "close" then Some(Call(Subsystem.Completion, name))
    else if name == "arrow" then Some(Call(Subsystem.Completion, name))
    else if name == "close_input" then Some(Call(Subsystem.Input, "close"))
    else if name == "help" then Some(HelpToggle(Layer.Completion))
    else if name == "plugin" then Some(PluginCall)
    else None
  }

  /** The key-hint overlay. No fallback at all. */
  function WhichRoute(name: string): (r: Option<Destination>)
    ensures r.Some? ==> r.value == Call(Subsystem.Which, name)
  {
    if name == "show" then Some(Call(Subsystem.Which, name))
    else if name == "callback" then Some(Call(Subsystem.Which, name))
    else None
  }
}
