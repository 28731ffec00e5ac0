/** What the executor promises, stated against order-free reference
    vocabularies: which names each layer (and input mode) recognises, which
    addressing pattern each manager name is registered with, and the fallbacks
    shared between layers. */
module ExecutorProperties {
  import opened Wrappers
  import opened Shared
  import opened Cx
  import opened Executor
  import opened ManagerVocabulary

  /** The manager registry as a relation: `name` is registered to reach `d`. */
  predicate ManagerRegisters(name: string, d: Destination) {
    || (name in ManagerOwn && d == Call(Subsystem.Manager, name))
    || (name in ManagerOwnWithTasks && d == Destination(Subsystem.Manager, name, CmdAndTasks))
    || (name in ActiveOwn && d == Call(ActiveTab, name))
    || (name == "sort" && d == Destination(ActiveTab, name, CmdAndTasks))
    || (d.handler in TabHandlers && name == TabPrefix + d.handler && d == Call(Subsystem.Tabs, d.handler))
    || (name == "tasks_show" && d == Destination(Subsystem.Tasks, "toggle", NoArgs))
    || (name == "help" && d == HelpToggle(Layer.Manager))
    || (name == "plugin" && d == PluginCall)
  }

  /** The prefixed names are exactly the prefix followed by a tab handler. */
  lemma TabNamesArePrefixed()
    ensures TabNames == set h | h in TabHandlers :: TabPrefix + h
  {
    assert TabPrefix + "create" == "tab_create";
    assert TabPrefix + "close" == "tab_close";
    assert TabPrefix + "switch" == "tab_switch";
    assert TabPrefix + "swap" == "tab_swap";
  }

  /** Every pair of groups of the manager's vocabulary is disjoint. */
  lemma ManagerGroupsApart()
    ensures ManagerOwn !! ManagerOwnWithTasks && ManagerOwn !! ActiveOwn && ManagerOwnWithTasks !! ActiveOwn
    ensures "sort" !in ManagerOwn && "sort" !in ManagerOwnWithTasks && "sort" !in ActiveOwn
    ensures TabNames !! ManagerOwn && TabNames !! ManagerOwnWithTasks && TabNames !! ActiveOwn
    ensures TabNames !! ManagerFallbacks && "sort" !in TabNames
    ensures ManagerFallbacks !! ManagerOwn && ManagerFallbacks !! ManagerOwnWithTasks
    ensures ManagerFallbacks !! ActiveOwn && "sort" !in ManagerFallbacks
  {
    OwnApartFromOwnWithTasks();
    OwnApartFromActive();
    OwnWithTasksApartFromActive();
    SortNotOwn();
    SortNotOwnWithTasks();
    SortNotActive();
    TabNamesApartFromOwn();
    TabNamesApartFromOwnWithTasks();
    TabNamesApartFromActive();
    TabNamesApartFromFallbacks();
    SortNotTabName();
    FallbacksApartFromOwn();
    FallbacksApartFromOwnWithTasks();
    FallbacksApartFromActive();
    SortNotFallback();
  }

  /** A registered name belongs to the manager's vocabulary. */
  lemma RegisteredNamesAreKnown(name: string, d: Destination)
    requires ManagerRegisters(name, d)
    ensures name in ManagerNames
  {
    TabNamesArePrefixed();
  }

  /** The registry relation is a function of the name: no name is registered twice. */
  lemma ManagerRegistryIsFunctional(name: string, d1: Destination, d2: Destination)
    requires ManagerRegisters(name, d1) && ManagerRegisters(name, d2)
    ensures d1 == d2
  {
    ManagerGroupsApart();
    TabNamesArePrefixed();
  }

  /** Every section of the ordered chain lies inside the group of its addressing pattern. */
  lemma OwnSectionsInGroup()
    ensures HeadOwn <= ManagerOwn && LifecycleOwn <= ManagerOwn && OperationOwn <= ManagerOwn
  {
  }

  lemma OwnWithTasksSectionsInGroup()
    ensures HeadOwnWithTasks <= ManagerOwnWithTasks && LifecycleOwnWithTasks <= ManagerOwnWithTasks
    ensures OperationOwnWithTasks <= ManagerOwnWithTasks
  {
  }

  lemma ActiveSectionsInGroup()
    ensures LifecycleActive <= ActiveOwn && NavigationNames <= ActiveOwn && ToggleNames <= ActiveOwn
    ensures OperationActive <= ActiveOwn && FilterNames <= ActiveOwn && FindNames <= ActiveOwn
  {
  }

  /** Every name of a group is caught by some section of the ordered chain. */
  lemma OwnGroupCovered(name: string)
    requires name in ManagerOwn
    ensures name in HeadOwn || name in LifecycleOwn || name in OperationOwn
  {
  }

  lemma OwnWithTasksGroupCovered(name: string)
    requires name in ManagerOwnWithTasks
    ensures name in HeadOwnWithTasks || name in LifecycleOwnWithTasks || name in OperationOwnWithTasks
  {
  }

  lemma ActiveGroupCovered(name: string)
    requires name in ActiveOwn
    ensures || name in LifecycleActive || name in NavigationNames || name in ToggleNames
            || name in OperationActive || name in FilterNames || name in FindNames
  {
  }

  /** Whatever the ordered chain selects is registered for that name. */
  lemma ManagerRouteIsRegistered(name: string)
    ensures ManagerRoute(name).Some? ==> ManagerRegisters(name, ManagerRoute(name).value)
  {
    OwnSectionsInGroup();
    OwnWithTasksSectionsInGroup();
    ActiveSectionsInGroup();
  }

  /** The ordered chain handles every name of the vocabulary; which section
      catches it does not matter for this. */
  lemma ManagerRoutesEveryName(name: string)
    ensures ManagerRoute(name).Some? <==> name in ManagerNames
  {
    if ManagerRoute(name).Some? {
      ManagerRouteIsRegistered(name);
      RegisteredNamesAreKnown(name, ManagerRoute(name).value);
    } else if name in ManagerOwn {
      OwnGroupCovered(name);
    } else if name in ManagerOwnWithTasks {
      OwnWithTasksGroupCovered(name);
    } else if name in ActiveOwn {
      ActiveGroupCovered(name);
    } else if name in TabNames {
      TabNamesArePrefixed();
    }
  }

  /** First match equals unique match: the ordered manager chain reaches `d`
      exactly when the order-free registry registers `name` to `d`, so no
      reordering of the chain could change where a command goes. */
  lemma ManagerFirstMatchIsUniqueMatch(name: string, d: Destination)
    ensures ManagerRoute(name) == Some(d) <==> ManagerRegisters(name, d)
  {
    ManagerRouteIsRegistered(name);
    if ManagerRegisters(name, d) {
      RegisteredNamesAreKnown(name, d);
      ManagerRoutesEveryName(name);
      ManagerRegistryIsFunctional(name, d, ManagerRoute(name).value);
    }
  }

  /** Names registered with the active tab reach `manager.active_mut()`, under
      their own name and with the command only. */
  lemma ActiveNamesReachActiveTab(name: string)
    ensures ManagerRoute(name) == Some(Call(ActiveTab, name)) <==> name in ActiveOwn
  {
    ManagerFirstMatchIsUniqueMatch(name, Call(ActiveTab, name));
  }

  /** `sort` is the only active-tab handler that also receives the task engine. */
  lemma SortAloneTakesTasksOnActiveTab(name: string)
    ensures (ManagerRoute(name).Some? && ManagerRoute(name).value.target == ActiveTab
             && ManagerRoute(name).value.arg == CmdAndTasks) <==> name == "sort"
  {
    if ManagerRoute(name).Some? {
      ManagerFirstMatchIsUniqueMatch(name, ManagerRoute(name).value);
    }
    ManagerFirstMatchIsUniqueMatch("sort", Destination(ActiveTab, "sort", CmdAndTasks));
  }

  /** The `tab_` names reach the tab collection with the prefix stripped, and
      nothing else in the manager layer does. */
  lemma TabNamesReachTabs(name: string, handler: string)
    ensures ManagerRoute(name) == Some(Call(Subsystem.Tabs, handler)) <==>
              handler in TabHandlers && name == TabPrefix + handler
  {
    ManagerFirstMatchIsUniqueMatch(name, Call(Subsystem.Tabs, handler));
  }

  /** A bare `close` closes the manager (with the task engine); only
      `tab_close` closes a tab. */
  lemma BareCloseIsManagerClose(mode: InputMode, trigger: bool)
    ensures Route(Layer.Manager, mode, "close", trigger) == Some(Destination(Subsystem.Manager, "close", CmdAndTasks))
    ensures Route(Layer.Manager, mode, "tab_close", trigger) == Some(Call(Subsystem.Tabs, "close"))
  {
    ManagerFirstMatchIsUniqueMatch("close", Destination(Subsystem.Manager, "close", CmdAndTasks));
    TabNamesReachTabs("tab_close", "close");
  }

  /** The manager's fallbacks, reached only once its own chain is exhausted. */
  lemma ManagerFallbacksRoute()
    ensures ManagerRoute("tasks_show") == Some(Destination(Subsystem.Tasks, "toggle", NoArgs))
    ensures ManagerRoute("help") == Some(HelpToggle(Layer.Manager))
    ensures ManagerRoute("plugin") == Some(PluginCall)
  {
    ManagerFirstMatchIsUniqueMatch("tasks_show", Destination(Subsystem.Tasks, "toggle", NoArgs));
    ManagerFirstMatchIsUniqueMatch("help", HelpToggle(Layer.Manager));
    ManagerFirstMatchIsUniqueMatch("plugin", PluginCall);
  }
}
