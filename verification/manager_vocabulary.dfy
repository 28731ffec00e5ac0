/** The vocabulary of the manager layer, grouped by the way each name is
    addressed, and the fact that the groups share no name. */
module ManagerVocabulary {
  // ---------------------------------------------------------------------------
  // The manager layer's names, grouped by addressing pattern

  /** Names handled by the manager itself, with the command only. */
  const ManagerOwn: set<string> :=
    {"update_tasks", "update_yanked", "hover", "peek", "seek", "suspend", "yank", "unyank", "create", "rename"}

  /** Names handled by the manager itself, with the task engine passed along. */
  const ManagerOwnWithTasks: set<string> :=
    {"update_files", "update_mimes", "update_paged", "refresh", "quit", "close",
     "open", "open_do", "paste", "link", "hardlink", "remove", "remove_do"}

  /** Names handled by the active tab, with the command only. */
  const ActiveOwn: set<string> :=
    {"spot", "escape", "update_peeked", "update_spotted",
     "arrow", "leave", "enter", "back", "forward", "cd", "reveal",
     "toggle", "toggle_all", "visual_mode", "select", "select_all",
     "copy", "shell", "hidden", "linemode", "search", "search_do",
     "filter", "filter_do", "find", "find_do", "find_arrow"}

  /** The prefixed names that reach the tab collection. */
  const TabNames: set<string> := {"tab_create", "tab_close", "tab_switch", "tab_swap"}

  /** Names the manager layer accepts once its own chain is exhausted. */
  const ManagerFallbacks: set<string> := {"tasks_show", "help", "plugin"}

  /** Every name the manager layer recognises. */
  const ManagerNames: set<string> :=
    ManagerOwn + ManagerOwnWithTasks + ActiveOwn + {"sort"} + TabNames + ManagerFallbacks

  // ---------------------------------------------------------------------------
  // The groups share no name (one fact per lemma keeps each proof small)

  /** No name is handled by the manager both with and without the task engine. */
  lemma OwnApartFromOwnWithTasks()
    ensures ManagerOwn !! ManagerOwnWithTasks
  {
  }

  /** No name is handled both by the manager and by the active tab. */
  lemma OwnApartFromActive()
    ensures ManagerOwn !! ActiveOwn
  {
  }

  /** No name is handled both by the manager (with tasks) and by the active tab. */
  lemma OwnWithTasksApartFromActive()
    ensures ManagerOwnWithTasks !! ActiveOwn
  {
  }

  /** `sort` is not a name the manager handles itself. */
  lemma SortNotOwn()
    ensures "sort" !in ManagerOwn
  {
  }

  /** `sort` is not a name the manager handles itself with the task engine. */
  lemma SortNotOwnWithTasks()
    ensures "sort" !in ManagerOwnWithTasks
  {
  }

  /** `sort` is not among the active tab's command-only names. */
  lemma SortNotActive()
    ensures "sort" !in ActiveOwn
  {
  }

  /** No prefixed name is a name the manager handles itself. */
  lemma TabNamesApartFromOwn()
    ensures TabNames !! ManagerOwn
  {
  }

  /** No prefixed name is a name the manager handles with the task engine. */
  lemma TabNamesApartFromOwnWithTasks()
    ensures TabNames !! ManagerOwnWithTasks
  {
  }

  /** No prefixed name is a name the active tab handles. */
  lemma TabNamesApartFromActive()
    ensures TabNames !! ActiveOwn
  {
  }

  /** No prefixed name is a fallback. */
  lemma TabNamesApartFromFallbacks()
    ensures TabNames !! ManagerFallbacks
  {
  }

  /** `sort` is not a prefixed name. */
  lemma SortNotTabName()
    ensures "sort" !in TabNames
  {
  }

  /** No fallback is a name the manager handles itself. */
  lemma FallbacksApartFromOwn()
    ensures ManagerFallbacks !! ManagerOwn
  {
  }

  /** No fallback is a name the manager handles with the task engine. */
  lemma FallbacksApartFromOwnWithTasks()
    ensures ManagerFallbacks !! ManagerOwnWithTasks
  {
  }

  /** No fallback is a name the active tab handles. */
  lemma FallbacksApartFromActive()
    ensures ManagerFallbacks !! ActiveOwn
  {
  }

  /** `sort` is not a fallback. */
  lemma SortNotFallback()
    ensures "sort" !in ManagerFallbacks
  {
  }
}
