/** Properties of the executor's dispatch across layers: each layer's
    vocabulary, the input layer's mode gate, the `trigger` flag, and the
    fallbacks (`help`, `plugin`) shared between layers. */
module LayerProperties {
  import opened Wrappers
  import opened Shared
  import opened Cx
  import opened Executor
  import opened ManagerVocabulary
  import opened ExecutorProperties

  // ---------------------------------------------------------------------------
  // Vocabularies of the other layers

  const AppNames: set<string> :=
    {"accept_payload", "notify", "plugin", "plugin_do", "update_notify", "update_progress", "resize", "stop", "resume"}
  const TasksNames: set<string> := {"close", "arrow", "inspect", "cancel", "open_with", "process_exec", "help", "plugin"}
  const PickNames: set<string> := {"show", "close", "arrow", "help", "plugin"}
  /** Recognised by the input in both modes. */
  const InputAnyMode: set<string> := {"show", "close", "escape", "move", "backward", "forward", "complete"}
  /** Recognised by the input only in Normal mode. */
  const InputNormalOnly: set<string> := {"insert", "visual", "delete", "yank", "paste", "undo", "redo", "help", "plugin"}
  /** Recognised by the input only in Insert mode. */
  const InputInsertOnly: set<string> := {"backspace", "kill"}
  const ConfirmNames: set<string> := {"arrow", "show", "close"}
  const HelpNames: set<string> := {"escape", "arrow", "filter", "close", "plugin"}
  const CompletionNames: set<string> := {"trigger", "show", "close", "arrow", "close_input", "help", "plugin"}
  const WhichNames: set<string> := {"show", "callback"}

  /** The names a layer (in a given input mode) recognises. */
  function Recognised(layer: Layer, mode: InputMode): set<string> {
    match layer
    case App => AppNames
    case Manager => ManagerNames
    case Tasks => TasksNames
    case Pick => PickNames
    case Input => InputAnyMode + (if mode == Normal then InputNormalOnly else InputInsertOnly)
    case Confirm => ConfirmNames
    case Help => HelpNames
    case Completion => CompletionNames
    case Which => WhichNames
  }

  /** The application routes exactly the names of its vocabulary. */
  lemma AppRoutedIffRecognised(name: string)
    ensures AppRoute(name).Some? <==> name in AppNames
  {
  }

  /** The tasks panel routes exactly the names of its vocabulary. */
  lemma TasksRoutedIffRecognised(name: string)
    ensures TasksRoute(name).Some? <==> name in TasksNames
  {
  }

  /** The picker routes exactly the names of its vocabulary. */
  lemma PickRoutedIffRecognised(name: string)
    ensures PickRoute(name).Some? <==> name in PickNames
  {
  }

  /** The confirmation dialog routes exactly the names of its vocabulary. */
  lemma ConfirmRoutedIffRecognised(name: string)
    ensures ConfirmRoute(name).Some? <==> name in ConfirmNames
  {
  }

  /** The help overlay routes exactly the names of its vocabulary. */
  lemma HelpRoutedIffRecognised(name: string)
    ensures HelpRoute(name).Some? <==> name in HelpNames
  {
  }

  /** The completion popup routes exactly the names of its vocabulary. */
  lemma CompletionRoutedIffRecognised(name: string)
    ensures CompletionRoute(name).Some? <==> name in CompletionNames
  {
  }

  /** The key-hint popup routes exactly the names of its vocabulary. */
  lemma WhichRoutedIffRecognised(name: string)
    ensures WhichRoute(name).Some? <==> name in WhichNames
  {
  }

  /** The Normal-mode tail of the input routes exactly the Normal-only names. */
  lemma InputNormalRoutedIffRecognised(name: string)
    ensures InputNormalRoute(name).Some? <==> name in InputNormalOnly
  {
  }

  /** The Insert-mode tail of the input routes exactly the Insert-only names. */
  lemma InputInsertRoutedIffRecognised(name: string)
    ensures InputInsertRoute(name).Some? <==> name in InputInsertOnly
  {
  }

  /** The three parts of the input's vocabulary share no name. */
  lemma InputVocabularyDisjoint()
    ensures InputAnyMode !! InputNormalOnly
    ensures InputAnyMode !! InputInsertOnly
    ensures InputNormalOnly !! InputInsertOnly
  {
  }

  /** A name outside the mode-independent part is left to the mode's own tail. */
  lemma InputDefersToMode(mode: InputMode, name: string, trigger: bool)
    requires name !in InputAnyMode
    ensures InputRoute(mode, name, trigger) ==
              if mode == Normal then InputNormalRoute(name) else InputInsertRoute(name)
  {
  }

  /** The input routes exactly the names of its vocabulary in the current mode. */
  lemma InputRoutedIffRecognised(mode: InputMode, name: string, trigger: bool)
    ensures InputRoute(mode, name, trigger).Some? <==>
              name in InputAnyMode || name in (if mode == Normal then InputNormalOnly else InputInsertOnly)
  {
  }

  /** Unknown means dropped: a command reaches a handler exactly when its name
      is in the vocabulary of its layer (and, for the input, its mode). */
  lemma RoutedIffRecognised(layer: Layer, mode: InputMode, name: string, trigger: bool)
    ensures Route(layer, mode, name, trigger).Some? <==> name in Recognised(layer, mode)
  {
    match layer
    case App => AppRoutedIffRecognised(name);
    case Manager => ManagerRoutesEveryName(name);
    case Tasks => TasksRoutedIffRecognised(name);
    case Pick => PickRoutedIffRecognised(name);
    case Input => InputRoutedIffRecognised(mode, name, trigger);
    case Confirm => ConfirmRoutedIffRecognised(name);
    case Help => HelpRoutedIffRecognised(name);
    case Completion => CompletionRoutedIffRecognised(name);
    case Which => WhichRoutedIffRecognised(name);
  }

  // ---------------------------------------------------------------------------
  // Dispatch by layer

  /** Only the help overlay's toggle carries a layer, and the layer it records
      is the one the command was dispatched in: `help` opens the overlay from
      a layer, `close` in the help layer toggles it away again. */
  lemma OriginIsDispatchingLayer(layer: Layer, mode: InputMode, name: string, trigger: bool)
    ensures var r := Route(layer, mode, name, trigger);
            r.Some? && r.value.arg.Origin? ==>
              r.value == HelpToggle(layer) && (name == "help" || (layer == Layer.Help && name == "close"))
  {
    if layer == Layer.Manager {
      ManagerRouteIsRegistered(name);
    }
  }

  /** Only the layer selects the sub-router: outside the input layer neither
      the mode nor the `trigger` flag changes where a command goes. */
  lemma DispatchDependsOnlyOnLayer(layer: Layer, m1: InputMode, m2: InputMode, name: string, t1: bool, t2: bool)
    requires layer != Layer.Input
    ensures Route(layer, m1, name, t1) == Route(layer, m2, name, t2)
  {
  }

  /** `complete` is the only name whose destination depends on an argument:
      `trigger` selects the completion popup, its absence the input's own handler. */
  lemma TriggerDecidesOnlyComplete(layer: Layer, mode: InputMode, name: string)
    ensures layer == Layer.Input && name == "complete" ==>
              Route(layer, mode, name, true) == Some(Call(Subsystem.Completion, "trigger"))
              && Route(layer, mode, name, false) == Some(Call(Subsystem.Input, "complete"))
    ensures layer != Layer.Input || name != "complete" ==>
              Route(layer, mode, name, true) == Route(layer, mode, name, false)
  {
  }

  // ---------------------------------------------------------------------------
  // The input layer's mode gate

  /** The mode-independent names route identically in both modes; `move`
      reaches the handler `move_`. */
  lemma InputAnyModeIgnoresMode(name: string, trigger: bool)
    requires name in InputAnyMode
    ensures Route(Layer.Input, Normal, name, trigger) == Route(Layer.Input, Insert, name, trigger)
    ensures Route(Layer.Input, Normal, name, trigger).Some?
    ensures name == "move" ==> Route(Layer.Input, Normal, name, trigger) == Some(Call(Subsystem.Input, "move_"))
  {
  }

  /** A name the input recognises only in Normal mode is a no-op in Insert mode. */
  lemma NormalOnlyNamesAreGated(name: string, trigger: bool)
    requires name in InputNormalOnly
    ensures Route(Layer.Input, Normal, name, trigger).Some?
    ensures Route(Layer.Input, Insert, name, trigger).None?
  {
    InputVocabularyDisjoint();
    InputDefersToMode(Normal, name, trigger);
    InputDefersToMode(Insert, name, trigger);
    InputNormalRoutedIffRecognised(name);
    InputInsertRoutedIffRecognised(name);
  }

  /** A name the input recognises only in Insert mode is a no-op in Normal mode. */
  lemma InsertOnlyNamesAreGated(name: string, trigger: bool)
    requires name in InputInsertOnly
    ensures Route(Layer.Input, Insert, name, trigger).Some?
    ensures Route(Layer.Input, Normal, name, trigger).None?
  {
    InputVocabularyDisjoint();
    InputDefersToMode(Normal, name, trigger);
    InputDefersToMode(Insert, name, trigger);
    InputNormalRoutedIffRecognised(name);
    InputInsertRoutedIffRecognised(name);
  }

  // ---------------------------------------------------------------------------
  // Fallbacks shared between layers

  /** The layers (and input mode) that fall back to the help overlay. */
  predicate HasHelpFallback(layer: Layer, mode: InputMode) {
    layer in {Layer.Manager, Layer.Tasks, Layer.Pick, Layer.Completion} || (layer == Layer.Input && mode == Normal)
  }

  /** `help` opens the overlay recording the dispatching layer, wherever it is accepted. */
  lemma HelpRecordsOrigin(layer: Layer, mode: InputMode, trigger: bool)
    requires HasHelpFallback(layer, mode)
    ensures Route(layer, mode, "help", trigger) == Some(HelpToggle(layer))
  {
    if layer == Layer.Manager {
      ManagerFallbacksRoute();
    }
  }

  /** The help, app, confirm and key-hint layers, and the input in Insert mode, ignore `help`. */
  lemma HelpIgnoredElsewhere(layer: Layer, mode: InputMode, trigger: bool)
    requires !HasHelpFallback(layer, mode)
    ensures Route(layer, mode, "help", trigger) == None
  {
  }

  /** In the help layer, `close` toggles the overlay away with origin `Help`. */
  lemma HelpCloseTogglesWithHelpOrigin(mode: InputMode, trigger: bool)
    ensures Route(Layer.Help, mode, "close", trigger) == Some(HelpToggle(Layer.Help))
  {
  }

  /** The layers (and input mode) that fall back to the plugin entry point. */
  predicate HasPluginFallback(layer: Layer, mode: InputMode) {
    layer !in {Layer.Confirm, Layer.Which} && (layer == Layer.Input ==> mode == Normal)
  }

  /** `plugin` reaches the plugin entry point wherever it is accepted. */
  lemma PluginFallback(layer: Layer, mode: InputMode, trigger: bool)
    requires HasPluginFallback(layer, mode)
    ensures Route(layer, mode, "plugin", trigger) == Some(PluginCall)
  {
    if layer == Layer.Manager {
      ManagerFallbacksRoute();
    }
  }

  /** Confirm, key-hint and the input in Insert mode ignore `plugin`. */
  lemma PluginIgnoredElsewhere(layer: Layer, mode: InputMode, trigger: bool)
    requires !HasPluginFallback(layer, mode)
    ensures Route(layer, mode, "plugin", trigger) == None
  {
  }

  /** The tasks panel's `close` is its `toggle`. */
  lemma TasksCloseToggles(mode: InputMode, trigger: bool)
    ensures Route(Layer.Tasks, mode, "close", trigger) == Some(Call(Subsystem.Tasks, "toggle"))
  {
  }

  /** The completion popup's `close_input` closes the input directly. */
  lemma CompletionClosesInput(mode: InputMode, trigger: bool)
    ensures Route(Layer.Completion, mode, "close_input", trigger) == Some(Call(Subsystem.Input, "close"))
  {
  }

  /** Confirm and key-hint layers have no fallback: all they reach is their own subsystem. */
  lemma ConfirmAndWhichStayLocal(layer: Layer, mode: InputMode, name: string, trigger: bool)
    requires layer in {Layer.Confirm, Layer.Which}
    ensures Route(layer, mode, name, trigger).Some? ==>
              Route(layer, mode, name, trigger).value.target ==
                (if layer == Layer.Confirm then Subsystem.Confirm else Subsystem.Which)
  {
  }
}
