/** The collaborators a command can be handed to, and what is handed over with it.
    The handlers themselves are outside this model: a destination only names the
    subsystem, the handler method and the extra argument the router passes. */
module Cx {
  import opened Shared

  /** The owner of the handler a command reaches. `ActiveTab` is the manager's
      currently focused tab, resolved afresh on every dispatch; `Tabs` is the
      manager's tab collection; `App` is the application itself (its own
      commands and the plugin entry point). */
  datatype Subsystem =
    | App
    | Manager
    | ActiveTab
    | Tabs
    | Tasks
    | Pick
    | Input
    | Confirm
    | Help
    | Completion
    | Which

  /** The mode of the text-input layer, owned by the input box and read by the router. */
  datatype InputMode = Normal | Insert

  /** What the handler receives besides being selected:
      - `Cmd`: the command itself;
      - `CmdAndTasks`: the command and a handle to the background task engine;
      - `CmdAndManager`: the command and a handle to the manager;
      - `NoArgs`: nothing (the unit value);
      - `Origin(layer)`: the layer the help overlay records and returns focus to. */
  datatype Arg =
    | Cmd
    | CmdAndTasks
    | CmdAndManager
    | NoArgs
    | Origin(layer: Layer)

  /** One handler invocation: `target.handler(arg)`. */
  datatype Destination = Destination(target: Subsystem, handler: string, arg: Arg)

  /** `target.handler(cmd)`, the common shape. */
  function Call(target: Subsystem, handler: string): Destination {
    Destination(target, handler, Cmd)
  }

  /** The help overlay's toggle, remembering the layer that opened or closed it. */
  function HelpToggle(origin: Layer): Destination {
    Destination(Subsystem.Help, "toggle", Origin(origin))
  }

  /** The plugin entry point, reached by the `plugin` command in every layer that accepts it. */
  const PluginCall: Destination := Call(Subsystem.App, "plugin")
}
