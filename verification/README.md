# Command routing and the `Bar` element of the yazi file manager

This project models two parts of yazi in Dafny and proves properties about them.

**The executor** (`yazi-fm/src/executor.rs`). A command carries a name. The layer it was issued in picks one sub-router. The sub-router compares the name against an ordered chain of names and calls at most one handler. A name that matches nothing is dropped.

Handlers are not modelled. A handler is named by a `Destination`, which records three things:
- the subsystem it belongs to: the app, the manager, the *active tab*, the tab collection, the task panel, or one of the overlays;
- the method name;
- what it receives besides the command: the task engine, the manager, or the originating layer for the help toggle.

The model is organised in four modules:
- `Executor` holds the chains, written as `if` chains in the order of yazi's `Executor`.
- `ManagerVocabulary` holds order-free reference sets, one per addressing pattern of the file-manager layer.
- `ExecutorProperties` proves the manager chain's first match is the unique match in an order-free registry. So reordering the chain cannot change where a command goes.
- `LayerProperties` proves four things:
  - each layer routes exactly its vocabulary;
  - the input layer's mode gate and the `trigger` flag work as described;
  - the `help` toggle records the layer it was issued in;
  - the `plugin` fallback reaches the plugin entry point.

**The `Bar` element** (`yazi-plugin/src/elements/bar.rs`). It is a line drawn along selected sides of a rectangle:
- `Geometry` models the 16-bit rectangle with saturating far edges, and the border set with its byte encoding (`Borders::from_bits_truncate`, `Borders::bits`).
- `Elements` models construction, glyph choice, and `render` as a method over a buffer, which is a map from positions to cells. Its loops paint the left column, top row, right column and bottom row.
- `BarProperties` characterises the painted cells by plain arithmetic. It also proves that truncation keeps exactly the four known bits of the direction byte.

Three details of yazi's code that the model keeps as they are:
- The help layer accepts `plugin` but not `help` (`yazi-fm/src/executor.rs:271-290`).
- Its `close` calls `help.toggle(Layer::Help)`, so the layer recorded is the help layer itself, not the layer that opened the overlay (`yazi-fm/src/executor.rs:285`).
- The manager's `plugin` fallback calls `app.plugin(cmd)`, the same entry point the app layer uses for `plugin` (`yazi-fm/src/executor.rs:144`).

## Model

| member | source | states |
|---|---|---|
| Executor.Route | yazi-fm/src/executor.rs:15-27 | the layer alone selects the sub-router, and a routed command reaches only a subsystem that layer can address |
| Executor.AppRoute | yazi-fm/src/executor.rs:29-47 | every application command calls the app method of its own name, with the command only |
| Executor.ManagerRoute | yazi-fm/src/executor.rs:49-147 | file-manager commands reach only the manager, its active tab, the tab collection, the task panel, the help overlay or the plugin entry point |
| Executor.HeadChain | yazi-fm/src/executor.rs:68-75 | the update and preview names go to the manager under their own name; `update_files`, `update_mimes` and `update_paged` also receive the task engine |
| Executor.LifecycleChain | yazi-fm/src/executor.rs:76-83 | `refresh`, `quit` and `close` go to the manager with the task engine, and `suspend` to the manager alone; `spot`, `escape` and the peek/spot updates go to the active tab |
| Executor.OperationChain | yazi-fm/src/executor.rs:101-112 | `yank`, `unyank`, `create` and `rename` go to the manager; the opening, pasting, linking and removing names go to the manager with the task engine |
| Executor.TabsChain | yazi-fm/src/executor.rs:132-136 | a name `tab_<h>` for a tab-collection handler `h` reaches that handler with the prefix stripped |
| Executor.ManagerFallback | yazi-fm/src/executor.rs:138-146 | after the chain, exactly `tasks_show`, `help` and `plugin` are accepted; every other name is dropped |
| Executor.TasksRoute | yazi-fm/src/executor.rs:149-177 | `help` opens help recording the task layer and `plugin` reaches the plugin entry point; every other handled name reaches the panel method of its own name with the command only, except that `close` is the panel's `toggle` |
| Executor.PickRoute | yazi-fm/src/executor.rs:179-199 | `help` opens help recording the picker layer and `plugin` reaches the plugin entry point; every other handled name reaches the picker method of its own name with the command only |
| Executor.InputRoute | yazi-fm/src/executor.rs:201-255 | `complete` goes to the completion popup's `trigger` when the flag is set and to the input's own `complete` otherwise; `help` and `plugin` are handled in Normal mode only; every other handled name reaches the input method of its own name (`move` reaches `move_`) with the command only |
| Executor.InputNormalRoute | yazi-fm/src/executor.rs:231-249 | `help` opens help recording the input layer and `plugin` reaches the plugin entry point; every other handled name reaches the input method of its own name with the command only |
| Executor.InputInsertRoute | yazi-fm/src/executor.rs:250-253 | in Insert mode the only extra names reach the input under their own name, with no fallback |
| Executor.ConfirmRoute | yazi-fm/src/executor.rs:257-269 | every handled name reaches the dialog method of its own name; `arrow` also receives the manager and the others receive the command only |
| Executor.HelpRoute | yazi-fm/src/executor.rs:271-290 | `close` toggles the overlay with the help layer as origin, `plugin` reaches the plugin entry point and `help` is dropped; every other handled name reaches the overlay method of its own name with the command only |
| Executor.CompletionRoute | yazi-fm/src/executor.rs:292-314 | `close_input` calls the input's `close` directly, `help` opens help recording the completion layer and `plugin` reaches the plugin entry point; every other handled name reaches the popup method of its own name with the command only |
| Executor.WhichRoute | yazi-fm/src/executor.rs:316-327 | key-hint names reach the key-hint overlay under their own name |
| ExecutorProperties.TabNamesArePrefixed | yazi-fm/src/executor.rs:61-65 | the tab-collection names are exactly `tab_` followed by one of the four tab handlers |
| ExecutorProperties.ManagerGroupsApart | yazi-fm/src/executor.rs:68-146 | no file-manager name belongs to two addressing patterns |
| ExecutorProperties.RegisteredNamesAreKnown | yazi-fm/src/executor.rs:68-146 | every name the registry relates to a destination is in the file-manager vocabulary |
| ExecutorProperties.ManagerRegistryIsFunctional | yazi-fm/src/executor.rs:68-146 | no name is registered to two destinations |
| ExecutorProperties.ManagerRouteIsRegistered | yazi-fm/src/executor.rs:49-147 | whatever the ordered chain selects is a destination the order-free registry assigns to that name |
| ExecutorProperties.ManagerRoutesEveryName | yazi-fm/src/executor.rs:49-147 | the file-manager layer handles a name exactly when it is in its vocabulary |
| ExecutorProperties.ManagerFirstMatchIsUniqueMatch | yazi-fm/src/executor.rs:49-147 | the chain routes a name to `d` exactly when the order-free registry assigns `d` to it, so first match is unique match |
| ExecutorProperties.ActiveNamesReachActiveTab | yazi-fm/src/executor.rs:76-127 | a name reaches the active tab's method of the same name, with the command only, exactly when it is an active-tab name |
| ExecutorProperties.SortAloneTakesTasksOnActiveTab | yazi-fm/src/executor.rs:129-130 | `sort` is the only name that reaches the active tab together with the task engine |
| ExecutorProperties.TabNamesReachTabs | yazi-fm/src/executor.rs:132-136 | a file-manager name reaches tab-collection handler `h` exactly when it is `tab_` followed by `h` |
| ExecutorProperties.BareCloseIsManagerClose | yazi-fm/src/executor.rs:79-134 | a bare `close` closes the manager with the task engine, while `tab_close` closes a tab |
| ExecutorProperties.ManagerFallbacksRoute | yazi-fm/src/executor.rs:138-146 | `tasks_show` toggles the task panel with no argument; `help` opens help recording the file-manager layer; `plugin` reaches the plugin entry point |
| LayerProperties.AppRoutedIffRecognised | yazi-fm/src/executor.rs:29-47 | the app layer handles a name exactly when it is in the app vocabulary |
| LayerProperties.TasksRoutedIffRecognised | yazi-fm/src/executor.rs:149-177 | the task layer handles a name exactly when it is in the task vocabulary |
| LayerProperties.PickRoutedIffRecognised | yazi-fm/src/executor.rs:179-199 | the picker handles a name exactly when it is in the picker vocabulary |
| LayerProperties.ConfirmRoutedIffRecognised | yazi-fm/src/executor.rs:257-269 | the confirm dialog handles a name exactly when it is in its vocabulary |
| LayerProperties.HelpRoutedIffRecognised | yazi-fm/src/executor.rs:271-290 | the help overlay handles a name exactly when it is in its vocabulary |
| LayerProperties.CompletionRoutedIffRecognised | yazi-fm/src/executor.rs:292-314 | the completion popup handles a name exactly when it is in its vocabulary |
| LayerProperties.WhichRoutedIffRecognised | yazi-fm/src/executor.rs:316-327 | the key-hint overlay handles a name exactly when it is in its vocabulary |
| LayerProperties.InputNormalRoutedIffRecognised | yazi-fm/src/executor.rs:231-249 | the Normal-mode tail handles a name exactly when it is a Normal-only name |
| LayerProperties.InputInsertRoutedIffRecognised | yazi-fm/src/executor.rs:250-253 | the Insert-mode tail handles a name exactly when it is an Insert-only name |
| LayerProperties.InputDefersToMode | yazi-fm/src/executor.rs:215-254 | a name outside the mode-independent set is decided by the current mode's tail alone |
| LayerProperties.InputRoutedIffRecognised | yazi-fm/src/executor.rs:201-255 | the input handles a name exactly when it is mode-independent or allowed by the current mode |
| LayerProperties.RoutedIffRecognised | yazi-fm/src/executor.rs:15-327 | a command reaches a handler exactly when its name is in the vocabulary of its layer and mode; any other command is dropped |
| LayerProperties.OriginIsDispatchingLayer | yazi-fm/src/executor.rs:15-327 | the only destination carrying a layer is the help toggle, and the layer it carries is the one the command was issued in, through `help` or through `close` in the help layer |
| LayerProperties.DispatchDependsOnlyOnLayer | yazi-fm/src/executor.rs:15-27 | outside the input layer, neither the mode nor the `trigger` flag affects routing |
| LayerProperties.TriggerDecidesOnlyComplete | yazi-fm/src/executor.rs:222-228 | `complete` in the input layer is the only command whose destination depends on `trigger` |
| LayerProperties.InputAnyModeIgnoresMode | yazi-fm/src/executor.rs:215-228 | the mode-independent names are routed, and routed the same in both modes |
| LayerProperties.NormalOnlyNamesAreGated | yazi-fm/src/executor.rs:230-254 | a Normal-only name is handled in Normal mode and dropped in Insert mode |
| LayerProperties.InsertOnlyNamesAreGated | yazi-fm/src/executor.rs:230-254 | an Insert-only name is handled in Insert mode and dropped in Normal mode |
| LayerProperties.HelpRecordsOrigin | yazi-fm/src/executor.rs:138-314 | in every layer and mode that accepts `help`, it opens the overlay recording that layer |
| LayerProperties.HelpIgnoredElsewhere | yazi-fm/src/executor.rs:15-327 | the app, confirm, help and key-hint layers, and the input in Insert mode, drop `help` |
| LayerProperties.HelpCloseTogglesWithHelpOrigin | yazi-fm/src/executor.rs:285-285 | `close` in the help layer toggles the overlay with the help layer as origin |
| LayerProperties.PluginFallback | yazi-fm/src/executor.rs:15-314 | in every layer and mode that accepts `plugin`, it reaches the app's plugin entry point |
| LayerProperties.PluginIgnoredElsewhere | yazi-fm/src/executor.rs:250-327 | the confirm and key-hint layers, and the input in Insert mode, drop `plugin` |
| LayerProperties.TasksCloseToggles | yazi-fm/src/executor.rs:163-163 | `close` in the task layer is the panel's `toggle` |
| LayerProperties.CompletionClosesInput | yazi-fm/src/executor.rs:307-307 | `close_input` in the completion layer calls the input's `close` directly |
| LayerProperties.ConfirmAndWhichStayLocal | yazi-fm/src/executor.rs:257-327 | the confirm and key-hint layers reach only their own subsystem |
| Geometry.FromBitsTruncate | yazi-plugin/src/elements/bar.rs:21-21 | a side is selected exactly when its bit is set in the direction byte |
| Geometry.Bits | yazi-plugin/src/elements/bar.rs:29-34 | a border set is encoded below 16, with a side's bit set exactly when the side is in the set |
| Elements.New | yazi-plugin/src/elements/bar.rs:17-24 | a new bar keeps its area, selects the sides whose bits are set, and starts with no symbol and no style |
| Elements.SetStyle | yazi-plugin/src/elements/bar.rs:85-87 | a style patch overrides exactly the colours it names and keeps the others and the symbol; afterwards no removed modifier is on, every added one that is not also removed is on, and no modifier is on that was neither on before nor added |
| Elements.SetStyleIdempotent | yazi-plugin/src/elements/bar.rs:85-87 | applying the same style patch twice is applying it once |
| Elements.Paint | yazi-plugin/src/elements/bar.rs:84-87 | a painted cell shows the glyph; with no style nothing else changes, and with a style the style is applied |
| Elements.Glyph | yazi-plugin/src/elements/bar.rs:72-80 | a user symbol wins; otherwise a horizontal line exactly when top or bottom is selected, and a vertical line exactly when neither is but left or right is |
| Elements.PaintIdempotent | yazi-plugin/src/elements/bar.rs:82-115 | painting a cell twice (a corner) is painting it once |
| Elements.PaintCell | yazi-plugin/src/elements/bar.rs:84-87 | painting one more cell extends the set of painted cells by that cell and leaves all others as they were |
| Elements.PaintColumn | yazi-plugin/src/elements/bar.rs:83-88 | the column loop paints exactly the cells from the top to before the bottom, and no other cell |
| Elements.PaintRow | yazi-plugin/src/elements/bar.rs:91-96 | the row loop paints exactly the cells from the left to before the right, and no other cell |
| Elements.EdgesInside | yazi-plugin/src/elements/bar.rs:82-115 | for a rectangle whose far edges are representable, every painted cell is a cell of the rectangle |
| Elements.PaintNearEdges | yazi-plugin/src/elements/bar.rs:82-97 | the first two loops paint exactly the selected left column and top row |
| Elements.PaintFarEdges | yazi-plugin/src/elements/bar.rs:98-115 | the last two loops add exactly the selected right column and bottom row |
| Elements.PaintEdges | yazi-plugin/src/elements/bar.rs:82-115 | the four loops together paint exactly the cells of the selected edges |
| Elements.Render | yazi-plugin/src/elements/bar.rs:67-116 | every cell on a selected edge of a non-empty area shows the chosen glyph with the style applied; every other cell is unchanged; the buffer keeps its cells |
| BarProperties.BitsRoundTrip | yazi-plugin/src/elements/bar.rs:21-34 | encoding a border set and truncating it back gives the same set |
| BarProperties.TruncateKeepsKnownBits | yazi-plugin/src/elements/bar.rs:21-21 | decoding and re-encoding a direction byte clears the bits above the fourth and keeps the four below |
| BarProperties.UnknownBitsAreDropped | yazi-plugin/src/elements/bar.rs:21-21 | bits above the fourth never select a side |
| BarProperties.NamedDirections | yazi-plugin/src/elements/bar.rs:27-35 | the constants exported to Lua decode to the sides they name, and `ALL` to all four |
| BarProperties.BlankIffNoSide | yazi-plugin/src/elements/bar.rs:72-80 | without a user symbol, the blank glyph is chosen exactly when no side is selected |
| BarProperties.BlankGlyphNeverPainted | yazi-plugin/src/elements/bar.rs:72-115 | when the blank glyph is chosen, no cell is painted |
| BarProperties.FarEdgesInside | yazi-plugin/src/elements/bar.rs:98-108 | for a non-empty rectangle that fits, `right - 1` and `bottom - 1` do not underflow and are its last column and row |
| BarProperties.PaintedCharacterised | yazi-plugin/src/elements/bar.rs:67-116 | for a rectangle that fits, a cell is painted exactly when the area is non-empty, the cell is inside it, and it lies on a selected edge |
| BarProperties.AllPaintsPerimeter | yazi-plugin/src/elements/bar.rs:82-115 | with all sides selected, the painted cells are the rectangle's perimeter |
| BarProperties.EmptyGuardIsNeeded | yazi-plugin/src/elements/bar.rs:68-70 | without the emptiness guard, a zero-height rectangle would have a cell outside it written |
| BarProperties.SaturationMovesRightColumn | yazi-plugin/src/elements/bar.rs:98-99 | at the last representable column, saturation puts the right column one cell left of the rectangle |
| BarProperties.NewBarPaintsLines | yazi-plugin/src/elements/bar.rs:17-24 | a fresh bar draws a line or blank glyph and changes only the symbol of a cell |

## Left out

- The handlers themselves (`manager.*`, `tabs.*`, `tasks.*`, the overlays, `app.plugin`) are not modelled. A destination only names the handler and what it receives. The router looks the active tab up (`manager.active_mut()`) on every dispatch; the model abstracts that tab as the subsystem `ActiveTab`, so it does not say which tab has focus.
- The input mode is a parameter. Switching modes is done by the input's handlers, which are not modelled.
- `cmd.bool("trigger")` is a boolean parameter. How an absent or non-boolean argument is read belongs to the command type, which is not part of this model.
- `Executor::new`, the borrow of `App`, and the byte and string comparison of names are plumbing. Names are compared as exact strings.
- The Lua glue in `bar.rs` is not modelled:
  - `install`, the metatable `__call`, and the export table are left out, apart from the constants' values.
  - The `symbol` and `style` setters are left out, including the error for a style value that is not a table, `Style` or nil. A `Bar` value has its symbol and style set directly.
- `Renderable::area` and `clone_render` are left out. They only return or copy the bar.
- ratatui's `Rect`, `Borders`, `Buffer`, `Cell` and `Style` are not part of this model. They are modelled by their documented behaviour:
  - right and bottom edges are saturating 16-bit additions;
  - the area is zero exactly when the width or the height is zero, and the product is taken exactly;
  - the border bits are TOP 1, RIGHT 2, BOTTOM 4, LEFT 8;
  - `set_style` overrides the named colours and adds or removes modifiers.
  - Underline colour and the cell's skip flag are omitted. Colours and modifiers are plain numbers.
- Elements.Render requires every cell it writes to exist in the buffer, because indexing a buffer outside its area panics and the model does not model the panic.
- BarProperties.PaintedCharacterised requires the rectangle to fit in 16 bits. Otherwise the saturating right edge shifts the right column, as shown by BarProperties.SaturationMovesRightColumn.
- Executor.Route states only which subsystems a layer can reach. The exact destination of each name is stated by the contract of each layer's router, by `ExecutorProperties.ManagerFirstMatchIsUniqueMatch` for the file-manager layer, and by the lemmas in `LayerProperties`.
