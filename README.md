# tg-node-display-options in Dafny

`tg_node_display_options.py` is a small tkinter window for the Terragen
renderer. The user picks a node class (camera, rock, planet, ...) and an
action (On, Off or Toggle) and presses Apply. The script then asks Terragen
over its RPC interface for every node of that class and writes the class's
preview-display parameters on each of them.

This project models the script's write engine and proves what it writes:

- **Registry** (`registry.dfy`, `props_registry.dfy`): `class_dict`,
  `class_labels_dict`, the radio-button order `class_list`, and
  `checkbox_status`. All are kept as ordered tables, because a Python
  dictionary keeps insertion order.
- **Remote project** (`rpc.dfy`): the Terragen project and the warning
  popups. `World` is a value holding every node's parameter map, the class of
  every node, the log of RPC calls and the popups shown. `Session` is the same
  state as a mutable object, with one method per RPC call the script makes.
  Which RPC calls raise is an input, the *fault schedule*: a map from the
  number of a call to the error it raises. Proving a property for every
  schedule covers every pattern of failures.
- **Decisions** (`actions.dfy`): the writes that `action_on`, `action_off`,
  `action_toggle` and `reset_other_preview_options` decide on, as a list of
  operations. `Put` writes a constant. `Flip` reads a value and writes its
  complement. `Plan` is the whole list `take_action` works through.
- **Execution** (`exec.dfy`): what one write, one read-and-complement, and a
  whole list of operations do to the world. `set_node_param` catches a
  failure, shows a popup and carries on. A failing read in
  `invert_param_value` is not caught, so it ends the apply.
- **Engine** (`engine.dfy`): the script's functions as imperative methods on a
  `Session`. `take_action` keeps its two nested loops and
  `reset_other_preview_options` keeps its loop. Each method is proved to
  leave the session exactly as the execution semantics says for its plan.
- **Properties** (`props_plan.dfy`, `props_exec.dfy`, `props_apply.dfy`):
  - the main-hidden write sequences and the checkbox rule
  - the node-major, registry-order write sequence
  - the frame: only addressed parameters change
  - failure handling
  - idempotence of On and Off
  - Toggle applied twice restores the original values

The checkboxes and the chosen action are plain inputs. They are tkinter
variables in the script: the checkboxes start at 1 and the action starts at
"On".

## Model

| member | source | states |
|---|---|---|
| Registry.Keys | tg_node_display_options.py:347 | `class_list` lists the keys of the table in table order, one per entry |
| Registry.Find | tg_node_display_options.py:340-341 | a dictionary lookup finds a value exactly when the key is one of the table's keys, and the value found belongs to an entry with that key |
| Registry.ClassList | tg_node_display_options.py:347 | `class_list` has one class per entry of `class_dict`, the i-th button's class being the i-th key |
| Registry.ParamsForRegistered | tg_node_display_options.py:341 | `class_dict[cls]` has a value exactly when `cls` is one of the radio-button classes, and that value is the parameter list registered for it |
| Registry.CheckboxStatus | tg_node_display_options.py:256-276 | `checkbox_status` answers exactly for the five parameters that have a checkbox, each with its own checkbox variable (body, frustum, path, bounding box, profile edges); for every other parameter it gives no value (Python's None) |
| RegistryProperties.ClassListSpelled | tg_node_display_options.py:40-59 | the radio-button classes are the eighteen classes of `class_dict`, in declaration order |
| RegistryProperties.TablesAgree | tg_node_display_options.py:40-80 | `class_dict` has eighteen distinct classes, and `class_labels_dict` has exactly the same keys in the same order |
| RegistryProperties.FindEntry | tg_node_display_options.py:340-341 | when keys are distinct, looking up the i-th key gives the i-th value |
| RegistryProperties.EveryClassRegistered | tg_node_display_options.py:340-341 | every radio button's class has its own parameter list and its own label |
| RegistryProperties.ParameterListsWellFormed | tg_node_display_options.py:40-59 | every parameter list is non-empty and has no repeats; main-hidden appears only as a one-element list; every parameter of a multi-parameter class has a checkbox |
| RegistryProperties.MultiParameterClasses | tg_node_display_options.py:56-58 | a class has more than one parameter exactly when it is `simple_shape_shader` or `camera` |
| Rpc.NodesOfClass | tg_node_display_options.py:107 | `children_filtered_by_class` returns exactly the nodes of the class, each once, in project order |
| Rpc.CallError | tg_node_display_options.py:239 | an RPC call succeeds exactly when the fault schedule has no fault for it and its node handle names a node of the project |
| Rpc.Session.ChildrenFilteredByClass | tg_node_display_options.py:106-107 | the fetch is logged, and either raises the scheduled error or returns the nodes of the class |
| Rpc.Session.GetParam | tg_node_display_options.py:310 | the read is logged, and either raises or returns the stored value; it raises ApiError for a parameter the node lacks |
| Rpc.Session.SetParam | tg_node_display_options.py:239 | the write is logged, and either raises with the node unchanged or stores the value |
| Rpc.Session.PopupWarning | tg_node_display_options.py:82-93 | a popup adds one warning and nothing else |
| Actions.ParseAction | tg_node_display_options.py:188-198 | the action string selects On, Off or Toggle exactly when it is "On", "Off" or "Toggle"; any other string is no action |
| Actions.Complement | tg_node_display_options.py:310-315 | the complement is "0" or "1", and it is "1" exactly when the value read is "0" |
| Actions.SelectedRule | tg_node_display_options.py:140 | the guard of lines 140, 158 and 173: the only parameter of a class is always acted on; with no parameters nothing is; in a class with several, exactly a parameter that has a checkbox reading 1 |
| Actions.ResetValue | tg_node_display_options.py:220-224 | a sibling option is reset to "0" or "1", and to "1" exactly for the textured option under "on" |
| Actions.ResetOps | tg_node_display_options.py:213-224 | resetting writes the five sibling options in list order: textured gets "1" for "on" and every other write is "0" |
| Actions.ParamOps | tg_node_display_options.py:125-175 | what one (node, parameter) gets under each action is on that node; its branches are stated by the PlanProperties lemmas below |
| Actions.NodeOps | tg_node_display_options.py:191-198 | the inner loop plans operations only on its node |
| Actions.Plan | tg_node_display_options.py:190-198 | the outer loop plans operations only on the nodes given |
| Actions.NodeOpsConcat | tg_node_display_options.py:191 | the inner loop over two lists of parameters plans the two plans one after the other |
| Actions.PlanConcat | tg_node_display_options.py:190 | the outer loop over two lists of nodes plans the two plans one after the other |
| Exec.Write | tg_node_display_options.py:226-254 | `set_node_param` makes one set_param call; on an error it shows one warning naming the error and the call and leaves the parameters alone, otherwise it stores the value |
| Exec.Invert | tg_node_display_options.py:297-315 | `invert_param_value` makes one get_param call; it succeeds exactly when the read does and then returns the complement of the stored value |
| Exec.StepOutcome | tg_node_display_options.py:173-175 | one operation keeps the node count, classes and fault schedule; a write never stops the engine; a flip stops it exactly when its read raises, having logged only that read, and otherwise writes the complement of the value read |
| Exec.Run | tg_node_display_options.py:189-198 | running operations keeps the node count, classes and fault schedule, and only extends the call log and the popups |
| Exec.FetchNodes | tg_node_display_options.py:95-123 | `get_nodes_in_class` makes one fetch; it fails exactly when the fetch raises, with exactly one warning, and otherwise returns the nodes of the class with no warning |
| Exec.SelectedClass | tg_node_display_options.py:340-341 | every radio-button index selects a class that has a parameter list |
| Exec.Apply | tg_node_display_options.py:340-344 | `on_apply` always starts with the fetch for the selected class and keeps the node count, classes and fault schedule; when that fetch raises, the apply ends there with only the fetch's effect |
| Exec.RunAppend | tg_node_display_options.py:190-198 | running two lists one after the other is running their concatenation, stopping where the first stops |
| Engine.SetNodeParam | tg_node_display_options.py:226-254 | the method leaves the session exactly as `Exec.Write` says |
| Engine.ResetOtherPreviewOptions | tg_node_display_options.py:200-224 | the loop performs the five sibling writes of `ResetOps` in order and never stops early |
| Engine.InvertParamValue | tg_node_display_options.py:297-315 | the method returns what `Exec.Invert` returns and leaves the session as it says |
| Engine.ActionOn | tg_node_display_options.py:125-141 | `action_on` performs exactly the On operations for its parameter and always completes |
| Engine.ActionOff | tg_node_display_options.py:143-159 | `action_off` performs exactly the Off operations for its parameter and always completes |
| Engine.ActionToggle | tg_node_display_options.py:161-175 | `action_toggle` performs the Toggle operations for its parameter; it reports false exactly when the read raised |
| Engine.StoppedRun | tg_node_display_options.py:190-198 | once a read has raised inside node i, the rest of the loop does nothing more |
| Engine.TakeAction | tg_node_display_options.py:177-198 | the nested loops leave the session exactly as running the plan for the parsed action does, and report whether it ran to the end |
| Engine.GetNodesInClass | tg_node_display_options.py:95-123 | the method returns and leaves exactly what `Exec.FetchNodes` says |
| Engine.OnApply | tg_node_display_options.py:332-344 | `on_apply` fetches the selected class's nodes and runs `take_action` only when the fetch returned a non-empty list |
| PlanProperties.MainHiddenWrites | tg_node_display_options.py:137-157 | main-hidden On writes the five siblings in order ("0","0","0","0", then textured "1") and then main-hidden "0"; Off writes the five siblings "0" and then main-hidden "1" |
| PlanProperties.MainHiddenToggle | tg_node_display_options.py:173-175 | Toggle on main-hidden is a single flip of that parameter; the siblings are not written |
| PlanProperties.CheckboxRule | tg_node_display_options.py:140-175 | an ordinary parameter is acted on exactly when the class has one parameter, or has several and its checkbox reads 1; otherwise it gets nothing, under every action |
| PlanProperties.UnknownActionDoesNothing | tg_node_display_options.py:188-198 | an action string other than the three names plans no operation for any node |
| PlanProperties.UnknownActionNodeDoesNothing | tg_node_display_options.py:191-198 | an unknown action plans no operation for any parameter of a node |
| PlanProperties.NodeOpsAddress | tg_node_display_options.py:191-198 | every operation planned for a node is on that node, and addresses a selected parameter of the class or, for On and Off, a main-hidden sibling |
| PlanProperties.PlanAddresses | tg_node_display_options.py:190-198 | every operation of a plan is on a given node, is a flip exactly under Toggle, and addresses a selected parameter or, for On and Off on a main-hidden class, one of its five siblings |
| PlanProperties.UncheckedNeverWritten | tg_node_display_options.py:256-276 | in a multi-parameter class, a parameter whose checkbox is not 1, or that has no checkbox, is never addressed under any action |
| PlanProperties.NodeOpsLength | tg_node_display_options.py:191-198 | every node gets the same number of operations |
| PlanProperties.PlanLength | tg_node_display_options.py:190-198 | the plan's length is the number of nodes times the per-node count |
| PlanProperties.PlanNodeMajor | tg_node_display_options.py:190-191 | node-major order: the operations for the nodes before node i, then all of node i's, then those for the nodes after it |
| PlanProperties.NodeOpsParamMajor | tg_node_display_options.py:191 | within a node, registry order: the operations for the parameters before j, then j's, then the rest |
| PlanProperties.PlanBlock | tg_node_display_options.py:190-191 | node i's operations form the block starting at i times the per-node count |
| PlanProperties.NodeOpsOnePerParam | tg_node_display_options.py:191-198 | when every parameter is selected, a node gets exactly one operation per parameter, in registry order |
| PlanProperties.PlanOrder | tg_node_display_options.py:189-198 | with every parameter selected, the plan has nodes times parameters operations, and operation i*P+j is the action on parameter j of node i |
| PlanProperties.PlanAt | tg_node_display_options.py:189-198 | operation i*P+j of such a plan is the action on parameter j of node i |
| PlanProperties.CameraToggleExample | tg_node_display_options.py:161-198 | two cameras with body and path checked and frustum unchecked: Toggle plans exactly four flips, body then path on each camera, and never frustum |
| ExecProperties.WritesNeverStop | tg_node_display_options.py:226-254 | a list of writes always runs to the end; every write is attempted in order; each one that raises gives exactly one warning and is skipped |
| ExecProperties.RunFrame | tg_node_display_options.py:190-224 | after a run, every (node, parameter) that no operation addresses keeps its value |
| ExecProperties.RunKeepsOtherNodes | tg_node_display_options.py:190-198 | a node that no operation names keeps all its parameters |
| ExecProperties.QuietRun | tg_node_display_options.py:177-198 | when no RPC call fails, a run does to the parameters what the failure-free semantics says, with one call per write and two per flip |
| ExecProperties.ConstantPlans | tg_node_display_options.py:125-159 | On, Off and unknown actions only write constants and never read |
| ExecProperties.IdealPutsFrame | tg_node_display_options.py:125-159 | constant writes change only what they address |
| ExecProperties.IdealPutsForget | tg_node_display_options.py:125-159 | constant writes overwrite what they address, so two projects that differ only there end up identical |
| ExecProperties.IdealPutsIdempotent | tg_node_display_options.py:125-159 | performing the same constant writes twice leaves what performing them once leaves |
| ExecProperties.ParamOpsValues | tg_node_display_options.py:137-159 | under On or Off every operation for one parameter is a constant write, and its value depends only on the parameter written: main-hidden gets "0"/"1", a sibling its reset value, any other parameter "1"/"0" |
| ExecProperties.NodeOpsValues | tg_node_display_options.py:125-159 | the same holds for all the operations On or Off plans for one node |
| ExecProperties.PlanValues | tg_node_display_options.py:125-159 | the same holds for a whole On or Off plan, so no two of its writes to one parameter disagree |
| ExecProperties.IdealPutsHold | tg_node_display_options.py:226-254 | after constant writes that agree with each other all succeed, every written parameter holds its written value |
| ExecProperties.RunPutsNoOp | tg_node_display_options.py:226-254 | writing values the project already holds changes no parameter, whichever of the writes raise |
| ExecProperties.OnOffSettles | tg_node_display_options.py:125-159 | after an On or Off none of whose RPC calls raises, every parameter the plan writes holds the value the plan writes there |
| ExecProperties.OnOffIdempotent | tg_node_display_options.py:125-159 | when no RPC call of the first run fails, a second On (or Off) leaves the parameters exactly as the first left them, whichever of its own calls fail |
| ExecProperties.ToggleNodeOps | tg_node_display_options.py:191-198 | Toggle on one node flips distinct parameters of the class |
| ExecProperties.TogglePlanDistinct | tg_node_display_options.py:190-198 | with distinct nodes, Toggle flips no (node, parameter) pair twice |
| ExecProperties.IdealFlips | tg_node_display_options.py:297-315 | flipping distinct readable pairs completes, stores the complement at every one of them, and changes nothing else |
| ExecProperties.IdealFlipTwice | tg_node_display_options.py:297-315 | flipping the same distinct pairs twice restores every "0" or "1" value |
| ExecProperties.ToggleTwiceRestores | tg_node_display_options.py:161-175 | when no RPC call fails and every pair the plan flips holds "0" or "1", two Toggles both complete and the second restores the project the first changed |
| ApplyProperties.FetchFailureWritesNothing | tg_node_display_options.py:342-344 | a failed fetch shows one warning naming the error, makes no further call and writes nothing |
| ApplyProperties.ApplyRunsPlan | tg_node_display_options.py:342-344 | after a successful fetch, Apply is the plan run over every node of the class in project order; for an empty class the guard skips a plan that would be empty |
| ApplyProperties.EmptyClassWritesNothing | tg_node_display_options.py:343-344 | a class with no nodes costs one fetch, with no write and no popup |
| ApplyProperties.ApplyOnOffIdempotent | tg_node_display_options.py:340-344 | pressing Apply twice with On (or Off): when no RPC call of the first press fails, the second press changes no parameter, whichever of its own calls fail |
| ApplyProperties.ApplyChangesOnlyAddressed | tg_node_display_options.py:332-344 | Apply changes only nodes of the selected class, and on them only a registered parameter that is main-hidden or selected, or, for On and Off on a main-hidden class, one of its five siblings |

## Left out

- The tkinter window is not modelled: radio buttons, checkbuttons, layout, colours and `set_apply_button_colour`. The checkbox values and the action string are inputs.
- `Engine.OnApply` requires the radio-button index to be one of the eighteen buttons. That is the only value the radio button can hold.
- `popup_warning` and the text of its messages are not modelled. A popup is recorded as the error kind and the RPC call that raised it. The title, `traceback` and `os.path` strings are not modelled.
- The `terragen_rpc` client is foreign code reached over the network. It is modelled as the `Session` state with a fault schedule:
  - `tg.root()` followed by `children_filtered_by_class` is one fallible fetch call.
  - The remote rejects a read of a parameter the node lacks with ApiError.
  - The remote accepts a write of a parameter the node lacks and adds that parameter. What Terragen does with such a write is not modelled. The script writes only the registered parameters of the class and, for a main-hidden class, its five sibling options.
  - The remote rejects any call on a handle that names no node with ApiError.
- The escaping exception is modelled only as the run stopping. When the read in `invert_param_value` raises, the exception leaves `take_action` and `on_apply` uncaught. The model stops the run there (`ok` is false) and shows no popup. tkinter's report of the traceback is not modelled.
- `toggle_param` is left out. Nothing in the script calls it.
- ExecProperties.OnOffIdempotent: holds only when no RPC call of the first run fails. If a write of the first run fails, a second run can succeed where the first did not and change the project. The second run may fail anywhere. ApplyProperties.ApplyOnOffIdempotent has the same condition.
- ExecProperties.ToggleTwiceRestores: holds only when no RPC call of the two toggles fails, the nodes and the parameter list have no repeats (class_dict's lists never do, by RegistryProperties.ParameterListsWellFormed), and every (node, parameter) the plan flips is present and holds "0" or "1". Parameters the plan does not flip may hold anything. Any other stored value toggles to "0" and then to "1".
- Toggle on main-hidden flips that one parameter and writes none of the five siblings (tg_node_display_options.py:173-175).
- A failed set_param is reported and the loop carries on (tg_node_display_options.py:226-254). Only a failed fetch, or a failed read in Toggle, ends the apply.
- `num_params` defaults to 0 in the source. That default is not modelled, because `take_action` always passes the length of the parameter list.
