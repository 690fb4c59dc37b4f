# A verified model of the geo_logic GUI tool core (gtool.py)

This project models the part of `gtool.py` that every interactive geometry
tool builds on:

- **Picking** (`ObjSelector`): finding the point, line or circle under the
  cursor. A candidate is picked if it is the nearest one that passes the
  filter, and only if its distance is below a radius of 20 pixels converted
  to geometric units at the current zoom. Ties go to the earliest candidate.
  The typed queries can be chained ("a point, else a line or circle").
- **Highlight lists** (`HighlightList`): the overlay lists for proposals,
  selections and helpers. Each one has a working list of `(object,
  permanent)` entries and a baseline. `load` restores the working list from
  the baseline. `save` turns the permanent entries of the working list into
  the new baseline.
- **The tool state machine** (`GTool`): pointer events (press, release,
  motion, cursor away, enter, leave, reset) drive a current update handler.
  The handler may set four hooks: `confirm`, `confirm_next`, `drag` and
  `drag_start`. A press without a drag handler confirms at once. A press
  with one arms a drag, which starts once the pointer moves past a pixel
  threshold, and the release confirms it. A confirm either chains to the
  next handler, promoting the permanent highlights, or resets the tool.
- **The hide tool** (`GToolHide`): clicking an object hides it. Clicking
  empty space turns show-all mode on and chains to an unhide handler, which
  only picks hidden objects. Leaving or resetting the tool turns show-all
  mode off.
- **The move tool's drag wiring** (`GToolMove`): its drag threshold is zero,
  and its basic handler arms a drag on the object it grasps.

How the model is built:

- The state machine is written twice.
  - Module `Machine` has pure transition functions on a `State` value.
  - Module `Tools` has the class `GTool`, which updates its fields and its
    three `HighlightList` objects in place, step by step as the source does.
  - Every event method of `GTool` ensures that its new state (`Snap()`) is
    the `Machine` function applied to its old state.
- `reset` (gtool.py:140-148) restores and shows the lists but does not run
  the update handler. A motion with the button up while a press is armed
  resets, and then `motion` runs one ordinary update (gtool.py:241-253);
  `ToolProperties.ReleasedMotionResets` states this.
- Module `ToolProperties` proves what the protocol promises about the
  `Machine` functions. Among these results, the source's
  `assert(self.drag is not None)` in `motion` never fails: it is an
  `assert` in `Machine.Motion` and in `Tools.GTool.Motion`, proved from the
  invariant `Machine.Inv`, which every event keeps.
- Geometry is abstracted. A `View` carries:
  - the zoom `scale`;
  - the selectable points, lines and circles (graphical indices, in the
    order in which the scene lists them);
  - the distance from a cursor position to an object, `dist`;
  - the distance between two cursor positions, `gap`.
- The scene state the tools change is a `Vis` value: the show-all flag, the
  `gi_to_hidden` map, and a count of the redraws the tool requests.

## Model

| member | source | states |
|---|---|---|
| Picking.FindRadius | gtool.py:21-23 | the radius times the zoom scale is exactly 20 pixels |
| Picking.FindRadiusAntitone | gtool.py:22-23 | a smaller positive scale never gives a smaller picking radius |
| Picking.Filtered | gtool.py:28-29 | the candidates kept are exactly those that pass the filter, and there are no more of them than candidates |
| Picking.FilteredAppend | gtool.py:28-29 | filtering distributes over concatenation, so candidate order is kept |
| Picking.ArgMin | gtool.py:30-34 | the position `min` returns holds a least distance, and every earlier candidate is strictly farther (the first minimum wins) |
| Picking.CoorToObj | gtool.py:26-36 | None if and only if every filtered candidate is at or beyond the radius; otherwise the result is a filtered candidate strictly inside the radius, no candidate is nearer, and it is the earliest such candidate in scan order |
| Picking.CoorToObjRadiusMonotone | gtool.py:26-36 | a larger radius keeps any pick and picks the same object |
| Picking.CoorToSound | gtool.py:38-49 | a typed query returns an object of its own kind (lines then circles for `coor_to_cl`) that passes the filter and is within the radius |
| Picking.EitherIsAttempts | gtool.py:56-61 | `coor_to_pcl`, `coor_to_pl` and `coor_to_pc` return the first query's result when it finds something, and the second query's otherwise, exactly as `coor_to_attempts` does on those two queries |
| Picking.FirstFound | gtool.py:51-55 | the loop returns the result of the first selector whose query finds something, and None exactly when every query finds nothing |
| Picking.CoorToAttempts | gtool.py:51-55 | the result is that of the first typed query that succeeds, and None exactly when every query fails |
| Picking.FirstFoundPair | gtool.py:51-55 | on two selectors the loop returns the first one's result unless it is None, and the second one's otherwise |
| Picking.PclFindsSelectable | gtool.py:56-57 | what `coor_to_pcl` returns is a point, line or circle that passes the filter and is within the radius |
| Highlight.Permanent | gtool.py:95-96 | the entries kept are exactly the permanent ones, and there are no more of them than entries |
| Highlight.KeepUnless | gtool.py:100-103 | the entries kept are exactly those whose object fails the condition, whatever their flag |
| Highlight.PermanentAppend | gtool.py:95-96 | the permanent filter distributes over concatenation, so order is kept |
| Highlight.PermanentIdempotent | gtool.py:95-96 | saving a baseline's entries again gives the same baseline |
| Highlight.PermanentTagged | gtool.py:91-96 | the entries one `add` appends are saved all together when permanent and not at all otherwise |
| Highlight.PermanentAll | gtool.py:95-96 | a list of permanent entries is saved unchanged |
| Highlight.SaveThenLoad | gtool.py:93-96 | save then load leaves the working list and the baseline both equal to the permanent entries at save time, in order |
| Highlight.AddAfterSave | gtool.py:91-96 | adding after a save leaves the baseline alone, and a load undoes the add |
| Highlight.SaveAfterLoadAdd | gtool.py:91-96 | load, add and save extend a permanent baseline by exactly the added entries if they are permanent, and by nothing otherwise |
| Highlight.RemoveFirstAt | gtool.py:99 | `remove` deletes the first occurrence and nothing else: the entries before it stay, the entries after it move up by one |
| Highlight.RemoveFirstMultiset | gtool.py:99 | `remove` drops exactly one copy of the entry |
| Highlight.KeepsNonPermanent | gtool.py:99 | removing an object's permanent entry never removes a non-permanent entry |
| Highlight.KeepUnlessAppend | gtool.py:100-103 | `remove_if` distributes over concatenation, so order is kept |
| Highlight.HighlightList.constructor | gtool.py:86-88 | a new list has an empty working list and no baseline yet |
| Highlight.HighlightList.ToList | gtool.py:89-90 | the objects of the working list, one per entry and in order |
| Highlight.HighlightList.Add | gtool.py:91-92 | the working list gains one entry per object, in order and all with the given flag; the baseline is unchanged |
| Highlight.HighlightList.Load | gtool.py:93-94 | the working list becomes the baseline |
| Highlight.HighlightList.Save | gtool.py:95-96 | the baseline becomes the permanent entries of the working list |
| Highlight.HighlightList.ResetSave | gtool.py:97 | the baseline becomes empty |
| Highlight.HighlightList.Pop | gtool.py:98 | the last entry is removed and returned; an empty list gives None and is unchanged |
| Highlight.HighlightList.Remove | gtool.py:99 | succeeds exactly when `(x, True)` is present; it then deletes its first occurrence, and otherwise nothing changes |
| Highlight.HighlightList.RemoveIf | gtool.py:100-103 | the working list keeps, in order, the entries whose object fails the condition |
| Machine.SetShowAllEffect | gtool.py:426-430 | show-all takes the given value and the hidden flags are untouched; a redraw is requested exactly when the value changes |
| Machine.OnReset | gtool.py:302-303 | the base `on_reset` of the plain and move tools leaves the scene unchanged; the hide tool's (gtool.py:423-424) is `set_show_all(False)`, so show-all ends off with a redraw only if it was on; no tool's `on_reset` touches the hidden flags |
| ToolProperties.RunUpdateFacts | gtool.py:187-206 | an update cycle starts every working list from its baseline, adds the handler's pick to the selection, sets exactly the handler's hooks, recomputes the radius, keeps the press state, handler and baselines, and shows the result |
| ToolProperties.RunConfirmKeepsBaselines | gtool.py:209-218 | a confirm leaves every baseline present and permanent, and it does not touch the working lists or the press state |
| ToolProperties.RunConfirmOutcome | gtool.py:209-218 | with `confirm_next` set, the handler becomes it and each baseline becomes the permanent part of its working list; otherwise the handler is `update_basic`, every baseline is empty and `on_reset` runs after the confirm action |
| ToolProperties.ChainKeepsPermanentEntries | gtool.py:187-193 | after a chaining confirm, the next update starts each list from exactly its permanent entries at the click; after a non-chaining one, from nothing |
| ToolProperties.ResetEstablishesInv | gtool.py:140-148 | from any state, a reset reaches the resting state: nothing armed, basic handler, no hooks, empty lists and baselines, and the invariant holds |
| ToolProperties.EnterEstablishesInv | gtool.py:293-295 | entering a tool establishes the invariant, with the basic handler |
| ToolProperties.LeaveEstablishesInv | gtool.py:297-299 | leaving a tool establishes the invariant, with nothing armed |
| ToolProperties.PressKeepsInv | gtool.py:222-233 | a button press keeps the invariant |
| ToolProperties.ReleaseKeepsInv | gtool.py:234-240 | a button release keeps the invariant |
| ToolProperties.MotionKeepsInv | gtool.py:241-253 | motion keeps the invariant, so the assertion in `motion` always holds |
| ToolProperties.CursorAwayKeepsInv | gtool.py:162-164 | cursor away keeps the invariant |
| ToolProperties.RepressIsResetThenPress | gtool.py:222-223 | a press while another press is armed is the same as a reset followed by the press |
| ToolProperties.PressWithoutDragConfirms | gtool.py:224-226 | a press whose handler sets no drag is a complete click: nothing stays armed, and the handler becomes `confirm_next` if one was set and `update_basic` otherwise |
| ToolProperties.PressWithDragArms | gtool.py:227-233 | a press whose handler sets a drag arms it at the press position, without dragging yet; it keeps the handler and hooks, and saves every baseline |
| ToolProperties.ReleaseConfirmsIfArmed | gtool.py:234-240 | a release leaves nothing armed; it confirms and then updates exactly when a press was armed, and is a plain update otherwise |
| ToolProperties.DragStartsIffThreshold | gtool.py:241-253 | with a press armed and the button down, the drag starts if and only if the pointer has moved at least the threshold; the drag handler then becomes the update handler and the same motion runs an update cycle with it; below the threshold nothing changes |
| ToolProperties.MoveFirstMotionDrags | gtool.py:351-353 | the move tool's threshold is zero, so its first pressed motion starts the drag |
| ToolProperties.ReleasedMotionResets | gtool.py:241-244 | motion with the button up while a press is armed is a reset followed by an update |
| ToolProperties.MotionUpdatesUnlessArmed | gtool.py:252-253 | motion runs the update handler when no press is armed or a drag is under way |
| ToolProperties.UnhidePicksHiddenOnly | gtool.py:407-414 | the unhide handler only picks hidden objects, and its confirm unhides the object it picked |
| ToolProperties.HideEmptyClickShowsAll | gtool.py:399-405 | with the hide tool at rest, clicking empty space turns show-all on and chains to the unhide handler; no hidden flag changes |
| ToolProperties.HideClickHides | gtool.py:399-405 | with the hide tool at rest, clicking an object hides exactly that object and keeps the tool at rest, with show-all off |
| ToolProperties.UnhideClickRestores | gtool.py:407-418 | in the unhide state, clicking a hidden object clears exactly its flag, turns show-all off and returns the tool to its basic handler |
| ToolProperties.HideRestsWithoutShowAll | gtool.py:420-424 | reset, enter and leave of the hide tool all end with show-all off, and leaving changes no hidden flag |
| Tools.GTool.constructor | gtool.py:132-138 | three fresh, distinct, empty highlight lists, with the tool's drag threshold (0 for the move tool, 5 otherwise) |
| Tools.GTool.HlReset | gtool.py:151-152 | every baseline is emptied |
| Tools.GTool.HlLoad | gtool.py:153-154 | every working list is restored from its baseline |
| Tools.GTool.HlSave | gtool.py:155-156 | every baseline is saved from its working list |
| Tools.GTool.HlUpdate | gtool.py:157-160 | the renderer is shown the objects of the three working lists |
| Tools.GTool.CursorAway | gtool.py:162-164 | the lists are restored and shown, and the invariant is kept |
| Tools.GTool.SelectByCoor | gtool.py:168-185 | the object the chained queries find is returned, and it alone is added to the selection with the given flag |
| Tools.GTool.SelectPcl | gtool.py:180-181 | `select_pcl`: the object `coor_to_pcl` finds is returned and added to the selection |
| Tools.GTool.PreUpdate | gtool.py:187-193 | the lists are restored, the radius is recomputed and all four hooks are cleared |
| Tools.GTool.HlPropose | gtool.py:195-196 | the proposals gain the given objects |
| Tools.GTool.HlSelect | gtool.py:197-198 | the selection gains the given objects |
| Tools.GTool.HlAddHelper | gtool.py:199-200 | the helpers gain the given objects |
| Tools.GTool.UpdateBasic | gtool.py:304-305 | the basic handler of each tool has the effect `Machine.Handle` gives it |
| Tools.GTool.HideUpdateBasic | gtool.py:399-405 | the hide tool's basic handler selects the picked object and sets the hooks `Machine.Handle` gives |
| Tools.GTool.MoveUpdateBasic | gtool.py:355-364 | the move tool's basic handler selects the picked object without the permanent flag and arms a drag on it |
| Tools.GTool.UpdateUnhide | gtool.py:407-414 | the unhide handler picks among hidden objects only and sets the confirm `Machine.Handle` gives |
| Tools.GTool.RunHandler | gtool.py:203-206 | running the current handler has the effect `Machine.Handle` gives |
| Tools.GTool.RunUpdate | gtool.py:203-206 | an update cycle in place has the effect of `Machine.RunUpdate` |
| Tools.GTool.SetShowAll | gtool.py:426-430 | show-all is set, with a redraw only when it changes; nothing else changes |
| Tools.GTool.RunAction | gtool.py:8-12 | a deferred action changes the scene as `Machine.Perform` says and changes nothing else |
| Tools.GTool.OnReset | gtool.py:302-303 | `on_reset` changes only the scene, as `Machine.OnReset` says |
| Tools.GTool.RunConfirm | gtool.py:209-218 | a confirm in place has the effect of `Machine.RunConfirm` |
| Tools.GTool.Reset | gtool.py:140-148 | a reset in place has the effect of `Machine.Reset` and establishes the invariant |
| Tools.GTool.ButtonPress | gtool.py:222-233 | a press in place has the effect of `Machine.ButtonPress` and keeps the invariant |
| Tools.GTool.Press | gtool.py:224-233 | after any reset, the rest of a press has the effect of `Machine.Press`: an update, then a confirm and another update, or an armed drag |
| Tools.GTool.ButtonRelease | gtool.py:234-240 | a release in place has the effect of `Machine.ButtonRelease` and keeps the invariant |
| Tools.GTool.Motion | gtool.py:241-253 | motion in place has the effect of `Machine.Motion` and keeps the invariant; the source's assertion is proved |
| Tools.GTool.Enter | gtool.py:293-295 | entering has the effect of `Machine.Enter` and establishes the invariant |
| Tools.GTool.Leave | gtool.py:297-299 | leaving has the effect of `Machine.Leave` and establishes the invariant |

## Left out

- Geometry and floating point. Distances (`dist_from`,
  `np.linalg.norm`) are given functions of the `View`, and coordinates
  are exact reals.
- The numeric object paired with each graphical index (`objn`) is not
  modelled. Filters see only the graphical index, and the queries return
  only it.
- A zoom scale of zero, where the source divides by zero, is excluded by a
  precondition.
- Nothing reads the stored radius. Every typed query recomputes the radius
  from the zoom, as `coor_to_obj` does (gtool.py:27). The `findRadius`
  field only records the value `_pre_update` stores (gtool.py:189).
- The renderer calls (`update_hl_*`, `set_cursor_by_tool`,
  `visible_export`, `move_mode`) are recorded only as the `shown`
  overlay, or as a count of requested redraws.
- `vis.hide` is not part of this model: the hide action is taken to set
  the object's hidden flag.
- `gi_to_hidden` without an entry for an object counts as "not hidden"
  (the source would raise KeyError).
- `GToolMove.move_obj` (drag geometry, hyper-parameter update, the
  proposal of the other intersection) is only a handler tag with no
  effect. The environment calls in `GToolMove.update_basic`
  (`gi_to_step`, `get_grasp`) are not modelled either.
- `GToolMove.move_start` rebinds `on_reset` to a cursor update. That
  changes no modelled state, so `MoveStart` has no effect.
- `run_tool`, `run_m_tool`, `instantiate_obj` and `lies_on` build
  construction steps in the environment, which is not part of this model.
- `AmbiSelect`, `GToolNone`, the icon, cursor, label and shortcut getters,
  and the `tools`, `env` and `viewport` references are not modelled.
- `run_tuple` is replaced by tagged `Handler` and `Action` values.
- `select_point`, `select_line`, `select_circle`, `select_cl`, `select_pl`
  and `select_pc` are `Tools.GTool.SelectByCoor` with the matching list of
  selectors. `SelectPcl` is the one the handlers use.
- `Tools.GTool.constructor` gives the scene state and handler placeholder
  values. In the source they do not exist until `enter`, and every path
  to an event goes through `enter`, which resets.
- `Highlight.HighlightList.Pop` and `Highlight.HighlightList.Remove`
  return `None` / `false` where Python raises IndexError / ValueError.
- `Highlight.HighlightList.Load` requires a baseline, where Python raises
  AttributeError if `load` runs before any `save` or `reset_save`
  (gtool.py:88, 93-94). Every call in `GTool` meets this, because `reset`
  calls `reset_save` first.
- One `View` serves a whole event, including the update cycle after a
  confirm in `button_press` and `button_release` (gtool.py:227, 239-240).
  The source re-reads the scene's selectable lists there, after the
  confirm action may have hidden an object (`vis.hide`, gtool.py:405) or
  redrawn the scene (`set_show_all`, gtool.py:430). The model does not
  capture how hiding or show-all mode changes what can be picked.
- The three `hl_lists` loops are unrolled over the three named lists.
- `coor_to_pcl`, `coor_to_pl` and `coor_to_pc` are written as a two-query
  chain (`Picking.Either`), not as calls to `coor_to_attempts`. Lemma
  `Picking.EitherIsAttempts` proves the two forms equal.
