/**
 * The tool state machine of class `GTool` (with the hide tool `GToolHide` and
 * the drag wiring of the move tool `GToolMove`), as functions from one state
 * value to the next. The class `Tools.GTool` runs the same steps in place and
 * is proved to agree with these functions; the lemmas below state what the
 * state machine promises.
 *
 * Handlers and deferred actions, which the source stores as bound methods or
 * `(method, args...)` tuples, are tagged values here.
 */
module Machine {
  import opened Wrappers
  import opened Scene
  import opened Picking
  import opened Highlight

  /** Which tool: the bare `GTool`, `GToolMove` or `GToolHide`. */
  datatype ToolKind = Plain | Move | Hide

  /** Update handlers: the values `update`, `drag` and `confirm_next` hold. */
  datatype Handler =
    | Basic              // update_basic
    | Unhide             // GToolHide.update_unhide
    | MoveObj(target: Gi) // (GToolMove.move_obj, step, grasp, num_args) for the object grasped

  /** Deferred actions: the values `confirm` and `drag_start` hold. */
  datatype Action =
    | SetShowAll(value: bool) // (GToolHide.set_show_all, value)
    | HideObj(obj: Gi)        // (vis.hide, obj)
    | UnhideObj(obj: Gi)      // (GToolHide.unhide, obj)
    | MoveStart               // GToolMove.move_start

  /** The per-update hooks a handler may set; `_pre_update` clears them all. */
  datatype Hooks = Hooks(
    confirm: Option<Action>,
    confirmNext: Option<Handler>,
    drag: Option<Handler>,
    dragStart: Option<Action>)

  const NoHooks: Hooks := Hooks(None, None, None, None)

  /**
   * The part of the scene the tools change: `show_all_mode`, `gi_to_hidden`,
   * and how many times the tool has asked for `vis.refresh()`.
   */
  datatype Vis = Vis(showAll: bool, hidden: map<Gi, bool>, refreshes: nat)

  /** The three overlay snapshots last pushed to the renderer by `_hl_update`. */
  datatype Overlay = Overlay(selected: seq<Gi>, proposals: seq<Gi>, helpers: seq<Gi>)

  /** All the state of one tool. */
  datatype State = State(
    clickCoor: Option<Coor>,
    dragged: bool,
    update: Handler,
    hooks: Hooks,
    proposals: Layer,
    selected: Layer,
    helpers: Layer,
    findRadius: real,
    vis: Vis,
    shown: Overlay)

  /** `distance_to_drag_pix`: 5 pixels, and 0 for the move tool. */
  function DragThresholdPix(kind: ToolKind): real
  {
    if kind == Move then 0.0 else 5.0
  }

  /** `gi_to_hidden[g]`; an object with no entry counts as not hidden. */
  predicate IsHidden(v: Vis, g: Gi)
  {
    g in v.hidden && v.hidden[g]
  }

  /** `GToolHide.set_show_all`: it redraws only when the mode actually changes. */
  function SetShowAllEffect(v: Vis, value: bool): (w: Vis)
    ensures w.showAll == value && w.hidden == v.hidden
    ensures v.showAll == value ==> w == v
    ensures v.showAll != value ==> w.refreshes == v.refreshes + 1
  {
    if v.showAll != value then v.(showAll := value, refreshes := v.refreshes + 1) else v
  }

  /**
   * What running a deferred action does to the scene. `vis.hide` is not part
   * of this model: it is taken to mark the object hidden.
   */
  function Perform(a: Action, v: Vis): Vis
  {
    match a
    case SetShowAll(b) => SetShowAllEffect(v, b)
    case HideObj(o) => v.(hidden := v.hidden[o := true])
    case UnhideObj(o) => SetShowAllEffect(v.(hidden := v.hidden[o := false]), false)
    case MoveStart => v
  }

  /** `on_reset`: the hide tool leaves show-all mode; the others change nothing here. */
  function OnReset(kind: ToolKind, v: Vis): (w: Vis)
    ensures kind == Hide ==> !w.showAll && w == SetShowAllEffect(v, false)
    ensures kind != Hide ==> w == v
    ensures w.hidden == v.hidden
  {
    if kind == Hide then SetShowAllEffect(v, false) else v
  }

  /** What a handler decides: the hooks it sets and the object it selects, if any. */
  datatype Decision = Decision(hooks: Hooks, picked: Option<Gi>, permanent: bool)

  function Picked(o: Option<Gi>): seq<Gi>
  {
    if o.Some? then [o.value] else []
  }

  /**
   * The handlers. `select_pcl` picks a point, else a line or circle, and adds
   * what it picks to the selected overlay (permanent unless the move tool
   * asks otherwise). The move tool's drag update is geometry only.
   */
  function Decide(kind: ToolKind, h: Handler, view: View, coor: Coor, v: Vis): (d: Decision)
    requires view.scale != 0.0
  {
    match h
    case Basic =>
      (match kind
       case Plain => Decision(NoHooks, None, true)
       case Hide =>
         var o := CoorToPcl(view, coor, None);
         if o.None? then Decision(NoHooks.(confirm := Some(SetShowAll(true)), confirmNext := Some(Unhide)), o, true)
         else Decision(NoHooks.(confirm := Some(HideObj(o.value))), o, true)
       case Move =>
         var o := CoorToPcl(view, coor, None);
         if o.None? then Decision(NoHooks, o, false)
         else Decision(NoHooks.(drag := Some(MoveObj(o.value)), dragStart := Some(MoveStart)), o, false))
    case Unhide =>
      var o := CoorToPcl(view, coor, Some(g => IsHidden(v, g)));
      if o.None? then Decision(NoHooks.(confirm := Some(SetShowAll(false))), o, true)
      else Decision(NoHooks.(confirm := Some(UnhideObj(o.value))), o, true)
    case MoveObj(_) => Decision(NoHooks, None, false)
  }

  /** Running the current handler (`run_tuple(self.update, coor)`) after `_pre_update`. */
  function Handle(kind: ToolKind, view: View, coor: Coor, s: State): State
    requires view.scale != 0.0
  {
    var d := Decide(kind, s.update, view, coor, s.vis);
    s.(hooks := d.hooks, selected := Added(s.selected, Picked(d.picked), d.permanent))
  }

  // The loops over `hl_lists`

  predicate Loadable(s: State)
  {
    s.proposals.ini.Some? && s.selected.ini.Some? && s.helpers.ini.Some?
  }

  function HlReset(s: State): State
  {
    s.(proposals := ResetSaved(s.proposals), selected := ResetSaved(s.selected), helpers := ResetSaved(s.helpers))
  }

  function HlLoad(s: State): State
    requires Loadable(s)
  {
    s.(proposals := Loaded(s.proposals), selected := Loaded(s.selected), helpers := Loaded(s.helpers))
  }

  function HlSave(s: State): State
  {
    s.(proposals := Saved(s.proposals), selected := Saved(s.selected), helpers := Saved(s.helpers))
  }

  /** What the renderer should show: the objects of the three working lists. */
  function Displayed(s: State): Overlay
  {
    Overlay(Objects(s.selected.l), Objects(s.proposals.l), Objects(s.helpers.l))
  }

  function HlUpdate(s: State): State
  {
    s.(shown := Displayed(s))
  }

  /** `_pre_update`: restore the baselines, recompute the radius, clear the hooks. */
  function PreUpdate(view: View, s: State): State
    requires view.scale != 0.0 && Loadable(s)
  {
    HlLoad(s).(findRadius := FindRadius(view.scale), hooks := NoHooks)
  }

  /** `_run_update`. */
  function RunUpdate(kind: ToolKind, view: View, coor: Coor, s: State): State
    requires view.scale != 0.0 && Loadable(s)
  {
    HlUpdate(Handle(kind, view, coor, PreUpdate(view, s)))
  }

  /** `_run_confirm`: run the confirm action, then chain to `confirm_next` or go back to the basic state. */
  function RunConfirm(kind: ToolKind, s: State): State
  {
    var v := if s.hooks.confirm.Some? then Perform(s.hooks.confirm.value, s.vis) else s.vis;
    if s.hooks.confirmNext.Some? then
      HlSave(s.(update := s.hooks.confirmNext.value, vis := v))
    else
      HlReset(s).(update := Basic, vis := OnReset(kind, v))
  }

  /** `reset` (e.g. on right click). */
  function Reset(kind: ToolKind, view: View, s: State): State
    requires view.scale != 0.0
  {
    var s1 := HlReset(s.(dragged := false, clickCoor := None));
    var s2 := HlUpdate(PreUpdate(view, s1));
    s2.(update := Basic, vis := OnReset(kind, s2.vis))
  }

  /** `button_press`: a press while another is armed first resets the tool. */
  function ButtonPress(kind: ToolKind, view: View, coor: Coor, s: State): State
    requires view.scale != 0.0 && Loadable(s)
  {
    var s0 := if s.clickCoor.Some? then Reset(kind, view, s) else s;
    Press(kind, view, coor, s0)
  }

  /** The rest of `button_press`: an update, then a confirm at once or an armed drag. */
  function Press(kind: ToolKind, view: View, coor: Coor, s0: State): State
    requires view.scale != 0.0 && Loadable(s0)
  {
    var s1 := RunUpdate(kind, view, coor, s0);
    if s1.hooks.drag.None? then
      RunUpdate(kind, view, coor, RunConfirm(kind, s1))
    else
      var s2 := s1.(clickCoor := Some(coor), dragged := false);
      var s3 := if s2.hooks.dragStart.Some? then s2.(vis := Perform(s2.hooks.dragStart.value, s2.vis)) else s2;
      HlSave(s3)
  }

  /** `button_release`. */
  function ButtonRelease(kind: ToolKind, view: View, coor: Coor, s: State): State
    requires view.scale != 0.0 && Loadable(s)
  {
    var s1 := if s.clickCoor.Some? then RunConfirm(kind, s.(clickCoor := None, dragged := false)) else s;
    RunUpdate(kind, view, coor, s1)
  }

  /** The baselines exist and hold only permanent entries. */
  predicate Baselines(s: State)
  {
    && Loadable(s)
    && (forall e :: e in s.proposals.ini.value ==> e.permanent)
    && (forall e :: e in s.selected.ini.value ==> e.permanent)
    && (forall e :: e in s.helpers.ini.value ==> e.permanent)
  }

  /**
   * The invariant of every state the events reach: the baselines exist and
   * hold only permanent entries, a drag is only under way while pressed, an
   * armed press always has a drag handler, and the renderer shows the
   * working lists.
   */
  predicate Inv(s: State)
  {
    && Baselines(s)
    && (s.dragged ==> s.clickCoor.Some?)
    && (s.clickCoor.Some? && !s.dragged ==> s.hooks.drag.Some?)
    && s.shown == Displayed(s)
  }

  /**
   * `motion`. The source's `assert(self.drag is not None)` is the `assert`
   * below, proved from the invariant.
   */
  function Motion(kind: ToolKind, view: View, coor: Coor, pressed: bool, s: State): State
    requires view.scale != 0.0 && Inv(s)
  {
    var s1 :=
      if s.clickCoor.None? then s
      else if !pressed then Reset(kind, view, s)
      else if s.dragged then s
      else if view.gap(coor, s.clickCoor.value) >= DragThresholdPix(kind) / view.scale then
        assert s.hooks.drag.Some?;
        s.(update := s.hooks.drag.value, dragged := true)
      else s;
    if s1.clickCoor.None? || s1.dragged then RunUpdate(kind, view, coor, s1) else s1
  }

  /** `cursor_away`. */
  function CursorAway(s: State): State
    requires Loadable(s)
  {
    HlUpdate(HlLoad(s))
  }

  /** `enter`: a reset; the move tool then turns move mode on and refreshes. */
  function Enter(kind: ToolKind, view: View, s: State): State
    requires view.scale != 0.0
  {
    var s1 := Reset(kind, view, s);
    if kind == Move then s1.(vis := s1.vis.(refreshes := s1.vis.refreshes + 1)) else s1
  }

  /**
   * `leave`: the hide tool leaves show-all mode and the move tool turns move
   * mode off and refreshes, then a reset.
   */
  function Leave(kind: ToolKind, view: View, s: State): State
    requires view.scale != 0.0
  {
    var v :=
      match kind
      case Hide => SetShowAllEffect(s.vis, false)
      case Move => s.vis.(refreshes := s.vis.refreshes + 1)
      case Plain => s.vis;
    Reset(kind, view, s.(vis := v))
  }
}
