/**
 * The tool object itself (class `GTool` of gtool.py, with `GToolMove` and
 * `GToolHide` selected by `kind`): its fields are updated in place, step by
 * step, as in the source, and every method is proved to take the tool to the
 * state the corresponding function of module `Machine` describes.
 */
module Tools {
  import opened Wrappers
  import opened Scene
  import opened Picking
  import opened Highlight
  import opened Machine
  import ToolProperties

  class GTool {
    const kind: ToolKind
    const distanceToDragPix: real
    const proposals: HighlightList
    const selected: HighlightList
    const helpers: HighlightList

    var findRadius: real
    var clickCoor: Option<Coor>
    var dragged: bool
    var update: Handler
    var confirm: Option<Action>
    var confirmNext: Option<Handler>
    var drag: Option<Handler>
    var dragStart: Option<Action>
    /** The scene state the tool changes (`vis.show_all_mode`, `vis.gi_to_hidden`, refreshes). */
    var vis: Vis
    /** What `vis.update_hl_*` last received. */
    var shown: Overlay

    /** The tool's state as a value. */
    function Snap(): State
      reads this, proposals, selected, helpers
    {
      State(clickCoor, dragged, update, Hooks(confirm, confirmNext, drag, dragStart),
            proposals.Value(), selected.Value(), helpers.Value(), findRadius, vis, shown)
    }

    /** The three lists are distinct objects, and the drag threshold is the tool's. */
    predicate Owned()
      reads this
    {
      proposals != selected && proposals != helpers && selected != helpers &&
      distanceToDragPix == DragThresholdPix(kind)
    }

    /** The object invariant, which holds between events once the tool has been entered. */
    ghost predicate Valid()
      reads this, proposals, selected, helpers
    {
      Owned() && Inv(Snap())
    }

    /** `__init__`; the attributes `reset` assigns get placeholder values until `enter`. */
    constructor (kind: ToolKind, vis: Vis)
      ensures Owned() && this.kind == kind && this.vis == vis
      ensures fresh(proposals) && fresh(selected) && fresh(helpers)
      ensures proposals.Value() == Layer([], None) && selected.Value() == Layer([], None) &&
              helpers.Value() == Layer([], None)
    {
      this.kind := kind;
      distanceToDragPix := DragThresholdPix(kind);
      proposals := new HighlightList();
      selected := new HighlightList();
      helpers := new HighlightList();
      findRadius := 0.0;
      clickCoor := None;
      dragged := false;
      update := Basic;
      confirm, confirmNext, drag, dragStart := None, None, None, None;
      this.vis := vis;
      shown := Overlay([], [], []);
    }

    // Bookkeeping of the three overlay lists

    method HlReset()
      requires Owned()
      modifies proposals, selected, helpers
      ensures Snap() == Machine.HlReset(old(Snap()))
    {
      proposals.ResetSave();
      selected.ResetSave();
      helpers.ResetSave();
    }

    method HlLoad()
      requires Owned() && Loadable(Snap())
      modifies proposals, selected, helpers
      ensures Snap() == Machine.HlLoad(old(Snap()))
    {
      proposals.Load();
      selected.Load();
      helpers.Load();
    }

    method HlSave()
      requires Owned()
      modifies proposals, selected, helpers
      ensures Snap() == Machine.HlSave(old(Snap()))
    {
      proposals.Save();
      selected.Save();
      helpers.Save();
    }

    method HlUpdate()
      modifies this
      ensures Snap() == Machine.HlUpdate(old(Snap()))
    {
      var sel := selected.ToList();
      var prop := proposals.ToList();
      var help := helpers.ToList();
      shown := Overlay(sel, prop, help);
    }

    method CursorAway()
      requires Valid()
      modifies this, proposals, selected, helpers
      ensures Valid() && Snap() == Machine.CursorAway(old(Snap()))
    {
      HlLoad();
      HlUpdate();
      ToolProperties.CursorAwayKeepsInv(old(Snap()));
    }

    /** `_pre_update`. */
    method PreUpdate(view: View)
      requires Owned() && view.scale != 0.0 && Loadable(Snap())
      modifies this, proposals, selected, helpers
      ensures Snap() == Machine.PreUpdate(view, old(Snap()))
    {
      HlLoad();
      findRadius := FindRadius(view.scale);
      drag := None;
      dragStart := None;
      confirm := None;
      confirmNext := None;
    }

    /** `hl_propose`. */
    method HlPropose(objs: seq<Gi>, permanent: bool)
      modifies proposals
      ensures proposals.Value() == Added(old(proposals.Value()), objs, permanent)
    {
      proposals.Add(objs, permanent);
    }

    /** `hl_select`. */
    method HlSelect(objs: seq<Gi>, permanent: bool)
      modifies selected
      ensures selected.Value() == Added(old(selected.Value()), objs, permanent)
    {
      selected.Add(objs, permanent);
    }

    /** `hl_add_helper`. */
    method HlAddHelper(objs: seq<Gi>, permanent: bool)
      modifies helpers
      ensures helpers.Value() == Added(old(helpers.Value()), objs, permanent)
    {
      helpers.Add(objs, permanent);
    }

    /**
     * `select_by_coor` with the query `coor_to_attempts(coor, *sels)`: the
     * picked object, if any, is added to the selected overlay.
     */
    method SelectByCoor(view: View, coor: Coor, sels: seq<Selector>, filter: Option<Gi -> bool>, permanent: bool)
      returns (obj: Option<Gi>)
      requires view.scale != 0.0
      modifies selected
      ensures obj == CoorToAttempts(view, coor, sels, filter)
      ensures selected.Value() == Added(old(selected.Value()), Picked(obj), permanent)
    {
      obj := CoorToAttempts(view, coor, sels, filter);
      if obj.Some? {
        HlSelect([obj.value], permanent);
      }
    }

    /** `select_pcl`: a point, else a line or circle, added to the selected overlay. */
    method SelectPcl(view: View, coor: Coor, filter: Option<Gi -> bool>, permanent: bool) returns (obj: Option<Gi>)
      requires view.scale != 0.0
      modifies selected
      ensures obj == CoorToPcl(view, coor, filter)
      ensures selected.Value() == Added(old(selected.Value()), Picked(obj), permanent)
    {
      obj := SelectByCoor(view, coor, [PointSel, ClSel], filter, permanent);
    }

    /** `update_basic` of the tool's class; the bare `GTool`'s does nothing. */
    method UpdateBasic(view: View, coor: Coor)
      requires Owned() && view.scale != 0.0 && update == Basic
      requires Hooks(confirm, confirmNext, drag, dragStart) == NoHooks
      modifies this, selected
      ensures Snap() == Handle(kind, view, coor, old(Snap()))
    {
      match kind
      case Plain =>
      case Hide => HideUpdateBasic(view, coor);
      case Move => MoveUpdateBasic(view, coor);
    }

    /** `GToolHide.update_basic`: hide the object under the cursor, or on empty space go to show-all mode. */
    method HideUpdateBasic(view: View, coor: Coor)
      requires Owned() && view.scale != 0.0 && update == Basic && kind == Hide
      requires Hooks(confirm, confirmNext, drag, dragStart) == NoHooks
      modifies this, selected
      ensures Snap() == Handle(kind, view, coor, old(Snap()))
    {
      var obj := SelectPcl(view, coor, None, true);
      if obj.None? {
        confirm := Some(Action.SetShowAll(true));
        confirmNext := Some(Unhide);
      } else {
        confirm := Some(HideObj(obj.value));
      }
    }

    /**
     * `GToolMove.update_basic` without its geometry: propose the object under
     * the cursor (not permanently) and enable dragging it.
     */
    method MoveUpdateBasic(view: View, coor: Coor)
      requires Owned() && view.scale != 0.0 && update == Basic && kind == Move
      requires Hooks(confirm, confirmNext, drag, dragStart) == NoHooks
      modifies this, selected
      ensures Snap() == Handle(kind, view, coor, old(Snap()))
    {
      var obj := SelectPcl(view, coor, None, false);
      if obj.Some? {
        drag := Some(MoveObj(obj.value));
        dragStart := Some(MoveStart);
      }
    }

    /** `GToolHide.update_unhide`: only hidden objects can be picked. */
    method UpdateUnhide(view: View, coor: Coor)
      requires Owned() && view.scale != 0.0 && update == Unhide
      requires Hooks(confirm, confirmNext, drag, dragStart) == NoHooks
      modifies this, selected
      ensures Snap() == Handle(kind, view, coor, old(Snap()))
    {
      var v := vis;
      var obj := SelectPcl(view, coor, Some(g => IsHidden(v, g)), true);
      if obj.None? {
        confirm := Some(Action.SetShowAll(false));
      } else {
        confirm := Some(UnhideObj(obj.value));
      }
    }

    /** `run_tuple(self.update, coor)`. */
    method RunHandler(view: View, coor: Coor)
      requires Owned() && view.scale != 0.0
      requires Hooks(confirm, confirmNext, drag, dragStart) == NoHooks
      modifies this, selected
      ensures Snap() == Handle(kind, view, coor, old(Snap()))
    {
      match update
      case Basic => UpdateBasic(view, coor);
      case Unhide => UpdateUnhide(view, coor);
      case MoveObj(_) =>
        // GToolMove.move_obj only changes the geometry
    }

    /** `_run_update`. */
    method RunUpdate(view: View, coor: Coor)
      requires Owned() && view.scale != 0.0 && Loadable(Snap())
      modifies this, proposals, selected, helpers
      ensures Snap() == Machine.RunUpdate(kind, view, coor, old(Snap()))
    {
      PreUpdate(view);
      RunHandler(view, coor);
      HlUpdate();
    }

    /** `GToolHide.set_show_all`. */
    method SetShowAll(value: bool)
      modifies this
      ensures vis == SetShowAllEffect(old(vis), value)
      ensures Snap() == old(Snap()).(vis := vis)
    {
      if vis.showAll != value {
        vis := vis.(showAll := value, refreshes := vis.refreshes + 1);
      }
    }

    /** `run_tuple` on a deferred action. */
    method RunAction(a: Action)
      modifies this
      ensures Snap() == old(Snap()).(vis := Perform(a, old(vis)))
    {
      match a
      case SetShowAll(b) => SetShowAll(b);
      case HideObj(o) =>
        vis := vis.(hidden := vis.hidden[o := true]);
      case UnhideObj(o) =>
        vis := vis.(hidden := vis.hidden[o := false]);
        SetShowAll(false);
      case MoveStart =>
        // GToolMove.move_start only updates the cursor
    }

    /** `on_reset`. */
    method OnReset()
      modifies this
      ensures Snap() == old(Snap()).(vis := Machine.OnReset(kind, old(vis)))
    {
      if kind == Hide {
        SetShowAll(false);
      }
    }

    /** `_run_confirm`. */
    method RunConfirm()
      requires Owned()
      modifies this, proposals, selected, helpers
      ensures Snap() == Machine.RunConfirm(kind, old(Snap()))
    {
      if confirm.Some? {
        RunAction(confirm.value);
      }
      if confirmNext.Some? {
        update := confirmNext.value;
        HlSave();
      } else {
        HlReset();
        update := Basic;
        OnReset();
      }
    }

    /** `reset`, e.g. on a right click. */
    method Reset(view: View)
      requires Owned() && view.scale != 0.0
      modifies this, proposals, selected, helpers
      ensures Valid() && Snap() == Machine.Reset(kind, view, old(Snap()))
    {
      dragged := false;
      clickCoor := None;
      HlReset();
      PreUpdate(view);
      HlUpdate();
      update := Basic;
      OnReset();
      ToolProperties.ResetEstablishesInv(kind, view, old(Snap()));
    }

    /** `button_press`. */
    method ButtonPress(view: View, coor: Coor)
      requires Valid() && view.scale != 0.0
      modifies this, proposals, selected, helpers
      ensures Valid() && Snap() == Machine.ButtonPress(kind, view, coor, old(Snap()))
    {
      if clickCoor.Some? {
        Reset(view);
      }
      Press(view, coor);
      ToolProperties.PressKeepsInv(kind, view, coor, old(Snap()));
    }

    /** The rest of `button_press`, once no press is armed. */
    method Press(view: View, coor: Coor)
      requires Owned() && view.scale != 0.0 && Loadable(Snap())
      modifies this, proposals, selected, helpers
      ensures Owned() && Snap() == Machine.Press(kind, view, coor, old(Snap()))
    {
      RunUpdate(view, coor);
      if drag.None? {
        RunConfirm();
        RunUpdate(view, coor);
      } else {
        clickCoor := Some(coor);
        dragged := false;
        if dragStart.Some? {
          RunAction(dragStart.value);
        }
        HlSave();
      }
    }

    /** `button_release`. */
    method ButtonRelease(view: View, coor: Coor)
      requires Valid() && view.scale != 0.0
      modifies this, proposals, selected, helpers
      ensures Valid() && Snap() == Machine.ButtonRelease(kind, view, coor, old(Snap()))
    {
      if clickCoor.Some? {
        clickCoor := None;
        dragged := false;
        RunConfirm();
      }
      RunUpdate(view, coor);
      ToolProperties.ReleaseKeepsInv(kind, view, coor, old(Snap()));
    }

    /** `motion`; the `assert` is the source's `assert(self.drag is not None)`. */
    method Motion(view: View, coor: Coor, pressed: bool)
      requires Valid() && view.scale != 0.0
      modifies this, proposals, selected, helpers
      ensures Valid() && Snap() == Machine.Motion(kind, view, coor, pressed, old(Snap()))
    {
      if clickCoor.Some? {
        if !pressed {
          Reset(view);
        } else if !dragged {
          if view.gap(coor, clickCoor.value) >= distanceToDragPix / view.scale {
            assert drag.Some?;
            update := drag.value;
            dragged := true;
          }
        }
      }
      if clickCoor.None? || dragged {
        RunUpdate(view, coor);
      }
      ToolProperties.MotionKeepsInv(kind, view, coor, pressed, old(Snap()));
    }

    /** `enter`: a reset; the move tool then turns move mode on and refreshes. */
    method Enter(view: View)
      requires Owned() && view.scale != 0.0
      modifies this, proposals, selected, helpers
      ensures Valid() && Snap() == Machine.Enter(kind, view, old(Snap()))
    {
      Reset(view);
      if kind == Move {
        vis := vis.(refreshes := vis.refreshes + 1);
      }
      ToolProperties.EnterEstablishesInv(kind, view, old(Snap()));
    }

    /** `leave`: the hide tool leaves show-all mode, the move tool refreshes; then a reset. */
    method Leave(view: View)
      requires Owned() && view.scale != 0.0
      modifies this, proposals, selected, helpers
      ensures Valid() && Snap() == Machine.Leave(kind, view, old(Snap()))
    {
      match kind {
        case Hide => SetShowAll(false);
        case Move => vis := vis.(refreshes := vis.refreshes + 1);
        case Plain =>
      }
      Reset(view);
    }
  }
}
