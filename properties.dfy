/**
 * What the tool state machine of module `Machine` promises: the invariant
 * every event keeps (so the source's assertion in `motion` never fails), the
 * click / drag / confirm protocol, and the hide tool's show-all cycle.
 */
module ToolProperties {
  import opened Wrappers
  import opened Scene
  import opened Picking
  import opened Highlight
  import opened Machine

  /**
   * An update cycle keeps the baselines and the press state, starts the
   * working lists from the baselines, sets the hooks the handler decides and
   * shows the result.
   */
  lemma RunUpdateFacts(kind: ToolKind, view: View, coor: Coor, s: State)
    requires view.scale != 0.0 && Baselines(s)
    ensures var r := RunUpdate(kind, view, coor, s);
            var d := Decide(kind, s.update, view, coor, s.vis);
            && Baselines(r)
            && r.proposals == Layer(s.proposals.ini.value, s.proposals.ini)
            && r.helpers == Layer(s.helpers.ini.value, s.helpers.ini)
            && r.selected == Layer(s.selected.ini.value + Tagged(Picked(d.picked), d.permanent), s.selected.ini)
            && r.hooks == d.hooks
            && r.clickCoor == s.clickCoor && r.dragged == s.dragged && r.update == s.update && r.vis == s.vis
            && r.findRadius == FindRadius(view.scale)
            && r.shown == Displayed(r)
  {
  }

  /** A confirm keeps the baselines well formed and does not touch the working lists. */
  lemma RunConfirmKeepsBaselines(kind: ToolKind, s: State)
    requires Loadable(s)
    ensures var r := RunConfirm(kind, s);
            Baselines(r) && r.proposals.l == s.proposals.l && r.selected.l == s.selected.l &&
            r.helpers.l == s.helpers.l && r.clickCoor == s.clickCoor && r.dragged == s.dragged
  {
  }

  /**
   * The two outcomes of a confirm: with `confirm_next` set, the handler
   * becomes it and every baseline becomes the permanent part of its working
   * list; otherwise every baseline is emptied, the handler goes back to
   * `update_basic`, and `on_reset` runs after the confirm action.
   */
  lemma RunConfirmOutcome(kind: ToolKind, s: State)
    ensures var r := RunConfirm(kind, s);
            var v := if s.hooks.confirm.Some? then Perform(s.hooks.confirm.value, s.vis) else s.vis;
            if s.hooks.confirmNext.Some? then
              && r.update == s.hooks.confirmNext.value
              && r.vis == v
              && r.proposals.ini == Some(Permanent(s.proposals.l))
              && r.selected.ini == Some(Permanent(s.selected.l))
              && r.helpers.ini == Some(Permanent(s.helpers.l))
            else
              && r.update == Basic
              && r.vis == OnReset(kind, v)
              && r.proposals.ini == Some([]) && r.selected.ini == Some([]) && r.helpers.ini == Some([])
  {
  }

  /**
   * A chain step carries the selection over: the next update cycle starts
   * each working list from exactly the permanent entries it held at the
   * click, in order. A confirm that does not chain starts them empty.
   */
  lemma ChainKeepsPermanentEntries(kind: ToolKind, view: View, s: State)
    requires view.scale != 0.0
    ensures var p := PreUpdate(view, RunConfirm(kind, s));
            if s.hooks.confirmNext.Some? then
              p.proposals.l == Permanent(s.proposals.l) && p.selected.l == Permanent(s.selected.l) &&
              p.helpers.l == Permanent(s.helpers.l)
            else
              p.proposals.l == [] && p.selected.l == [] && p.helpers.l == []
  {
    RunConfirmOutcome(kind, s);
  }

  /** A reset reaches the resting state from any state whatever. */
  lemma ResetEstablishesInv(kind: ToolKind, view: View, s: State)
    requires view.scale != 0.0
    ensures var r := Reset(kind, view, s);
            Inv(r) && r.clickCoor.None? && !r.dragged && r.update == Basic && r.hooks == NoHooks &&
            r.proposals == Layer([], Some([])) && r.selected == Layer([], Some([])) && r.helpers == Layer([], Some([]))
  {
  }

  lemma EnterEstablishesInv(kind: ToolKind, view: View, s: State)
    requires view.scale != 0.0
    ensures Inv(Enter(kind, view, s)) && Enter(kind, view, s).update == Basic
  {
    ResetEstablishesInv(kind, view, s);
  }

  lemma LeaveEstablishesInv(kind: ToolKind, view: View, s: State)
    requires view.scale != 0.0
    ensures Inv(Leave(kind, view, s)) && Leave(kind, view, s).clickCoor.None?
  {
    ResetEstablishesInv(kind, view, s.(vis := Leave(kind, view, s).vis));
  }

  lemma PressKeepsInv(kind: ToolKind, view: View, coor: Coor, s: State)
    requires view.scale != 0.0 && Inv(s)
    ensures Inv(ButtonPress(kind, view, coor, s))
  {
    var s0 := if s.clickCoor.Some? then Reset(kind, view, s) else s;
    ResetEstablishesInv(kind, view, s);
    assert Inv(s0) && s0.clickCoor.None? && !s0.dragged;
    RunUpdateFacts(kind, view, coor, s0);
    var s1 := RunUpdate(kind, view, coor, s0);
    if s1.hooks.drag.None? {
      RunConfirmKeepsBaselines(kind, s1);
      var s2 := RunConfirm(kind, s1);
      assert Baselines(s2) && s2.clickCoor.None? && !s2.dragged;
      RunUpdateFacts(kind, view, coor, s2);
    } else {
      var s2 := s1.(clickCoor := Some(coor), dragged := false);
      var s3 := if s2.hooks.dragStart.Some? then s2.(vis := Perform(s2.hooks.dragStart.value, s2.vis)) else s2;
      assert s3.shown == Displayed(s3) && s3.hooks.drag.Some?;
      assert ButtonPress(kind, view, coor, s) == HlSave(s3);
    }
  }

  lemma ReleaseKeepsInv(kind: ToolKind, view: View, coor: Coor, s: State)
    requires view.scale != 0.0 && Inv(s)
    ensures Inv(ButtonRelease(kind, view, coor, s))
  {
    var s1 := if s.clickCoor.Some? then RunConfirm(kind, s.(clickCoor := None, dragged := false)) else s;
    RunConfirmKeepsBaselines(kind, s.(clickCoor := None, dragged := false));
    RunUpdateFacts(kind, view, coor, s1);
  }

  lemma MotionKeepsInv(kind: ToolKind, view: View, coor: Coor, pressed: bool, s: State)
    requires view.scale != 0.0 && Inv(s)
    ensures Inv(Motion(kind, view, coor, pressed, s))
  {
    ResetEstablishesInv(kind, view, s);
    var s1 :=
      if s.clickCoor.None? then s
      else if !pressed then Reset(kind, view, s)
      else if s.dragged then s
      else if view.gap(coor, s.clickCoor.value) >= DragThresholdPix(kind) / view.scale then
        s.(update := s.hooks.drag.value, dragged := true)
      else s;
    if s1.clickCoor.None? || s1.dragged {
      RunUpdateFacts(kind, view, coor, s1);
    }
  }

  lemma CursorAwayKeepsInv(s: State)
    requires Inv(s)
    ensures Inv(CursorAway(s))
  {
  }

  /** Pressing again while a press is armed is a reset followed by a fresh press. */
  lemma RepressIsResetThenPress(kind: ToolKind, view: View, coor: Coor, s: State)
    requires view.scale != 0.0 && Loadable(s) && s.clickCoor.Some?
    ensures ButtonPress(kind, view, coor, s) == ButtonPress(kind, view, coor, Reset(kind, view, s))
  {
  }

  /**
   * A press whose update sets no drag handler is a complete click: the press
   * stays unarmed, and the handler afterwards is `confirm_next` if the
   * handler chained, `update_basic` otherwise.
   */
  lemma PressWithoutDragConfirms(kind: ToolKind, view: View, coor: Coor, s: State)
    requires view.scale != 0.0 && Inv(s) && s.clickCoor.None?
    requires Decide(kind, s.update, view, coor, s.vis).hooks.drag.None?
    ensures var r := ButtonPress(kind, view, coor, s);
            var d := Decide(kind, s.update, view, coor, s.vis);
            && r.clickCoor.None? && !r.dragged
            && r.update == (if d.hooks.confirmNext.Some? then d.hooks.confirmNext.value else Basic)
  {
    RunUpdateFacts(kind, view, coor, s);
    var s1 := RunUpdate(kind, view, coor, s);
    RunConfirmOutcome(kind, s1);
    RunConfirmKeepsBaselines(kind, s1);
    RunUpdateFacts(kind, view, coor, RunConfirm(kind, s1));
  }

  /**
   * A press whose update sets a drag handler arms the drag: the anchor is
   * the press position, no drag is under way yet, the handler is unchanged,
   * and every baseline absorbs the permanent entries of its working list.
   */
  lemma PressWithDragArms(kind: ToolKind, view: View, coor: Coor, s: State)
    requires view.scale != 0.0 && Inv(s) && s.clickCoor.None?
    requires Decide(kind, s.update, view, coor, s.vis).hooks.drag.Some?
    ensures var r := ButtonPress(kind, view, coor, s);
            var d := Decide(kind, s.update, view, coor, s.vis);
            && r.clickCoor == Some(coor) && !r.dragged && r.update == s.update
            && r.hooks == d.hooks
            && r.proposals.ini == Some(Permanent(r.proposals.l))
            && r.selected.ini == Some(Permanent(r.selected.l))
            && r.helpers.ini == Some(Permanent(r.helpers.l))
  {
    RunUpdateFacts(kind, view, coor, s);
  }

  /**
   * A release confirms exactly when a press was armed, and leaves nothing
   * armed; an unarmed release is a plain update cycle.
   */
  lemma ReleaseConfirmsIfArmed(kind: ToolKind, view: View, coor: Coor, s: State)
    requires view.scale != 0.0 && Inv(s)
    ensures var r := ButtonRelease(kind, view, coor, s);
            && r.clickCoor.None? && !r.dragged
            && (s.clickCoor.None? ==> r == RunUpdate(kind, view, coor, s))
            && (s.clickCoor.Some? ==>
                  r == RunUpdate(kind, view, coor, RunConfirm(kind, s.(clickCoor := None, dragged := false))))
  {
    ReleaseKeepsInv(kind, view, coor, s);
    var s1 := if s.clickCoor.Some? then RunConfirm(kind, s.(clickCoor := None, dragged := false)) else s;
    RunConfirmKeepsBaselines(kind, s.(clickCoor := None, dragged := false));
    RunUpdateFacts(kind, view, coor, s1);
  }

  /**
   * Pressed motion on an armed, not yet dragging tool starts the drag exactly
   * when the pointer has moved at least the threshold; the drag handler then
   * becomes the update handler, which that same motion runs. Below the
   * threshold nothing changes at all.
   */
  lemma DragStartsIffThreshold(kind: ToolKind, view: View, coor: Coor, s: State)
    requires view.scale != 0.0 && Inv(s) && s.clickCoor.Some? && !s.dragged
    ensures var r := Motion(kind, view, coor, true, s);
            var far := view.gap(coor, s.clickCoor.value) >= DragThresholdPix(kind) / view.scale;
            && (r.dragged <==> far)
            && (far ==> r.update == s.hooks.drag.value && r.clickCoor == s.clickCoor)
            && (far ==> r == RunUpdate(kind, view, coor, s.(update := s.hooks.drag.value, dragged := true)))
            && (!far ==> r == s)
  {
    var far := view.gap(coor, s.clickCoor.value) >= DragThresholdPix(kind) / view.scale;
    if far {
      var s1 := s.(update := s.hooks.drag.value, dragged := true);
      RunUpdateFacts(kind, view, coor, s1);
    }
  }

  /** The move tool's threshold is zero: its first pressed motion always starts the drag. */
  lemma MoveFirstMotionDrags(view: View, coor: Coor, s: State)
    requires view.scale > 0.0 && Inv(s) && s.clickCoor.Some? && !s.dragged
    requires view.gap(coor, s.clickCoor.value) >= 0.0
    ensures Motion(Move, view, coor, true, s).dragged
  {
    DragStartsIffThreshold(Move, view, coor, s);
  }

  /** Motion with the button up while a press is armed cancels: a reset, then an update. */
  lemma ReleasedMotionResets(kind: ToolKind, view: View, coor: Coor, s: State)
    requires view.scale != 0.0 && Inv(s) && s.clickCoor.Some?
    ensures Motion(kind, view, coor, false, s) == RunUpdate(kind, view, coor, Reset(kind, view, s))
    ensures Motion(kind, view, coor, false, s).clickCoor.None?
  {
    ResetEstablishesInv(kind, view, s);
    RunUpdateFacts(kind, view, coor, Reset(kind, view, s));
  }

  /** The update handler runs on motion exactly when no press is armed or a drag is under way. */
  lemma MotionUpdatesUnlessArmed(kind: ToolKind, view: View, coor: Coor, pressed: bool, s: State)
    requires view.scale != 0.0 && Inv(s)
    requires s.clickCoor.None? || s.dragged
    ensures Motion(kind, view, coor, pressed, s) ==
            if s.clickCoor.Some? && !pressed then RunUpdate(kind, view, coor, Reset(kind, view, s))
            else RunUpdate(kind, view, coor, s)
  {
  }

  // The hide tool

  /** The unhide handler only ever picks objects marked hidden. */
  lemma UnhidePicksHiddenOnly(kind: ToolKind, view: View, coor: Coor, v: Vis)
    requires view.scale != 0.0
    ensures var d := Decide(kind, Unhide, view, coor, v);
            d.picked.Some? ==> IsHidden(v, d.picked.value) && d.hooks.confirm == Some(UnhideObj(d.picked.value))
  {
    var o := CoorToPcl(view, coor, Some(g => IsHidden(v, g)));
    if o.Some? {
      PclFindsSelectable(view, coor, Some(g => IsHidden(v, g)));
    }
  }

  /**
   * Clicking empty space with the hide tool at rest switches show-all mode
   * on and chains to the unhide handler.
   */
  lemma HideEmptyClickShowsAll(view: View, coor: Coor, s: State)
    requires view.scale != 0.0 && Inv(s) && s.clickCoor.None? && s.update == Basic
    requires CoorToPcl(view, coor, None).None?
    ensures var r := ButtonPress(Hide, view, coor, s);
            r.vis.showAll && r.update == Unhide && r.clickCoor.None? && r.vis.hidden == s.vis.hidden
  {
    PressWithoutDragConfirms(Hide, view, coor, s);
    RunUpdateFacts(Hide, view, coor, s);
    var s1 := RunUpdate(Hide, view, coor, s);
    RunConfirmOutcome(Hide, s1);
    RunConfirmKeepsBaselines(Hide, s1);
    RunUpdateFacts(Hide, view, coor, RunConfirm(Hide, s1));
  }

  /**
   * Clicking a hidden object in the unhide state clears its hidden flag,
   * leaves show-all mode and returns the tool to its basic handler.
   */
  lemma UnhideClickRestores(view: View, coor: Coor, s: State)
    requires view.scale != 0.0 && Inv(s) && s.clickCoor.None? && s.update == Unhide
    requires CoorToPcl(view, coor, Some(g => IsHidden(s.vis, g))).Some?
    ensures var o := CoorToPcl(view, coor, Some(g => IsHidden(s.vis, g))).value;
            var r := ButtonPress(Hide, view, coor, s);
            && IsHidden(s.vis, o)
            && !r.vis.showAll && r.update == Basic && r.clickCoor.None?
            && r.vis.hidden == s.vis.hidden[o := false]
  {
    UnhidePicksHiddenOnly(Hide, view, coor, s.vis);
    PressWithoutDragConfirms(Hide, view, coor, s);
    RunUpdateFacts(Hide, view, coor, s);
    var s1 := RunUpdate(Hide, view, coor, s);
    RunConfirmOutcome(Hide, s1);
    RunConfirmKeepsBaselines(Hide, s1);
    RunUpdateFacts(Hide, view, coor, RunConfirm(Hide, s1));
  }

  /**
   * Clicking a visible object with the hide tool at rest hides it and
   * leaves the tool at rest, show-all mode off.
   */
  lemma HideClickHides(view: View, coor: Coor, s: State)
    requires view.scale != 0.0 && Inv(s) && s.clickCoor.None? && s.update == Basic
    requires CoorToPcl(view, coor, None).Some?
    ensures var o := CoorToPcl(view, coor, None).value;
            var r := ButtonPress(Hide, view, coor, s);
            !r.vis.showAll && r.update == Basic && r.vis.hidden == s.vis.hidden[o := true]
  {
    PressWithoutDragConfirms(Hide, view, coor, s);
    RunUpdateFacts(Hide, view, coor, s);
    var s1 := RunUpdate(Hide, view, coor, s);
    RunConfirmOutcome(Hide, s1);
    RunConfirmKeepsBaselines(Hide, s1);
    RunUpdateFacts(Hide, view, coor, RunConfirm(Hide, s1));
  }

  /** Leaving the hide tool, entering it, or resetting it always ends with show-all mode off. */
  lemma HideRestsWithoutShowAll(view: View, s: State)
    requires view.scale != 0.0
    ensures !Reset(Hide, view, s).vis.showAll
    ensures !Enter(Hide, view, s).vis.showAll
    ensures !Leave(Hide, view, s).vis.showAll
    ensures Leave(Hide, view, s).vis.hidden == s.vis.hidden
  {
  }
}
