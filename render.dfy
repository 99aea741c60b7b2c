/**
 * Rendering an app cell: the buttons and panels of the cell's user interface
 * are set from the current state definition by applying its enabled, disabled
 * and hidden button lists and then its show and hide panel lists, in that
 * order, so a later list wins over an earlier one.
 */
module Render {
  import opened AppStates

  datatype ButtonState = Enabled | Disabled | Hidden

  /** `m` with every key listed in `ks` bound to `v`. */
  function Assign<K, V>(m: map<K, V>, ks: seq<K>, v: V): (r: map<K, V>)
    ensures r.Keys == m.Keys + Elems(ks)
    ensures forall k :: k in ks ==> r[k] == v
    ensures forall k :: k in m && k !in ks ==> r[k] == m[k]
  {
    map k | k in m.Keys + Elems(ks) :: if k in ks then v else m[k]
  }

  /** The button states after the three button lists of `b` have been applied to `prev`. */
  function ButtonsAfter(prev: map<Control, ButtonState>, b: Buttons): map<Control, ButtonState> {
    Assign(Assign(Assign(prev, b.enabled, Enabled), b.disabled, Disabled), b.hidden, Hidden)
  }

  /** Panel visibility (`true` for shown) after the show and hide lists of `e` have been applied. */
  function PanelsAfter(prev: map<Panel, bool>, e: Elements): map<Panel, bool> {
    Assign(Assign(prev, e.show, true), e.hide, false)
  }

  /** The processing, success and error states, whose element lists do not name the fatal-error panel. */
  predicate ExecMode(t: Tag) {
    t.mode == Processing || t.mode == Success || t.mode == Error
  }

  /** The user interface of one app cell: a state per button and a visibility per panel. */
  class CellUi {
    var buttons: map<Control, ButtonState>
    var panels: map<Panel, bool>

    /** A freshly laid-out cell, on which no list has been applied yet. */
    constructor()
      ensures buttons == map[] && panels == map[]
    {
      buttons := map[];
      panels := map[];
    }

    method SetButtons(cs: seq<Control>, s: ButtonState)
      modifies this
      ensures buttons == Assign(old(buttons), cs, s)
      ensures panels == old(panels)
    {
      for i := 0 to |cs|
        invariant buttons == Assign(old(buttons), cs[..i], s)
        invariant panels == old(panels)
      {
        assert cs[..i + 1] == cs[..i] + [cs[i]];
        buttons := buttons[cs[i] := s];
      }
      assert cs[..|cs|] == cs;
    }

    method SetPanels(ps: seq<Panel>, shown: bool)
      modifies this
      ensures panels == Assign(old(panels), ps, shown)
      ensures buttons == old(buttons)
    {
      for i := 0 to |ps|
        invariant panels == Assign(old(panels), ps[..i], shown)
        invariant buttons == old(buttons)
      {
        assert ps[..i + 1] == ps[..i] + [ps[i]];
        panels := panels[ps[i] := shown];
      }
      assert ps[..|ps|] == ps;
    }

    /** Applies the lists of a state definition, as rendering the cell does. */
    method Render(d: StateDef)
      modifies this
      ensures buttons == ButtonsAfter(old(buttons), d.ui.buttons)
      ensures panels == PanelsAfter(old(panels), d.ui.elements)
    {
      SetButtons(d.ui.buttons.enabled, Enabled);
      SetButtons(d.ui.buttons.disabled, Disabled);
      SetButtons(d.ui.buttons.hidden, Hidden);
      SetPanels(d.ui.elements.show, true);
      SetPanels(d.ui.elements.hide, false);
    }
  }

  /** Applying partitioned button lists gives every control the state its list names. */
  lemma ButtonsAfterPartitioned(prev: map<Control, ButtonState>, b: Buttons, c: Control)
    requires Partitioned(b)
    ensures c in ButtonsAfter(prev, b)
    ensures ButtonsAfter(prev, b)[c] == Enabled <==> c in b.enabled
    ensures ButtonsAfter(prev, b)[c] == Disabled <==> c in b.disabled
    ensures ButtonsAfter(prev, b)[c] == Hidden <==> c in b.hidden
  {
    assert c in Controls by {
      assert c.RunApp? || c.ReRunApp? || c.Cancel?;
    }
    assert c in Elems(b.enabled) + Elems(b.disabled) + Elems(b.hidden);
  }

  /**
   * After rendering a defined state every control has a state, and it is the
   * one the state's button lists give it, whatever was on the screen before.
   */
  lemma ButtonsFollowState(t: Tag, prev: map<Control, ButtonState>, c: Control)
    requires Defined(t)
    ensures var b := Lookup(t).value.ui.buttons;
      && c in ButtonsAfter(prev, b)
      && (ButtonsAfter(prev, b)[c] == Enabled <==> c in b.enabled)
      && (ButtonsAfter(prev, b)[c] == Disabled <==> c in b.disabled)
      && (ButtonsAfter(prev, b)[c] == Hidden <==> c in b.hidden)
  {
    ButtonsPartitioned(t);
    ButtonsAfterPartitioned(prev, Lookup(t).value.ui.buttons, c);
  }

  /** With partitioned lists the result does not depend on the earlier states. */
  lemma ButtonsAfterIgnoresPrev(prev1: map<Control, ButtonState>, prev2: map<Control, ButtonState>, b: Buttons)
    requires Partitioned(b)
    ensures ButtonsAfter(prev1, b) == ButtonsAfter(prev2, b)
  {
    var r1, r2 := ButtonsAfter(prev1, b), ButtonsAfter(prev2, b);
    forall c: Control
      ensures c in r1 && c in r2 && r1[c] == r2[c]
    {
      ButtonsAfterPartitioned(prev1, b, c);
      ButtonsAfterPartitioned(prev2, b, c);
    }
    assert r1.Keys == r2.Keys;
  }

  /** The buttons after rendering a defined state do not depend on the screen before. */
  lemma ButtonsIgnorePriorScreen(t: Tag, prev1: map<Control, ButtonState>, prev2: map<Control, ButtonState>)
    requires Defined(t)
    ensures ButtonsAfter(prev1, Lookup(t).value.ui.buttons) == ButtonsAfter(prev2, Lookup(t).value.ui.buttons)
  {
    ButtonsPartitioned(t);
    ButtonsAfterIgnoresPrev(prev1, prev2, Lookup(t).value.ui.buttons);
  }

  /** Outside the processing, success and error states the element lists name every panel. */
  lemma PanelNamed(t: Tag, p: Panel)
    requires Defined(t)
    requires p != FatalErrorPanel || !ExecMode(t)
    ensures p in Lookup(t).value.ui.elements.show || p in Lookup(t).value.ui.elements.hide
  {
    assert p.FatalErrorPanel? || p.ParametersGroup? || p.OutputGroup? || p.ParametersDisplayGroup? || p.ExecGroup?;
  }

  /** A panel named by disjoint show and hide lists is shown exactly when the show list names it. */
  lemma PanelsAfterNamed(prev: map<Panel, bool>, e: Elements, p: Panel)
    requires Elems(e.show) !! Elems(e.hide)
    requires p in e.show || p in e.hide
    ensures p in PanelsAfter(prev, e) && (PanelsAfter(prev, e)[p] <==> p in e.show)
  {
  }

  /**
   * After rendering a defined state every panel the state's lists name is
   * shown exactly when it is in the show list; outside the processing,
   * success and error states the lists name every panel.
   */
  lemma PanelsFollowState(t: Tag, prev: map<Panel, bool>, p: Panel)
    requires Defined(t)
    requires p != FatalErrorPanel || !ExecMode(t)
    ensures var e := Lookup(t).value.ui.elements;
      p in PanelsAfter(prev, e) && (PanelsAfter(prev, e)[p] <==> p in e.show)
  {
    ShowHideDisjoint(t);
    PanelNamed(t, p);
    PanelsAfterNamed(prev, Lookup(t).value.ui.elements, p);
  }

  /**
   * The processing, success and error states leave the fatal-error panel as it
   * was: rendering them neither shows nor hides it.
   */
  lemma ExecStatesKeepFatalPanel(t: Tag, prev: map<Panel, bool>)
    requires Defined(t) && ExecMode(t)
    ensures var r := PanelsAfter(prev, Lookup(t).value.ui.elements);
      && (FatalErrorPanel in r <==> FatalErrorPanel in prev)
      && (FatalErrorPanel in prev ==> r[FatalErrorPanel] == prev[FatalErrorPanel])
  {
  }

  /** Rendering the same definition twice leaves the screen as rendering it once. */
  lemma RenderIdempotent(prevButtons: map<Control, ButtonState>, prevPanels: map<Panel, bool>, d: StateDef)
    ensures ButtonsAfter(ButtonsAfter(prevButtons, d.ui.buttons), d.ui.buttons) == ButtonsAfter(prevButtons, d.ui.buttons)
    ensures PanelsAfter(PanelsAfter(prevPanels, d.ui.elements), d.ui.elements) == PanelsAfter(prevPanels, d.ui.elements)
  {
    var b := d.ui.buttons;
    var once := ButtonsAfter(prevButtons, b);
    var twice := ButtonsAfter(once, b);
    assert twice.Keys == once.Keys;
    forall c | c in once ensures twice[c] == once[c] {
    }
    var e := d.ui.elements;
    var shown := PanelsAfter(prevPanels, e);
    var again := PanelsAfter(shown, e);
    assert again.Keys == shown.Keys;
    forall p | p in shown ensures again[p] == shown[p] {
    }
  }

  /** The state a defined state's button lists give a control. */
  function ButtonOf(b: Buttons, c: Control): ButtonState {
    if c in b.enabled then Enabled else if c in b.disabled then Disabled else Hidden
  }

  /**
   * The screen shows state `t`: every control has the state its lists give it,
   * and every panel its lists name is shown exactly when it is in the show list.
   */
  predicate Shows(buttons: map<Control, ButtonState>, panels: map<Panel, bool>, t: Tag) {
    && Defined(t)
    && (forall c: Control :: c in buttons && buttons[c] == ButtonOf(Lookup(t).value.ui.buttons, c))
    && (forall p: Panel :: p != FatalErrorPanel || !ExecMode(t) ==>
          p in panels && (panels[p] <==> p in Lookup(t).value.ui.elements.show))
  }

  /** Rendering a defined state makes the screen show it. */
  lemma RenderShows(t: Tag, prevButtons: map<Control, ButtonState>, prevPanels: map<Panel, bool>)
    requires Defined(t)
    ensures Shows(ButtonsAfter(prevButtons, Lookup(t).value.ui.buttons), PanelsAfter(prevPanels, Lookup(t).value.ui.elements), t)
  {
    var b := Lookup(t).value.ui.buttons;
    forall c: Control
      ensures c in ButtonsAfter(prevButtons, b) && ButtonsAfter(prevButtons, b)[c] == ButtonOf(b, c)
    {
      ButtonsFollowState(t, prevButtons, c);
    }
    forall p: Panel | p != FatalErrorPanel || !ExecMode(t)
      ensures var r := PanelsAfter(prevPanels, Lookup(t).value.ui.elements);
        p in r && (r[p] <==> p in Lookup(t).value.ui.elements.show)
    {
      PanelsFollowState(t, prevPanels, p);
    }
  }
}
