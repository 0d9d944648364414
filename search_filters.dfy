/** The search form's filter panels: a click on a panel's header shows or
    hides it and marks it as touched by the user; on page load every untouched
    panel is hidden on a narrow window and shown on a wide one; after a resize
    to a wide window every untouched hidden panel is shown again.

    A panel is the search container together with its wrapper (the
    `collapsed` class), its header icon (the two chevron classes) and the form
    it sits in (the `filters-collapsed` class). Several panels may sit in one
    form, so form flags are kept apart from the panels, by form number. */
module SearchFilters {

  /** Windows at most this wide count as mobile. */
  const MobileMaxWidth := 768
  const DisplayNone := "none"
  const DisplayBlock := "block"

  /** The header icon: absent, or an `<i>` with its two chevron classes. */
  datatype Icon = NoIcon | Chevron(up: bool, down: bool)

  /** The form a panel sits in, if any. */
  datatype FormRef = NoForm | InForm(formId: nat)

  datatype Panel = Panel(
    id: string,            // the container's id attribute
    className: string,     // the container's class attribute
    display: string,       // the container's inline `style.display`
    collapsed: bool,       // the wrapper has the `collapsed` class
    form: FormRef,
    icon: Icon)

  /** Everything the script reads and writes: the keys the user has touched,
      the panels in document order and the forms' `filters-collapsed` flags. */
  datatype State = State(interacted: set<string>, panels: seq<Panel>, forms: map<nat, bool>)

  /** The two handlers that sweep over all panels. */
  datatype Pass = OnLoad | OnResize

  datatype Option<T> = None | Some(value: T)

  /** The touch record is a plain object, so it already answers truthy for
      the property names every object inherits: a panel with one of these as
      its key counts as touched from the start. */
  const InheritedKeys: set<string> := {
    "constructor", "hasOwnProperty", "isPrototypeOf", "propertyIsEnumerable", "toLocaleString",
    "toString", "valueOf", "__proto__", "__defineGetter__", "__defineSetter__",
    "__lookupGetter__", "__lookupSetter__"}

  /** The key under which a touch is recorded: the id, or the class name
      when the id is empty. */
  function Key(p: Panel): string
  {
    if p.id != "" then p.id else p.className
  }

  predicate IsMobile(width: int)
  {
    width <= MobileMaxWidth
  }

  /** What the resize handler treats as hidden. */
  predicate IsHidden(p: Panel)
  {
    p.display == DisplayNone || p.collapsed
  }

  /** The container's display, the wrapper's class and the icon agree. */
  predicate Consistent(p: Panel)
  {
    (p.display == DisplayNone <==> p.collapsed)
    && (p.display == DisplayNone || p.display == DisplayBlock)
    && (p.icon.Chevron? ==> p.icon.up == p.collapsed && p.icon.down == !p.collapsed)
  }

  /** Hide (`collapse`) or show a panel: display, wrapper class and icon. */
  function Shown(p: Panel, collapse: bool): (r: Panel)
    ensures Consistent(r) && IsHidden(r) == collapse && r.collapsed == collapse
    ensures Key(r) == Key(p) && r.form == p.form && r.icon.Chevron? == p.icon.Chevron?
  {
    p.(display := if collapse then DisplayNone else DisplayBlock,
       collapsed := collapse,
       icon := if p.icon.Chevron? then Chevron(collapse, !collapse) else NoIcon)
  }

  /** The form's `filters-collapsed` flag after showing or hiding a panel in it. */
  function WithForm(forms: map<nat, bool>, f: FormRef, collapse: bool): map<nat, bool>
  {
    if f.InForm? then forms[f.formId := collapse] else forms
  }

  /** Show or hide panel `i` and set its form's flag accordingly. */
  function SetPanel(s: State, i: nat, collapse: bool): (t: State)
    requires i < |s.panels|
    ensures t.interacted == s.interacted && |t.panels| == |s.panels|
    ensures t.panels[i] == Shown(s.panels[i], collapse)
    ensures forall j :: 0 <= j < |s.panels| && j != i ==> t.panels[j] == s.panels[j]
  {
    var p := s.panels[i];
    s.(panels := s.panels[i := Shown(p, collapse)], forms := WithForm(s.forms, p.form, collapse))
  }

  /** A click on panel `i`'s header: record its key, then hide it unless its
      display is "none", in which case show it. */
  function Toggled(s: State, i: nat): State
    requires i < |s.panels|
  {
    var p := s.panels[i];
    SetPanel(s.(interacted := s.interacted + {Key(p)}), i, p.display != DisplayNone)
  }

  /** What a sweep does to one untouched panel: on load, hide it on mobile
      and show it otherwise; on resize, show it when the window is wide and
      the panel is hidden, and leave it otherwise. */
  function Target(pass: Pass, p: Panel, mobile: bool): Option<bool>
  {
    match pass
    case OnLoad => Some(mobile)
    case OnResize => if !mobile && IsHidden(p) then Some(false) else None
  }

  /** The handler's visit of panel `j`. */
  function Visit(s: State, pass: Pass, mobile: bool, j: nat): State
    requires j < |s.panels|
  {
    var p := s.panels[j];
    if Key(p) in s.interacted then s
    else match Target(pass, p, mobile)
      case None => s
      case Some(collapse) => SetPanel(s, j, collapse)
  }

  /** The handler's visits of the first `n` panels, in document order. */
  function Sweep(s: State, pass: Pass, mobile: bool, n: nat): (t: State)
    requires n <= |s.panels|
    ensures t.interacted == s.interacted && |t.panels| == |s.panels|
    ensures forall j :: n <= j < |s.panels| ==> t.panels[j] == s.panels[j]
  {
    if n == 0 then s else Visit(Sweep(s, pass, mobile, n - 1), pass, mobile, n - 1)
  }

  /** The panel a sweep leaves behind, given the panel it found. */
  function Swept(p: Panel, interacted: set<string>, pass: Pass, mobile: bool): Panel
  {
    if Key(p) in interacted then p
    else match Target(pass, p, mobile)
      case None => p
      case Some(collapse) => Shown(p, collapse)
  }

  /** The handler state the script keeps between events. */
  class FilterToggle {
    var interacted: set<string>
    var panels: seq<Panel>
    var forms: map<nat, bool>

    function Snapshot(): State
      reads this
    {
      State(interacted, panels, forms)
    }

    constructor (panels: seq<Panel>, forms: map<nat, bool>)
      ensures Snapshot() == State(InheritedKeys, panels, forms)
    {
      this.interacted := InheritedKeys;
      this.panels := panels;
      this.forms := forms;
    }

    /** `toggleSearchFilters`, for a click on panel `i`'s header. */
    method Toggle(i: nat)
      requires i < |panels|
      modifies this
      ensures Snapshot() == Toggled(old(Snapshot()), i)
    {
      var p := panels[i];
      interacted := interacted + {Key(p)};
      if p.display == DisplayNone {
        p := p.(display := DisplayBlock, collapsed := false);
        if p.form.InForm? {
          forms := forms[p.form.formId := false];
        }
        if p.icon.Chevron? {
          p := p.(icon := Chevron(false, true));
        }
      } else {
        p := p.(display := DisplayNone, collapsed := true);
        if p.form.InForm? {
          forms := forms[p.form.formId := true];
        }
        if p.icon.Chevron? {
          p := p.(icon := Chevron(true, false));
        }
      }
      panels := panels[i := p];
    }

    /** Show or hide panel `j` and set its form's flag. */
    method Show(j: nat, collapse: bool)
      requires j < |panels|
      modifies this
      ensures Snapshot() == SetPanel(old(Snapshot()), j, collapse)
    {
      var p := panels[j];
      p := p.(display := if collapse then DisplayNone else DisplayBlock, collapsed := collapse);
      if p.form.InForm? {
        forms := forms[p.form.formId := collapse];
      }
      if p.icon.Chevron? {
        p := p.(icon := Chevron(collapse, !collapse));
      }
      panels := panels[j := p];
    }

    /** `initSearchContainerState`, with the window's inner width. */
    method Init(width: int)
      modifies this
      ensures Snapshot() == Sweep(old(Snapshot()), OnLoad, IsMobile(width), |old(panels)|)
    {
      var mobile := width <= MobileMaxWidth;
      var j := 0;
      while j < |panels|
        invariant j <= |panels| == |old(panels)|
        invariant Snapshot() == Sweep(old(Snapshot()), OnLoad, mobile, j)
      {
        if Key(panels[j]) !in interacted {
          Show(j, mobile);
        }
        j := j + 1;
      }
    }

    /** The body of the debounced resize handler, with the window's inner width. */
    method Resize(width: int)
      modifies this
      ensures Snapshot() == Sweep(old(Snapshot()), OnResize, IsMobile(width), |old(panels)|)
    {
      var mobile := width <= MobileMaxWidth;
      var j := 0;
      while j < |panels|
        invariant j <= |panels| == |old(panels)|
        invariant Snapshot() == Sweep(old(Snapshot()), OnResize, mobile, j)
      {
        var p := panels[j];
        if Key(p) !in interacted {
          var hidden := p.display == DisplayNone || p.collapsed;
          if mobile && !hidden {
            // a wide-to-narrow switch keeps open panels open
          } else if !mobile && hidden {
            Show(j, false);
          }
        }
        j := j + 1;
      }
    }
  }

  /** A sweep visits each panel once, and a visit depends only on the panel
      as it was before the sweep. */
  lemma {:induction false} SweepPanels(s: State, pass: Pass, mobile: bool, n: nat, j: nat)
    requires n <= |s.panels| && j < |s.panels|
    ensures Sweep(s, pass, mobile, n).panels[j]
            == if j < n then Swept(s.panels[j], s.interacted, pass, mobile) else s.panels[j]
  {
    if n > 0 && j < n {
      var t := Sweep(s, pass, mobile, n - 1);
      if j < n - 1 {
        SweepPanels(s, pass, mobile, n - 1, j);
      } else {
        assert t.panels[j] == s.panels[j];
      }
    }
  }

  /** A sweep in which no untouched panel has anything to do changes nothing,
      form flags included. */
  lemma {:induction false} IdleSweep(s: State, pass: Pass, mobile: bool, n: nat)
    requires n <= |s.panels|
    requires forall j :: 0 <= j < n && Key(s.panels[j]) !in s.interacted ==> Target(pass, s.panels[j], mobile) == None
    ensures Sweep(s, pass, mobile, n) == s
  {
    if n > 0 {
      IdleSweep(s, pass, mobile, n - 1);
    }
  }

  /** A click shows a panel whose display is "none" and hides any other; the
      wrapper class, the icon and the form's flag follow; the panel's key is
      recorded; nothing else changes. */
  lemma ToggleFlips(s: State, i: nat)
    requires i < |s.panels|
    ensures var t := Toggled(s, i);
            var p := s.panels[i];
            && t.interacted == s.interacted + {Key(p)}
            && |t.panels| == |s.panels|
            && t.panels[i].display == (if p.display == DisplayNone then DisplayBlock else DisplayNone)
            && Consistent(t.panels[i]) && Key(t.panels[i]) == Key(p)
            && (p.form.InForm? ==> t.forms == s.forms[p.form.formId := t.panels[i].collapsed])
            && (p.form.NoForm? ==> t.forms == s.forms)
            && (forall j :: 0 <= j < |s.panels| && j != i ==> t.panels[j] == s.panels[j])
  {
  }

  /** Two clicks on the same header leave the panel as it was when it was
      shown or hidden; a panel whose display was neither "none" nor "block"
      (no inline style yet) ends up shown. */
  lemma ToggleTwice(s: State, i: nat)
    requires i < |s.panels|
    ensures var t := Toggled(Toggled(s, i), i);
            && t.interacted == s.interacted + {Key(s.panels[i])}
            && t.panels[i].display == (if s.panels[i].display == DisplayNone then DisplayNone else DisplayBlock)
            && (Consistent(s.panels[i]) ==> t.panels[i] == s.panels[i])
  {
    var p := s.panels[i];
    var u := Toggled(s, i);
    assert u.panels[i] == Shown(p, p.display != DisplayNone);
  }

  /** On load every untouched panel is hidden exactly when the window is
      mobile and is left consistent; touched panels are left alone. */
  lemma LoadHidesIffMobile(s: State, width: int, j: nat)
    requires j < |s.panels|
    ensures var t := Sweep(s, OnLoad, IsMobile(width), |s.panels|);
            && (Key(s.panels[j]) !in s.interacted ==>
                  (IsHidden(t.panels[j]) <==> width <= MobileMaxWidth) && Consistent(t.panels[j]))
            && (Key(s.panels[j]) in s.interacted ==> t.panels[j] == s.panels[j])
  {
    SweepPanels(s, OnLoad, IsMobile(width), |s.panels|, j);
  }

  /** A resize never hides a panel; it shows exactly the untouched hidden
      panels, and only on a wide window; on a mobile window it changes
      nothing at all. */
  lemma ResizeOnlyShows(s: State, width: int, j: nat)
    requires j < |s.panels|
    ensures var t := Sweep(s, OnResize, IsMobile(width), |s.panels|);
            && (!IsHidden(s.panels[j]) ==> t.panels[j] == s.panels[j])
            && (IsHidden(s.panels[j]) && Key(s.panels[j]) !in s.interacted && width > MobileMaxWidth ==>
                  t.panels[j] == Shown(s.panels[j], false))
            && (Key(s.panels[j]) in s.interacted || width <= MobileMaxWidth ==> t.panels[j] == s.panels[j])
            && (width <= MobileMaxWidth ==> t == s)
  {
    SweepPanels(s, OnResize, IsMobile(width), |s.panels|, j);
    if width <= MobileMaxWidth {
      IdleSweep(s, OnResize, true, |s.panels|);
    }
  }

  /** A resize to the width the page loaded with finds nothing to do. */
  lemma ResizeAfterLoadIsIdle(s: State, width: int)
    ensures var t := Sweep(s, OnLoad, IsMobile(width), |s.panels|);
            Sweep(t, OnResize, IsMobile(width), |t.panels|) == t
  {
    var mobile := IsMobile(width);
    var t := Sweep(s, OnLoad, mobile, |s.panels|);
    forall j | 0 <= j < |t.panels| && Key(t.panels[j]) !in t.interacted
      ensures Target(OnResize, t.panels[j], mobile) == None
    {
      SweepPanels(s, OnLoad, mobile, |s.panels|, j);
    }
    IdleSweep(t, OnResize, mobile, |t.panels|);
  }

  /** Panels that share a key share the touch: after a click on one, the
      next load or resize leaves every panel with the same key alone. */
  lemma SharedKeySharesTouch(s: State, i: nat, j: nat, pass: Pass, width: int)
    requires i < |s.panels| && j < |s.panels| && Key(s.panels[i]) == Key(s.panels[j])
    ensures var t := Toggled(s, i);
            Sweep(t, pass, IsMobile(width), |t.panels|).panels[j] == t.panels[j]
  {
    var t := Toggled(s, i);
    assert Key(t.panels[j]) == Key(s.panels[j]);
    SweepPanels(t, pass, IsMobile(width), |t.panels|, j);
  }

  /** The events the script reacts to. */
  datatype Event = Click(panel: nat) | Load(width: int) | Resized(width: int)

  function Step(s: State, e: Event): (t: State)
    requires e.Click? ==> e.panel < |s.panels|
    ensures |t.panels| == |s.panels|
    ensures forall j :: 0 <= j < |s.panels| ==> Key(t.panels[j]) == Key(s.panels[j])
  {
    match e
    case Click(i) => Toggled(s, i)
    case Load(w) => KeysKept(s, OnLoad, IsMobile(w)); Sweep(s, OnLoad, IsMobile(w), |s.panels|)
    case Resized(w) => KeysKept(s, OnResize, IsMobile(w)); Sweep(s, OnResize, IsMobile(w), |s.panels|)
  }

  lemma KeysKept(s: State, pass: Pass, mobile: bool)
    ensures forall j :: 0 <= j < |s.panels| ==> Key(Sweep(s, pass, mobile, |s.panels|).panels[j]) == Key(s.panels[j])
  {
    forall j | 0 <= j < |s.panels|
      ensures Key(Sweep(s, pass, mobile, |s.panels|).panels[j]) == Key(s.panels[j])
    {
      SweepPanels(s, pass, mobile, |s.panels|, j);
    }
  }

  predicate ClicksInRange(events: seq<Event>, n: nat)
  {
    forall e :: e in events && e.Click? ==> e.panel < n
  }

  /** The state after a sequence of events. */
  function Replay(s: State, events: seq<Event>): (t: State)
    requires ClicksInRange(events, |s.panels|)
    ensures |t.panels| == |s.panels|
    ensures forall j :: 0 <= j < |s.panels| ==> Key(t.panels[j]) == Key(s.panels[j])
  {
    if events == [] then s
    else
      var r := Replay(s, events[..|events| - 1]);
      Step(r, events[|events| - 1])
  }

  /** Whether some click in the events is on a panel with key `k`. */
  predicate ClickedKey(s: State, events: seq<Event>, k: string)
  {
    exists e :: e in events && e.Click? && e.panel < |s.panels| && Key(s.panels[e.panel]) == k
  }

  /** Over any run of clicks, loads and resizes, touched keys are never
      forgotten, and a touched panel changes only through clicks on panels
      that share its key. */
  lemma {:induction false} TouchedPanelsStay(s: State, events: seq<Event>, j: nat)
    requires ClicksInRange(events, |s.panels|) && j < |s.panels|
    ensures s.interacted <= Replay(s, events).interacted
    ensures Key(s.panels[j]) in s.interacted && !ClickedKey(s, events, Key(s.panels[j])) ==>
              Replay(s, events).panels[j] == s.panels[j]
  {
    if events != [] {
      var init := events[..|events| - 1];
      var e := events[|events| - 1];
      assert ClicksInRange(init, |s.panels|);
      TouchedPanelsStay(s, init, j);
      var r := Replay(s, init);
      if Key(s.panels[j]) in s.interacted && !ClickedKey(s, events, Key(s.panels[j])) {
        assert !ClickedKey(s, init, Key(s.panels[j])) by {
          forall e' | e' in init ensures e' in events { }
        }
        assert Key(r.panels[j]) in r.interacted;
        match e
        case Click(i) =>
          assert Key(s.panels[i]) != Key(s.panels[j]);
        case Load(w) =>
          SweepPanels(r, OnLoad, IsMobile(w), |r.panels|, j);
        case Resized(w) =>
          SweepPanels(r, OnResize, IsMobile(w), |r.panels|, j);
      }
    }
  }

  /** On a fresh page, a panel whose key is an inherited property name is
      never changed by a load or a resize. */
  lemma InheritedKeysCountAsTouched(panels: seq<Panel>, forms: map<nat, bool>, j: nat, pass: Pass, width: int)
    requires j < |panels| && Key(panels[j]) in InheritedKeys
    ensures Sweep(State(InheritedKeys, panels, forms), pass, IsMobile(width), |panels|).panels[j] == panels[j]
  {
    SweepPanels(State(InheritedKeys, panels, forms), pass, IsMobile(width), |panels|, j);
  }
}
