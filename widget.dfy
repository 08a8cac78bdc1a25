/** The autocomplete widget: its four pieces of state, the events that
    change them, the view rendered from them, and the component itself. */
module Widget {
  import opened ArrayOps
  import opened QueryFilter
  import opened Selection

  /** The space between the measured input row and the results panel. */
  const PanelGap: int := 5

  /** The user-interface events the widget handles. */
  datatype Event =
    | TextChanged(text: string)     // typing in the text input
    | OptionTapped(option: string)  // tapping an option in the results panel
    | TagRemoved(option: string)    // the cross on a selected tag
    | ClearAll                      // the clear button
    | OpenRequested                 // a tap on the widget or on the text input
    | ToggleOpen                    // the arrow button
    | Measured(height: int)         // a layout pass of the widget's outer view

  predicate IsFocusEvent(e: Event) {
    e.OpenRequested? || e.ToggleOpen?
  }

  /** A snapshot of the widget's state. */
  datatype State = State(query: string, isFocused: bool, selectedItems: seq<string>, parentHeight: int)

  /** The state when the widget mounts. */
  const Initial: State := State("", false, [], 0)

  /** The handler for one event, as one atomic transition. */
  function Step(s: State, e: Event): (r: State)
    ensures !e.TextChanged? ==> r.query == s.query
    ensures !IsFocusEvent(e) ==> r.isFocused == s.isFocused
    ensures !e.Measured? ==> r.parentHeight == s.parentHeight
    ensures NoDuplicates(s.selectedItems) ==> NoDuplicates(r.selectedItems)
  {
    match e
    case TextChanged(text) => s.(query := text)
    case OptionTapped(option) => s.(selectedItems := Select(s.selectedItems, option))
    case TagRemoved(option) => s.(selectedItems := Deselect(s.selectedItems, option))
    case ClearAll => s.(selectedItems := [])
    case OpenRequested => s.(isFocused := true)
    case ToggleOpen => s.(isFocused := !s.isFocused)
    case Measured(height) => s.(parentHeight := height)
  }

  /** The events handled one after another, in delivery order. No sequence
      of events introduces a duplicate into a duplicate-free selection. */
  function Run(s: State, events: seq<Event>): (r: State)
    ensures NoDuplicates(s.selectedItems) ==> NoDuplicates(r.selectedItems)
    decreases |events|
  {
    if events == [] then s else Step(Run(s, events[..|events| - 1]), events[|events| - 1])
  }

  /** What the widget renders: the query, the filtered categories, the
      selected tags, whether the results panel is shown, and its offset. */
  datatype View = View(query: string, results: seq<Category>, selected: seq<string>,
                       isOpen: bool, panelOffset: int)

  function Render(data: seq<Category>, s: State): (v: View)
    ensures |v.results| == |data|
    ensures forall i :: 0 <= i < |data| ==> v.results[i].key == data[i].key
  {
    View(s.query, Filter(data, s.query), s.selectedItems, s.isFocused, s.parentHeight + PanelGap)
  }

  /** A result row is disabled when its option is already selected, which is
      exactly when selecting it would leave the selection as it is. */
  predicate IsDisabled(v: View, option: string): (r: bool)
    ensures r <==> Select(v.selected, option) == v.selected
  {
    option in v.selected
  }

  /** The disabled flag and the handler's own guard agree: a row is disabled
      exactly when tapping its option would leave the state unchanged. */
  lemma DisabledTapIsNoOp(data: seq<Category>, s: State, option: string)
    ensures IsDisabled(Render(data, s), option) <==> Step(s, OptionTapped(option)) == s
  {
  }

  /** Handling one batch of events and then another is handling them all in
      order: the state after a sequence depends only on what came before. */
  lemma {:induction false} RunAppend(s: State, first: seq<Event>, second: seq<Event>)
    ensures Run(s, first + second) == Run(Run(s, first), second)
  {
    if second != [] {
      var all := first + second;
      assert all[..|all| - 1] == first + second[..|second| - 1];
      assert all[|all| - 1] == second[|second| - 1];
      RunAppend(s, first, second[..|second| - 1]);
    } else {
      assert first + second == first;
    }
  }

  /** On mount the panel is closed, nothing is selected, the results view
      holds every category in full, and the panel offset is the gap alone. */
  lemma InitialView(data: seq<Category>)
    ensures Render(data, Initial) == View("", data, [], false, PanelGap)
  {
    FilterEmptyQuery(data);
  }

  /** Requesting the panel always opens it, so a second request changes
      nothing; toggling twice restores the state; neither touches the query,
      the selection or the measured height. */
  lemma FocusTransitions(s: State)
    ensures Step(s, OpenRequested).isFocused
    ensures Step(Step(s, OpenRequested), OpenRequested) == Step(s, OpenRequested)
    ensures Step(s, ToggleOpen).isFocused == !s.isFocused
    ensures Step(Step(s, ToggleOpen), ToggleOpen) == s
    ensures forall e :: IsFocusEvent(e) ==>
      Step(s, e).query == s.query && Step(s, e).selectedItems == s.selectedItems &&
      Step(s, e).parentHeight == s.parentHeight
  {
  }

  /** Typing, selecting, removing, clearing and measuring never open or
      close the panel, however many such events arrive. */
  lemma {:induction false} OnlyFocusEventsChangeFocus(s: State, events: seq<Event>)
    requires forall k :: 0 <= k < |events| ==> !IsFocusEvent(events[k])
    ensures Run(s, events).isFocused == s.isFocused
  {
    if events != [] {
      OnlyFocusEventsChangeFocus(s, events[..|events| - 1]);
    }
  }

  /** The latest measurement wins: after a measurement of `height` followed
      by any events that are not measurements, the height is `height` and the
      panel sits `PanelGap` below it. */
  lemma {:induction false} LatestMeasurementWins(
    data: seq<Category>, s: State, before: seq<Event>, height: int, after: seq<Event>)
    requires forall k :: 0 <= k < |after| ==> !after[k].Measured?
    ensures Run(s, before + [Measured(height)] + after).parentHeight == height
    ensures Render(data, Run(s, before + [Measured(height)] + after)).panelOffset == height + PanelGap
  {
    var events := before + [Measured(height)] + after;
    if after == [] {
      assert events[..|events| - 1] == before;
    } else {
      var last := after[|after| - 1];
      assert events[..|events| - 1] == before + [Measured(height)] + after[..|after| - 1];
      LatestMeasurementWins(data, s, before, height, after[..|after| - 1]);
      assert !last.Measured?;
    }
  }

  /** Selection, focus and layout events leave the filtered results alone;
      only the query changes them. A tapped option stays in the results and
      is rendered disabled afterwards. */
  lemma ResultsDependOnlyOnQuery(data: seq<Category>, s: State, e: Event)
    ensures !e.TextChanged? ==> Render(data, Step(s, e)).results == Render(data, s).results
    ensures e.TextChanged? ==> Render(data, Step(s, e)).results == Filter(data, e.text)
    ensures e.OptionTapped? ==> IsDisabled(Render(data, Step(s, e)), e.option)
  {
  }

  /** One mounted autocomplete widget. `data` is its immutable prop; the four
      mutable fields are its component state. */
  class Autocomplete {
    const data: seq<Category>
    var query: string
    var isFocused: bool
    var selectedItems: seq<string>
    var parentHeight: int

    ghost predicate Valid()
      reads this
    {
      NoDuplicates(selectedItems)
    }

    function Snapshot(): State
      reads this
    {
      State(query, isFocused, selectedItems, parentHeight)
    }

    /** The view model rendered from the current state. */
    function Current(): View
      reads this
    {
      Render(data, Snapshot())
    }

    constructor (data: seq<Category>)
      ensures Valid()
      ensures this.data == data && Snapshot() == Initial
    {
      this.data := data;
      query := "";
      isFocused := false;
      selectedItems := [];
      parentHeight := 0;
    }

    /** The text input's change handler: the query becomes the new text. */
    method HandleChangeText(text: string)
      requires Valid()
      modifies this
      ensures Valid()
      ensures query == text
      ensures isFocused == old(isFocused) && selectedItems == old(selectedItems)
      ensures parentHeight == old(parentHeight)
      ensures Snapshot() == Step(old(Snapshot()), TextChanged(text))
    {
      query := text;
    }

    method HandleSelectItem(item: string)
      requires Valid()
      modifies this
      ensures Valid()
      ensures selectedItems == Select(old(selectedItems), item)
      ensures query == old(query) && isFocused == old(isFocused)
      ensures parentHeight == old(parentHeight)
      ensures Snapshot() == Step(old(Snapshot()), OptionTapped(item))
    {
      if item !in selectedItems {
        selectedItems := selectedItems + [item];
      }
    }

    method HandleRemoveItem(item: string)
      requires Valid()
      modifies this
      ensures Valid()
      ensures selectedItems == Deselect(old(selectedItems), item)
      ensures query == old(query) && isFocused == old(isFocused)
      ensures parentHeight == old(parentHeight)
      ensures Snapshot() == Step(old(Snapshot()), TagRemoved(item))
    {
      selectedItems := Deselect(selectedItems, item);
    }

    method HandleRemoveAllSelectedItems()
      requires Valid()
      modifies this
      ensures Valid()
      ensures selectedItems == []
      ensures query == old(query) && isFocused == old(isFocused)
      ensures parentHeight == old(parentHeight)
      ensures Snapshot() == Step(old(Snapshot()), ClearAll)
    {
      selectedItems := [];
    }

    /** Opens the panel. (The source also moves keyboard focus to the text
        input, which this model leaves out.) */
    method HandleSetFocus()
      requires Valid()
      modifies this
      ensures Valid()
      ensures isFocused
      ensures query == old(query) && selectedItems == old(selectedItems)
      ensures parentHeight == old(parentHeight)
      ensures Snapshot() == Step(old(Snapshot()), OpenRequested)
    {
      isFocused := true;
    }

    method HandleChangeFocus()
      requires Valid()
      modifies this
      ensures Valid()
      ensures isFocused == !old(isFocused)
      ensures query == old(query) && selectedItems == old(selectedItems)
      ensures parentHeight == old(parentHeight)
      ensures Snapshot() == Step(old(Snapshot()), ToggleOpen)
    {
      isFocused := !isFocused;
    }

    method HandleParentLayout(height: int)
      requires Valid()
      modifies this
      ensures Valid()
      ensures parentHeight == height
      ensures query == old(query) && isFocused == old(isFocused)
      ensures selectedItems == old(selectedItems)
      ensures Snapshot() == Step(old(Snapshot()), Measured(height))
    {
      parentHeight := height;
    }
  }

  /** A client of the component: what its contracts alone let a caller
      conclude about a short session. */
  method ExampleSession(data: seq<Category>, a: string, b: string)
    requires a != b
  {
    var w := new Autocomplete(data);
    assert !w.Current().isOpen;
    w.HandleChangeFocus();
    assert w.Current().isOpen;
    w.HandleChangeFocus();
    assert !w.Current().isOpen;
    w.HandleSetFocus();
    w.HandleSetFocus();
    assert w.Current().isOpen;

    w.HandleSelectItem(a);
    w.HandleSelectItem(b);
    w.HandleSelectItem(a);
    assert w.selectedItems == [a, b];
    w.HandleRemoveItem(a);
    DeselectUnique([a, b], 0);
    assert w.selectedItems == [b];
    w.HandleRemoveAllSelectedItems();
    assert w.selectedItems == [];

    w.HandleParentLayout(40);
    w.HandleParentLayout(65);
    w.HandleParentLayout(52);
    assert w.Current().panelOffset == 57;

    w.HandleChangeText("");
    FilterEmptyQuery(data);
    assert w.Current().results == data;
  }
}
