/** The raw-results viewer (src/components/json-viewer.tsx): which phase
    panels are expanded, how a click toggles one, and what each panel of
    the formatted tab shows. The JSON download and the raw tab's
    `JSON.stringify` text are not modelled. */
module JsonViewer {
  import opened Wrappers
  import opened Types

  /** `expandedPhases` after `togglePhase(index)`: the index leaves the set
      when it was in it and joins it otherwise. */
  function Toggled(expanded: set<int>, index: int): (r: set<int>)
    ensures index in r <==> index !in expanded
    ensures forall j :: j != index ==> (j in r <==> j in expanded)
  {
    if index in expanded then expanded - {index} else expanded + {index}
  }

  /** Toggling the same panel twice restores the set. */
  lemma ToggleTwice(expanded: set<int>, index: int)
    ensures Toggled(Toggled(expanded, index), index) == expanded
  {
  }

  /** Toggles of two different panels commute. */
  lemma TogglesCommute(expanded: set<int>, i: int, j: int)
    ensures Toggled(Toggled(expanded, i), j) == Toggled(Toggled(expanded, j), i)
  {
  }

  datatype BadgeStyle = AccentBadge | DestructiveBadge

  /** One panel of the formatted tab: the phase name, whether its chevron
      points down, its status badge, and the results shown below it when
      it is expanded. */
  datatype Panel = Panel(phase: string, chevronDown: bool, status: string, badge: BadgeStyle, detail: Option<PhaseResults>)

  /** The panel of the phase result at `index`. */
  function PanelOf(result: PhaseResult, index: int, expanded: set<int>): (p: Panel)
    ensures p.badge == AccentBadge <==> result.status == "completed"
    ensures p.chevronDown <==> index in expanded
    ensures p.detail.Some? <==> index in expanded
    ensures p.detail.Some? ==> p.detail.value == result.results
  {
    Panel(result.phase, index in expanded, result.status,
          if result.status == "completed" then AccentBadge else DestructiveBadge,
          if index in expanded then Some(result.results) else None)
  }

  /** The formatted tab: one panel per result, in order. */
  function RenderPanels(results: seq<PhaseResult>, expanded: set<int>): (ps: seq<Panel>)
    ensures |ps| == |results|
    ensures forall k :: 0 <= k < |ps| ==> ps[k] == PanelOf(results[k], k, expanded)
  {
    seq(|results|, k requires 0 <= k < |results| => PanelOf(results[k], k, expanded))
  }

  /** The viewer's state: the set of expanded panel indices. */
  class Viewer {
    var expandedPhases: set<int>

    /** On mount only the first panel is expanded. */
    constructor()
      ensures expandedPhases == {0}
    {
      expandedPhases := {0};
    }

    /** `togglePhase(index)`: builds a new set from the current one, adds or
        removes the index in it, and stores it as the new state. */
    method TogglePhase(index: int)
      modifies this
      ensures expandedPhases == Toggled(old(expandedPhases), index)
    {
      var newExpanded := expandedPhases;
      if index in newExpanded {
        newExpanded := newExpanded - {index};
      } else {
        newExpanded := newExpanded + {index};
      }
      expandedPhases := newExpanded;
    }
  }

  /** On mount the first panel alone shows its details, and a click on
      panel `i` flips whether panel `i` shows them and no other. */
  lemma MountedThenClicked(results: seq<PhaseResult>, i: int)
    ensures var before := RenderPanels(results, {0});
      forall k :: 0 <= k < |before| ==> (before[k].detail.Some? <==> k == 0)
    ensures var before := RenderPanels(results, {0});
      var after := RenderPanels(results, Toggled({0}, i));
      forall k :: 0 <= k < |results| ==> (after[k].detail.Some? <==> (if k == i then !before[k].detail.Some? else before[k].detail.Some?))
  {
  }
}
