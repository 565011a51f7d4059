/**
 * The campaign page's state: which node is selected, and which nodes are
 * expanded in the sidebar tree.
 */
module CampaignPage {
  import opened Wrappers
  import opened CampaignTree

  /** The expanded set after toggling `id`: added when absent, removed when present. */
  function Toggle(expanded: set<string>, id: string): (r: set<string>)
    ensures id in r <==> id !in expanded
    ensures forall x :: x != id ==> (x in r <==> x in expanded)
  {
    if id in expanded then expanded - {id} else expanded + {id}
  }

  /** Toggling the same id twice gives back the set it started from. */
  lemma ToggleTwiceRestores(expanded: set<string>, id: string)
    ensures Toggle(Toggle(expanded, id), id) == expanded
  {
  }

  /** Toggles of different ids commute. */
  lemma TogglesCommute(expanded: set<string>, a: string, b: string)
    ensures Toggle(Toggle(expanded, a), b) == Toggle(Toggle(expanded, b), a)
  {
  }

  /**
   * The node shown in the detail pane: none when nothing is selected or the
   * selected id is the empty string (which is falsy), otherwise the node
   * with that id when there is one.
   */
  function SelectedNode(selectedId: Option<string>): (r: Option<TreeNode>)
    ensures selectedId.None? || selectedId == Some("") ==> r.None?
    ensures selectedId.Some? && selectedId.value != "" ==> r == FindNode(selectedId.value)
    ensures r.Some? ==> r.value in AllNodes && Some(r.value.id) == selectedId
  {
    match selectedId
    case None => None
    case Some(id) => if id == "" then None else FindNode(id)
  }

  function TopLevelIdSet(): (s: set<string>)
    ensures s == {"1", "2", "3", "4", "5", "6"}
  {
    set id | id in GetTopLevelIds()
  }

  class PageState {
    var selectedId: Option<string>
    var expandedIds: set<string>

    /** The page opens with phase "1" selected and every phase expanded. */
    constructor()
      ensures selectedId == Some("1")
      ensures expandedIds == TopLevelIdSet()
    {
      selectedId := Some("1");
      var ids := GetTopLevelIds();
      expandedIds := set id | id in ids;
    }

    /** `onSelect`: selects an id, or nothing. */
    method Select(id: Option<string>)
      modifies this`selectedId
      ensures selectedId == id
    {
      selectedId := id;
    }

    /** `handleToggle`: a copy of the expanded set with `id` added or removed replaces the old set. */
    method HandleToggle(id: string)
      modifies this`expandedIds
      ensures expandedIds == Toggle(old(expandedIds), id)
    {
      var next := expandedIds;
      if id in next {
        next := next - {id};
      } else {
        next := next + {id};
      }
      expandedIds := next;
    }
  }

  /** When the page opens, the detail pane shows phase "1". */
  lemma InitialSelectionIsPhaseOne()
    ensures SelectedNode(Some("1")).Some?
    ensures SelectedNode(Some("1")).value.id == "1"
    ensures SelectedNode(Some("1")).value == Phase1
  {
    CampaignNodeMapIsExact();
    assert AllNodes[0] == Phase1;
    assert "1" in Ids(AllNodes);
  }
}
