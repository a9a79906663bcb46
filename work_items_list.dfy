/** The work-item list view: the WIQL text it asks the service for when the
    user searches or switches state tab, the tag badges of an item, and the
    selected item that a click toggles. */
module WorkItems {
  import opened Results
  import opened Text
  import opened DevOpsService

  /** The project-scoped head of a filtered query, up to its condition. */
  const QueryHead: string :=
    "Select [System.Id] From WorkItems Where [System.TeamProject] = @project AND "

  /** The ordering that closes a filtered query: most recently changed first. */
  const QueryTail: string := " Order By [System.ChangedDate] Desc"

  /** A project-scoped query on `condition`, newest change first. */
  function FilteredQuery(condition: string): (r: string)
    ensures |r| == |QueryHead| + |condition| + |QueryTail|
    ensures r[..|QueryHead|] == QueryHead
    ensures r[|QueryHead|..|r| - |QueryTail|] == condition
    ensures r[|r| - |QueryTail|..] == QueryTail
  {
    QueryHead + condition + QueryTail
  }

  /** The condition a filtered query carries. */
  function ConditionOf(q: string): string
    requires |q| >= |QueryHead| + |QueryTail|
  {
    q[|QueryHead|..|q| - |QueryTail|]
  }

  const TitleOpen: string := "[System.Title] CONTAINS '"
  const StateOpen: string := "[System.State] = '"

  /** `handleSearch`: no term means `""` (the service's default query);
      otherwise the title-contains condition with the term spliced in as it is,
      without escaping. */
  function SearchQuery(searchTerm: string): (r: string)
    ensures searchTerm == "" <==> r == ""
    ensures searchTerm != "" ==>
      |r| >= |QueryHead| + |QueryTail| && ConditionOf(r) == TitleOpen + searchTerm + "'"
    ensures searchTerm != "" ==>
      r[..|QueryHead|] == QueryHead && r[|r| - |QueryTail|..] == QueryTail
  {
    if searchTerm != "" then FilteredQuery(TitleOpen + searchTerm + "'") else ""
  }

  /** `handleTabChange`: the "all" tab means `""`; any other tab value is
      matched against the state, spliced in as it is. */
  function TabQuery(value: string): (r: string)
    ensures value == "all" <==> r == ""
    ensures value != "all" ==>
      |r| >= |QueryHead| + |QueryTail| && ConditionOf(r) == StateOpen + value + "'"
    ensures value != "all" ==>
      r[..|QueryHead|] == QueryHead && r[|r| - |QueryTail|..] == QueryTail
  {
    if value != "all" then FilteredQuery(StateOpen + value + "'") else ""
  }

  /** The search term can be read back from the query, so different terms give
      different queries; the empty term reaches the service's default query. */
  lemma SearchQueryRoundTrip(t1: string, t2: string)
    ensures t1 != "" ==> ConditionOf(SearchQuery(t1))[|TitleOpen|..|ConditionOf(SearchQuery(t1))| - 1] == t1
    ensures SearchQuery(t1) == SearchQuery(t2) ==> t1 == t2
    ensures WiqlQuery(SearchQuery("")) == DefaultQuery
  {
  }

  /** A search never produces a state-tab query, and the other way round:
      the conditions differ in the field they test. */
  lemma SearchDiffersFromTab(term: string, value: string)
    requires term != "" && value != "all"
    ensures SearchQuery(term) != TabQuery(value)
  {
    var k := |QueryHead| + 8;
    assert SearchQuery(term)[k] == TitleOpen[8] == 'T';
    assert TabQuery(value)[k] == StateOpen[8] == 'S';
  }

  /** The badges of an item's "System.Tags" value: none when it is missing or
      empty; otherwise one per `;`-separated segment, trimmed, in order. */
  function TagBadges(tags: Option<string>): (r: seq<string>)
    ensures tags.None? || tags.value == "" ==> r == []
    ensures tags.Some? && tags.value != "" ==>
      |r| == |Split(tags.value, ';')| &&
      forall i :: 0 <= i < |r| ==> r[i] == Trim(Split(tags.value, ';')[i])
  {
    match tags
    case None => []
    case Some(t) =>
      if t == "" then []
      else
        var segments := Split(t, ';');
        seq(|segments|, i requires 0 <= i < |segments| => Trim(segments[i]))
  }

  /** Tags written as ";"-joined trimmed names give those names back as badges. */
  lemma TagBadgesOfJoined(names: seq<string>)
    requires |names| >= 1
    requires forall i :: 0 <= i < |names| ==> names[i] != [] && ';' !in names[i]
    requires forall i :: 0 <= i < |names| ==> !IsSpace(names[i][0]) && !IsSpace(names[i][|names[i]| - 1])
    ensures TagBadges(Some(Join(names, ';'))) == names
  {
    SplitJoin(names, ';');
    assert Join(names, ';') != "" by {
      assert |Split(Join(names, ';'), ';')[0]| > 0;
    }
    forall i | 0 <= i < |names|
      ensures Trim(names[i]) == names[i]
    {
      TrimUnpadded(names[i]);
    }
  }

  /** Padding around a tag does not reach its badge. */
  lemma TagBadgeIgnoresPadding(lead: string, name: string, trail: string)
    requires forall i :: 0 <= i < |lead| ==> IsSpace(lead[i])
    requires forall i :: 0 <= i < |trail| ==> IsSpace(trail[i])
    requires name != [] && !IsSpace(name[0]) && !IsSpace(name[|name| - 1]) && ';' !in name
    requires ';' !in lead && ';' !in trail
    ensures TagBadges(Some(lead + name + trail)) == [name]
  {
    var t := lead + name + trail;
    assert ';' !in t;
    SplitJoin([t], ';');
    TrimPadded(lead, name, trail);
  }

  /** A click on an item: the selected item becomes none when it has the
      clicked item's id, and the clicked item otherwise. */
  function Toggled(selected: Option<WorkItem>, clicked: WorkItem): (r: Option<WorkItem>)
    ensures r.None? <==> selected.Some? && selected.value.id == clicked.id
    ensures r.Some? ==> r.value == clicked
  {
    if selected.Some? && selected.value.id == clicked.id then None else Some(clicked)
  }

  /** Two clicks on an item that was not selected select and then deselect it. */
  lemma ToggleTwice(selected: Option<WorkItem>, item: WorkItem)
    requires selected.None? || selected.value.id != item.id
    ensures Toggled(Toggled(selected, item), item) == None
  {
  }

  /** The list view's own state. */
  class WorkItemsList {
    var searchTerm: string
    var selectedItem: Option<WorkItem>

    constructor ()
      ensures searchTerm == "" && selectedItem == None
    {
      searchTerm := "";
      selectedItem := None;
    }

    /** Typing in the search box. */
    method SetSearchTerm(t: string)
      modifies this`searchTerm
      ensures searchTerm == t
    {
      searchTerm := t;
    }

    /** Submitting the search form: the query handed to the refresh. */
    method HandleSearch() returns (query: string)
      ensures query == SearchQuery(searchTerm)
      ensures WiqlQuery(query) == if searchTerm == "" then DefaultQuery else query
    {
      query := "";
      if searchTerm != "" {
        query := FilteredQuery(TitleOpen + searchTerm + "'");
      }
    }

    /** Switching state tab: the query handed to the refresh. */
    method HandleTabChange(value: string) returns (query: string)
      ensures query == TabQuery(value)
      ensures WiqlQuery(query) == if value == "all" then DefaultQuery else query
    {
      query := "";
      if value != "all" {
        query := FilteredQuery(StateOpen + value + "'");
      }
    }

    /** Clicking an item's card. */
    method HandleItemClick(item: WorkItem)
      modifies this`selectedItem
      ensures selectedItem == Toggled(old(selectedItem), item)
    {
      selectedItem := if selectedItem.Some? && selectedItem.value.id == item.id then None else Some(item);
    }

    /** Closing the details panel. */
    method CloseDetails()
      modifies this`selectedItem
      ensures selectedItem == None
    {
      selectedItem := None;
    }
  }
}
