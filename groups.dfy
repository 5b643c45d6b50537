/**
 * The groups page: it loads every group entry from the stored snapshot,
 * deletes groups by name, filters them by a search term, and appends the
 * group the add-group modal submits.
 */
module Groups {
  import opened Common
  import opened Text
  import opened Stored
  import opened AddGroup

  /** `{name, members}` as listed on the page. */
  datatype GroupEntry = GroupEntry(name: string, members: real)

  /** The entries the inner loop pushes for the children under `key`. */
  function EntriesUnder(key: string, children: seq<(string, Node)>): seq<GroupEntry>
  {
    if children == [] then []
    else
      var node := children[|children| - 1].1;
      EntriesUnder(key, children[..|children| - 1])
        + (if node.members.Some? then [GroupEntry(key, node.members.value)] else [])
  }

  /** The entries the two loops of `getGrpExpense` push, in visiting order. */
  function GroupsOf(data: Tree): seq<GroupEntry>
  {
    if data == [] then []
    else
      var (key, value) := data[|data| - 1];
      GroupsOf(data[..|data| - 1]) + (if value.Object? then EntriesUnder(key, value.children) else [])
  }

  lemma {:induction false} EntriesUnderExact(key: string, children: seq<(string, Node)>, g: GroupEntry)
    ensures g in EntriesUnder(key, children) <==>
      g.name == key && exists j :: 0 <= j < |children| && children[j].1.members == Some(g.members)
  {
    if children != [] {
      var init := children[..|children| - 1];
      EntriesUnderExact(key, init, g);
      if g.name == key && children[|children| - 1].1.members != Some(g.members) {
        if exists j :: 0 <= j < |children| && children[j].1.members == Some(g.members) {
          var j :| 0 <= j < |children| && children[j].1.members == Some(g.members);
          assert init[j] == children[j];
        }
      }
    }
  }

  /**
   * An entry is listed exactly when some child of its group key has a
   * defined `members` field with that value.
   */
  lemma {:induction false} GroupsOfExact(data: Tree, g: GroupEntry)
    ensures g in GroupsOf(data) <==>
      exists i :: 0 <= i < |data| && data[i].0 == g.name && data[i].1.Object? &&
        g in EntriesUnder(data[i].0, data[i].1.children)
  {
    if data != [] {
      var init := data[..|data| - 1];
      GroupsOfExact(init, g);
      var last := |data| - 1;
      if g in GroupsOf(data) {
        if g !in GroupsOf(init) {
          assert data[last].1.Object? && g in EntriesUnder(data[last].0, data[last].1.children);
          EntriesUnderExact(data[last].0, data[last].1.children, g);
        } else {
          var i :| 0 <= i < |init| && init[i].0 == g.name && init[i].1.Object? &&
            g in EntriesUnder(init[i].0, init[i].1.children);
          assert data[i] == init[i];
        }
      } else {
        forall i | 0 <= i < |data| && data[i].1.Object?
          ensures data[i].0 != g.name || g !in EntriesUnder(data[i].0, data[i].1.children)
        {
          if i < last {
            assert data[i] == init[i];
          }
        }
      }
    }
  }

  /** The nested `for…in` loops of `getGrpExpense`. */
  method CollectGroups(data: Tree) returns (grp: seq<GroupEntry>)
    ensures grp == GroupsOf(data)
  {
    grp := [];
    var i := 0;
    while i < |data|
      invariant 0 <= i <= |data|
      invariant grp == GroupsOf(data[..i])
    {
      assert data[..i + 1][..i] == data[..i];
      var (key, value) := data[i];
      if value.Object? {
        var children := value.children;
        var before := grp;
        var j := 0;
        while j < |children|
          invariant 0 <= j <= |children|
          invariant grp == before + EntriesUnder(key, children[..j])
        {
          assert children[..j + 1][..j] == children[..j];
          if children[j].1.members.Some? {
            grp := grp + [GroupEntry(key, children[j].1.members.value)];
          }
          j := j + 1;
        }
        assert children[..j] == children;
      }
      i := i + 1;
    }
    assert data[..i] == data;
  }

  function NotNamed(name: string): GroupEntry -> bool
  {
    (g: GroupEntry) => g.name != name
  }

  /** The list after a successful delete of `name`. */
  function WithoutGroup(groups: seq<GroupEntry>, name: string): seq<GroupEntry>
  {
    Filter(groups, NotNamed(name))
  }

  /**
   * Every group called `name` is gone, every other group stays, and the
   * survivors keep their order.
   */
  lemma WithoutGroupSpec(groups: seq<GroupEntry>, name: string, g: GroupEntry)
    ensures g in WithoutGroup(groups, name) <==> g in groups && g.name != name
    ensures forall k :: 0 <= k < |WithoutGroup(groups, name)| ==> WithoutGroup(groups, name)[k].name != name
    ensures forall other :: WithoutGroup(groups + other, name) == WithoutGroup(groups, name) + WithoutGroup(other, name)
  {
    FilterMember(groups, NotNamed(name), g);
    forall other ensures WithoutGroup(groups + other, name) == WithoutGroup(groups, name) + WithoutGroup(other, name) {
      FilterAppend(groups, other, NotNamed(name));
    }
  }

  function Matches(term: string): GroupEntry -> bool
  {
    (g: GroupEntry) => Contains(ToLower(g.name), ToLower(term))
  }

  /** `filteredGroups`: case-insensitive substring search on the name. */
  function FilteredGroups(groups: seq<GroupEntry>, term: string): seq<GroupEntry>
  {
    Filter(groups, Matches(term))
  }

  /**
   * A group is shown exactly when its lower-cased name contains the
   * lower-cased term; the shown groups keep the list's order.
   */
  lemma FilteredGroupsSpec(groups: seq<GroupEntry>, term: string, g: GroupEntry)
    ensures g in FilteredGroups(groups, term) <==>
      g in groups && exists i :: OccursAt(ToLower(g.name), ToLower(term), i)
    ensures forall other :: FilteredGroups(groups + other, term) == FilteredGroups(groups, term) + FilteredGroups(other, term)
  {
    FilterMember(groups, Matches(term), g);
    ContainsIff(ToLower(g.name), ToLower(term));
    forall other ensures FilteredGroups(groups + other, term) == FilteredGroups(groups, term) + FilteredGroups(other, term) {
      FilterAppend(groups, other, Matches(term));
    }
  }

  /** An empty search shows every group. */
  lemma EmptySearchShowsAll(groups: seq<GroupEntry>)
    ensures FilteredGroups(groups, "") == groups
  {
    forall i | 0 <= i < |groups| ensures Matches("")(groups[i]) {
      ContainsEmpty(ToLower(groups[i].name));
    }
    FilterKeepsAll(groups, Matches(""));
  }

  class GroupsPage {
    var groups: seq<GroupEntry>
    var showForm: bool
    var searchTerm: string
    /** The add-group form: `newGroup.name` and `newGroup.members`. */
    var newName: string
    var newMembers: MembersField

    constructor()
      ensures groups == [] && !showForm && searchTerm == "" && newName == "" && newMembers == Blank
    {
      groups := [];
      showForm := false;
      searchTerm := "";
      newName := "";
      newMembers := Blank;
    }

    /** The groups currently listed. */
    function Shown(): seq<GroupEntry>
      reads this
    {
      FilteredGroups(groups, searchTerm)
    }

    /**
     * `getGrpExpense`: loaded data replaces the list by its entries (null
     * data gives none); no token or a failed request keeps the list.
     */
    method Load(outcome: Fetch)
      modifies this
      ensures outcome.Loaded? && outcome.data.Some? ==> groups == GroupsOf(outcome.data.value)
      ensures outcome == Loaded(None) ==> groups == []
      ensures !outcome.Loaded? ==> groups == old(groups)
      ensures showForm == old(showForm) && searchTerm == old(searchTerm)
      ensures newName == old(newName) && newMembers == old(newMembers)
    {
      if outcome.Loaded? {
        var grp := [];
        if outcome.data.Some? {
          grp := CollectGroups(outcome.data.value);
        }
        groups := grp;
      }
    }

    /** `deleteGroup`: only a completed delete removes the groups called `name`. */
    method DeleteGroup(name: string, outcome: Write)
      modifies this
      ensures outcome == Done ==> groups == WithoutGroup(old(groups), name)
      ensures outcome != Done ==> groups == old(groups)
      ensures showForm == old(showForm) && searchTerm == old(searchTerm)
      ensures newName == old(newName) && newMembers == old(newMembers)
    {
      if outcome == Done {
        groups := WithoutGroup(groups, name);
      }
    }

    /**
     * `handleAddGroup`: invalid details raise an alert and change nothing;
     * valid details are posted, and only a completed post appends the group
     * at the end, resets the form and closes it.
     */
    method HandleAddGroup(outcome: Write) returns (alerted: bool)
      modifies this
      ensures alerted <==> Rejected(old(newName), old(newMembers))
      ensures !alerted && outcome == Done ==>
        && groups == old(groups) + [GroupEntry(old(newName), old(newMembers).value)]
        && newName == "" && newMembers == Blank && !showForm
      ensures alerted || outcome != Done ==>
        && groups == old(groups) && newName == old(newName) && newMembers == old(newMembers)
        && showForm == old(showForm)
      ensures searchTerm == old(searchTerm)
    {
      if Rejected(newName, newMembers) {
        return true;
      }
      alerted := false;
      if outcome == Done {
        groups := groups + [GroupEntry(newName, AsNumber(newMembers).value)];
        newName, newMembers := "", Blank;
        showForm := false;
      }
    }
  }
}
