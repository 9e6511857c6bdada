/**
 * The editable document: one client and an ordered list of groups, each an
 * ordered list of pages (app.py:8-41). The four structural edits are given
 * here as functions on the group list; the session object applies them in place.
 */
module Document {
  import opened Text

  datatype Page = Page(pageName: string, pageUrl: string, pageDesc: string)
  datatype Group = Group(name: string, pages: seq<Page>)
  datatype Client = Client(name: string, description: string, email: string)

  const BlankPage: Page := Page("", "", "")
  const EmptyClient: Client := Client("", "", "")

  /** The groups a fresh session starts with (app.py:16-23). */
  const InitialGroups: seq<Group> := [Group("Group 1", [BlankPage])]

  /** At least one group, and every group keeps at least one page. */
  predicate WellFormed(gs: seq<Group>)
  {
    |gs| >= 1 && forall k :: 0 <= k < |gs| ==> |gs[k].pages| >= 1
  }

  /** The default name `add_group` gives the group it appends when `idx` is the new count. */
  function DefaultGroupName(idx: nat): (r: string)
    ensures |r| > |"Group "| && r[..6] == "Group "
  {
    "Group " + NatToString(idx)
  }

  /** The starting group is exactly the one `add_group` would append to an empty list. */
  lemma InitialGroupsWellFormed()
    ensures WellFormed(InitialGroups)
    ensures InitialGroups == [Group(DefaultGroupName(1), [BlankPage])]
  {
    assert DigitChar(1) == '1';
    assert NatToString(1) == "1";
    assert DefaultGroupName(1) == "Group 1";
  }

  /** `add_group` (app.py:25-29). */
  function WithGroupAdded(gs: seq<Group>): (r: seq<Group>)
    ensures |r| == |gs| + 1
    ensures forall k :: 0 <= k < |gs| ==> r[k] == gs[k]
    ensures r[|gs|].name == DefaultGroupName(|gs| + 1) && r[|gs|].pages == [BlankPage]
    ensures WellFormed(gs) ==> WellFormed(r)
  {
    gs + [Group(DefaultGroupName(|gs| + 1), [BlankPage])]
  }

  /** `remove_group(i)` (app.py:31-33): a no-op while only one group is left. */
  function WithGroupRemoved(gs: seq<Group>, i: nat): (r: seq<Group>)
    requires |gs| > 1 ==> i < |gs|
    ensures |gs| <= 1 ==> r == gs
    ensures |gs| > 1 ==> |r| == |gs| - 1
    ensures |gs| > 1 ==> forall k :: 0 <= k < i ==> r[k] == gs[k]
    ensures |gs| > 1 ==> forall k :: i <= k < |r| ==> r[k] == gs[k + 1]
    ensures WellFormed(gs) ==> WellFormed(r)
  {
    if |gs| > 1 then gs[..i] + gs[i + 1..] else gs
  }

  /** `add_page(i)` (app.py:35-36): one blank page appended to group `i` only. */
  function WithPageAdded(gs: seq<Group>, i: nat): (r: seq<Group>)
    requires i < |gs|
    ensures |r| == |gs|
    ensures forall k :: 0 <= k < |gs| && k != i ==> r[k] == gs[k]
    ensures r[i].name == gs[i].name
    ensures |r[i].pages| == |gs[i].pages| + 1
    ensures forall j :: 0 <= j < |gs[i].pages| ==> r[i].pages[j] == gs[i].pages[j]
    ensures r[i].pages[|gs[i].pages|] == BlankPage
    ensures WellFormed(gs) ==> WellFormed(r)
  {
    gs[i := gs[i].(pages := gs[i].pages + [BlankPage])]
  }

  /** `remove_page(i, j)` (app.py:38-41): a no-op while group `i` has only one page. */
  function WithPageRemoved(gs: seq<Group>, i: nat, j: nat): (r: seq<Group>)
    requires i < |gs|
    requires |gs[i].pages| > 1 ==> j < |gs[i].pages|
    ensures |gs[i].pages| <= 1 ==> r == gs
    ensures |r| == |gs|
    ensures forall k :: 0 <= k < |gs| && k != i ==> r[k] == gs[k]
    ensures r[i].name == gs[i].name
    ensures |gs[i].pages| > 1 ==> |r[i].pages| == |gs[i].pages| - 1
    ensures |gs[i].pages| > 1 ==> forall q :: 0 <= q < j ==> r[i].pages[q] == gs[i].pages[q]
    ensures |gs[i].pages| > 1 ==> forall q :: j <= q < |r[i].pages| ==> r[i].pages[q] == gs[i].pages[q + 1]
    ensures WellFormed(gs) ==> WellFormed(r)
  {
    var ps := gs[i].pages;
    if |ps| > 1 then gs[i := gs[i].(pages := ps[..j] + ps[j + 1..])] else gs
  }

  /**
   * The default name counts the groups present at the time of the call, not
   * the groups ever created: after dropping the first of three groups, the
   * next group added repeats the name of the last one.
   */
  lemma DefaultNameCanRepeat()
    ensures var gs := WithGroupAdded(WithGroupRemoved(WithGroupAdded(WithGroupAdded(InitialGroups)), 0));
      |gs| == 3 && gs[1].name == gs[2].name == "Group 3"
  {
    assert NatToString(2) == "2";
    assert NatToString(3) == "3";
  }

  /** Two default names differ exactly when the counts they were made from differ. */
  lemma DefaultGroupNameInjective(m: nat, n: nat)
    ensures DefaultGroupName(m) == DefaultGroupName(n) <==> m == n
  {
    if DefaultGroupName(m) == DefaultGroupName(n) {
      assert DefaultGroupName(m)[6..] == NatToString(m);
      assert DefaultGroupName(n)[6..] == NatToString(n);
      NatToStringInjective(m, n);
    }
  }
}
