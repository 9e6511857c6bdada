/**
 * The per-session store (st.session_state at app.py:8-41), owned by one
 * session. Its two entries may be missing until `InitState` fills them in;
 * the structural edits change `groups` in place and nothing else.
 */
module Session {
  import opened Wrappers
  import opened Document

  class SessionState {
    var client: Option<Client>
    var groups: Option<seq<Group>>

    /** Both entries present, at least one group, and no group without pages. */
    ghost predicate Valid()
      reads this
    {
      client.Some? && groups.Some? && WellFormed(groups.value)
    }

    /** A store before the first run of the script: neither entry exists yet. */
    constructor ()
      ensures client == None && groups == None
    {
      client := None;
      groups := None;
    }

    /** `init_state` (app.py:8-23): create each missing entry, keep an existing one as it is. */
    method InitState()
      modifies this
      ensures client == (if old(client).None? then Some(EmptyClient) else old(client))
      ensures groups == (if old(groups).None? then Some(InitialGroups) else old(groups))
      ensures old(groups).None? ==> Valid()
      ensures old(Valid()) ==> Valid() && unchanged(this)
    {
      if client.None? {
        client := Some(Client("", "", ""));
      }
      if groups.None? {
        groups := Some([Group("Group 1", [Page("", "", "")])]);
        InitialGroupsWellFormed();
      }
    }

    /** `add_group` (app.py:25-29). */
    method AddGroup()
      requires groups.Some?
      modifies this
      ensures client == old(client)
      ensures groups == Some(WithGroupAdded(old(groups).value))
      ensures old(Valid()) ==> Valid()
    {
      var gs := groups.value;
      var idx := |gs| + 1;
      groups := Some(gs + [Group("Group " + Text.NatToString(idx), [Page("", "", "")])]);
    }

    /** `remove_group(i)` (app.py:31-33). */
    method RemoveGroup(i: nat)
      requires groups.Some?
      requires |groups.value| > 1 ==> i < |groups.value|
      modifies this
      ensures client == old(client)
      ensures groups == Some(WithGroupRemoved(old(groups).value, i))
      ensures |old(groups).value| <= 1 ==> unchanged(this)
      ensures old(Valid()) ==> Valid()
    {
      var gs := groups.value;
      if |gs| > 1 {
        groups := Some(gs[..i] + gs[i + 1..]);
      }
    }

    /** `add_page(i)` (app.py:35-36). */
    method AddPage(i: nat)
      requires groups.Some? && i < |groups.value|
      modifies this
      ensures client == old(client)
      ensures groups == Some(WithPageAdded(old(groups).value, i))
      ensures old(Valid()) ==> Valid()
    {
      var gs := groups.value;
      var pages := gs[i].pages;
      pages := pages + [Page("", "", "")];
      groups := Some(gs[i := gs[i].(pages := pages)]);
    }

    /** `remove_page(i, j)` (app.py:38-41). */
    method RemovePage(i: nat, j: nat)
      requires groups.Some? && i < |groups.value|
      requires |groups.value[i].pages| > 1 ==> j < |groups.value[i].pages|
      modifies this
      ensures client == old(client)
      ensures groups == Some(WithPageRemoved(old(groups).value, i, j))
      ensures |old(groups).value[i].pages| <= 1 ==> unchanged(this)
      ensures old(Valid()) ==> Valid()
    {
      var gs := groups.value;
      var pages := gs[i].pages;
      if |pages| > 1 {
        pages := pages[..j] + pages[j + 1..];
        groups := Some(gs[i := gs[i].(pages := pages)]);
      }
    }
  }

  /**
   * A session from its first run through a sequence of edits: add a second
   * group, give it a second page and drop its first, remove the first group,
   * then try to remove the last one. Only the second group is left, with one
   * blank page, and a later run of `init_state` keeps it.
   */
  method EditScenario() returns (final: seq<Group>)
    ensures final == [Group(DefaultGroupName(2), [BlankPage])]
    ensures WellFormed(final)
  {
    var s := new SessionState();
    s.InitState();
    s.AddGroup();
    s.AddPage(1);
    s.RemovePage(1, 0);
    s.RemoveGroup(0);
    s.RemoveGroup(0);
    s.InitState();
    final := s.groups.value;
    assert final[0].pages == [BlankPage];
  }
}
