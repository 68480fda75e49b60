/**
 * The dashboard layout's sidebar: which navigation entries a user sees, and
 * the role label in the header.
 */
module DashboardLayout {
  import opened Wrappers
  import opened Types
  import Seqs

  /** A sidebar entry; `roles` is the optional list of roles it is restricted to. */
  datatype NavItem = NavItem(to: string, caption: string, roles: Option<seq<UserRole>>)

  const NavItems: seq<NavItem> := [
    NavItem("/dashboard", "Dashboard", None),
    NavItem("/admins", "Admin Management", Some([SuperAdmin, Admin])),
    NavItem("/clubs", "Club Management", None),
    NavItem("/members", "Members", None),
    NavItem("/finance", "Finance", None),
    NavItem("/inventory", "Inventory", None),
    NavItem("/attendance", "Attendance", None),
    NavItem("/subscription", "Subscription Plans", None),
    NavItem("/settings", "Settings", None)
  ]

  /**
   * An unrestricted entry is always shown; a super admin sees everything;
   * anyone else sees a restricted entry only if their role is listed. With
   * no user the role is absent and matches no list.
   */
  predicate Visible(item: NavItem, role: Option<UserRole>)
  {
    item.roles.None? || role == Some(SuperAdmin) || (role.Some? && role.value in item.roles.value)
  }

  function FilteredNavItems(items: seq<NavItem>, role: Option<UserRole>): seq<NavItem>
  {
    Seqs.Filter(items, (item: NavItem) => Visible(item, role))
  }

  function RoleLabel(role: Option<UserRole>): string
  {
    if role == Some(SuperAdmin) then "Super Admin" else "Admin"
  }

  /**
   * The sidebar keeps the entries' order and shows exactly the visible ones;
   * a super admin sees the whole list.
   */
  lemma FilteredNavItemsExact(items: seq<NavItem>, role: Option<UserRole>)
    ensures Seqs.Subseq(FilteredNavItems(items, role), items)
    ensures forall item :: item in FilteredNavItems(items, role) <==>
      item in items && (item.roles.None? || role == Some(SuperAdmin) || (role.Some? && role.value in item.roles.value))
    ensures role == Some(SuperAdmin) ==> FilteredNavItems(items, role) == items
  {
    Seqs.FilterIsSubseq(items, (item: NavItem) => Visible(item, role));
    Seqs.FilterMembership(items, (item: NavItem) => Visible(item, role));
    if role == Some(SuperAdmin) {
      Seqs.FilterKeepsAll(items, (item: NavItem) => Visible(item, role));
    }
  }

  /** The one restricted entry of the shipped list lists both roles. */
  lemma OnlyAdminEntryRestricted()
    ensures forall i :: 0 <= i < |NavItems| && i != 1 ==> NavItems[i].roles.None?
    ensures NavItems[1].roles == Some([SuperAdmin, Admin])
  {
  }

  /** On the shipped list both roles see all nine entries. */
  lemma ShippedSidebarForRoles(role: UserRole)
    ensures FilteredNavItems(NavItems, Some(role)) == NavItems
  {
    OnlyAdminEntryRestricted();
    forall i | 0 <= i < |NavItems|
      ensures Visible(NavItems[i], Some(role))
    {
      if i == 1 {
        assert role in NavItems[1].roles.value;
      }
    }
    Seqs.FilterKeepsAll(NavItems, (item: NavItem) => Visible(item, Some(role)));
  }

  /** Without a user the restricted "Admin Management" entry is the only one hidden. */
  lemma ShippedSidebarWithoutUser()
    ensures FilteredNavItems(NavItems, None) == NavItems[..1] + NavItems[2..]
  {
    OnlyAdminEntryRestricted();
    var before, after := NavItems[..1], NavItems[2..];
    forall i | 0 <= i < |after|
      ensures Visible(after[i], None)
    {
      assert after[i] == NavItems[i + 2];
    }
    assert NavItems == before + [NavItems[1]] + after;
    Seqs.FilterDropsOne(before, NavItems[1], after, (item: NavItem) => Visible(item, None));
  }

  /** The header says "Super Admin" exactly for a super admin and "Admin" otherwise. */
  lemma RoleLabelExact(role: Option<UserRole>)
    ensures RoleLabel(role) == "Super Admin" <==> role == Some(SuperAdmin)
    ensures RoleLabel(role) != "Super Admin" ==> RoleLabel(role) == "Admin"
  {
  }
}
