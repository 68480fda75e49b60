/**
 * What the club and admin management pages share: the checkbox list of ids
 * that a click toggles, and the list of users offered for assignment.
 */
module Selection {
  import opened Types
  import Seqs

  /** A click on an id: remove every occurrence if it is selected, else append it. */
  function Toggle(selected: seq<string>, id: string): seq<string>
  {
    if id in selected then Seqs.Filter(selected, (x: string) => x != id) else selected + [id]
  }

  /**
   * Toggling appends an unselected id at the end, and removes every
   * occurrence of a selected one while keeping the other ids in order.
   */
  lemma ToggleEffect(selected: seq<string>, id: string)
    ensures id !in selected ==> Toggle(selected, id) == selected + [id]
    ensures id in selected ==> id !in Toggle(selected, id)
    ensures id in selected ==> Seqs.Subseq(Toggle(selected, id), selected)
    ensures forall x :: x != id ==> (x in Toggle(selected, id) <==> x in selected)
  {
    Seqs.FilterMembership(selected, (x: string) => x != id);
    Seqs.FilterIsSubseq(selected, (x: string) => x != id);
  }

  /** Clicking an unselected id twice restores the selection exactly. */
  lemma ToggleTwiceRestores(selected: seq<string>, id: string)
    requires id !in selected
    ensures Toggle(Toggle(selected, id), id) == selected
  {
    Seqs.FilterAppend(selected, [id], (x: string) => x != id);
    Seqs.FilterKeepsAll(selected, (x: string) => x != id);
    assert [id][1..] == [];
  }

  /** Clicking a selected id twice moves it, once, to the end. */
  lemma ToggleTwiceMovesToEnd(selected: seq<string>, id: string)
    requires id in selected
    ensures Toggle(Toggle(selected, id), id) == Seqs.Filter(selected, (x: string) => x != id) + [id]
  {
    ToggleEffect(selected, id);
  }

  /** Toggling keeps a duplicate-free selection duplicate-free. */
  lemma ToggleKeepsDistinct(selected: seq<string>, id: string)
    requires forall i, j :: 0 <= i < j < |selected| ==> selected[i] != selected[j]
    ensures var r := Toggle(selected, id); forall i, j :: 0 <= i < j < |r| ==> r[i] != r[j]
  {
    if id in selected {
      Seqs.FilterIsSubseq(selected, (x: string) => x != id);
      SubseqKeepsDistinct(Toggle(selected, id), selected);
    }
  }

  lemma {:induction false} SubseqKeepsDistinct(a: seq<string>, b: seq<string>)
    requires Seqs.Subseq(a, b)
    requires forall i, j :: 0 <= i < j < |b| ==> b[i] != b[j]
    ensures forall i, j :: 0 <= i < j < |a| ==> a[i] != a[j]
    decreases |b|
  {
    if a != [] {
      if a[0] == b[0] && Seqs.Subseq(a[1..], b[1..]) {
        SubseqKeepsDistinct(a[1..], b[1..]);
        Seqs.SubseqMembers(a[1..], b[1..]);
        forall j | 0 < j < |a|
          ensures a[0] != a[j]
        {
          assert a[j] == a[1..][j - 1];
          assert a[j] in b[1..];
          var k :| 0 <= k < |b[1..]| && b[1..][k] == a[j];
          assert b[k + 1] == a[j];
        }
      } else {
        SubseqKeepsDistinct(a, b[1..]);
      }
    }
  }

  /** The users whose role is admin or super admin. */
  function AdminUsers(users: seq<User>): seq<User>
  {
    Seqs.Filter(users, (u: User) => u.role == Admin || u.role == SuperAdmin)
  }

  /** Every user is an admin or a super admin, so the assignment list is every user, in order. */
  lemma AdminUsersIsEveryUser(users: seq<User>)
    ensures AdminUsers(users) == users
  {
    Seqs.FilterKeepsAll(users, (u: User) => u.role == Admin || u.role == SuperAdmin);
  }
}
