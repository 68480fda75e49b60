/**
 * The member management page: the filter over the store's members, the sort
 * by status that follows it, the name suggestions handed to the search bar
 * and the payload the form submits.
 */
module MemberManagementPage {
  import opened Wrappers
  import opened Types
  import Seqs
  import Text
  import opened AppStore

  /** The status select: `'ALL'` or one status. */
  datatype StatusFilter = AllStatuses | OnlyStatus(status: MemberStatus)

  /**
   * The filter: the selected club, the status and a search over name and
   * email (ignoring case) or phone (exact case).
   */
  predicate Admits(m: Member, selected: Option<Club>, filter: StatusFilter, term: string)
  {
    InSelectedClub(selected, m.clubId)
    && (filter.AllStatuses? || m.status == filter.status)
    && (term == ""
        || Text.ContainsIgnoreCase(m.name, term)
        || Text.Includes(m.phone, term)
        || Text.ContainsIgnoreCase(m.email, term))
  }

  /** The sort key: visitors, then trials, then active, then inactive members. */
  function StatusOrder(s: MemberStatus): (r: int)
    ensures 1 <= r <= 4
  {
    match s
    case StatusVisitor => 1
    case StatusTrial => 2
    case StatusActive => 3
    case StatusInactive => 4
  }

  /** Distinct statuses have distinct positions, so a group holds one status. */
  lemma StatusOrderInjective(s: MemberStatus, t: MemberStatus)
    ensures StatusOrder(s) == StatusOrder(t) ==> s == t
  {
  }

  function Rank(m: Member): int { StatusOrder(m.status) }

  /**
   * Inserting `m` after every member whose rank does not exceed its own: the
   * step of a stable sort by rank.
   */
  function Insert(m: Member, sorted: seq<Member>): seq<Member>
  {
    if sorted == [] then [m]
    else if Rank(m) < Rank(sorted[0]) then [m] + sorted
    else [sorted[0]] + Insert(m, sorted[1..])
  }

  /**
   * `Array.prototype.sort` with the status comparator. The language requires
   * that sort to be stable, and every stable sort by this key yields the same
   * sequence, so insertion sort stands for the engine's algorithm.
   */
  function SortByStatus(xs: seq<Member>): seq<Member>
  {
    if xs == [] then [] else Insert(xs[|xs| - 1], SortByStatus(xs[..|xs| - 1]))
  }

  function FilteredMembers(members: seq<Member>, selected: Option<Club>, filter: StatusFilter, term: string): seq<Member>
  {
    SortByStatus(Seqs.Filter(members, (m: Member) => Admits(m, selected, filter, term)))
  }

  // ----- the reference: members grouped by rank, each group in original order -----

  function OfRank(xs: seq<Member>, k: int): seq<Member>
  {
    Seqs.Filter(xs, (m: Member) => Rank(m) == k)
  }

  function RanksUpTo(xs: seq<Member>, k: int): seq<Member>
    decreases k
  {
    if k < 1 then [] else RanksUpTo(xs, k - 1) + OfRank(xs, k)
  }

  /** The members of rank above `k`, rank by rank up to 4. */
  function RanksAbove(xs: seq<Member>, k: int): seq<Member>
    decreases 4 - k
  {
    if k >= 4 then [] else OfRank(xs, k + 1) + RanksAbove(xs, k + 1)
  }

  function Grouped(xs: seq<Member>): seq<Member> { RanksUpTo(xs, 4) }

  predicate SortedByRank(s: seq<Member>)
  {
    forall i, j :: 0 <= i < j < |s| ==> Rank(s[i]) <= Rank(s[j])
  }

  lemma {:induction false} RanksUpToBounded(xs: seq<Member>, k: int)
    ensures forall i :: 0 <= i < |RanksUpTo(xs, k)| ==> Rank(RanksUpTo(xs, k)[i]) <= k
    ensures SortedByRank(RanksUpTo(xs, k))
    decreases k
  {
    if k >= 1 {
      RanksUpToBounded(xs, k - 1);
      var a, b := RanksUpTo(xs, k - 1), OfRank(xs, k);
      assert forall i :: 0 <= i < |b| ==> Rank(b[i]) == k;
      assert forall i :: 0 <= i < |a + b| ==> (a + b)[i] == if i < |a| then a[i] else b[i - |a|];
    }
  }

  lemma {:induction false} RanksAboveBounded(xs: seq<Member>, k: int)
    ensures forall i :: 0 <= i < |RanksAbove(xs, k)| ==> Rank(RanksAbove(xs, k)[i]) > k
    decreases 4 - k
  {
    if k < 4 {
      RanksAboveBounded(xs, k + 1);
      var a, b := OfRank(xs, k + 1), RanksAbove(xs, k + 1);
      assert forall i :: 0 <= i < |a| ==> Rank(a[i]) == k + 1;
      assert forall i :: 0 <= i < |a + b| ==> (a + b)[i] == if i < |a| then a[i] else b[i - |a|];
    }
  }

  /** The four groups, cut after rank `k`. */
  lemma {:induction false} GroupedSplits(xs: seq<Member>, k: int)
    requires 0 <= k <= 4
    ensures Grouped(xs) == RanksUpTo(xs, k) + RanksAbove(xs, k)
    decreases 4 - k
  {
    if k < 4 {
      GroupedSplits(xs, k + 1);
      assert RanksUpTo(xs, k + 1) == RanksUpTo(xs, k) + OfRank(xs, k + 1);
    }
  }

  /** Appending a member of rank `k` extends group `k` and leaves the others alone. */
  lemma {:induction false} RanksAppend(xs: seq<Member>, m: Member, k: int)
    requires 1 <= k <= 4 && Rank(m) == k
    ensures forall j :: j < k ==> RanksUpTo(xs + [m], j) == RanksUpTo(xs, j)
    ensures RanksUpTo(xs + [m], k) == RanksUpTo(xs, k) + [m]
    ensures forall j :: j >= k ==> RanksAbove(xs + [m], j) == RanksAbove(xs, j)
  {
    forall j | j < k
      ensures RanksUpTo(xs + [m], j) == RanksUpTo(xs, j)
    {
      RanksUpToUnchanged(xs, m, j);
    }
    Seqs.FilterAppend(xs, [m], (x: Member) => Rank(x) == k);
    assert OfRank([m], k) == [m];
    RanksUpToUnchanged(xs, m, k - 1);
    forall j | j >= k
      ensures RanksAbove(xs + [m], j) == RanksAbove(xs, j)
    {
      RanksAboveUnchanged(xs, m, j);
    }
  }

  lemma {:induction false} OfOtherRank(xs: seq<Member>, m: Member, j: int)
    requires Rank(m) != j
    ensures OfRank(xs + [m], j) == OfRank(xs, j)
  {
    Seqs.FilterAppend(xs, [m], (x: Member) => Rank(x) == j);
    assert OfRank([m], j) == [];
  }

  lemma {:induction false} RanksUpToUnchanged(xs: seq<Member>, m: Member, j: int)
    requires j < Rank(m)
    ensures RanksUpTo(xs + [m], j) == RanksUpTo(xs, j)
    decreases j
  {
    if j >= 1 {
      RanksUpToUnchanged(xs, m, j - 1);
      OfOtherRank(xs, m, j);
    }
  }

  lemma {:induction false} RanksAboveUnchanged(xs: seq<Member>, m: Member, j: int)
    requires j >= Rank(m)
    ensures RanksAbove(xs + [m], j) == RanksAbove(xs, j)
    decreases 4 - j
  {
    if j < 4 {
      RanksAboveUnchanged(xs, m, j + 1);
      OfOtherRank(xs, m, j + 1);
    }
  }

  /** Inserting between the members ranked at most `m`'s and those ranked above. */
  lemma {:induction false} InsertBetween(m: Member, a: seq<Member>, b: seq<Member>)
    requires forall i :: 0 <= i < |a| ==> Rank(a[i]) <= Rank(m)
    requires forall i :: 0 <= i < |b| ==> Rank(b[i]) > Rank(m)
    ensures Insert(m, a + b) == a + [m] + b
  {
    if a == [] {
      assert a + b == b;
    } else {
      assert (a + b)[0] == a[0];
      assert (a + b)[1..] == a[1..] + b;
      InsertBetween(m, a[1..], b);
    }
  }

  /** The sort is the grouping by rank. */
  lemma {:induction false} SortIsGrouped(xs: seq<Member>)
    ensures SortByStatus(xs) == Grouped(xs)
    decreases |xs|
  {
    if xs == [] {
      assert RanksUpTo(xs, 4) == [] by {
        forall k | 1 <= k <= 4 ensures OfRank(xs, k) == [] { }
      }
    } else {
      var init, m := xs[..|xs| - 1], xs[|xs| - 1];
      assert xs == init + [m];
      var k := Rank(m);
      SortIsGrouped(init);
      GroupedSplits(init, k);
      GroupedSplits(xs, k);
      RanksAppend(init, m, k);
      RanksUpToBounded(init, k);
      RanksAboveBounded(init, k);
      InsertBetween(m, RanksUpTo(init, k), RanksAbove(init, k));
    }
  }

  lemma {:induction false} RanksUpToEmpty(k: int)
    ensures RanksUpTo([], k) == []
    decreases k
  {
    if k >= 1 {
      RanksUpToEmpty(k - 1);
    }
  }

  /** The groups hold every member exactly as often as the input does. */
  lemma {:induction false} GroupedIsPermutation(xs: seq<Member>)
    ensures multiset(Grouped(xs)) == multiset(xs)
    decreases |xs|
  {
    if xs == [] {
      RanksUpToEmpty(4);
    } else {
      var init, m := xs[..|xs| - 1], xs[|xs| - 1];
      assert xs == init + [m];
      var k := Rank(m);
      GroupedIsPermutation(init);
      GroupedSplits(init, k);
      GroupedSplits(xs, k);
      RanksAppend(init, m, k);
    }
  }

  lemma {:induction false} OfRankOfGroup(xs: seq<Member>, j: int, k: int)
    ensures OfRank(RanksUpTo(xs, j), k) == if 1 <= k <= j then OfRank(xs, k) else []
    decreases j
  {
    if j >= 1 {
      OfRankOfGroup(xs, j - 1, k);
      Seqs.FilterAppend(RanksUpTo(xs, j - 1), OfRank(xs, j), (x: Member) => Rank(x) == k);
      if k == j {
        Seqs.FilterKeepsAll(OfRank(xs, j), (x: Member) => Rank(x) == k);
      } else {
        Seqs.FilterKeepsNone(OfRank(xs, j), (x: Member) => Rank(x) == k);
      }
    } else {
      Seqs.FilterKeepsNone(RanksUpTo(xs, j), (x: Member) => Rank(x) == k);
    }
  }

  /**
   * The sort orders visitors, trials, active and inactive members in that
   * order, loses and invents no member, and keeps members of one status in
   * the order the store holds them.
   */
  lemma SortByStatusCorrect(xs: seq<Member>)
    ensures SortedByRank(SortByStatus(xs))
    ensures multiset(SortByStatus(xs)) == multiset(xs)
    ensures forall s: MemberStatus :: OfRank(SortByStatus(xs), StatusOrder(s)) == OfRank(xs, StatusOrder(s))
  {
    SortIsGrouped(xs);
    RanksUpToBounded(xs, 4);
    GroupedIsPermutation(xs);
    forall s: MemberStatus
      ensures OfRank(SortByStatus(xs), StatusOrder(s)) == OfRank(xs, StatusOrder(s))
    {
      OfRankOfGroup(xs, 4, StatusOrder(s));
    }
  }

  /**
   * The page lists exactly the admitted members, each as often as the store
   * holds it, ordered by status and otherwise in store order.
   */
  lemma FilteredMembersCorrect(members: seq<Member>, selected: Option<Club>, filter: StatusFilter, term: string)
    ensures forall m :: m in FilteredMembers(members, selected, filter, term) <==>
      m in members && Admits(m, selected, filter, term)
    ensures SortedByRank(FilteredMembers(members, selected, filter, term))
    ensures multiset(FilteredMembers(members, selected, filter, term)) ==
      multiset(Seqs.Filter(members, (m: Member) => Admits(m, selected, filter, term)))
  {
    var kept := Seqs.Filter(members, (m: Member) => Admits(m, selected, filter, term));
    Seqs.FilterMembership(members, (m: Member) => Admits(m, selected, filter, term));
    SortByStatusCorrect(kept);
    assert forall m :: m in FilteredMembers(members, selected, filter, term) <==> m in multiset(kept);
  }

  // ----- suggestions -----

  function Names(ms: seq<Member>): (r: seq<string>)
    ensures |r| == |ms| && forall i :: 0 <= i < |ms| ==> r[i] == ms[i].name
  {
    if ms == [] then [] else [ms[0].name] + Names(ms[1..])
  }

  /** `members.filter(name includes term, ignoring case).slice(0, 5).map(name)`. */
  function NameSuggestions(members: seq<Member>, term: string): seq<string>
  {
    Names(Seqs.Take(Seqs.Filter(members, (m: Member) => Text.ContainsIgnoreCase(m.name, term)), 5))
  }

  /** At most five names, each the name of a stored member that contains the term. */
  lemma NameSuggestionsSound(members: seq<Member>, term: string)
    ensures |NameSuggestions(members, term)| <= 5
    ensures forall i :: 0 <= i < |NameSuggestions(members, term)| ==>
      Text.ContainsIgnoreCase(NameSuggestions(members, term)[i], term) &&
      exists m :: m in members && m.name == NameSuggestions(members, term)[i]
  {
    var matching := Seqs.Filter(members, (m: Member) => Text.ContainsIgnoreCase(m.name, term));
    Seqs.FilterMembership(members, (m: Member) => Text.ContainsIgnoreCase(m.name, term));
    var first := Seqs.Take(matching, 5);
    forall i | 0 <= i < |first|
      ensures first[i] in members && Text.ContainsIgnoreCase(first[i].name, term)
    {
      assert first[i] == matching[i];
    }
  }

  // ----- the submitted form -----

  /** `{...data, joinDate: data.joinDate || today}`. */
  function SubmittedForm(data: MemberForm, today: string): MemberForm
  {
    data.(joinDate := Some(Text.OrElse(data.joinDate, today)))
  }

  /**
   * A submitted form always carries a join date, the entered one or today,
   * and a member created from it starts on that date; an edit overwrites the
   * stored join date with it.
   */
  lemma SubmittedJoinDate(data: MemberForm, today: string, id: string, memberNumber: string,
                          yearLater: string, now: string, existing: Member)
    ensures SubmittedForm(data, today).joinDate.Some?
    ensures data.joinDate.Some? && data.joinDate.value != "" ==> SubmittedForm(data, today).joinDate == data.joinDate
    ensures data.joinDate.None? || data.joinDate.value == "" ==> SubmittedForm(data, today).joinDate == Some(today)
    ensures NewMember(SubmittedForm(data, today), id, memberNumber, today, yearLater, now).membershipStartDate ==
      SubmittedForm(data, today).joinDate.value
    ensures OverlayMember(existing, SubmittedForm(data, today), id, now).joinDate == SubmittedForm(data, today).joinDate
  {
  }
}
