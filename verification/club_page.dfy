/**
 * The club management page: the club search, the admin assignment kept
 * while the form is open, and the payload handed to the store.
 */
module ClubManagementPage {
  import opened Wrappers
  import opened Types
  import Seqs
  import Text
  import opened AppStore

  /** A club is kept when the term occurs, ignoring case, in its name, address or email. */
  predicate MatchesSearch(c: Club, term: string)
  {
    Text.ContainsIgnoreCase(c.name, term) || Text.ContainsIgnoreCase(c.address, term)
    || Text.ContainsIgnoreCase(c.email, term)
  }

  function FilteredClubs(clubs: seq<Club>, term: string): seq<Club>
  {
    Seqs.Filter(clubs, (c: Club) => MatchesSearch(c, term))
  }

  /** The search keeps exactly the matching clubs in order, and an empty term keeps them all. */
  lemma FilteredClubsExact(clubs: seq<Club>, term: string)
    ensures forall c :: c in FilteredClubs(clubs, term) <==> c in clubs && MatchesSearch(c, term)
    ensures Seqs.Subseq(FilteredClubs(clubs, term), clubs)
    ensures term == "" ==> FilteredClubs(clubs, term) == clubs
  {
    Seqs.FilterMembership(clubs, (c: Club) => MatchesSearch(c, term));
    Seqs.FilterIsSubseq(clubs, (c: Club) => MatchesSearch(c, term));
    if term == "" {
      forall i | 0 <= i < |clubs|
        ensures MatchesSearch(clubs[i], term)
      {
        Text.IncludesEmpty(clubs[i].name);
      }
      Seqs.FilterKeepsAll(clubs, (c: Club) => MatchesSearch(c, term));
    }
  }

  /** Opening a club for editing preselects its admins, or none. */
  function PreloadedAdmins(c: Club): seq<string>
  {
    c.adminIds.GetOr([])
  }

  /** `{...data, adminIds: selectedAdmins}`: the checkbox selection replaces the form's own field. */
  function ClubSubmission(data: ClubForm, selectedAdmins: seq<string>): ClubForm
  {
    data.(adminIds := Some(selectedAdmins))
  }

  /**
   * A club created from the page is assigned exactly the selected admins,
   * and its primary admin is the first of them (or none); an edit replaces
   * the assignment, falling back to the old primary admin only when the
   * selection is empty or starts with an empty id.
   */
  lemma SubmittedAssignment(data: ClubForm, selectedAdmins: seq<string>, existing: Club, id: string, now: string)
    ensures NewClub(ClubSubmission(data, selectedAdmins), id, now).adminIds == Some(selectedAdmins)
    ensures |selectedAdmins| > 0 && selectedAdmins[0] != "" ==>
      NewClub(ClubSubmission(data, selectedAdmins), id, now).adminId == selectedAdmins[0]
    ensures selectedAdmins == [] ==> NewClub(ClubSubmission(data, selectedAdmins), id, now).adminId == ""
    ensures OverlayClub(existing, ClubSubmission(data, selectedAdmins), id, now).adminIds == Some(selectedAdmins)
    ensures selectedAdmins == [] ==>
      OverlayClub(existing, ClubSubmission(data, selectedAdmins), id, now).adminId == existing.adminId
  {
  }

  /** Editing a club and saving without touching the checkboxes keeps its admins. */
  lemma UntouchedEditKeepsAdmins(data: ClubForm, existing: Club, id: string, now: string)
    ensures OverlayClub(existing, ClubSubmission(data, PreloadedAdmins(existing)), id, now).adminIds ==
      Some(existing.adminIds.GetOr([]))
  {
  }
}
