/**
 * The attendance page: the club, date-window and status filters, the
 * present/absent statistics and the attendance rate, and the member-name
 * lookup for each row.
 */
module AttendancePage {
  import opened Wrappers
  import opened Types
  import Seqs
  import opened AppReducer
  import opened AppStore

  /** The date select: today, the last week, the last month or all time. */
  datatype DateFilter = Today | ThisWeek | ThisMonth | AllTime

  /** The status select: `'ALL'` or one status. */
  datatype StatusFilter = AllRecords | OnlyStatus(status: AttendanceStatus)

  /**
   * The page reads the clock; the model takes it as parameters: `today` is
   * the current calendar day, `dayOf` the calendar day of a record's date,
   * and `since(w, d)` whether date `d` is on or after the start of window
   * `w` (a week or a month back from now).
   */
  datatype Clock = Clock(today: string, dayOf: string -> string, since: (DateFilter, string) -> bool)

  predicate InWindow(clock: Clock, filter: DateFilter, date: string)
  {
    match filter
    case Today => clock.dayOf(date) == clock.today
    case ThisWeek => clock.since(ThisWeek, date)
    case ThisMonth => clock.since(ThisMonth, date)
    case AllTime => true
  }

  predicate MatchesStatus(r: Attendance, filter: StatusFilter)
  {
    filter.AllRecords? || r.status == filter.status
  }

  function FilteredAttendance(records: seq<Attendance>, selected: Option<Club>, clock: Clock,
                              dates: DateFilter, statuses: StatusFilter): seq<Attendance>
  {
    Seqs.Filter(
      Seqs.Filter(Scoped(records, AttendanceClub, selected), (r: Attendance) => InWindow(clock, dates, r.date)),
      (r: Attendance) => MatchesStatus(r, statuses))
  }

  function PresentCount(shown: seq<Attendance>): nat
  {
    |Seqs.Filter(shown, (r: Attendance) => r.status == Present)|
  }

  function AbsentCount(shown: seq<Attendance>): nat
  {
    |Seqs.Filter(shown, (r: Attendance) => r.status == Absent)|
  }

  /** The percentage of present records, or zero for an empty list (before rounding for display). */
  function AttendanceRate(shown: seq<Attendance>): real
  {
    if |shown| > 0 then (PresentCount(shown) as real) / (|shown| as real) * 100.0 else 0.0
  }

  /** `members.find(m => m.id === memberId)?.name`, or "Unknown Member". */
  function MemberName(members: seq<Member>, memberId: string): string
  {
    match Seqs.FindById(members, memberId, MemberKey)
    case Some(m) => m.name
    case None => "Unknown Member"
  }

  /** The list holds exactly the records passing the three filters, in store order. */
  lemma FilteredAttendanceExact(records: seq<Attendance>, selected: Option<Club>, clock: Clock,
                                dates: DateFilter, statuses: StatusFilter)
    ensures forall r :: r in FilteredAttendance(records, selected, clock, dates, statuses) <==>
      r in records && InSelectedClub(selected, r.clubId) && InWindow(clock, dates, r.date) && MatchesStatus(r, statuses)
    ensures Seqs.Subseq(FilteredAttendance(records, selected, clock, dates, statuses), records)
  {
    var scoped := Scoped(records, AttendanceClub, selected);
    var dated := Seqs.Filter(scoped, (r: Attendance) => InWindow(clock, dates, r.date));
    ScopedIsClubQuery(records, AttendanceClub, selected);
    Seqs.FilterMembership(scoped, (r: Attendance) => InWindow(clock, dates, r.date));
    Seqs.FilterMembership(dated, (r: Attendance) => MatchesStatus(r, statuses));
    Seqs.FilterIsSubseq(scoped, (r: Attendance) => InWindow(clock, dates, r.date));
    Seqs.FilterIsSubseq(dated, (r: Attendance) => MatchesStatus(r, statuses));
    Seqs.SubseqTrans(dated, scoped, records);
    Seqs.SubseqTrans(FilteredAttendance(records, selected, clock, dates, statuses), dated, records);
  }

  /** All time, all statuses and no club: every record is listed, in store order. */
  lemma UnfilteredShowsAll(records: seq<Attendance>, clock: Clock)
    ensures FilteredAttendance(records, None, clock, AllTime, AllRecords) == records
  {
    ScopedIsClubQuery(records, AttendanceClub, None);
    Seqs.FilterKeepsAll(records, (r: Attendance) => InWindow(clock, AllTime, r.date));
    Seqs.FilterKeepsAll(records, (r: Attendance) => MatchesStatus(r, AllRecords));
  }

  /** Every record is present or absent, so the two counts add up to the total. */
  lemma CountsPartition(shown: seq<Attendance>)
    ensures PresentCount(shown) + AbsentCount(shown) == |shown|
  {
    Seqs.FilterComplement(shown, (r: Attendance) => r.status == Present, (r: Attendance) => r.status == Absent);
  }

  /** The rate is a percentage: zero for no records, at most 100, and exactly 100 when nobody was absent. */
  lemma RateIsPercentage(shown: seq<Attendance>)
    ensures 0.0 <= AttendanceRate(shown) <= 100.0
    ensures |shown| == 0 ==> AttendanceRate(shown) == 0.0
    ensures |shown| > 0 && AbsentCount(shown) == 0 ==> AttendanceRate(shown) == 100.0
  {
    CountsPartition(shown);
    if |shown| > 0 {
      var p, t := PresentCount(shown) as real, |shown| as real;
      assert p <= t;
      assert p / t <= 1.0;
    }
  }

  /** Filtering on one status leaves none of the other. */
  lemma StatusFilterExcludesOther(shown: seq<Attendance>)
    ensures AbsentCount(Seqs.Filter(shown, (r: Attendance) => MatchesStatus(r, OnlyStatus(Present)))) == 0
    ensures PresentCount(Seqs.Filter(shown, (r: Attendance) => MatchesStatus(r, OnlyStatus(Absent)))) == 0
  {
    var present := Seqs.Filter(shown, (r: Attendance) => MatchesStatus(r, OnlyStatus(Present)));
    var absent := Seqs.Filter(shown, (r: Attendance) => MatchesStatus(r, OnlyStatus(Absent)));
    Seqs.FilterKeepsNone(present, (r: Attendance) => r.status == Absent);
    Seqs.FilterKeepsNone(absent, (r: Attendance) => r.status == Present);
  }

  /** A row names the first member with its member id, or says the member is unknown. */
  lemma MemberNameFound(members: seq<Member>, memberId: string)
    ensures (forall i :: 0 <= i < |members| ==> members[i].id != memberId) ==> MemberName(members, memberId) == "Unknown Member"
    ensures forall i ::
      (0 <= i < |members| && members[i].id == memberId && forall j :: 0 <= j < i ==> members[j].id != memberId) ==>
      MemberName(members, memberId) == members[i].name
  {
    if Seqs.FindById(members, memberId, MemberKey).Some? {
      Seqs.FindByIdIsFirst(members, memberId, MemberKey);
    }
  }
}
