/** The recordings library: a fixed list of recordings, a case-insensitive
    search over title and studio name combined with a status filter, the
    status counts on the summary cards, and the per-row labels and actions. */
module Recordings {
  import opened Common
  import opened Text

  datatype Status = Completed | Processing | Failed

  /** The filter dropdown: every recording, or one status. */
  datatype StatusFilter = AllStatuses | OnlyStatus(status: Status)

  datatype Recording = Recording(
    id: string,
    title: string,
    studioName: string,
    duration: string,
    size: string,
    date: string,
    participants: int,
    status: Status)

  /** The list the page holds; it has no setter, so it never changes. */
  const InitialRecordings: seq<Recording> := [
    Recording("1", "Episode 45: AI in Healthcare", "Weekly Podcast", "1:23:45", "2.4 GB", "2025-11-25", 3, Completed),
    Recording("2", "Customer Interview - Acme Corp", "Client Interviews", "45:12", "1.1 GB", "2025-11-24", 2, Completed),
    Recording("3", "Episode 44: Future of Remote Work", "Weekly Podcast", "1:15:32", "2.2 GB", "2025-11-23", 4, Processing),
    Recording("4", "Team Standup - Nov 22", "Team Standup", "15:30", "450 MB", "2025-11-22", 5, Completed),
    Recording("5", "Interview with Jane Smith", "Client Interviews", "0:00", "0 MB", "2025-11-21", 2, Failed)
  ]

  const DifferentSearchHint := "Try a different search term or filter"
  const StartRecordingHint := "Start recording in a studio to see your recordings here"

  /** The lower-cased title or studio name contains the lower-cased query;
      an empty query matches every recording. */
  predicate MatchesSearch(r: Recording, query: string)
    ensures query == "" ==> MatchesSearch(r, query)
  {
    IncludesEmpty(ToLower(r.title));
    Includes(ToLower(r.title), ToLower(query)) || Includes(ToLower(r.studioName), ToLower(query))
  }

  /** The status dropdown admits every recording on "all", and on one status
      exactly the recordings with that status. */
  predicate MatchesFilter(r: Recording, filter: StatusFilter)
    ensures filter.AllStatuses? ==> MatchesFilter(r, filter)
    ensures filter.OnlyStatus? ==> (MatchesFilter(r, filter) <==> r.status == filter.status)
  {
    filter.AllStatuses? || r.status == filter.status
  }

  predicate Shown(r: Recording, query: string, filter: StatusFilter)
  {
    MatchesSearch(r, query) && MatchesFilter(r, filter)
  }

  /** The test the filter applies to each recording. */
  function ShownBy(query: string, filter: StatusFilter): Recording -> bool
  {
    (x: Recording) => Shown(x, query, filter)
  }

  /** `filteredRecordings`: the recordings that match both the search and
      the status filter, in list order, each as often as it occurs. */
  function FilteredRecordings(recordings: seq<Recording>, query: string, filter: StatusFilter): (r: seq<Recording>)
    ensures IsSubsequence(r, recordings)
    ensures forall x :: x in r ==> x in recordings && Shown(x, query, filter)
    ensures forall x :: x in recordings && Shown(x, query, filter) ==> x in r
    ensures |r| == CountWhere(recordings, ShownBy(query, filter))
  {
    Filter(recordings, ShownBy(query, filter))
  }

  /** An empty search with the filter on "all" shows every recording. */
  lemma {:induction false} EmptySearchShowsAll(recordings: seq<Recording>)
    ensures FilteredRecordings(recordings, "", AllStatuses) == recordings
  {
    FilterKeepsAll(recordings, ShownBy("", AllStatuses));
  }

  /** The statuses of the recordings, in order. */
  function Statuses(recordings: seq<Recording>): (s: seq<Status>)
    ensures |s| == |recordings|
    ensures forall i :: 0 <= i < |recordings| ==> s[i] == recordings[i].status
  {
    if recordings == [] then [] else [recordings[0].status] + Statuses(recordings[1..])
  }

  /** The test `r => r.status === status` the summary cards filter with. */
  function HasStatus(status: Status): Recording -> bool
  {
    (r: Recording) => r.status == status
  }

  /** A summary card: `recordings.filter(r => r.status === status).length`,
      which is the number of recordings with that status and at most the
      total. */
  function StatusCount(recordings: seq<Recording>, status: Status): (n: nat)
    ensures n <= |recordings|
    ensures n == multiset(Statuses(recordings))[status]
  {
    StatusCountIsMultiplicity(recordings, status);
    |Filter(recordings, HasStatus(status))|
  }

  lemma {:induction false} StatusCountIsMultiplicity(recordings: seq<Recording>, status: Status)
    ensures CountWhere(recordings, HasStatus(status)) == multiset(Statuses(recordings))[status]
  {
    if recordings != [] {
      StatusCountIsMultiplicity(recordings[1..], status);
      assert Statuses(recordings) == [recordings[0].status] + Statuses(recordings[1..]);
    }
  }

  /** Every recording has exactly one status, so the three counts add up to
      the total. */
  lemma {:induction false} StatusCountsPartition(recordings: seq<Recording>)
    ensures StatusCount(recordings, Completed) + StatusCount(recordings, Processing)
          + StatusCount(recordings, Failed) == |recordings|
  {
    MultiplicitiesPartition(Statuses(recordings));
  }

  lemma {:induction false} MultiplicitiesPartition(s: seq<Status>)
    ensures multiset(s)[Completed] + multiset(s)[Processing] + multiset(s)[Failed] == |s|
  {
    if s != [] {
      MultiplicitiesPartition(s[1..]);
      assert s == [s[0]] + s[1..];
      var m, t := multiset(s), multiset(s[1..]);
      assert m == multiset{s[0]} + t;
      assert m[s[0]] == t[s[0]] + 1;
      assert forall x :: x != s[0] ==> m[x] == t[x];
    }
  }

  /** Picking a status in the dropdown with an empty search shows as many
      rows as that status's summary card counts. */
  lemma StatusFilterMatchesCard(recordings: seq<Recording>, status: Status)
    ensures |FilteredRecordings(recordings, "", OnlyStatus(status))| == StatusCount(recordings, status)
  {
    CountWhereAgree(recordings, ShownBy("", OnlyStatus(status)), HasStatus(status));
  }

  /** What one table row shows besides the raw fields. */
  datatype Row = Row(participantsLabel: string, badge: string, playDisabled: bool, downloadDisabled: bool)

  const ParticipantNoun := "participant"

  /** The row for one recording: "<n> participant(s)", the status badge, and
      Play and Download disabled unless the recording is completed. */
  function RowFor(r: Recording): (row: Row)
    ensures |row.participantsLabel| ==
      |IntToDecimal(r.participants)| + 1 + |ParticipantNoun| + (if r.participants != 1 then 1 else 0)
    ensures row.participantsLabel[..|IntToDecimal(r.participants)| + 1] == IntToDecimal(r.participants) + " "
    ensures row.participantsLabel[|IntToDecimal(r.participants)| + 1..|IntToDecimal(r.participants)| + 1 + |ParticipantNoun|]
      == ParticipantNoun
    ensures row.participantsLabel[|row.participantsLabel| - 1] == 's' <==> r.participants != 1
    ensures row.playDisabled <==> r.status != Completed
    ensures row.downloadDisabled <==> r.status != Completed
    ensures row.badge == match r.status
      case Completed => "Completed" case Processing => "Processing" case Failed => "Failed"
  {
    var participantsLabel := CountLabel(r.participants, ParticipantNoun);
    Row(participantsLabel,
        match r.status case Completed => "Completed" case Processing => "Processing" case Failed => "Failed",
        r.status != Completed,
        r.status != Completed)
  }

  /** The empty-state hint, shown only when no recording is listed: the
      "different search" text iff a search is typed. */
  function EmptyHint(recordings: seq<Recording>, query: string, filter: StatusFilter): (hint: Option<string>)
    ensures hint.Some? <==> FilteredRecordings(recordings, query, filter) == []
    ensures hint.Some? ==> (hint.value == DifferentSearchHint <==> query != "")
    ensures hint.Some? ==> (hint.value == StartRecordingHint <==> query == "")
  {
    if FilteredRecordings(recordings, query, filter) != [] then None
    else if query != "" then Some(DifferentSearchHint)
    else Some(StartRecordingHint)
  }

  /** With no search and no status filter the empty state appears only for
      an empty library, and then invites the user to record. */
  lemma EmptyHintWithoutSearch(recordings: seq<Recording>)
    ensures EmptyHint(recordings, "", AllStatuses).Some? <==> recordings == []
    ensures recordings == [] ==> EmptyHint(recordings, "", AllStatuses) == Some(StartRecordingHint)
  {
    EmptySearchShowsAll(recordings);
  }
}
