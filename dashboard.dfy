/** The dashboard: a fixed list of studios, a case-insensitive search over
    name and description, the summary cards (total rooms, active rooms,
    recorded meetings), one card per listed studio with its links, and the
    empty state. The list has no setter, so every view is a function of the
    list and the search text. */
module Dashboard {
  import opened Common
  import opened Text
  import Routes

  datatype StudioStatus = Active | Idle

  datatype Studio = Studio(
    id: string,
    name: string,
    description: string,
    createdAt: string,
    recordingsCount: int,
    participantsCount: int,
    status: StudioStatus)

  const InitialStudios: seq<Studio> := [
    Studio("1", "Weekly Podcast", "Our weekly discussion on tech trends", "2025-11-20", 12, 3, Active),
    Studio("2", "Client Interviews", "Customer success stories and testimonials", "2025-11-15", 8, 2, Idle),
    Studio("3", "Team Standup", "Daily team sync recordings", "2025-11-10", 45, 5, Idle)
  ]

  const DifferentSearchHint := "Try a different search term"
  const CreateFirstHint := "Create your first studio to get started"

  /** The lower-cased name or description contains the lower-cased query;
      an empty query matches every studio. */
  predicate MatchesSearch(studio: Studio, query: string)
    ensures query == "" ==> MatchesSearch(studio, query)
  {
    IncludesEmpty(ToLower(studio.name));
    Includes(ToLower(studio.name), ToLower(query)) || Includes(ToLower(studio.description), ToLower(query))
  }

  /** The test the search applies to each studio. */
  function SearchBy(query: string): Studio -> bool
  {
    (s: Studio) => MatchesSearch(s, query)
  }

  /** `filteredStudios`: the studios matching the search, in list order,
      each as often as it occurs. */
  function FilteredStudios(studios: seq<Studio>, query: string): (r: seq<Studio>)
    ensures IsSubsequence(r, studios)
    ensures forall s :: s in r ==> s in studios && MatchesSearch(s, query)
    ensures forall s :: s in studios && MatchesSearch(s, query) ==> s in r
    ensures |r| == CountWhere(studios, SearchBy(query))
  {
    Filter(studios, SearchBy(query))
  }

  /** An empty search keeps every studio. */
  lemma {:induction false} EmptySearchKeepsAll(studios: seq<Studio>)
    ensures FilteredStudios(studios, "") == studios
  {
    FilterKeepsAll(studios, SearchBy(""));
  }

  /** The statuses of the studios, in order. */
  function Statuses(studios: seq<Studio>): (r: seq<StudioStatus>)
    ensures |r| == |studios|
    ensures forall i :: 0 <= i < |studios| ==> r[i] == studios[i].status
  {
    if studios == [] then [] else [studios[0].status] + Statuses(studios[1..])
  }

  /** The test `s => s.status === 'active'`. */
  function IsActive(): Studio -> bool
  {
    (s: Studio) => s.status == Active
  }

  /** "<n> active now": the length of the list filtered on active status,
      which is the number of active studios and at most the total. */
  function ActiveCount(studios: seq<Studio>): (n: nat)
    ensures n <= |studios|
    ensures n == multiset(Statuses(studios))[Active]
  {
    ActiveCountIsMultiplicity(studios);
    |Filter(studios, IsActive())|
  }

  lemma {:induction false} ActiveCountIsMultiplicity(studios: seq<Studio>)
    ensures CountWhere(studios, IsActive()) == multiset(Statuses(studios))[Active]
  {
    if studios != [] {
      ActiveCountIsMultiplicity(studios[1..]);
      assert Statuses(studios) == [studios[0].status] + Statuses(studios[1..]);
    }
  }

  /** Every studio is either active or idle, so the active ones and the idle
      ones together make up the total. */
  lemma {:induction false} ActiveAndIdlePartition(s: seq<StudioStatus>)
    ensures multiset(s)[Active] + multiset(s)[Idle] == |s|
  {
    if s != [] {
      ActiveAndIdlePartition(s[1..]);
      assert s == [s[0]] + s[1..];
      var m, t := multiset(s), multiset(s[1..]);
      assert m == multiset{s[0]} + t;
      assert m[s[0]] == t[s[0]] + 1;
      assert forall x :: x != s[0] ==> m[x] == t[x];
    }
  }

  /** The sum of the recording counts, as a right-recursive reference. */
  function SumRecordings(studios: seq<Studio>): int
  {
    if studios == [] then 0 else studios[0].recordingsCount + SumRecordings(studios[1..])
  }

  /** `studios.reduce((sum, s) => sum + s.recordingsCount, sum)`: the left
      fold from the accumulator adds the accumulator to the sum of the
      counts. */
  function ReduceRecordings(studios: seq<Studio>, sum: int): (r: int)
    ensures r == sum + SumRecordings(studios)
  {
    if studios == [] then sum else ReduceRecordings(studios[1..], sum + studios[0].recordingsCount)
  }

  /** The "Recorded Meetings" figure: the fold started at 0 is the sum of the
      recording counts of all studios. */
  function RecordedMeetings(studios: seq<Studio>): (total: int)
    ensures total == SumRecordings(studios)
  {
    ReduceRecordings(studios, 0)
  }

  /** With no negative counts the figure is at least any one studio's
      count, and never negative. */
  lemma {:induction false} RecordedMeetingsBounds(studios: seq<Studio>)
    requires forall i :: 0 <= i < |studios| ==> studios[i].recordingsCount >= 0
    ensures RecordedMeetings(studios) >= 0
    ensures forall i :: 0 <= i < |studios| ==> studios[i].recordingsCount <= RecordedMeetings(studios)
  {
    if studios != [] {
      RecordedMeetingsBounds(studios[1..]);
      assert forall i :: 1 <= i < |studios| ==> studios[i] == studios[1..][i - 1];
    }
  }

  /** What one studio card offers: the Live badge, the "Open Studio" and
      "Settings" menu links, the "Enter Studio" target, and the text the
      "Copy Link" button writes to the clipboard. */
  datatype StudioCard = StudioCard(
    live: bool, openPath: string, settingsPath: string, enterPath: string, inviteLink: string)

  /** The card of one studio on a page served from `origin`. */
  function CardFor(origin: string, studio: Studio): (card: StudioCard)
    ensures card.live <==> studio.status == Active
    ensures card.enterPath == Routes.LobbyPath(studio.id) && card.openPath == card.enterPath
    ensures card.settingsPath == Routes.LobbyPath(studio.id) + "/settings"
    ensures card.inviteLink == origin + "/join/" + studio.id
    ensures Routes.IsSegment(studio.id) ==> Routes.InviteCodeOf(origin, card.inviteLink) == Some(studio.id)
  {
    StudioCard(
      studio.status == Active,
      Routes.LobbyPath(studio.id),
      Routes.LobbyPath(studio.id) + "/settings",
      Routes.LobbyPath(studio.id),
      Routes.InviteLink(origin, studio.id))
  }

  /** The empty-state card: its hint, and whether it offers "Create Studio". */
  datatype EmptyState = EmptyState(hint: string, showCreate: bool)

  /** Shown only when no studio is listed; the hint asks for another search
      iff a search is typed, and the create button appears iff none is. */
  function EmptyStateFor(studios: seq<Studio>, query: string): (e: Option<EmptyState>)
    ensures e.Some? <==> FilteredStudios(studios, query) == []
    ensures e.Some? ==> (e.value.showCreate <==> query == "")
    ensures e.Some? ==> (e.value.hint == DifferentSearchHint <==> query != "")
    ensures e.Some? ==> (e.value.hint == CreateFirstHint <==> query == "")
  {
    if FilteredStudios(studios, query) != [] then None
    else if query != "" then Some(EmptyState(DifferentSearchHint, false))
    else Some(EmptyState(CreateFirstHint, true))
  }

  /** With no search typed, the empty state, and with it the create button,
      appears exactly when there are no studios at all. */
  lemma CreateButtonOnlyWithoutStudios(studios: seq<Studio>)
    ensures EmptyStateFor(studios, "").Some? <==> studios == []
    ensures studios == [] ==> EmptyStateFor(studios, "") == Some(EmptyState(CreateFirstHint, true))
  {
    EmptySearchKeepsAll(studios);
  }

  /** The fixed list: three rooms, one of them active, 65 recordings. */
  lemma InitialSummary()
    ensures |InitialStudios| == 3
    ensures ActiveCount(InitialStudios) == 1
    ensures RecordedMeetings(InitialStudios) == 65
  {
    assert Statuses(InitialStudios) == [Active, Idle, Idle];
  }
}
