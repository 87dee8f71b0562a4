/** The call page of a studio: a fixed list of participants laid out in a
    grid, the local audio and video switches, a recording flag with its
    start and stop buttons, the participants panel, and leaving the call,
    which asks for confirmation while recording. */
module StudioCall {
  import opened Common
  import Routes

  datatype Participant = Participant(
    id: string,
    name: string,
    initials: string,
    isLocal: bool,
    audioEnabled: bool,
    videoEnabled: bool)

  /** The participants the page holds; the list has no setter. */
  const InitialParticipants: seq<Participant> := [
    Participant("1", "You", "JD", true, true, true),
    Participant("2", "Sarah Johnson", "SJ", false, true, true),
    Participant("3", "Mike Chen", "MC", false, true, false)
  ]

  /** The grid classes chosen for the participant tiles. */
  datatype GridLayout = OneColumn | TwoColumns | TwoByTwo | ThreeByTwo

  /** How many tiles a layout has room for. */
  function Cells(g: GridLayout): nat
  {
    match g
    case OneColumn => 1
    case TwoColumns => 2
    case TwoByTwo => 4
    case ThreeByTwo => 6
  }

  /** The layout for `count` participants: for one to six, the layout with
      the fewest cells that still fits them all; more than six get the
      largest layout; and an empty call, which the fixed list never makes,
      falls through to the two-by-two grid. */
  function Layout(count: nat): (g: GridLayout)
    ensures 1 <= count <= 6 ==> count <= Cells(g)
    ensures 1 <= count <= 6 ==> forall h :: count <= Cells(h) ==> Cells(g) <= Cells(h)
    ensures count > 6 ==> g == ThreeByTwo
    ensures count == 0 ==> g == TwoByTwo
  {
    if count == 1 then OneColumn
    else if count == 2 then TwoColumns
    else if count <= 4 then TwoByTwo
    else ThreeByTwo
  }

  /** The layout never shrinks when a participant is added. */
  lemma LayoutMonotone(a: nat, b: nat)
    requires 1 <= a <= b
    ensures Cells(Layout(a)) <= Cells(Layout(b))
  {
  }

  /** What one participant's tile shows: the video placeholder (or else the
      initials avatar), the "You" badge, and the mic-off and video-off
      badges. */
  datatype Tile = Tile(showsVideo: bool, youBadge: bool, micOffBadge: bool, videoOffBadge: bool)

  /** The tile follows the participant's own flags, not the page's. */
  function TileFor(p: Participant): (t: Tile)
    ensures t.showsVideo <==> p.videoEnabled
    ensures t.youBadge <==> p.isLocal
    ensures t.micOffBadge <==> !p.audioEnabled
    ensures t.videoOffBadge <==> !p.videoEnabled
  {
    Tile(p.videoEnabled, p.isLocal, !p.audioEnabled, !p.videoEnabled)
  }

  /** A tile shows either the video placeholder or the video-off badge,
      never both and never neither. */
  lemma VideoOrBadge(p: Participant)
    ensures TileFor(p).showsVideo != TileFor(p).videoOffBadge
  {
  }

  /** The tiles of a list of participants, in order. */
  function Tiles(ps: seq<Participant>): (ts: seq<Tile>)
    ensures |ts| == |ps|
    ensures forall i :: 0 <= i < |ps| ==> ts[i] == TileFor(ps[i])
  {
    if ps == [] then [] else [TileFor(ps[0])] + Tiles(ps[1..])
  }

  /** The recording button in the footer. */
  datatype RecordButton = RecordStart | RecordStop

  /** The parts of the page that depend on its state. */
  datatype CallView = CallView(
    recordingIndicator: bool,
    recordButton: RecordButton,
    micOn: bool,
    cameraOn: bool,
    panelOpen: bool,
    participantCount: nat,
    layout: GridLayout,
    tiles: seq<Tile>)

  class StudioCallPage {
    const studioId: string
    const participants: seq<Participant>
    var audioEnabled: bool
    var videoEnabled: bool
    var isRecording: bool
    var showParticipants: bool

    /** The page as first rendered for the route's studio id. */
    constructor (studioId: string)
      ensures this.studioId == studioId && participants == InitialParticipants
      ensures audioEnabled && videoEnabled && !isRecording && !showParticipants
    {
      this.studioId := studioId;
      participants := InitialParticipants;
      audioEnabled, videoEnabled := true, true;
      isRecording, showParticipants := false, false;
    }

    /** handleStartRecording. */
    method StartRecording()
      modifies this`isRecording
      ensures isRecording
    {
      isRecording := true;
    }

    /** handleStopRecording. */
    method StopRecording()
      modifies this`isRecording
      ensures !isRecording
    {
      isRecording := false;
    }

    /** handleLeaveCall. `confirmAnswer` is the answer to the dialog, which
        is shown iff a recording is running (`asked`). The lobby is the
        target unless the user declines while recording; the page state is
        never changed. */
    method LeaveCall(confirmAnswer: bool) returns (asked: bool, target: Option<string>)
      ensures asked <==> isRecording
      ensures target.None? <==> isRecording && !confirmAnswer
      ensures target.Some? ==> target.value == Routes.LobbyPath(studioId)
    {
      asked := isRecording;
      if isRecording {
        if !confirmAnswer {
          return asked, None;
        }
      }
      target := Some(Routes.LobbyPath(studioId));
    }

    /** The participants button. */
    method ToggleParticipants()
      modifies this`showParticipants
      ensures showParticipants == !old(showParticipants)
    {
      showParticipants := !showParticipants;
    }

    /** The microphone button. */
    method ToggleAudio()
      modifies this`audioEnabled
      ensures audioEnabled == !old(audioEnabled)
    {
      audioEnabled := !audioEnabled;
    }

    /** The camera button. */
    method ToggleVideo()
      modifies this`videoEnabled
      ensures videoEnabled == !old(videoEnabled)
    {
      videoEnabled := !videoEnabled;
    }

    /** The page as rendered: the red dot and the Stop button iff a
        recording is running, else the Record button; the footer switches
        follow the page's flags; the grid and tiles follow the participant
        list alone. */
    function View(): (v: CallView)
      reads this
      ensures v.recordingIndicator <==> isRecording
      ensures v.recordButton == RecordStop <==> isRecording
      ensures v.micOn == audioEnabled && v.cameraOn == videoEnabled
      ensures v.panelOpen == showParticipants
      ensures v.participantCount == |participants|
      ensures v.layout == Layout(|participants|)
      ensures |v.tiles| == |participants|
      ensures forall i :: 0 <= i < |participants| ==> v.tiles[i] == TileFor(participants[i])
    {
      CallView(
        isRecording,
        if isRecording then RecordStop else RecordStart,
        audioEnabled,
        videoEnabled,
        showParticipants,
        |participants|,
        Layout(|participants|),
        Tiles(participants))
    }
  }

  /** The fixed list of three fills a two-by-two grid, and only the third
      participant's tile shows the video-off badge. */
  lemma InitialGrid()
    ensures Layout(|InitialParticipants|) == TwoByTwo
    ensures Tiles(InitialParticipants) == [
      Tile(true, true, false, false),
      Tile(true, false, false, false),
      Tile(false, false, false, true)]
  {
  }
}
