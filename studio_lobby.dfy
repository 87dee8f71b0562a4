/** The lobby of a studio: the camera preview with audio and video
    switches, three device pickers, the studio's participant count with its
    Live badge, the invite link with its copy button, and the button that
    enters the call. */
module StudioLobby {
  import opened Common
  import opened Text
  import Routes

  /** The ids the camera, microphone and speaker pickers offer. */
  const CameraIds := ["default", "camera1"]
  const MicrophoneIds := ["default", "mic1", "mic2"]
  const SpeakerIds := ["default", "speaker1", "speaker2"]

  /** The participant count of the mock studio the page shows. */
  const MockActiveParticipants := 2

  const ParticipantNoun := "participant"
  const InCallSuffix := " in call"

  /** The studio-information line and badge for `n` participants. */
  datatype StudioInfo = StudioInfo(participantText: string, live: bool)

  /** "<n> participant(s) in call", plural iff `n` is not 1, and the Live
      badge iff `n` is positive. */
  function InfoFor(n: int): (info: StudioInfo)
    ensures |info.participantText| ==
      |IntToDecimal(n)| + 1 + |ParticipantNoun| + (if n != 1 then 1 else 0) + |InCallSuffix|
    ensures info.participantText[..|IntToDecimal(n)| + 1] == IntToDecimal(n) + " "
    ensures info.participantText[|IntToDecimal(n)| + 1..|IntToDecimal(n)| + 1 + |ParticipantNoun|] == ParticipantNoun
    ensures info.participantText[|info.participantText| - |InCallSuffix|..] == InCallSuffix
    ensures info.participantText[|info.participantText| - |InCallSuffix| - 1] == 's' <==> n != 1
    ensures info.live <==> n > 0
  {
    var countLabel := CountLabel(n, ParticipantNoun);
    var text := countLabel + InCallSuffix;
    var d := |IntToDecimal(n)|;
    assert text[..d + 1] == countLabel[..d + 1];
    assert text[d + 1..d + 1 + |ParticipantNoun|] == countLabel[d + 1..d + 1 + |ParticipantNoun|];
    assert text[|text| - |InCallSuffix| - 1] == countLabel[|countLabel| - 1];
    StudioInfo(text, n > 0)
  }

  /** The mock studio shows "2 participants in call" and the Live badge. */
  lemma MockStudioInfo()
    ensures InfoFor(MockActiveParticipants) == StudioInfo("2 participants in call", true)
  {
    assert CountLabel(2, "participant") == "2 participants";
  }

  class StudioLobbyPage {
    const studioId: string
    var videoEnabled: bool
    var audioEnabled: bool
    var selectedCamera: string
    var selectedMicrophone: string
    var selectedSpeaker: string
    var copied: bool

    /** The page invariant: each picker holds one of the ids it offers. No
        other contract depends on it; it records what the pickers keep. */
    ghost predicate Valid()
      reads this
    {
      selectedCamera in CameraIds && selectedMicrophone in MicrophoneIds && selectedSpeaker in SpeakerIds
    }

    /** The page as first rendered for the route's studio id: both switches
        on and every picker on its default device. */
    constructor (studioId: string)
      ensures Valid()
      ensures this.studioId == studioId
      ensures videoEnabled && audioEnabled && !copied
      ensures selectedCamera == "default" && selectedMicrophone == "default" && selectedSpeaker == "default"
    {
      this.studioId := studioId;
      videoEnabled, audioEnabled := true, true;
      selectedCamera, selectedMicrophone, selectedSpeaker := "default", "default", "default";
      copied := false;
    }

    method ToggleAudio()
      requires Valid()
      modifies this`audioEnabled
      ensures Valid()
      ensures audioEnabled == !old(audioEnabled)
    {
      audioEnabled := !audioEnabled;
    }

    method ToggleVideo()
      requires Valid()
      modifies this`videoEnabled
      ensures Valid()
      ensures videoEnabled == !old(videoEnabled)
    {
      videoEnabled := !videoEnabled;
    }

    method SelectCamera(id: string)
      requires Valid() && id in CameraIds
      modifies this`selectedCamera
      ensures Valid()
      ensures selectedCamera == id
    {
      selectedCamera := id;
    }

    method SelectMicrophone(id: string)
      requires Valid() && id in MicrophoneIds
      modifies this`selectedMicrophone
      ensures Valid()
      ensures selectedMicrophone == id
    {
      selectedMicrophone := id;
    }

    method SelectSpeaker(id: string)
      requires Valid() && id in SpeakerIds
      modifies this`selectedSpeaker
      ensures Valid()
      ensures selectedSpeaker == id
    {
      selectedSpeaker := id;
    }

    /** handleCopyLink on a page served from `origin`: the clipboard gets the
        invite link, from which the join route reads the studio id back, and
        the copied mark goes on. */
    method CopyLink(origin: string) returns (clipboard: string)
      modifies this`copied
      ensures copied
      ensures clipboard == origin + "/join/" + studioId
      ensures Routes.IsSegment(studioId) ==> Routes.InviteCodeOf(origin, clipboard) == Some(studioId)
    {
      clipboard := Routes.InviteLink(origin, studioId);
      copied := true;
    }

    /** handleJoinCall: the call page of this studio, which lies under the
        lobby's own path; no state changes. */
    method JoinCall() returns (target: string)
      ensures target == Routes.CallPath(studioId)
      ensures target[..|Routes.LobbyPath(studioId)|] == Routes.LobbyPath(studioId)
    {
      target := Routes.CallPath(studioId);
      assert target == Routes.LobbyPath(studioId) + "/call";
    }
  }
}
