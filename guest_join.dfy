/** The guest join page, reached through `/join/:inviteCode`: a name field,
    a camera preview with audio and video toggles, two device pickers, and a
    join handler that rejects a blank name and otherwise goes, after a mock
    delay, to the call page of the studio whose id is the invite code. */
module GuestJoin {
  import opened Common
  import opened Text
  import Routes

  const NameRequiredError := "Please enter your name"
  const DefaultLabel := "Guest"

  /** The ids the camera and microphone pickers offer. */
  const CameraIds := ["default", "camera1"]
  const MicrophoneIds := ["default", "mic1", "mic2"]

  /** The check `!guestName.trim()`: a name of nothing but whitespace is
      rejected, any other accepted. */
  function NameError(guestName: string): (r: Option<string>)
    ensures r.Some? <==> IsBlank(guestName)
    ensures r.Some? ==> r.value == NameRequiredError
  {
    if Trim(guestName) == "" then Some(NameRequiredError) else None
  }

  /** The label on the camera preview, `guestName || 'Guest'`: the name as
      typed whenever it is non-empty, untrimmed. */
  function PreviewLabel(guestName: string): (shown: string)
    ensures guestName != "" ==> shown == guestName
    ensures guestName == "" ==> shown == DefaultLabel
  {
    if guestName != "" then guestName else DefaultLabel
  }

  /** A name of spaces is shown on the preview as typed, yet joining with it
      is refused. */
  lemma BlankNameShownButRefused(guestName: string)
    requires guestName != "" && IsBlank(guestName)
    ensures PreviewLabel(guestName) == guestName
    ensures NameError(guestName) == Some(NameRequiredError)
  {
    assert IsWhitespace(guestName[0]);
  }

  class GuestJoinPage {
    const inviteCode: string
    var guestName: string
    var videoEnabled: bool
    var audioEnabled: bool
    var selectedCamera: string
    var selectedMicrophone: string
    var error: string
    var loading: bool

    /** The pickers hold one of the offered ids, and no error is shown while
        the join request is pending. */
    ghost predicate Valid()
      reads this
    {
      selectedCamera in CameraIds && selectedMicrophone in MicrophoneIds &&
      (loading ==> error == "")
    }

    /** The page as first rendered for the route's invite code. */
    constructor (inviteCode: string)
      ensures Valid()
      ensures this.inviteCode == inviteCode
      ensures guestName == "" && videoEnabled && audioEnabled
      ensures selectedCamera == "default" && selectedMicrophone == "default"
      ensures error == "" && !loading
    {
      this.inviteCode := inviteCode;
      guestName := "";
      videoEnabled, audioEnabled := true, true;
      selectedCamera, selectedMicrophone := "default", "default";
      error, loading := "", false;
    }

    method ToggleAudio()
      requires Valid()
      modifies this`audioEnabled
      ensures Valid()
      ensures audioEnabled == !old(audioEnabled)
    {
      audioEnabled := !audioEnabled;
    }

    method ToggleVideo()
      requires Valid()
      modifies this`videoEnabled
      ensures Valid()
      ensures videoEnabled == !old(videoEnabled)
    {
      videoEnabled := !videoEnabled;
    }

    method SelectCamera(id: string)
      requires Valid() && id in CameraIds
      modifies this`selectedCamera
      ensures Valid()
      ensures selectedCamera == id
    {
      selectedCamera := id;
    }

    method SelectMicrophone(id: string)
      requires Valid() && id in MicrophoneIds
      modifies this`selectedMicrophone
      ensures Valid()
      ensures selectedMicrophone == id
    {
      selectedMicrophone := id;
    }

    /** handleJoin up to the awaited delay. A blank name shows the error and
        leaves loading as it was; otherwise the error is cleared and loading
        goes on. */
    method HandleJoin() returns (started: bool)
      requires Valid() && !loading
      modifies this`error, this`loading
      ensures Valid()
      ensures started <==> NameError(guestName).None?
      ensures !started ==> error == NameRequiredError && !loading
      ensures started ==> error == "" && loading
    {
      var blank := NameError(guestName);
      if blank.Some? {
        error := blank.value;
        return false;
      }
      error := "";
      loading := true;
      started := true;
    }

    /** handleJoin after the delay: the call page of the studio named by the
        invite code, then loading is cleared in `finally`. */
    method ResumeJoin() returns (target: string)
      requires Valid() && loading
      modifies this`loading
      ensures Valid()
      ensures target == Routes.CallPath(inviteCode) && !loading && error == ""
    {
      target := Routes.CallPath(inviteCode);
      loading := false;
    }
  }

  /** A guest opens the invite link the dashboard or the lobby hands out for
      a studio, types `name` and presses join: the join page is built for the
      code the route reads out of the link, and once the delay is over the
      guest is on that studio's call page, unless the name is blank. */
  method JoinByInviteLink(origin: string, studioId: string, name: string) returns (target: Option<string>)
    requires Routes.IsSegment(studioId)
    ensures target.Some? <==> !IsBlank(name)
    ensures target.Some? ==> target.value == Routes.CallPath(studioId)
  {
    var code := Routes.InviteCodeOf(origin, Routes.InviteLink(origin, studioId));
    var page := new GuestJoinPage(code.value);
    page.guestName := name;
    var started := page.HandleJoin();
    if started {
      var path := page.ResumeJoin();
      target := Some(path);
    } else {
      target := None;
    }
  }
}
