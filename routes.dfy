/** The application's paths (/dashboard, /auth/signin, /studio/:studioId,
    /studio/:studioId/call, /join/:inviteCode) and the invite link the
    dashboard and the lobby hand out. */
module Routes {
  import opened Common

  const DashboardPath := "/dashboard"
  const SignInPath := "/auth/signin"

  const StudioPrefix := "/studio/"

  /** The lobby of a studio, `/studio/${studioId}`: the studio id is what
      follows the prefix, so different studios have different lobbies. */
  function LobbyPath(studioId: string): (path: string)
    ensures |path| == |StudioPrefix| + |studioId|
    ensures path[..|StudioPrefix|] == StudioPrefix && path[|StudioPrefix|..] == studioId
  {
    StudioPrefix + studioId
  }

  /** The call page of a studio, `/studio/${studioId}/call`: the lobby's path
      with "/call" added. */
  function CallPath(studioId: string): (path: string)
    ensures path == LobbyPath(studioId) + "/call"
    ensures path[..|StudioPrefix|] == StudioPrefix
  {
    StudioPrefix + studioId + "/call"
  }

  /** Each studio has its own lobby and its own call page, and the lobby of
      a one-segment studio id is never a call page's path. */
  lemma {:induction false} PathsDistinct(a: string, b: string)
    ensures LobbyPath(a) == LobbyPath(b) ==> a == b
    ensures CallPath(a) == CallPath(b) ==> a == b
    ensures IsSegment(a) ==> LobbyPath(a) != CallPath(b)
  {
    if CallPath(a) == CallPath(b) {
      assert LobbyPath(a) == CallPath(a)[..|CallPath(a)| - 5];
      assert LobbyPath(b) == CallPath(b)[..|CallPath(b)| - 5];
    }
    if IsSegment(a) && |a| == |b| + |"/call"| {
      assert CallPath(b)[|StudioPrefix| + |b|] == '/';
      assert LobbyPath(a)[|StudioPrefix| + |b|] == a[|b|];
    }
  }

  /** A character a studio id may hold if the link is to reach the join
      route unchanged: not a control character (the URL parser drops tab,
      line feed and carriage return anywhere and strips the others from the
      end of a link), not a path or
      query delimiter ('/', '\\', '?', '#'), and not '%', which `useParams`
      would decode. */
  predicate SegmentChar(c: char)
  {
    c >= ' ' && c != '/' && c != '\\' && c != '?' && c != '#' && c != '%'
  }

  /** A value that, as the last path segment of a link, reaches the router's
      `:param` exactly as written: non-empty, not a dot segment the URL
      parser resolves away, made of segment characters, and not ending in a
      space, which the parser strips from the end of the link. */
  predicate IsSegment(s: string)
  {
    s != [] && s != "." && s != ".." &&
    (forall i :: 0 <= i < |s| ==> SegmentChar(s[i])) &&
    s[|s| - 1] != ' '
  }

  /** Ids the browser rewrites before the route sees them are not segments. */
  lemma RewrittenIdsAreNotSegments()
    ensures !IsSegment("a\\b") && !IsSegment(".") && !IsSegment("..")
    ensures !IsSegment("a\tb") && !IsSegment("a\nb") && !IsSegment("ab ") && !IsSegment("%41")
    ensures IsSegment("1") && IsSegment("a b")
  {
    assert "a\\b"[1] == '\\';
    assert "a\tb"[1] == '\t';
    assert "a\nb"[1] == '\n';
    assert "%41"[0] == '%';
  }

  /** The invite code read out of a link of the exact form
      origin + "/join/" + segment, the form the pages hand out; any other
      link gives None. */
  function InviteCodeOf(origin: string, link: string): (code: Option<string>)
    ensures code.Some? ==> IsSegment(code.value) && link == origin + "/join/" + code.value
  {
    var prefix := origin + "/join/";
    if |prefix| <= |link| && link[..|prefix|] == prefix && IsSegment(link[|prefix|..]) then
      assert link == link[..|prefix|] + link[|prefix|..];
      Some(link[|prefix|..])
    else
      None
  }

  /** `${window.location.origin}/join/${studioId}`. For an id the browser
      passes through unchanged, the exact-form reading of the join route
      gives the studio id back as the invite code. */
  function InviteLink(origin: string, studioId: string): (link: string)
    ensures IsSegment(studioId) ==> InviteCodeOf(origin, link) == Some(studioId)
  {
    var link := origin + "/join/" + studioId;
    assert link[..|origin + "/join/"|] == origin + "/join/";
    assert link[|origin + "/join/"|..] == studioId;
    link
  }
}
