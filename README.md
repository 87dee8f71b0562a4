# Streamside pages, modelled in Dafny

Streamside is a front-end mock-up of a video-recording studio: sign-up and
sign-in forms, account settings, a dashboard of studios, a recordings
library, a studio lobby, the call page and the guest join page. Every page
holds hard-coded data. The only logic is:

- the form validators;
- the list filters and the summary figures;
- the small state machines of the lobby and the call page.

This project models that logic and proves what the pages promise.

Layout:

- `text.dfy` (module `Text`) models the JavaScript string builtins the pages
  rely on:
  - `trim`, with the ECMAScript white-space and line-terminator set;
  - `length`, counted in UTF-16 code units;
  - `toLowerCase`;
  - `includes`;
  - `split(' ')` and `join`;
  - rendering a number as decimal text;
  - the "n participant(s)" label.
- `common.dfy` (module `Common`) holds `Option` and `Array.prototype.filter`.
  Filter is specified as an order-preserving subsequence that keeps an
  element iff the predicate accepts it.
- `routes.dfy` (module `Routes`) holds the application's paths. It also
  holds the invite link and how the studio id is read back out of a link
  of the exact form origin + "/join/" + segment.
- There is one module per page: `SignUp`, `SignIn`, `ProfileSettings`,
  `GuestJoin`, `Recordings`, `Dashboard`, `StudioCall` and `StudioLobby`.
  - A page whose handlers update `useState` fields is a class with those
    fields. Each handler is a method whose `modifies` clause names exactly
    the fields it sets.
  - Pages whose data never changes (dashboard, recordings) are functions of
    the list and the search text.

Modelling choices:

- **Async handlers.** Each handler that awaits the mock delay is two
  methods:
  - `Handle…` is the part that runs on the click. It requires `!loading`,
    because the buttons are disabled while loading.
  - `Resume…` is the continuation after the delay. It requires `loading`
    and clears it, as the `finally` blocks do.
  - The sign-in handler checks the email and password its closure captured
    at the click, so `HandleSubmit` returns that snapshot and `ResumeSubmit`
    takes it.
- **Browser calls are parameters.** The answers to `window.confirm` and
  `window.location.origin` are passed in.
- **Navigation is a result.** A navigation target is returned as a path,
  or as `Option<string>` when it may not happen.
- **Fixed data.** Values the page never changes, such as route parameters
  and the fixed participant list, are `const` fields.

The pages contain no session manager, invite-admission service,
participant roster or recording pipeline: recording is one boolean and
every list is a constant.

## Model

| member | source | states |
|---|---|---|
| Text.TrimStart | src/components/GuestJoinPage.tsx:43 | the result is a suffix of the input, what was dropped is all white space, and the result does not start with white space |
| Text.TrimEnd | src/components/GuestJoinPage.tsx:43 | the result is a prefix of the input, what was dropped is all white space, and the result does not end with white space |
| Text.Trim | src/components/GuestJoinPage.tsx:43 | `trim()` yields a slice of the input with only white space before and after it; the result is empty iff the input is all white space, and otherwise neither starts nor ends with white space |
| Text.TrimWitness | src/components/GuestJoinPage.tsx:43 | trimming the start and then the end cuts the input at a slice with only white space around it |
| Text.Utf16Length | src/app/auth/signup/page.tsx:33 | `length` counts UTF-16 code units: a single character counts two iff it lies outside the Basic Multilingual Plane, and the count lies between one and two units per character |
| Text.Utf16LengthAppend | src/app/auth/signup/page.tsx:33 | the code units of a concatenation are those of its parts, so with the single-character clause the count is one per BMP character plus two per other character |
| Text.Utf16LengthIsLength | src/app/auth/signup/page.tsx:33 | `length` equals the number of characters exactly when no character lies outside the Basic Multilingual Plane |
| Text.ToLower | src/components/RecordingsPage.tsx:96-97 | lower-casing keeps the length and maps each character on its own |
| Text.Includes | src/components/RecordingsPage.tsx:96-97 | `includes(q)`: q occurs at some position, so it is no longer than the string |
| Text.IncludesEmpty | src/components/RecordingsPage.tsx:96 | every string `includes` the empty string, which is why an empty search matches everything |
| Text.Split | src/components/ProfileSettings.tsx:139 | `split(' ')` yields at least one word, and no word contains the separator |
| Text.Join | src/components/ProfileSettings.tsx:139 | `join(sep)` of no words is empty; otherwise it starts with the first word and is as long as the words plus one separator per gap |
| Text.JoinSplit | src/components/ProfileSettings.tsx:139 | joining the words of `split(sep)` with `sep` gives back the original string |
| Text.NatToDecimal | src/components/RecordingsPage.tsx:273 | a non-negative number renders as a non-empty run of decimal digits with no leading zero ("0" for zero) |
| Text.IntToDecimal | src/components/RecordingsPage.tsx:273 | a number's text starts with '-' iff the number is negative, and the rest is the decimal text of its magnitude |
| Text.ParseNatToDecimal | src/components/RecordingsPage.tsx:273 | reading the rendered digits back gives the number (decimal rendering round-trips) |
| Text.ParseIntToDecimal | src/components/RecordingsPage.tsx:273 | the text of any integer has the integer shape and reads back as that integer |
| Text.CountLabel | src/components/RecordingsPage.tsx:273 | "n noun(s)": the number's text, a space, the noun, and a final 's' iff n is not 1, with nothing else |
| Common.CountWhere | src/components/RecordingsPage.tsx:170 | the number of accepted elements is at most the length |
| Common.Filter | src/components/RecordingsPage.tsx:94-102 | `filter` gives an order-preserving subsequence holding an element iff the input holds it and the predicate accepts it, and its length is the number of accepted elements |
| Common.FilterKeepsAll | src/components/Dashboard.tsx:60-63 | a predicate that accepts every element leaves the list unchanged |
| Common.CountWhereAgree | src/components/RecordingsPage.tsx:170 | two predicates that agree on every element count the same |
| Routes.LobbyPath | src/components/StudioCall.tsx:88 | the lobby path is "/studio/" followed by exactly the studio id |
| Routes.CallPath | src/components/StudioLobby.tsx:37 | the call path is the lobby path with "/call" added |
| Routes.PathsDistinct | src/App.tsx:22-23 | different studios have different lobby paths and different call paths, and the lobby of a one-segment studio id is never a call path |
| Routes.InviteCodeOf | src/App.tsx:25 | for a link of the exact form origin + "/join/" + code, the code read back is a segment the browser leaves unchanged (`IsSegment`) and the link is rebuilt from it |
| Routes.RewrittenIdsAreNotSegments | src/components/StudioLobby.tsx:28 | ids the browser would rewrite (a backslash, a dot segment, a tab or line feed, a trailing space, a percent escape) are excluded from the round trip, while ordinary ids, spaces inside included, are not |
| Routes.InviteLink | src/components/StudioLobby.tsx:28 | for a studio id the browser passes through unchanged (no control character, `/`, `\`, `?`, `#` or `%`, not "." or "..", no trailing space), the exact-form reading of the join route gives exactly that id back |
| SignUp.SubmitError | src/app/auth/signup/page.tsx:23-41 | the first failing check in the order fill, match, length, terms decides the message; success iff every check passes |
| SignUp.WhitespaceNameAccepted | src/app/auth/signup/page.tsx:23 | only emptiness is tested, so a name of spaces with a valid password and the terms accepted passes every check |
| SignUp.SignUpPage.constructor | src/app/auth/signup/page.tsx:11-17 | every field starts empty, terms unticked, no error, not loading |
| SignUp.SignUpPage.ToggleTerms | src/app/auth/signup/page.tsx:172 | flips the terms box and changes nothing else |
| SignUp.SignUpPage.HandleSubmit | src/app/auth/signup/page.tsx:19-43 | the old error is cleared; a failing check leaves the first failure's message and no loading; otherwise no error and loading is on |
| SignUp.SignUpPage.HandleGoogleSignUp | src/app/auth/signup/page.tsx:55-57 | clears the error and turns loading on, with no checks |
| SignUp.SignUpPage.ResumeAfterDelay | src/app/auth/signup/page.tsx:45-51 | after the delay the target is /dashboard and loading is off again |
| SignIn.SubmitOutcome | src/app/auth/signin/page.tsx:24-28 | the dashboard iff both captured fields are non-empty, otherwise the missing-credentials message |
| SignIn.SignInPage.constructor | src/app/auth/signin/page.tsx:11-14 | empty fields, no error, not loading |
| SignIn.SignInPage.HandleSubmit | src/app/auth/signin/page.tsx:16-19 | clears the error and turns loading on even for empty fields, capturing the fields as they are |
| SignIn.SignInPage.ResumeSubmit | src/app/auth/signin/page.tsx:21-33 | navigates to /dashboard iff both captured fields are non-empty, else shows the error; loading is off at the end |
| SignIn.SignInPage.HandleGoogleSignIn | src/app/auth/signin/page.tsx:36-38 | clears the error and turns loading on |
| SignIn.SignInPage.ResumeGoogleSignIn | src/app/auth/signin/page.tsx:40-47 | always /dashboard, and loading is off at the end |
| ProfileSettings.PasswordChangeError | src/components/ProfileSettings.tsx:40-53 | first failing check in the order fill, match, length; the current password is only checked for being non-empty |
| ProfileSettings.Initials | src/components/ProfileSettings.tsx:139 | the avatar text is exactly the characters that begin a space-separated word, in order |
| ProfileSettings.FirstChars | src/components/ProfileSettings.tsx:139 | `map(n => n[0])` keeps one entry per word, each the word's first character |
| ProfileSettings.InitialsAndTail | src/components/ProfileSettings.tsx:139 | the split/map/join of a string, and of all its words but the first, equals the reference definition of word starts |
| ProfileSettings.WordStartsShape | src/components/ProfileSettings.tsx:139 | the initials are no longer than the name and contain no space, so runs of spaces add nothing |
| ProfileSettings.ProfilePage.constructor | src/components/ProfileSettings.tsx:18-29 | the initial profile "John Doe" / "john.doe@example.com", empty password fields, no banner, no error |
| ProfileSettings.ProfilePage.SaveProfile | src/components/ProfileSettings.tsx:31-35 | the saved banner goes on and no other field changes |
| ProfileSettings.ProfilePage.ChangePassword | src/components/ProfileSettings.tsx:37-61 | on a failing check the message is shown and the fields and banner stay; on success the three fields are emptied, the banner shows and the error stays cleared |
| ProfileSettings.ProfilePage.DeleteAccount | src/components/ProfileSettings.tsx:63-76 | navigates to /auth/signin iff both confirmations are accepted; no state changes |
| GuestJoin.NameError | src/components/GuestJoinPage.tsx:43-46 | a name is refused iff it is all white space |
| GuestJoin.PreviewLabel | src/components/GuestJoinPage.tsx:95 | while the camera is on, the preview shows the name exactly as typed when it is non-empty, otherwise "Guest" |
| GuestJoin.BlankNameShownButRefused | src/components/GuestJoinPage.tsx:43-46 | a name of spaces is shown on the preview while the camera is on, yet refused on join |
| GuestJoin.JoinByInviteLink | src/components/GuestJoinPage.tsx:42-61 | a guest who opens a studio's invite link and joins with a non-blank name lands on that studio's call page; a blank name leaves them on the join page |
| GuestJoin.GuestJoinPage.constructor | src/components/GuestJoinPage.tsx:15-21 | empty name, both switches on, default devices, no error, not loading |
| GuestJoin.GuestJoinPage.ToggleAudio | src/components/GuestJoinPage.tsx:113 | flips only the audio switch |
| GuestJoin.GuestJoinPage.ToggleVideo | src/components/GuestJoinPage.tsx:122 | flips only the video switch |
| GuestJoin.GuestJoinPage.SelectCamera | src/components/GuestJoinPage.tsx:137 | sets only the camera, to an offered id |
| GuestJoin.GuestJoinPage.SelectMicrophone | src/components/GuestJoinPage.tsx:153 | sets only the microphone, to an offered id |
| GuestJoin.GuestJoinPage.HandleJoin | src/components/GuestJoinPage.tsx:42-49 | a blank name shows the error with loading unchanged; otherwise the error is cleared and loading goes on |
| GuestJoin.GuestJoinPage.ResumeJoin | src/components/GuestJoinPage.tsx:51-61 | the target is /studio/<inviteCode>/call, and loading is off at the end |
| Recordings.MatchesSearch | src/components/RecordingsPage.tsx:95-97 | an empty search matches every recording |
| Recordings.MatchesFilter | src/components/RecordingsPage.tsx:99 | "all" admits every recording; a status admits exactly the recordings with that status |
| Recordings.FilteredRecordings | src/components/RecordingsPage.tsx:94-102 | an order-preserving subsequence that keeps a recording iff its lower-cased title or studio name contains the lower-cased query and the status filter admits it, as many times as it occurs |
| Recordings.EmptySearchShowsAll | src/components/RecordingsPage.tsx:94-102 | an empty search with the filter on "all" lists every recording |
| Recordings.Statuses | src/components/RecordingsPage.tsx:33 | one status per recording, in order |
| Recordings.StatusCount | src/components/RecordingsPage.tsx:170-184 | the Completed and Processing cards show StatusCount, which is the number of recordings with that status and at most the total; it is defined for every status, Failed included |
| Recordings.StatusCountIsMultiplicity | src/components/RecordingsPage.tsx:170 | the filter-then-length count equals the status's multiplicity |
| Recordings.StatusCountsPartition | src/components/RecordingsPage.tsx:157-184 | the completed, processing and failed counts add up to the total |
| Recordings.MultiplicitiesPartition | src/components/RecordingsPage.tsx:33 | each recording has exactly one of the three statuses |
| Recordings.StatusFilterMatchesCard | src/components/RecordingsPage.tsx:99-102 | with no search, choosing a status lists as many rows as that status's card shows |
| Recordings.RowFor | src/components/RecordingsPage.tsx:104-113 | the badge names the status (lines 104-113); the label is the number's text, a space, "participant" and an 's' iff n is not 1, with nothing else (line 273); Play and Download are disabled iff the recording is not completed (lines 296 and 300) |
| Recordings.EmptyHint | src/components/RecordingsPage.tsx:317-324 | the empty state appears iff nothing is listed, with the "different search" hint iff a query is typed |
| Recordings.EmptyHintWithoutSearch | src/components/RecordingsPage.tsx:317-324 | with no search and no filter, the empty state appears only for an empty library and then suggests recording |
| Dashboard.MatchesSearch | src/components/Dashboard.tsx:60-63 | an empty search matches every studio |
| Dashboard.FilteredStudios | src/components/Dashboard.tsx:60-63 | an order-preserving subsequence that keeps a studio iff its lower-cased name or description contains the lower-cased query, as many times as it occurs |
| Dashboard.EmptySearchKeepsAll | src/components/Dashboard.tsx:60-63 | an empty search keeps every studio |
| Dashboard.Statuses | src/components/Dashboard.tsx:24 | one status per studio, in order |
| Dashboard.ActiveCount | src/components/Dashboard.tsx:157 | "active now" counts exactly the active studios and is at most the total rooms |
| Dashboard.ActiveCountIsMultiplicity | src/components/Dashboard.tsx:157 | the filter-then-length count equals the multiplicity of the active status |
| Dashboard.ActiveAndIdlePartition | src/components/Dashboard.tsx:155-157 | active and idle studios together make up the total rooms |
| Dashboard.ReduceRecordings | src/components/Dashboard.tsx:169 | the `reduce` left fold from an accumulator equals the accumulator plus the sum of the counts |
| Dashboard.RecordedMeetings | src/components/Dashboard.tsx:169 | the figure, folded from 0, is the sum of every studio's recording count |
| Dashboard.RecordedMeetingsBounds | src/components/Dashboard.tsx:169 | with no negative counts the figure is never negative and at least any one studio's count |
| Dashboard.CardFor | src/components/Dashboard.tsx:200-260 | Live badge iff active; Open and Enter go to the studio lobby; Settings to its settings page; the copied link is origin + "/join/" + id, from which the join route reads the id back |
| Dashboard.EmptyStateFor | src/components/Dashboard.tsx:271-284 | the empty state appears iff nothing is listed; the "different search" hint and the absence of the Create button iff a query is typed |
| Dashboard.CreateButtonOnlyWithoutStudios | src/components/Dashboard.tsx:271-284 | with no search typed, the Create button appears exactly when there are no studios |
| Dashboard.InitialSummary | src/components/Dashboard.tsx:30-58 | the fixed list gives three rooms, one active, 65 recordings |
| StudioCall.Layout | src/components/StudioCall.tsx:150-155 | for 1–6 participants, the smallest grid that fits them; more than six get 3×2; an empty call falls into the 2×2 branch |
| StudioCall.LayoutMonotone | src/components/StudioCall.tsx:150-155 | from one participant up, adding participants never picks a smaller grid |
| StudioCall.TileFor | src/components/StudioCall.tsx:161-197 | video placeholder iff that participant's video is on; mic-off and video-off badges iff the participant's own flag is off; "You" iff local |
| StudioCall.VideoOrBadge | src/components/StudioCall.tsx:161-197 | a tile shows either the video placeholder or the video-off badge, never both |
| StudioCall.Tiles | src/components/StudioCall.tsx:156 | one tile per participant, in order |
| StudioCall.InitialGrid | src/components/StudioCall.tsx:46-71 | the fixed three participants get a 2×2 grid and only Mike Chen's tile is video-off |
| StudioCall.StudioCallPage.constructor | src/components/StudioCall.tsx:40-46 | both switches on, not recording, panel closed, the fixed participant list |
| StudioCall.StudioCallPage.StartRecording | src/components/StudioCall.tsx:73-76 | recording goes on; no other field changes |
| StudioCall.StudioCallPage.StopRecording | src/components/StudioCall.tsx:78-81 | recording goes off; no other field changes |
| StudioCall.StudioCallPage.LeaveCall | src/components/StudioCall.tsx:83-89 | the dialog is shown iff recording; no navigation iff recording and declined; otherwise the lobby /studio/<id>; state never changes |
| StudioCall.StudioCallPage.ToggleParticipants | src/components/StudioCall.tsx:114 | flips only the panel flag |
| StudioCall.StudioCallPage.ToggleAudio | src/components/StudioCall.tsx:264 | flips only the audio switch; the participant list is a constant |
| StudioCall.StudioCallPage.ToggleVideo | src/components/StudioCall.tsx:273 | flips only the video switch |
| StudioCall.StudioCallPage.View | src/components/StudioCall.tsx:286-306 | the red dot and the Stop button iff recording, else Record; grid and tiles follow the participant list alone (the red dot is at line 103) |
| StudioLobby.InfoFor | src/components/StudioLobby.tsx:211-217 | the text is the number's text, a space, "participant", an 's' iff n is not 1, then " in call", and nothing else; Live badge iff n is positive |
| StudioLobby.MockStudioInfo | src/components/StudioLobby.tsx:22-26 | the mock studio reads "2 participants in call" with the Live badge |
| StudioLobby.StudioLobbyPage.constructor | src/components/StudioLobby.tsx:14-19 | both switches on, all three devices "default", not copied |
| StudioLobby.StudioLobbyPage.ToggleAudio | src/components/StudioLobby.tsx:114 | flips only the audio switch |
| StudioLobby.StudioLobbyPage.ToggleVideo | src/components/StudioLobby.tsx:123 | flips only the video switch |
| StudioLobby.StudioLobbyPage.SelectCamera | src/components/StudioLobby.tsx:142 | sets only the camera, to an offered id |
| StudioLobby.StudioLobbyPage.SelectMicrophone | src/components/StudioLobby.tsx:158 | sets only the microphone, to an offered id |
| StudioLobby.StudioLobbyPage.SelectSpeaker | src/components/StudioLobby.tsx:174 | sets only the speaker, to an offered id |
| StudioLobby.StudioLobbyPage.CopyLink | src/components/StudioLobby.tsx:28-34 | the clipboard gets origin + "/join/" + studioId, from which the join route reads the id back; the copied mark goes on |
| StudioLobby.StudioLobbyPage.JoinCall | src/components/StudioLobby.tsx:36-38 | the target is /studio/<id>/call, under the lobby's own path; no state changes |

## Left out

- Routes.InviteLink, GuestJoin.JoinByInviteLink, Dashboard.CardFor, StudioLobby.StudioLobbyPage.CopyLink: the browser's URL parser is not modelled. The round trip from id to link and back goes through the exact-form reading of `Routes.InviteCodeOf`. `Routes.IsSegment` stands in for "the parser leaves this id unchanged": it excludes control characters, `/`, `\`, `?`, `#`, `%`, the dot segments "." and "..", and a trailing space. Ids outside it, which the lobby can receive through `useParams`, have no promise.
- SignUp.SignUpPage.HandleSubmit, SignIn.SignInPage.HandleSubmit: the browser's own form validation is not modelled. The inputs carry `required` and `type="email"` and the forms do not set `noValidate`, so the browser refuses to submit an empty field or a malformed address. The `Handle…` methods accept any field values, including ones the browser would not submit, and so the "fill in all fields" and missing-credentials branches are reachable in the model but not from the page.
- Timers are not modelled: the one-second mock delays and the resets of `saved` and `copied`. Each handler's continuation is a separate `Resume…` method, and the state is modelled as it stands when a handler has finished.
- The `catch` branches of the async handlers are not modelled. The only awaited promise is a timer, which never rejects, so those messages cannot appear.
- `navigator.clipboard`, `window.confirm` and `window.location.origin` are not modelled. The clipboard text is a method result, and the dialog answers and the origin are parameters.
- Text.ToLower: lowers ASCII A–Z only. Full Unicode case mapping is not modelled.
- ProfileSettings.FirstChars: takes each word's first character, not its first UTF-16 code unit. For a word starting outside the Basic Multilingual Plane the page shows a lone high surrogate, which a Dafny `char` cannot hold.
- Routes.InviteCodeOf: reads only links of the exact form origin + "/join/" + segment. The router also matches a trailing slash and an upper-case "/JOIN/", and percent-decodes the segment; for those links the model gives None or the segment as written.
- Text inputs' `onChange` setters are not modelled as methods. A field's value is whatever was typed.
- Counts are unbounded integers, not JavaScript numbers. No list here comes near the 2^53 limit.
- `handleCreateStudio` on the dashboard is not modelled. It navigates to a random id.
- The dashboard's "Sign Out" menu item is not modelled. It is a fixed link.
- The dashboard's `toLocaleDateString` is not modelled. It formats the date for the locale.
- The call page's `recordingDuration` is not modelled. Its setter is never called.
- The settings, chat and screen-share buttons on the call page are not modelled. They have no handlers.
- The studio settings page, the landing pages, the theme toggle, the root layout and the router table are not part of this model.
- JSX markup, styling and icons are not modelled. Only the choice of branch is.
- The `/dashboard` route renders an `ImprovedDashboard` component that is not part of this model. `src/components/Dashboard.tsx` is modelled as written.
- The select pickers can only emit the ids they list. So `Select…` requires an offered id, and each page's `Valid()` keeps every selection among the offered ids.
