/** The account settings page: saving the profile, changing the password
    through an ordered chain of checks, deleting the account behind two
    confirmations, and the avatar initials derived from the full name. */
module ProfileSettings {
  import opened Common
  import opened Text
  import Routes

  const PasswordFieldsError := "Please fill in all password fields"
  const NewPasswordMismatchError := "New passwords do not match"
  const PasswordTooShortError := "Password must be at least 8 characters long"
  const MinPasswordLength := 8

  /** The message of the first check of the password form that fails, in the
      order fill, match, length; None when all pass. The current password is
      only checked for being non-empty. */
  function PasswordChangeError(currentPassword: string, newPassword: string,
                               confirmPassword: string): (r: Option<string>)
    ensures r == Some(PasswordFieldsError) <==>
      currentPassword == "" || newPassword == "" || confirmPassword == ""
    ensures r == Some(NewPasswordMismatchError) <==>
      currentPassword != "" && newPassword != "" && confirmPassword != "" && newPassword != confirmPassword
    ensures r == Some(PasswordTooShortError) <==>
      currentPassword != "" && newPassword != "" && newPassword == confirmPassword &&
      Utf16Length(newPassword) < MinPasswordLength
    ensures r == None <==>
      currentPassword != "" && newPassword == confirmPassword &&
      Utf16Length(newPassword) >= MinPasswordLength
  {
    if currentPassword == "" || newPassword == "" || confirmPassword == "" then Some(PasswordFieldsError)
    else if newPassword != confirmPassword then Some(NewPasswordMismatchError)
    else if Utf16Length(newPassword) < MinPasswordLength then Some(PasswordTooShortError)
    else None
  }

  /** `n[0]` for one word; on the empty word it is undefined, which `join`
      renders as the empty string. */
  function FirstChar(word: string): string
  {
    if word == [] then [] else [word[0]]
  }

  /** `.map(n => n[0])` over the words. */
  function FirstChars(words: seq<string>): (r: seq<string>)
    ensures |r| == |words|
    ensures forall i :: 0 <= i < |words| ==> r[i] == FirstChar(words[i])
  {
    if words == [] then [] else [FirstChar(words[0])] + FirstChars(words[1..])
  }

  /** The avatar text `fullName.split(' ').map(n => n[0]).join('')`: the
      characters that begin a word, in order. */
  function Initials(fullName: string): (r: string)
    ensures r == WordStarts(fullName, true)
  {
    InitialsAndTail(fullName);
    Join(FirstChars(Split(fullName, ' ')), "")
  }

  /** The characters of `s` that begin a word: those that are not a space and
      stand first (when `atStart`) or right after a space. */
  function WordStarts(s: string, atStart: bool): string
  {
    if s == [] then []
    else (if s[0] != ' ' && atStart then [s[0]] else []) + WordStarts(s[1..], s[0] == ' ')
  }

  lemma JoinEmptyCons(w: string, rest: seq<string>)
    ensures Join([w] + rest, "") == w + Join(rest, "")
  {
    if rest != [] {
      assert ([w] + rest)[1..] == rest;
    }
  }

  lemma FirstCharsCons(w: string, rest: seq<string>)
    ensures FirstChars([w] + rest) == [FirstChar(w)] + FirstChars(rest)
  {
  }

  /** The initials of `s`, and those of all its words but the first. */
  lemma {:induction false} InitialsAndTail(s: string)
    ensures Join(FirstChars(Split(s, ' ')), "") == WordStarts(s, true)
    ensures Join(FirstChars(Split(s, ' ')[1..]), "") == WordStarts(s, false)
  {
    if s != [] {
      var rest := Split(s[1..], ' ');
      InitialsAndTail(s[1..]);
      if s[0] == ' ' {
        assert Split(s, ' ') == [[]] + rest;
        assert ([[]] + rest)[1..] == rest;
        FirstCharsCons([], rest);
        JoinEmptyCons([], FirstChars(rest));
      } else {
        var words := Split(s, ' ');
        assert words == [[s[0]] + rest[0]] + rest[1..];
        assert words[1..] == rest[1..];
        FirstCharsCons([s[0]] + rest[0], rest[1..]);
        JoinEmptyCons([s[0]], FirstChars(rest[1..]));
      }
    }
  }

  /** The word starts of a string are among its non-space characters: there
      are no more of them than characters, and none is a space, so runs of
      spaces, and leading or trailing spaces, add nothing. */
  lemma {:induction false} WordStartsShape(s: string, atStart: bool)
    ensures |WordStarts(s, atStart)| <= |s|
    ensures ' ' !in WordStarts(s, atStart)
  {
    if s != [] {
      WordStartsShape(s[1..], s[0] == ' ');
    }
  }

  class ProfilePage {
    var fullName: string
    var email: string
    var bio: string
    var currentPassword: string
    var newPassword: string
    var confirmPassword: string
    var saved: bool
    var error: string

    constructor ()
      ensures fullName == "John Doe" && email == "john.doe@example.com" && bio == ""
      ensures currentPassword == "" && newPassword == "" && confirmPassword == ""
      ensures !saved && error == ""
    {
      fullName, email, bio := "John Doe", "john.doe@example.com", "";
      currentPassword, newPassword, confirmPassword := "", "", "";
      saved, error := false, "";
    }

    /** handleSaveProfile: shows the saved banner and changes nothing else. */
    method SaveProfile()
      modifies this`saved
      ensures saved
    {
      saved := true;
    }

    /** handleChangePassword: clears the error, then on the first failing
        check shows its message and leaves the password fields and the
        banner as they were; when all pass, empties the three fields and
        shows the saved banner. */
    method ChangePassword()
      modifies this`error, this`currentPassword, this`newPassword, this`confirmPassword, this`saved
      ensures var e := PasswordChangeError(old(currentPassword), old(newPassword), old(confirmPassword));
        e.Some? ==>
          error == e.value && saved == old(saved) &&
          currentPassword == old(currentPassword) && newPassword == old(newPassword) &&
          confirmPassword == old(confirmPassword)
      ensures var e := PasswordChangeError(old(currentPassword), old(newPassword), old(confirmPassword));
        e.None? ==>
          error == "" && saved &&
          currentPassword == "" && newPassword == "" && confirmPassword == ""
    {
      error := "";
      if currentPassword == "" || newPassword == "" || confirmPassword == "" {
        error := PasswordFieldsError;
        return;
      }
      if newPassword != confirmPassword {
        error := NewPasswordMismatchError;
        return;
      }
      if Utf16Length(newPassword) < MinPasswordLength {
        error := PasswordTooShortError;
        return;
      }
      currentPassword := "";
      newPassword := "";
      confirmPassword := "";
      saved := true;
    }

    /** handleDeleteAccount. `firstAnswer` and `secondAnswer` are what the
        user answers to the two confirmation dialogs (the second is only
        shown after a yes to the first). The sign-in page is the target iff
        both answers are yes; no state changes. */
    method DeleteAccount(firstAnswer: bool, secondAnswer: bool) returns (target: Option<string>)
      ensures target.Some? <==> firstAnswer && secondAnswer
      ensures target.Some? ==> target.value == Routes.SignInPath
    {
      target := None;
      if firstAnswer {
        if secondAnswer {
          target := Some(Routes.SignInPath);
        }
      }
    }
  }
}
