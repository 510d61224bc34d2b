/** The profile screen (client/screens/ProfileScreen.tsx): the avatar and
    identity rows derived from the session, and the change-password modal
    with its three fields, their visibility flags, the validation order and
    the busy flag kept around the backend call. */
module Profile {
  import opened Types
  import Api
  import Strings

  /** `user.avatar` as an image address: none without an avatar, the avatar
      itself when it is already an `https` address, otherwise resolved
      against the API base (ProfileScreen.tsx:36-39). */
  function AvatarUrl(avatar: Option<string>, baseUrl: string): (r: Option<string>)
    ensures r.Some? <==> Truthy(avatar)
    ensures Truthy(avatar) && Strings.StartsWith(avatar.value, "https") ==> r == avatar
    ensures Truthy(avatar) && !Strings.StartsWith(avatar.value, "https") ==> r == Some(baseUrl + avatar.value)
    // the stored path is always the tail of the address shown
    ensures r.Some? ==> |avatar.value| <= |r.value| && r.value[|r.value| - |avatar.value|..] == avatar.value
  {
    if !Truthy(avatar) then None
    else if Strings.StartsWith(avatar.value, "https") then avatar
    else Some(baseUrl + avatar.value)
  }

  /** An information row's value: the text, or `Not set` when it is missing
      or empty (ProfileScreen.tsx:208). */
  function InfoValue(v: Option<string>): (s: string)
    ensures s != ""
    ensures Truthy(v) ==> s == v.value
    ensures !Truthy(v) ==> s == "Not set"
  {
    if Truthy(v) then v.value else "Not set"
  }

  datatype InfoRow = InfoRow(caption: string, value: string)

  /** The identifier row: the employee id for a driver, the student id for
      everybody else, a missing profile shown as `Not set`
      (ProfileScreen.tsx:32, 142). */
  function IdRow(user: Option<User>, student: Option<Student>, driver: Option<Driver>): (row: InfoRow)
    ensures var isDriver := user.Some? && user.value.role == DriverRole;
      && (row.caption == "Employee ID" <==> isDriver)
      && (row.caption == "Student ID" <==> !isDriver)
      && (isDriver ==> row.value == InfoValue(if driver.Some? then Some(driver.value.employeeId) else None))
      && (!isDriver ==> row.value == InfoValue(if student.Some? then Some(student.value.studentId) else None))
  {
    var isDriver := user.Some? && user.value.role == DriverRole;
    if isDriver
    then InfoRow("Employee ID", InfoValue(if driver.Some? then Some(driver.value.employeeId) else None))
    else InfoRow("Student ID", InfoValue(if student.Some? then Some(student.value.studentId) else None))
  }

  datatype PasswordField = CurrentField | NewField | ConfirmField

  datatype Passwords = Passwords(current: string, newPassword: string, confirm: string)

  const EmptyPasswords := Passwords("", "", "")

  function Entered(p: Passwords, f: PasswordField): string {
    match f
    case CurrentField => p.current
    case NewField => p.newPassword
    case ConfirmField => p.confirm
  }

  /** `{...p, [f]: text}` */
  function WithEntry(p: Passwords, f: PasswordField, text: string): (r: Passwords)
    ensures Entered(r, f) == text
    ensures forall g :: g != f ==> Entered(r, g) == Entered(p, g)
  {
    match f
    case CurrentField => p.(current := text)
    case NewField => p.(newPassword := text)
    case ConfirmField => p.(confirm := text)
  }

  datatype Visibility = Visibility(current: bool, newPassword: bool, confirm: bool)

  const AllHidden := Visibility(false, false, false)

  function Shown(v: Visibility, f: PasswordField): bool {
    match f
    case CurrentField => v.current
    case NewField => v.newPassword
    case ConfirmField => v.confirm
  }

  /** `{...prev, [f]: !prev[f]}`: flips flag `f` and no other. */
  function Toggled(v: Visibility, f: PasswordField): (r: Visibility)
    ensures Shown(r, f) == !Shown(v, f)
    ensures forall g :: g != f ==> Shown(r, g) == Shown(v, g)
  {
    match f
    case CurrentField => v.(current := !v.current)
    case NewField => v.(newPassword := !v.newPassword)
    case ConfirmField => v.(confirm := !v.confirm)
  }

  /** Toggling the same field twice gives back the record itself. */
  lemma ToggleTwice(v: Visibility, f: PasswordField)
    ensures Toggled(Toggled(v, f), f) == v
  {
  }

  /** The verdict of the change-password checks. */
  datatype PasswordCheck = MissingDetails | TooShort | Mismatch | Accepted

  const MinPasswordLength := 6

  /** The checks of handleChangePassword in their order
      (ProfileScreen.tsx:64-66): a missing field first, then the length of
      the new password in UTF-16 code units, then its confirmation. */
  function ValidatePasswords(p: Passwords): (c: PasswordCheck)
    ensures c == MissingDetails <==> (p.current == "" || p.newPassword == "" || p.confirm == "")
    ensures c == TooShort <==>
      (p.current != "" && p.newPassword != "" && p.confirm != "" && Strings.Utf16Length(p.newPassword) < MinPasswordLength)
    ensures c == Mismatch <==>
      (p.current != "" && p.newPassword != "" && p.confirm != "" && Strings.Utf16Length(p.newPassword) >= MinPasswordLength
       && p.newPassword != p.confirm)
    ensures c == Accepted <==>
      (p.current != "" && Strings.Utf16Length(p.newPassword) >= MinPasswordLength && p.newPassword == p.confirm)
  {
    if p.current == "" || p.newPassword == "" || p.confirm == "" then MissingDetails
    else if Strings.Utf16Length(p.newPassword) < MinPasswordLength then TooShort
    else if p.newPassword != p.confirm then Mismatch
    else Accepted
  }

  /** The translation key each rejection shows. */
  function CheckMessage(c: PasswordCheck): (m: Message)
    requires c != Accepted
    ensures m.Key?
  {
    match c
    case MissingDetails => Key("password_error_details")
    case TooShort => Key("password_error_length")
    case Mismatch => Key("password_error_not_match")
  }

  /** A password of six code units passes the length check; one of five
      does not. Without characters above U+FFFF that is six characters. */
  lemma LengthBoundary(current: string, pw: string)
    requires current != ""
    ensures Strings.Utf16Length(pw) == MinPasswordLength ==> ValidatePasswords(Passwords(current, pw, pw)) == Accepted
    ensures pw != "" && Strings.Utf16Length(pw) < MinPasswordLength ==> ValidatePasswords(Passwords(current, pw, pw)) == TooShort
    ensures (forall i :: 0 <= i < |pw| ==> !Strings.IsAstral(pw[i])) ==>
      (ValidatePasswords(Passwords(current, pw, pw)) == Accepted <==> |pw| >= MinPasswordLength)
  {
    if forall i :: 0 <= i < |pw| ==> !Strings.IsAstral(pw[i]) {
      Strings.Utf16LengthBmp(pw);
    }
  }

  /** Five characters, one of them an emoji, are six code units: accepted,
      as `length` counts them. */
  lemma EmojiCountsTwice()
    ensures ValidatePasswords(Passwords("old", "abcd\U{1F600}", "abcd\U{1F600}")) == Accepted
  {
    var pw := "abcd\U{1F600}";
    assert pw == "abcd" + "\U{1F600}";
    Strings.Utf16LengthBmp("abcd");
    Strings.Utf16LengthAstral("\U{1F600}");
    Strings.Utf16LengthConcat("abcd", "\U{1F600}");
  }

  class PasswordForm {
    var showModal: bool
    var passwords: Passwords
    var visibility: Visibility
    var isChanging: bool
    /** The error shown in the modal; `Literal("")` shows none. */
    var error: Message

    constructor ()
      ensures !showModal && passwords == EmptyPasswords && visibility == AllHidden
      ensures !isChanging && error == Literal("")
    {
      showModal := false;
      passwords := EmptyPasswords;
      visibility := AllHidden;
      isChanging := false;
      error := Literal("");
    }

    /** The "change password" menu row (ProfileScreen.tsx:154). */
    method OpenPasswordModal()
      modifies this`showModal
      ensures showModal
    {
      showModal := true;
    }

    /** Typing into one field (ProfileScreen.tsx:95). */
    method EnterText(f: PasswordField, text: string)
      modifies this`passwords
      ensures passwords == WithEntry(old(passwords), f, text)
    {
      passwords := WithEntry(passwords, f, text);
    }

    /** toggleVisibility (ProfileScreen.tsx:49-52) */
    method ToggleVisibility(f: PasswordField)
      modifies this`visibility
      ensures visibility == Toggled(old(visibility), f)
    {
      visibility := Toggled(visibility, f);
    }

    /** closePasswordModal (ProfileScreen.tsx:54-58): hides the modal and
        clears the fields and the error; the visibility flags are kept. */
    method ClosePasswordModal()
      modifies this`showModal, this`passwords, this`error
      ensures !showModal && passwords == EmptyPasswords && error == Literal("")
    {
      showModal := false;
      passwords := EmptyPasswords;
      error := Literal("");
    }

    /** handleChangePassword up to the backend call (ProfileScreen.tsx:60-70):
        without a token nothing happens; a failed check shows its message;
        otherwise the form turns busy and the request is returned. The old
        error stays until the call settles. */
    method BeginChangePassword(token: Option<string>) returns (pending: Option<Api.Request>)
      modifies this`error, this`isChanging
      ensures var c := ValidatePasswords(passwords);
        && passwords == old(passwords)
        && (pending.Some? <==> Truthy(token) && c == Accepted)
        && (!Truthy(token) ==> error == old(error) && isChanging == old(isChanging))
        && (Truthy(token) && c != Accepted ==> error == CheckMessage(c) && isChanging == old(isChanging))
        && (Truthy(token) && c == Accepted ==>
              && pending == Some(Api.ChangePasswordRequest(token.value, passwords.current, passwords.newPassword))
              && isChanging && error == old(error))
    {
      pending := None;
      if !Truthy(token) {
        return;
      }
      var c := ValidatePasswords(passwords);
      if c != Accepted {
        error := CheckMessage(c);
        return;
      }
      isChanging := true;
      pending := Some(Api.ChangePasswordRequest(token.value, passwords.current, passwords.newPassword));
    }

    /** The rest of handleChangePassword once `changePassword` settles with
        `result` (ProfileScreen.tsx:70-79): success closes and clears the
        modal, failure shows the message or the fallback key and keeps the
        fields; the form is no longer busy either way. */
    method FinishChangePassword(result: Result<()>)
      modifies this`showModal, this`passwords, this`error, this`isChanging
      ensures !isChanging
      ensures result.Value? ==> !showModal && passwords == EmptyPasswords && error == Literal("")
      ensures result.Error? ==> (
        && showModal == old(showModal) && passwords == old(passwords)
        && error == ThrownOr(result.message, "password_change_failed"))
    {
      if result.Value? {
        ClosePasswordModal();
      } else {
        error := ThrownOr(result.message, "password_change_failed");
      }
      isChanging := false;
    }
  }
}
