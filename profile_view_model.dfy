/**
 * `ProfileViewModel`: the profile state shown in the side menu, its
 * transitions when the profile is fetched, and the guards in front of
 * renaming and uploading a profile picture.
 */
module ProfileViewModel {
  import opened Wrappers
  import opened Text

  /** `ProfileUiState` with its defaults. */
  datatype ProfileUiState = ProfileUiState(email: string, name: string, isLoggedIn: bool, photoUrl: Option<string>)

  const SignedOut: ProfileUiState := ProfileUiState("Not logged in", "Guest", false, None)

  /** The signed-in user as the authentication client reports it. */
  datatype User = User(uid: string, email: Option<string>)

  /** The fetched user document's `name` and `photoUrl`, either possibly absent. */
  datatype ProfileDocument = ProfileDocument(name: Option<string>, photoUrl: Option<string>)

  const NoEmail: string := "No Email"
  const NoName: string := "No Name Set"
  const NameUnavailable: string := "Could not load name"

  /** The success listener: email, name and photo from the user and the document. */
  function FetchSucceeded(s: ProfileUiState, user: User, doc: ProfileDocument): (r: ProfileUiState)
    ensures r.isLoggedIn
    ensures r.email == user.email.GetOr(NoEmail)
    ensures r.name == doc.name.GetOr(NoName)
    ensures r.photoUrl == doc.photoUrl
  {
    s.(email := user.email.GetOr(NoEmail), name := doc.name.GetOr(NoName), isLoggedIn := true,
       photoUrl := doc.photoUrl)
  }

  /** The failure listener: email set, name replaced by a notice, photo kept. */
  function FetchFailed(s: ProfileUiState, user: User): (r: ProfileUiState)
    ensures r.isLoggedIn
    ensures r.email == user.email.GetOr(NoEmail)
    ensures r.name == NameUnavailable
    ensures r.photoUrl == s.photoUrl
  {
    s.(email := user.email.GetOr(NoEmail), name := NameUnavailable, isLoggedIn := true)
  }

  /** A success overrides whatever came before it; it depends on the user and document only. */
  lemma FetchSucceededForgetsPast(s: ProfileUiState, t: ProfileUiState, user: User, doc: ProfileDocument)
    ensures FetchSucceeded(s, user, doc) == FetchSucceeded(t, user, doc)
    ensures FetchSucceeded(s, user, doc) != SignedOut
  {
  }

  /** A failure after a success keeps the photo the success loaded. */
  lemma FailureAfterSuccessKeepsPhoto(s: ProfileUiState, user: User, doc: ProfileDocument)
    ensures FetchFailed(FetchSucceeded(s, user, doc), user).photoUrl == doc.photoUrl
    ensures FetchFailed(FetchSucceeded(s, user, doc), user).email == FetchSucceeded(s, user, doc).email
  {
  }

  /** The Firestore write `updateUserName` issues: the user's document and the new name. */
  datatype NameWrite = NameWrite(uid: string, name: string)

  /** The storage object key of an uploaded profile picture. */
  function ProfilePictureKey(uid: string, uuid: string): (key: string)
    ensures StartsWith(key, "profile_pics/" + uid + "/")
    ensures |key| == |"profile_pics/"| + |uid| + 1 + |uuid| + |".jpg"|
    ensures key[|key| - 4..] == ".jpg"
  {
    "profile_pics/" + uid + "/" + uuid + ".jpg"
  }

  /** The index of the first '/' in `s`, or `|s|` when there is none. */
  function FirstSlash(s: string): (n: nat)
    ensures n <= |s|
    ensures '/' !in s[..n]
    ensures n < |s| ==> s[n] == '/'
  {
    if s == [] || s[0] == '/' then 0 else 1 + FirstSlash(s[1..])
  }

  /** A segment without '/' followed by '/' ends exactly at the first slash. */
  lemma {:induction false} SlashAfter(u: string, rest: string)
    requires '/' !in u
    ensures FirstSlash(u + "/" + rest) == |u|
  {
    if u != [] {
      assert (u + "/" + rest)[1..] == u[1..] + "/" + rest;
      SlashAfter(u[1..], rest);
    }
  }

  /** Distinct users get distinct keys when user ids contain no '/'. */
  lemma ProfilePictureKeyInjective(uid1: string, uuid1: string, uid2: string, uuid2: string)
    requires '/' !in uid1 && '/' !in uid2
    requires ProfilePictureKey(uid1, uuid1) == ProfilePictureKey(uid2, uuid2)
    ensures uid1 == uid2 && uuid1 == uuid2
  {
    var a, b := uid1 + "/" + uuid1 + ".jpg", uid2 + "/" + uuid2 + ".jpg";
    assert a == ProfilePictureKey(uid1, uuid1)[13..];
    assert b == ProfilePictureKey(uid2, uuid2)[13..];
    assert uid1 == a[..|uid1|] && uid2 == b[..|uid2|];
    SlashAfter(uid1, uuid1 + ".jpg");
    SlashAfter(uid2, uuid2 + ".jpg");
    assert a == uid1 + "/" + (uuid1 + ".jpg") && b == uid2 + "/" + (uuid2 + ".jpg");
    assert uuid1 == a[|uid1| + 1..|a| - 4] && uuid2 == b[|uid2| + 1..|b| - 4];
  }

  /** The view model holding `_uiState`. */
  class ViewModel {
    var state: ProfileUiState

    /** `MutableStateFlow(ProfileUiState())`. */
    constructor ()
      ensures state == SignedOut
    {
      state := SignedOut;
    }

    /** `fetchUserProfile` with no signed-in user: back to the defaults. */
    method FetchWithoutUser()
      modifies this
      ensures state == SignedOut
    {
      state := SignedOut;
    }

    /** `fetchUserProfile`'s success listener. */
    method OnFetchSuccess(user: User, doc: ProfileDocument)
      modifies this
      ensures state == FetchSucceeded(old(state), user, doc)
    {
      state := FetchSucceeded(state, user, doc);
    }

    /** `fetchUserProfile`'s failure listener. */
    method OnFetchFailure(user: User)
      modifies this
      ensures state == FetchFailed(old(state), user)
    {
      state := FetchFailed(state, user);
    }

    /**
     * `updateUserName`'s guard: the write it issues, only for a signed-in
     * user and a name that is not blank. The state itself changes only
     * through the fetch that follows a successful write.
     */
    method UpdateUserName(user: Option<User>, newName: string) returns (write: Option<NameWrite>)
      ensures write.Some? <==> user.Some? && !IsBlank(newName)
      ensures write.Some? ==> write.value == NameWrite(user.value.uid, newName)
    {
      if user.Some? && !IsBlank(newName) {
        write := Some(NameWrite(user.value.uid, newName));
      } else {
        write := None;
      }
    }

    /**
     * `uploadProfilePicture`: the object key it uploads under, none without
     * a signed-in user or when the picked image could not be read. `uuid`
     * is the value of `UUID.randomUUID()`.
     */
    method UploadProfilePicture(user: Option<User>, imageRead: bool, uuid: string) returns (key: Option<string>)
      ensures key.Some? <==> user.Some? && imageRead
      ensures key.Some? ==> key.value == ProfilePictureKey(user.value.uid, uuid)
    {
      if user.None? {
        return None;
      }
      if imageRead {
        key := Some(ProfilePictureKey(user.value.uid, uuid));
      } else {
        key := None;
      }
    }
  }

  /** `EditNameDialog`'s initial text: the placeholder name shows as empty. */
  function DialogText(currentName: string): (r: string)
    ensures r == "" <==> currentName == "" || currentName == NoName
    ensures r != "" ==> r == currentName
  {
    if currentName == NoName then "" else currentName
  }

  /**
   * A user whose document has no name sees an empty rename dialog, and
   * saving it unchanged is refused by the guard: no write is issued.
   */
  lemma UnchangedDialogIsRefused(s: ProfileUiState, user: User, doc: ProfileDocument)
    requires doc.name.None?
    ensures DialogText(FetchSucceeded(s, user, doc).name) == ""
    ensures IsBlank(DialogText(FetchSucceeded(s, user, doc).name))
  {
  }
}
