/**
 * The profile modal: the checks an avatar upload must pass and the storage
 * path it is given, the checks on the profile form and the record saved
 * from it, and the name and letter shown in the header.
 *
 * The storage and auth calls are reduced to their outcome, the random part
 * of the file name (`Math.random().toString(36).substring(2)`) is the
 * parameter `token`, and the data URL the `FileReader` fallback produces is
 * the parameter `dataUrl`.
 */
module Profile {
  import opened Common
  import opened Text

  /** 5 MB, the largest accepted upload. */
  const MaxImageBytes := 5 * 1024 * 1024

  /** The chosen file: its MIME type, its size in bytes and its name. */
  datatype Upload = Upload(mime: string, size: nat, name: string)

  /** The message of the first upload check that fails, if any. */
  function UploadProblem(u: Upload): Option<string>
  {
    if !StartsWith(u.mime, "image/") then Some("Please upload an image file")
    else if u.size > MaxImageBytes then Some("Image size should be less than 5MB")
    else None
  }

  /**
   * An upload is accepted exactly when its MIME type starts with "image/"
   * and it has at most 5242880 bytes (a file of exactly that size passes);
   * a wrong type is reported before a wrong size.
   */
  lemma UploadProblemSpec(u: Upload)
    ensures UploadProblem(u).None? <==> |u.mime| >= 6 && u.mime[..6] == "image/" && u.size <= 5242880
    ensures !StartsWith(u.mime, "image/") ==> UploadProblem(u) == Some("Please upload an image file")
    ensures StartsWith(u.mime, "image/") && u.size > 5242880 ==> UploadProblem(u) == Some("Image size should be less than 5MB")
  {
  }

  /** `file.name.split('.').pop()`. */
  function Extension(name: string): string
  {
    AfterLast(name, '.')
  }

  /**
   * The extension is the text after the last '.' of the name, or the whole
   * name when it has no '.'; it never holds a '.' itself.
   */
  lemma ExtensionSpec(name: string)
    ensures '.' !in Extension(name)
    ensures '.' !in name ==> Extension(name) == name
    ensures '.' in name ==> exists stem :: name == stem + "." + Extension(name)
  {
    var e := Extension(name);
    if '.' in name {
      var stem := name[..|name| - |e| - 1];
      assert name == stem + "." + e;
    }
  }

  /** The folder of the avatar bucket that uploads go to. */
  const ImageFolder := "profile-images/"

  /** The storage path of an upload by `userId` with random part `token`. */
  function StoragePath(userId: string, token: string, name: string): string
  {
    ImageFolder + userId + "-" + token + "." + Extension(name)
  }

  /**
   * Every upload goes under "profile-images/", named after the user, and
   * keeps the file's extension after the final '.'.
   */
  lemma StoragePathSpec(userId: string, token: string, name: string)
    ensures StartsWith(StoragePath(userId, token, name), ImageFolder + userId + "-")
    ensures Extension(StoragePath(userId, token, name)) == Extension(name)
  {
    var e := Extension(name);
    var prefix := ImageFolder + userId + "-";
    var head := prefix + token + ".";
    PrefixOfAppend(prefix, token + "." + e);
    assert prefix + (token + "." + e) == head + e;
    ExtensionSpec(name);
    ExtensionAfterDot(head, e);
  }

  /** A string starts with any of its prefixes. */
  lemma PrefixOfAppend(p: string, rest: string)
    ensures StartsWith(p + rest, p)
  {
    assert (p + rest)[..|p|] == p;
  }

  /** The text after the last '.' of `stem + "."` followed by a dot-free `e` is `e`. */
  lemma ExtensionAfterDot(stem: string, e: string)
    requires stem != [] && stem[|stem| - 1] == '.' && '.' !in e
    ensures Extension(stem + e) == e
  {
    var s := stem + e;
    var k := IndexBefore(s, '.', |s|);
    assert s[|stem| - 1] == '.';
    assert k >= |stem| - 1;
    forall m | |stem| <= m < |s| ensures s[m] != '.' {
      assert s[m] == e[m - |stem|];
    }
    assert s[k + 1..] == e;
  }

  /** The characters of `[\d\s\-()]`. */
  predicate PhoneChar(c: char)
  {
    IsDigit(c) || IsSpace(c) || c == '-' || c == '(' || c == ')'
  }

  /** The phone without its optional leading '+'. */
  function PhoneDigits(phone: string): string
  {
    if phone != [] && phone[0] == '+' then phone[1..] else phone
  }

  /** `/^\+?[\d\s\-()]+$/.test(phone)`. */
  predicate ValidPhone(phone: string)
  {
    PhoneDigits(phone) != [] && forall i :: 0 <= i < |PhoneDigits(phone)| ==> PhoneChar(PhoneDigits(phone)[i])
  }

  /**
   * A phone is valid exactly when it is not empty and not just "+", and
   * each character is a digit, whitespace, '-', '(' or ')', except that the
   * first may be '+'.
   */
  lemma ValidPhoneSpec(phone: string)
    ensures ValidPhone(phone) <==>
      && phone != [] && phone != "+"
      && forall i :: 0 <= i < |phone| ==> PhoneChar(phone[i]) || (i == 0 && phone[i] == '+')
  {
    var body := PhoneDigits(phone);
    var lax := forall i :: 0 <= i < |phone| ==> PhoneChar(phone[i]) || (i == 0 && phone[i] == '+');
    if phone != [] && phone[0] == '+' {
      assert phone != "+" <==> body != [];
      if lax {
        forall i | 0 <= i < |body| ensures PhoneChar(body[i]) {
          assert body[i] == phone[i + 1];
        }
      }
      if ValidPhone(phone) {
        forall i | 0 < i < |phone| ensures PhoneChar(phone[i]) {
          assert phone[i] == body[i - 1];
        }
      }
    } else if lax {
      forall i | 0 <= i < |body| ensures PhoneChar(body[i]) {
        assert body[i] == phone[i];
      }
    }
  }

  /** The profile form: full name, phone and image URL, as typed. */
  datatype ProfileForm = ProfileForm(fullName: string, phone: string, image: string)

  /** The message of the first submit check that fails, if any. */
  function SubmitProblem(f: ProfileForm): Option<string>
  {
    if Trim(f.fullName) == "" then Some("Full name is required")
    else if f.phone != "" && !ValidPhone(f.phone) then Some("Please enter a valid phone number")
    else None
  }

  /**
   * A form passes exactly when the name has a character other than
   * whitespace and the phone is empty or valid; a blank name is reported
   * first.
   */
  lemma SubmitProblemSpec(f: ProfileForm)
    ensures SubmitProblem(f).None? <==>
      (exists i :: 0 <= i < |f.fullName| && !IsSpace(f.fullName[i])) && (f.phone == "" || ValidPhone(f.phone))
    ensures (forall i :: 0 <= i < |f.fullName| ==> IsSpace(f.fullName[i])) ==> SubmitProblem(f) == Some("Full name is required")
  {
    TrimEmpty(f.fullName);
  }

  /** The profile row written by the upsert; `None` is `null`. */
  datatype SavedProfile = SavedProfile(fullName: string, phone: Option<string>, image: Option<string>)

  /** The row built from a form that passed. */
  function Saved(f: ProfileForm): SavedProfile
  {
    SavedProfile(
      Trim(f.fullName),
      if Trim(f.phone) == "" then None else Some(Trim(f.phone)),
      if f.image == "" then None else Some(f.image))
  }

  /**
   * The saved name and phone carry no surrounding whitespace (trimming them
   * again changes nothing), a form that passed saves a non-empty name, a
   * phone that is empty or all whitespace is saved as null, and an empty
   * image as null.
   */
  lemma SavedSpec(f: ProfileForm)
    ensures SubmitProblem(f).None? ==> Saved(f).fullName != ""
    ensures Trim(Saved(f).fullName) == Saved(f).fullName
    ensures Saved(f).phone.None? <==> forall i :: 0 <= i < |f.phone| ==> IsSpace(f.phone[i])
    ensures Saved(f).phone.Some? ==> Saved(f).phone.value != "" && Trim(Saved(f).phone.value) == Saved(f).phone.value
    ensures Saved(f).image == if f.image == "" then None else Some(f.image)
  {
    TrimIdempotent(f.fullName);
    TrimIdempotent(f.phone);
    TrimEmpty(f.phone);
  }

  /** `displayName`: the full name, else the email before '@', else "User". */
  function DisplayName(fullName: string, email: Option<string>): string
  {
    if fullName != "" then fullName
    else if email.Some? && BeforeFirst(email.value, '@') != "" then BeforeFirst(email.value, '@')
    else "User"
  }

  /** `displayName.charAt(0).toUpperCase()`. */
  function FirstLetter(name: string): string
  {
    if name == "" then "" else [Upper(name[0])]
  }

  /**
   * The display name is never empty: it is the full name when one is set;
   * without one, the text of the email before its first '@' when that is
   * not empty, and "User" otherwise. The avatar letter is its first
   * character upper-cased.
   */
  lemma DisplayNameSpec(fullName: string, email: Option<string>)
    ensures var d := DisplayName(fullName, email);
      && d != ""
      && FirstLetter(d) == [Upper(d[0])]
      && (fullName != "" ==> d == fullName)
    ensures fullName == "" && email.Some? && email.value != [] && email.value[0] != '@' ==>
      var d := DisplayName(fullName, email);
      && email.value == d + email.value[|d|..] && '@' !in d
      && (|d| < |email.value| ==> email.value[|d|] == '@')
    ensures fullName == "" && (email.None? || email.value == [] || email.value[0] == '@') ==>
      DisplayName(fullName, email) == "User"
  {
  }

  class ProfileModal {
    var form: ProfileForm
    var uploading: bool
    var loading: bool

    constructor(form: ProfileForm)
      ensures this.form == form && !uploading && !loading
    {
      this.form := form;
      uploading := false;
      loading := false;
    }

    /**
     * `handleImageUpload`: no file does nothing; a file that fails a check
     * shows its message and changes nothing; otherwise it is uploaded to its
     * storage path, and the image becomes the public URL (`uploaded`) on
     * success or the file's data URL on failure. Uploading is off at the end.
     */
    method HandleImageUpload(file: Option<Upload>, userId: string, token: string, uploaded: Option<string>, dataUrl: string)
      returns (message: Option<string>, path: Option<string>)
      modifies this
      ensures file.None? ==> message.None? && path.None? && form == old(form) && uploading == old(uploading)
      ensures file.Some? && UploadProblem(file.value).Some? ==>
        message == UploadProblem(file.value) && path.None? && form == old(form) && uploading == old(uploading)
      ensures file.Some? && UploadProblem(file.value).None? ==>
        && path == Some(StoragePath(userId, token, file.value.name)) && !uploading
        && form == old(form).(image := if uploaded.Some? then uploaded.value else dataUrl)
        && message == Some(if uploaded.Some? then "Image uploaded successfully!"
                           else "Failed to upload image. Using default avatar instead.")
      ensures loading == old(loading)
    {
      if file.None? {
        return None, None;
      }
      var problem := UploadProblem(file.value);
      if problem.Some? {
        return problem, None;
      }
      uploading := true;
      path := Some(StoragePath(userId, token, file.value.name));
      if uploaded.Some? {
        form := form.(image := uploaded.value);
        message := Some("Image uploaded successfully!");
      } else {
        message := Some("Failed to upload image. Using default avatar instead.");
        form := form.(image := dataUrl);
      }
      uploading := false;
    }

    /**
     * `handleSubmit`: a form that fails a check shows its message and saves
     * nothing; otherwise the row built by `Saved` is written, `ok` says
     * whether the upsert and the metadata update both succeeded, and loading
     * is off at the end. The form itself is left as typed.
     */
    method HandleSubmit(ok: bool) returns (message: string, saved: Option<SavedProfile>)
      modifies this
      ensures SubmitProblem(old(form)).Some? ==>
        message == SubmitProblem(old(form)).value && saved.None? && loading == old(loading)
      ensures SubmitProblem(old(form)).None? ==>
        && saved == Some(Saved(old(form))) && !loading
        && message == (if ok then "Profile updated successfully!" else "Failed to update profile")
      ensures form == old(form) && uploading == old(uploading)
    {
      var problem := SubmitProblem(form);
      if problem.Some? {
        return problem.value, None;
      }
      loading := true;
      saved := Some(Saved(form));
      message := if ok then "Profile updated successfully!" else "Failed to update profile";
      loading := false;
    }
  }
}
