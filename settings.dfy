/**
 * The profile settings action: the display name is trimmed, checked for
 * length, and written to the caller's profile row.
 */
module Settings {
  import opened Common

  const NameLength := "Name must be between 1 and 100 characters"
  const ProfileUpdateFailed := "Failed to update profile"
  const MaxNameLength: nat := 100

  /** The trimmed name when its length is within 1..100. */
  function ValidateName(fullName: string): (r: Result<string, string>)
    ensures r.Ok? <==> 1 <= |Trim(fullName)| <= MaxNameLength
    ensures r.Ok? ==> r.value == Trim(fullName)
    ensures r.Err? ==> r.error == NameLength
  {
    var trimmed := Trim(fullName);
    if |trimmed| < 1 || |trimmed| > MaxNameLength then Err(NameLength) else Ok(trimmed)
  }

  /** An accepted name is a slice of the input, starts and ends with a
      non-whitespace character, and validating it again gives it back. */
  lemma ValidatedNameIsClean(fullName: string)
    requires ValidateName(fullName).Ok?
    ensures var n := ValidateName(fullName).value;
            && (exists i, j :: 0 <= i <= j <= |fullName| && n == fullName[i..j])
            && !IsJsWhitespace(n[0]) && !IsJsWhitespace(n[|n| - 1])
            && ValidateName(n) == Ok(n)
  {
    var n := Trim(fullName);
    TrimIsSlice(fullName);
    var i, j :| TrimmedAt(fullName, i, j) && n == fullName[i..j];
    assert n != [];
    TrimOfClean(n);
  }

  /** Trimming a string with no whitespace at either end changes nothing. */
  lemma TrimOfClean(s: string)
    requires s != [] && !IsJsWhitespace(s[0]) && !IsJsWhitespace(s[|s| - 1])
    ensures Trim(s) == s
  {
  }

  datatype Profile = Profile(fullName: Option<string>, onboardingCompleted: bool)

  class ProfileTable {
    var profiles: map<string, Profile>

    constructor ()
      ensures profiles == map[]
    {
      profiles := map[];
    }

    /** `updateProfile({fullName})`: only the caller's `full_name` changes;
        `writeFailed` is whether the update reports an error. */
    method UpdateProfile(user: Option<AuthUser>, fullName: string, writeFailed: bool) returns (r: Outcome)
      modifies this
      ensures user.None? ==> r == Fail(NotAuthenticated) && profiles == old(profiles)
      ensures user.Some? && ValidateName(fullName).Err? ==> r == Fail(NameLength) && profiles == old(profiles)
      ensures user.Some? && ValidateName(fullName).Ok? && writeFailed ==>
                r == Fail(ProfileUpdateFailed) && profiles == old(profiles)
      ensures r == Pass <==> user.Some? && ValidateName(fullName).Ok? && !writeFailed
      ensures r == Pass ==>
                profiles == if user.value.id in old(profiles)
                            then old(profiles)[user.value.id := old(profiles)[user.value.id].(fullName := Some(Trim(fullName)))]
                            else old(profiles)
    {
      if user.None? {
        return Fail(NotAuthenticated);
      }
      var name := ValidateName(fullName);
      if name.Err? {
        return Fail(name.error);
      }
      if writeFailed {
        return Fail(ProfileUpdateFailed);
      }
      var uid := user.value.id;
      if uid in profiles {
        profiles := profiles[uid := profiles[uid].(fullName := Some(name.value))];
      }
      r := Pass;
    }
  }
}
