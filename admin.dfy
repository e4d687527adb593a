/** The single-administrator check; the configured ADMIN_EMAIL value is a parameter. */
module Admin {
  import opened Common

  /** `isAdmin(email)`: true iff an administrator address is configured and
      the email is exactly that address (no case folding, no trimming). */
  function IsAdmin(email: Option<string>, adminEmail: Option<string>): (r: bool)
    ensures r <==> email == adminEmail && Truthy(adminEmail)
    ensures !Truthy(adminEmail) ==> !r
    ensures !Truthy(email) ==> !r
  {
    if !Truthy(adminEmail) || !Truthy(email) then false
    else email.value == adminEmail.value
  }
}
