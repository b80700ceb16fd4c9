/** The layout header: the user's display name and the avatar initial. */
module DashboardLayout {
  import opened Wrappers
  import opened JsString

  /** The signed-in user as the header reads it: the metadata name and the email, each possibly missing. */
  datatype User = User(metadataFullName: Option<string>, email: Option<string>)

  /** The user's metadata name, when the user is known. */
  function FullNameOf(user: Option<User>): Option<string> {
    if user.Some? then user.value.metadataFullName else None
  }

  /** The user's email, when the user is known. */
  function EmailOf(user: Option<User>): Option<string> {
    if user.Some? then user.value.email else None
  }

  /** `user?.user_metadata?.full_name || 'Admin'`: the name when non-empty, else `Admin`. */
  function DisplayName(user: Option<User>): (r: string)
    ensures r != ""
    ensures Truthy(FullNameOf(user)) ==> Some(r) == FullNameOf(user)
    ensures !Truthy(FullNameOf(user)) ==> r == "Admin"
  {
    OrElse(FullNameOf(user), "Admin")
  }

  /** `full_name || email || 'A'`: the first non-empty of the name, the email and `A`. */
  function AvatarSource(user: Option<User>): (r: string)
    ensures r != ""
    ensures Truthy(FullNameOf(user)) ==> Some(r) == FullNameOf(user)
    ensures !Truthy(FullNameOf(user)) && Truthy(EmailOf(user)) ==> Some(r) == EmailOf(user)
    ensures !Truthy(FullNameOf(user)) && !Truthy(EmailOf(user)) ==> r == "A"
  {
    OrElse(FullNameOf(user), OrElse(EmailOf(user), "A"))
  }

  /** `(...)[0].toUpperCase()`: always one character, the upper-cased first one of the source. */
  function AvatarInitial(user: Option<User>): (r: string)
    ensures |r| == 1 && r[0] == UpperChar(AvatarSource(user)[0])
  {
    ToUpper([AvatarSource(user)[0]])
  }
}
