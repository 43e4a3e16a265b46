/** The signed-in user, as the server-side authentication helper returns it;
    a failed lookup is None. */
module Auth {
  import opened Wrappers

  datatype User = User(userId: string, loginId: Option<string>)
}
