/**
 * Credential selection in `BskyListTool.__init__`: an explicit handle or
 * password wins over the config file's, both must be known, and a saved
 * session token selects session login over password login.
 */
module Credentials {
  import opened Wrappers
  import opened Atproto

  /** What `__init__` settles on: the account, its password, and how the client logs in. */
  datatype Credentials = Credentials(handle: Handle, password: string, login: Login)

  /**
   * `_parse_config_file` on the options of the file's one section, or no
   * file at all. `my_handle` is read first, so a file without it yields
   * neither value, even when it holds `app_password`.
   */
  function ConfigCredentials(options: Option<map<string, string>>): (r: (Option<string>, Option<string>))
    ensures r.1.Some? ==> r.0.Some?
    ensures r.0.Some? <==> options.Some? && "my_handle" in options.value
    ensures r.1.Some? <==> options.Some? && "my_handle" in options.value && "app_password" in options.value
    ensures r.0.Some? ==> r.0.value == options.value["my_handle"]
    ensures r.1.Some? ==> r.1.value == options.value["app_password"]
  {
    match options
    case None => (None, None)
    case Some(m) =>
      if "my_handle" !in m then (None, None)
      else if "app_password" !in m then (Some(m["my_handle"]), None)
      else (Some(m["my_handle"]), Some(m["app_password"]))
  }

  /**
   * The handle and password from the arguments, else from the config file,
   * the handle checked first; then session login when a token was saved,
   * password login otherwise.
   */
  function SelectCredentials(handle: Option<Handle>, password: Option<string>,
                             fileHandle: Option<Handle>, filePassword: Option<string>,
                             token: Option<string>): (r: Result<Credentials, Error>)
    ensures handle.None? && fileHandle.None? ==> r == Err(MissingHandle)
    ensures (handle.Some? || fileHandle.Some?) && password.None? && filePassword.None? ==> r == Err(MissingPassword)
    ensures r.Ok? <==> (handle.Some? || fileHandle.Some?) && (password.Some? || filePassword.Some?)
    ensures r.Ok? && handle.Some? ==> r.value.handle == handle.value
    ensures r.Ok? && handle.None? ==> Some(r.value.handle) == fileHandle
    ensures r.Ok? && password.Some? ==> r.value.password == password.value
    ensures r.Ok? && password.None? ==> Some(r.value.password) == filePassword
    ensures r.Ok? && token.Some? ==> r.value.login == SessionLogin(token.value)
    ensures r.Ok? && token.None? ==> r.value.login == PasswordLogin(r.value.handle, r.value.password)
  {
    if handle.None? && fileHandle.None? then Err(MissingHandle)
    else
      var h := if handle.Some? then handle.value else fileHandle.value;
      if password.None? && filePassword.None? then Err(MissingPassword)
      else
        var p := if password.Some? then password.value else filePassword.value;
        Ok(Credentials(h, p, if token.None? then PasswordLogin(h, p) else SessionLogin(token.value)))
  }
}
