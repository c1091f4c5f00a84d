/**
 * The list backup script: logs in as a fixed account, finds one of its
 * lists by name and writes the DIDs of the list's members to a file.
 */
module ListBackup {
  import opened Wrappers
  import opened Pagination
  import opened Atproto
  import opened Files
  import opened Listing
  import opened Output

  const BskyApiUrl := "https://public.api.bsky.app"
  const BskyHandle: Handle := "chaosbengel.de"

  /** The public `getLists` request `get_list_uri` sends for the fixed account. */
  function ListsRequest(): Call {
    XrpcGetCall(BskyApiUrl + "/xrpc/app.bsky.graph.getLists?actor=" + BskyHandle)
  }

  /** `get_list_uri`: the first of the fixed account's lists named `listName`. */
  method GetListUri(listName: string, client: Client) returns (r: Result<Uri, Error>)
    modifies client
    ensures client.calls == old(client.calls) + [ListsRequest()] && client.session == old(client.session)
    ensures r == LookupList(client.service, BskyHandle, listName, ListsRequest())
  {
    var response := client.XrpcGetLists(BskyApiUrl, BskyHandle);
    if response.Err? {
      return Err(response.error);
    }
    var lists := response.value;
    var listUri: Option<Uri> := None;
    var i := 0;
    while i < |lists|
      invariant 0 <= i <= |lists|
      invariant listUri.None? ==> forall j :: 0 <= j < i ==> lists[j].name != listName
      invariant listUri.Some? ==> listUri == FindList(lists, listName)
      decreases |lists| - i
    {
      if lists[i].name == listName {
        assert FirstNamed(lists, listName) == i;
        listUri := Some(lists[i].uri);
        break;
      }
      i := i + 1;
    }
    if listUri.None? {
      return Err(ListNotFound(listName));
    }
    return Ok(listUri.value);
  }

  /** The one request `backup_list` sends: no page size, no cursor. */
  function BackupRequest(listUri: Uri): Call {
    GetListCall(listUri, None, None)
  }

  /**
   * `backup_list`: one `get_list` request; only when it succeeds is the
   * file overwritten, with the DIDs of the members on the page it returned.
   * The cursor of that page is not followed.
   */
  method BackupList(listUri: Uri, file: Path, client: Client, fs: FileSystem) returns (err: Option<Error>)
    modifies client, fs
    ensures client.calls == old(client.calls) + [BackupRequest(listUri)] && client.session == old(client.session)
    ensures var first := Serve(client.service.ListPages(listUri), None);
      && (first.None? ==> err == Some(RequestFailed(BackupRequest(listUri))) && fs.files == old(fs.files))
      && (first.Some? ==> err == None && fs.files == old(fs.files)[file := Dump(first.value.items, MemberDid)])
  {
    var response := client.GetList(listUri, None, None);
    if response.Err? {
      return Some(response.error);
    }
    fs.Create(file);
    WriteDids(fs, file, response.value.items, MemberDid);
    assert [] + Dump(response.value.items, MemberDid) == Dump(response.value.items, MemberDid);
    return None;
  }

  /**
   * A list longer than one page loses members: when the first page carries
   * a cursor and the next page has members, what `backup_list` writes is a
   * proper prefix of what a walk following the cursors collects.
   */
  lemma FirstPageOnly(pages: seq<Page<ListItem>>)
    requires |pages| >= 2 && pages[0].cursor.Some? && pages[1].items != []
    ensures pages[0].items < Collected(pages)
  {
    var n := Consumed(pages);
    assert FirstLast(pages) >= 1;
    assert n >= 2;
    var taken := pages[..n];
    assert taken == [pages[0]] + ([pages[1]] + taken[2..]);
    FlattenAppend([pages[0]], [pages[1]] + taken[2..]);
    FlattenAppend([pages[1]], taken[2..]);
    assert Flatten([pages[0]]) == pages[0].items + Flatten([]);
    assert Flatten([pages[1]]) == pages[1].items + Flatten([]);
    assert Collected(pages) == pages[0].items + (pages[1].items + Flatten(taken[2..]));
  }

  /** The same loss on a two-page list of two members: the backup keeps only the first. */
  lemma SecondPageLost()
    ensures var pages := [Page([ListItem(Profile("did:plc:a"))], Some("c")), Page([ListItem(Profile("did:plc:b"))], None)];
      && Dump(Serve(pages, None).value.items, MemberDid) == "did:plc:a\n"
      && Dump(Collected(pages), MemberDid) == "did:plc:a\ndid:plc:b\n"
  {
    var pages := [Page([ListItem(Profile("did:plc:a"))], Some("c")), Page([ListItem(Profile("did:plc:b"))], None)];
    ChainCollectsAll(pages);
    assert pages[1..] == [pages[1]];
    assert Flatten(pages) == [ListItem(Profile("did:plc:a")), ListItem(Profile("did:plc:b"))];
  }

  /**
   * `main`: log in as the fixed account with the app password, find the
   * named list, back it up. Each failure ends the run before the file is
   * touched.
   */
  method Run(listName: string, file: Path, fs: FileSystem, service: Service, appPassword: string)
    returns (client: Client, err: Option<Error>)
    modifies fs
    ensures fresh(client) && client.service == service
    ensures var login := PasswordLogin(BskyHandle, appPassword);
      var found := LookupList(service, BskyHandle, listName, ListsRequest());
      && (login !in service.sessions ==>
            err == Some(RequestFailed(LoginCall(login))) && client.calls == [LoginCall(login)] && fs.files == old(fs.files))
      && (login in service.sessions && found.Err? ==>
            err == Some(found.error) && client.calls == [LoginCall(login), ListsRequest()] && fs.files == old(fs.files))
      && (login in service.sessions && found.Ok? ==>
            var first := Serve(service.ListPages(found.value), None);
            && client.calls == [LoginCall(login), ListsRequest(), BackupRequest(found.value)]
            && (first.None? ==> err == Some(RequestFailed(BackupRequest(found.value))) && fs.files == old(fs.files))
            && (first.Some? ==> err == None && fs.files == old(fs.files)[file := Dump(first.value.items, MemberDid)]))
  {
    client := new Client(service);
    err := client.Login(PasswordLogin(BskyHandle, appPassword));
    if err.Some? {
      return;
    }
    var found := GetListUri(listName, client);
    if found.Err? {
      return client, Some(found.error);
    }
    err := BackupList(found.value, file, client, fs);
  }
}
