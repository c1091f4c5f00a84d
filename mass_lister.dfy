/**
 * The mass lister script: logs in as a fixed account, finds the fixed
 * target list, and adds one list item per non-blank line of a file.
 */
module MassLister {
  import opened Wrappers
  import opened Text
  import opened Atproto
  import opened Files
  import opened Listing
  import opened Entries

  const BskyApiUrl := "https://public.api.bsky.app"
  const BskyHandle: Handle := "chaosbengel.de"
  const TargetList := "Hatespam"

  /** The public `getLists` request `get_list_uri` sends for the fixed account. */
  function ListsRequest(): Call {
    XrpcGetCall(BskyApiUrl + "/xrpc/app.bsky.graph.getLists?actor=" + BskyHandle)
  }

  /** `add_user_to_list`: one list item, always in the fixed account's repo. */
  method AddUserToList(did: Did, listUri: Uri, client: Client)
    modifies client
    ensures client.calls == old(client.calls) + [CreateListItemCall(BskyHandle, listUri, did)]
    ensures client.session == old(client.session)
  {
    client.CreateListItem(BskyHandle, listUri, did);
  }

  /** `get_user_did`: the resolver's answer, None for an unknown handle. */
  method GetUserDid(handle: Handle, resolver: IdResolver) returns (did: Option<Did>)
    modifies resolver
    ensures resolver.lookups == old(resolver.lookups) + [handle]
    ensures did.Some? <==> handle in resolver.service.dids
    ensures did.Some? ==> did.value == resolver.service.dids[handle]
  {
    did := resolver.Resolve(handle);
  }

  /**
   * `get_list_uri`: scans the fixed account's lists for the first one named
   * `TargetList`. The `listName` argument is not consulted.
   */
  method GetListUri(listName: string, client: Client) returns (r: Result<Uri, Error>)
    modifies client
    ensures client.calls == old(client.calls) + [ListsRequest()] && client.session == old(client.session)
    ensures r == LookupList(client.service, BskyHandle, TargetList, ListsRequest())
  {
    var response := client.XrpcGetLists(BskyApiUrl, BskyHandle);
    if response.Err? {
      return Err(response.error);
    }
    var lists := response.value;
    var listUri: Option<Uri> := None;
    var i := 0;
    while i < |lists|
      invariant 0 <= i <= |lists|
      invariant listUri.None? ==> forall j :: 0 <= j < i ==> lists[j].name != TargetList
      invariant listUri.Some? ==> listUri == FindList(lists, TargetList)
      decreases |lists| - i
    {
      if lists[i].name == TargetList {
        assert FirstNamed(lists, TargetList) == i;
        listUri := Some(lists[i].uri);
        break;
      }
      i := i + 1;
    }
    if listUri.None? {
      return Err(ListNotFound(TargetList));
    }
    return Ok(listUri.value);
  }

  /** One accepted line of `main`'s loop: a handle is resolved first; an unknown handle ends the run. */
  method AddEntry(entry: Entry, listUri: Uri, client: Client, resolver: IdResolver) returns (stop: Option<Error>)
    modifies client, resolver
    ensures client.session == old(client.session)
    ensures var o := EntryOutcome(entry, resolver.service.dids);
      && client.calls == old(client.calls) + Creates(BskyHandle, listUri, o.subjects)
      && resolver.lookups == old(resolver.lookups) + o.lookups
      && stop == o.err
  {
    var subject := entry.Name();
    if entry.HandleEntry? {
      var did := GetUserDid(entry.handle, resolver);
      if did.None? {
        assert Creates(BskyHandle, listUri, []) == [];
        return Some(Unresolved(entry.handle));
      }
      subject := did.value;
    }
    assert Creates(BskyHandle, listUri, [subject]) == [CreateListItemCall(BskyHandle, listUri, subject)];
    AddUserToList(subject, listUri, client);
    return None;
  }

  /** Line i of the loop of `main`, after the lines before it have run without failing. */
  method AddLine(lines: seq<string>, i: nat, listUri: Uri, client: Client, resolver: IdResolver,
                 ghost calls0: seq<Call>, ghost lookups0: seq<Handle>, ghost done: Outcome)
    returns (stop: Option<Error>)
    requires i < |lines| && done.err.None?
    requires client.calls == calls0 + Creates(BskyHandle, listUri, done.subjects)
    requires resolver.lookups == lookups0 + done.lookups
    modifies client, resolver
    ensures var next := Then(done, Steps(lines, resolver.service.dids)[i]);
      && client.calls == calls0 + Creates(BskyHandle, listUri, next.subjects)
      && resolver.lookups == lookups0 + next.lookups
      && stop == next.err
  {
    ghost var dids := resolver.service.dids;
    StepsAt(lines, dids, i);
    var entry := Normalize(lines[i]);
    assert Steps(lines, dids)[i] == if entry.None? then Nothing else EntryOutcome(entry.value, dids);
    if entry.None? {
      assert done.subjects + [] == done.subjects && done.lookups + [] == done.lookups;
      return None;
    }
    CreatesThen(BskyHandle, listUri, calls0, done, EntryOutcome(entry.value, dids));
    stop := AddEntry(entry.value, listUri, client, resolver);
  }

  /** The loop of `main`: the lines in order, stopping at the first handle that does not resolve. */
  method AddLines(lines: seq<string>, listUri: Uri, client: Client, resolver: IdResolver) returns (err: Option<Error>)
    modifies client, resolver
    ensures var o := AddOutcome(lines, resolver.service.dids);
      && client.calls == old(client.calls) + Creates(BskyHandle, listUri, o.subjects)
      && resolver.lookups == old(resolver.lookups) + o.lookups
      && err == o.err
  {
    ghost var dids := resolver.service.dids;
    ghost var calls0, lookups0 := client.calls, resolver.lookups;
    ghost var steps := Steps(lines, dids);
    AddOutcomeChain(lines, dids);
    ghost var done := Nothing;
    assert Creates(BskyHandle, listUri, []) == [];
    for i := 0 to |lines|
      invariant done == Chain(steps[..i]) && done.err.None?
      invariant client.calls == calls0 + Creates(BskyHandle, listUri, done.subjects)
      invariant resolver.lookups == lookups0 + done.lookups
    {
      ChainNext(steps, i);
      var stop := AddLine(lines, i, listUri, client, resolver, calls0, lookups0, done);
      done := Then(done, steps[i]);
      if stop.Some? {
        ChainStopped(steps, i);
        return stop;
      }
    }
    assert steps[..|steps|] == steps;
    return None;
  }

  /**
   * The part of `main` after the login: find the target list, then open
   * the file and add its lines. A missing file is noticed only after the
   * list lookup.
   */
  method AddFile(filename: Path, fs: FileSystem, client: Client, resolver: IdResolver) returns (err: Option<Error>)
    modifies client, resolver
    ensures var found := LookupList(client.service, BskyHandle, TargetList, ListsRequest());
      && (found.Err? ==>
            err == Some(found.error) && client.calls == old(client.calls) + [ListsRequest()]
            && resolver.lookups == old(resolver.lookups))
      && (found.Ok? && filename !in fs.files ==>
            err == Some(FileNotFound(filename)) && client.calls == old(client.calls) + [ListsRequest()]
            && resolver.lookups == old(resolver.lookups))
      && (found.Ok? && filename in fs.files ==>
            var o := AddOutcome(Lines(fs.files[filename]), resolver.service.dids);
            && client.calls == old(client.calls) + [ListsRequest()] + Creates(BskyHandle, found.value, o.subjects)
            && resolver.lookups == old(resolver.lookups) + o.lookups
            && err == o.err)
  {
    var found := GetListUri(TargetList, client);
    if found.Err? {
      return Some(found.error);
    }
    if filename !in fs.files {
      return Some(FileNotFound(filename));
    }
    err := AddLines(Lines(fs.files[filename]), found.value, client, resolver);
  }

  /**
   * `main`: log in as the fixed account with the app password, then add
   * the file's lines to the target list. Each failure ends the run.
   */
  method Run(filename: Path, fs: FileSystem, service: Service, appPassword: string)
    returns (client: Client, resolver: IdResolver, err: Option<Error>)
    ensures fresh(client) && fresh(resolver) && client.service == service && resolver.service == service
    ensures var login := PasswordLogin(BskyHandle, appPassword);
      var found := LookupList(service, BskyHandle, TargetList, ListsRequest());
      && (login !in service.sessions ==>
            err == Some(RequestFailed(LoginCall(login))) && client.calls == [LoginCall(login)] && resolver.lookups == [])
      && (login in service.sessions && found.Err? ==>
            err == Some(found.error) && client.calls == [LoginCall(login), ListsRequest()] && resolver.lookups == [])
      && (login in service.sessions && found.Ok? && filename !in fs.files ==>
            err == Some(FileNotFound(filename)) && client.calls == [LoginCall(login), ListsRequest()] && resolver.lookups == [])
      && (login in service.sessions && found.Ok? && filename in fs.files ==>
            var o := AddOutcome(Lines(fs.files[filename]), service.dids);
            && client.calls == [LoginCall(login), ListsRequest()] + Creates(BskyHandle, found.value, o.subjects)
            && resolver.lookups == o.lookups
            && err == o.err)
  {
    client := new Client(service);
    resolver := new IdResolver(service);
    err := client.Login(PasswordLogin(BskyHandle, appPassword));
    if err.Some? {
      return;
    }
    assert client.calls == [LoginCall(PasswordLogin(BskyHandle, appPassword))] && resolver.lookups == [];
    err := AddFile(filename, fs, client, resolver);
  }
}
