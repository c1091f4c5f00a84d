/**
 * `BskyListTool`: a logged-in client plus the operations of the command
 * line tool — adding a file of accounts to a list, and streaming a list's
 * members, an account's followers or a post's likers to a file.
 */
module Tool {
  import opened Wrappers
  import opened Text
  import opened Pagination
  import opened Atproto
  import opened Files
  import opened Output
  import opened Listing
  import opened Entries
  import opened Posts
  import opened Credentials

  /** The page size every paginated request asks for. */
  const PageLimit: nat := 100

  /** The `get_list` requests of a walk over a list, one per cursor sent. */
  function ListRequests(list: Uri, cursors: seq<Option<Cursor>>): seq<Call> {
    seq(|cursors|, i requires 0 <= i < |cursors| => GetListCall(list, Some(PageLimit), cursors[i]))
  }

  function FollowerRequests(actor: Handle, cursors: seq<Option<Cursor>>): seq<Call> {
    seq(|cursors|, i requires 0 <= i < |cursors| => GetFollowersCall(actor, Some(PageLimit), cursors[i]))
  }

  function LikeRequests(uri: Uri, cursors: seq<Option<Cursor>>): seq<Call> {
    seq(|cursors|, i requires 0 <= i < |cursors| => GetLikesCall(uri, Some(PageLimit), cursors[i]))
  }

  /** The request sent after k pages extends the walk's log by one call carrying NextCursor(pages, k). */
  lemma ListRequestsNext<T>(list: Uri, pages: seq<Page<T>>, k: nat)
    requires k <= |pages|
    ensures ListRequests(list, SentCursors(pages, k + 1))
         == ListRequests(list, SentCursors(pages, k)) + [GetListCall(list, Some(PageLimit), NextCursor(pages, k))]
  {
    SentCursorsNext(pages, k);
  }

  lemma FollowerRequestsNext<T>(actor: Handle, pages: seq<Page<T>>, k: nat)
    requires k <= |pages|
    ensures FollowerRequests(actor, SentCursors(pages, k + 1))
         == FollowerRequests(actor, SentCursors(pages, k)) + [GetFollowersCall(actor, Some(PageLimit), NextCursor(pages, k))]
  {
    SentCursorsNext(pages, k);
  }

  lemma LikeRequestsNext<T>(uri: Uri, pages: seq<Page<T>>, k: nat)
    requires k <= |pages|
    ensures LikeRequests(uri, SentCursors(pages, k + 1))
         == LikeRequests(uri, SentCursors(pages, k)) + [GetLikesCall(uri, Some(PageLimit), NextCursor(pages, k))]
  {
    SentCursorsNext(pages, k);
  }

  /** `_read_token_from_file`: the saved session token, or None when the token file does not exist. */
  function ReadTokenFromFile(files: map<Path, string>, path: Path): (token: Option<string>)
    ensures token.Some? <==> path in files
    ensures token.Some? ==> token.value == files[path]
  {
    if path in files then Some(files[path]) else None
  }

  class BskyListTool {
    const tokenFile: Path
    const handle: Handle
    const client: Client
    const resolver: IdResolver

    /** The tool exists only once its client has logged in. */
    ghost predicate Valid()
      reads this, client
    {
      client.session.Some?
    }

    /** The fields `__init__` sets, with a fresh `Client()` and `IdResolver()`. */
    constructor (tokenFile: Path, handle: Handle, service: Service)
      ensures this.tokenFile == tokenFile && this.handle == handle
      ensures fresh(client) && client.service == service && client.session == None && client.calls == []
      ensures fresh(resolver) && resolver.service == service && resolver.lookups == []
    {
      this.tokenFile := tokenFile;
      this.handle := handle;
      client := new Client(service);
      resolver := new IdResolver(service);
    }

    /**
     * `__init__`: read the token file, settle the handle and password, and
     * log in with the saved session or with the password. `credFile` holds
     * the options of the config file, None when there is no such file.
     */
    static method Open(handle: Option<Handle>, password: Option<string>, credFile: Option<map<string, string>>,
                       tokenFile: Path, fs: FileSystem, service: Service)
      returns (r: Result<BskyListTool, Error>)
      ensures var config := ConfigCredentials(credFile);
        var sel := SelectCredentials(handle, password, config.0, config.1, ReadTokenFromFile(fs.files, tokenFile));
        && (sel.Err? ==> r == Err(sel.error))
        && (sel.Ok? ==> (r.Ok? <==> sel.value.login in service.sessions))
        && (sel.Ok? && r.Err? ==> r.error == RequestFailed(LoginCall(sel.value.login)))
        && (r.Ok? ==> sel.Ok? && var tool := r.value;
              && fresh(tool) && fresh(tool.client) && fresh(tool.resolver) && tool.Valid()
              && tool.handle == sel.value.handle && tool.tokenFile == tokenFile
              && tool.client.service == service && tool.resolver.service == service
              && tool.client.calls == [LoginCall(sel.value.login)]
              && tool.client.session == Some(service.sessions[sel.value.login])
              && tool.resolver.lookups == [])
    {
      var token := ReadTokenFromFile(fs.files, tokenFile);
      var config := ConfigCredentials(credFile);
      var sel := SelectCredentials(handle, password, config.0, config.1, token);
      if sel.Err? {
        return Err(sel.error);
      }
      var tool := new BskyListTool(tokenFile, sel.value.handle, service);
      var err := tool.client.Login(sel.value.login);
      if err.Some? {
        return Err(err.value);
      }
      return Ok(tool);
    }

    /** `save_token`: overwrite the token file with the session the client holds now. */
    method SaveToken(fs: FileSystem)
      requires Valid()
      modifies fs
      ensures fs.files == old(fs.files)[tokenFile := client.session.value]
    {
      var token := client.ExportSession();
      fs.Create(tokenFile);
      fs.Write(tokenFile, token);
      assert [] + token == token;
    }

    /** `__exit__`: always saves the session, whatever the run did. */
    method Exit(fs: FileSystem)
      requires Valid()
      modifies fs
      ensures fs.files == old(fs.files)[tokenFile := client.session.value]
    {
      SaveToken(fs);
    }

    /** `_get_list_uri`: one `get_lists(owner)` request, scanned for the first list named `listname`. */
    method GetListUri(listname: string, owner: Handle) returns (r: Result<Uri, Error>)
      requires Valid()
      modifies client
      ensures Valid()
      ensures client.calls == old(client.calls) + [GetListsCall(owner)]
      ensures r == LookupList(client.service, owner, listname, GetListsCall(owner))
    {
      var response := client.GetLists(owner);
      if response.Err? {
        return Err(response.error);
      }
      var lists := response.value;
      for i := 0 to |lists|
        invariant forall j :: 0 <= j < i ==> lists[j].name != listname
      {
        if lists[i].name == listname {
          return Ok(lists[i].uri);
        }
      }
      return Err(ListNotFound(listname));
    }

    /** `_link_to_at_uri`: segments 4 and 6 of the link, the handle resolved by the client. */
    method LinkToAtUri(link: string) returns (r: Result<Uri, Error>)
      requires Valid()
      modifies client
      ensures Valid()
      ensures r == PostUri(client.service.dids, link)
      ensures PostParts(link).Err? ==> client.calls == old(client.calls)
      ensures PostParts(link).Ok? ==> client.calls == old(client.calls) + [ResolveHandleCall(PostParts(link).value.0)]
    {
      var parts := PostParts(link);
      if parts.Err? {
        return Err(parts.error);
      }
      var profile, rkey := parts.value.0, parts.value.1;
      var did := client.ResolveHandle(profile);
      if did.Err? {
        return Err(did.error);
      }
      return Ok(AtUri(did.value, rkey));
    }

    /**
     * `add_file_to_list`: a missing file is reported before anything is
     * sent; then the list is looked up among the tool's own lists, and each
     * non-blank line, normalised, becomes one list item in the tool's repo.
     */
    method AddFileToList(listname: string, file: Path, fs: FileSystem) returns (err: Option<Error>)
      requires Valid()
      modifies client, resolver
      ensures Valid()
      ensures file !in fs.files ==>
        err == Some(FileNotFound(file)) && client.calls == old(client.calls) && resolver.lookups == old(resolver.lookups)
      ensures file in fs.files ==>
        var found := LookupList(client.service, handle, listname, GetListsCall(handle));
        && (found.Err? ==> err == Some(found.error) && client.calls == old(client.calls) + [GetListsCall(handle)]
                           && resolver.lookups == old(resolver.lookups))
        && (found.Ok? ==> var o := AddOutcome(Lines(fs.files[file]), resolver.service.dids);
              && client.calls == old(client.calls) + [GetListsCall(handle)] + Creates(handle, found.value, o.subjects)
              && resolver.lookups == old(resolver.lookups) + o.lookups
              && err == o.err)
    {
      if file !in fs.files {
        return Some(FileNotFound(file));
      }
      var found := GetListUri(listname, handle);
      if found.Err? {
        return Some(found.error);
      }
      var uri := found.value;
      err := AddLines(Lines(fs.files[file]), uri);
    }

    /** The loop of `add_file_to_list`: the lines in order, stopping at the first handle that does not resolve. */
    method AddLines(lines: seq<string>, uri: Uri) returns (err: Option<Error>)
      requires Valid()
      modifies client, resolver
      ensures Valid()
      ensures var o := AddOutcome(lines, resolver.service.dids);
        && client.calls == old(client.calls) + Creates(handle, uri, o.subjects)
        && resolver.lookups == old(resolver.lookups) + o.lookups
        && err == o.err
    {
      ghost var dids := resolver.service.dids;
      ghost var calls0, lookups0 := client.calls, resolver.lookups;
      ghost var steps := Steps(lines, dids);
      AddOutcomeChain(lines, dids);
      ghost var done := Nothing;
      assert Creates(handle, uri, []) == [];
      for i := 0 to |lines|
        invariant Valid()
        invariant done == Chain(steps[..i]) && done.err.None?
        invariant client.calls == calls0 + Creates(handle, uri, done.subjects)
        invariant resolver.lookups == lookups0 + done.lookups
      {
        ChainNext(steps, i);
        var stop := AddLine(lines, i, uri, calls0, lookups0, done);
        done := Then(done, steps[i]);
        if stop.Some? {
          ChainStopped(steps, i);
          return stop;
        }
      }
      assert steps[..|steps|] == steps;
      return None;
    }

    /** Line i of the loop of `add_file_to_list`, after the lines before it have run without failing. */
    method AddLine(lines: seq<string>, i: nat, uri: Uri, ghost calls0: seq<Call>, ghost lookups0: seq<Handle>, ghost done: Outcome)
      returns (stop: Option<Error>)
      requires Valid() && i < |lines| && done.err.None?
      requires client.calls == calls0 + Creates(handle, uri, done.subjects)
      requires resolver.lookups == lookups0 + done.lookups
      modifies client, resolver
      ensures Valid()
      ensures var next := Then(done, Steps(lines, resolver.service.dids)[i]);
        && client.calls == calls0 + Creates(handle, uri, next.subjects)
        && resolver.lookups == lookups0 + next.lookups
        && stop == next.err
    {
      ghost var dids := resolver.service.dids;
      StepsAt(lines, dids, i);
      var entry := Normalize(lines[i]);
      assert Steps(lines, dids)[i] == if entry.None? then Nothing else EntryOutcome(entry.value, dids);
      if entry.None? {
        assert done.subjects + [] == done.subjects && done.lookups + [] == done.lookups;
        return None;
      }
      CreatesThen(handle, uri, calls0, done, EntryOutcome(entry.value, dids));
      stop := AddEntry(entry.value, uri);
    }

    /** One accepted line: a DID is added as it is, a handle is resolved first and stops the run when it does not resolve. */
    method AddEntry(entry: Entry, uri: Uri) returns (stop: Option<Error>)
      requires Valid()
      modifies client, resolver
      ensures Valid()
      ensures var o := EntryOutcome(entry, resolver.service.dids);
        && client.calls == old(client.calls) + Creates(handle, uri, o.subjects)
        && resolver.lookups == old(resolver.lookups) + o.lookups
        && stop == o.err
    {
      var subject := entry.Name();
      if entry.HandleEntry? {
        var did := resolver.Resolve(entry.handle);
        if did.None? {
          assert Creates(handle, uri, []) == [];
          return Some(Unresolved(entry.handle));
        }
        subject := did.value;
      }
      assert Creates(handle, uri, [subject]) == [CreateListItemCall(handle, uri, subject)];
      client.CreateListItem(handle, uri, subject);
      return None;
    }

    /**
     * `backup_list`: look the list up among `owner`'s lists, then write the
     * DID of every member to `file`, page after page, following the cursors.
     */
    method BackupList(listname: string, owner: Handle, file: Path, fs: FileSystem) returns (err: Option<Error>)
      requires Valid() && client.service.Valid()
      modifies client, fs
      ensures Valid()
      ensures var found := LookupList(client.service, owner, listname, GetListsCall(owner));
        && (found.Err? ==> err == Some(found.error) && client.calls == old(client.calls) + [GetListsCall(owner)]
                           && fs.files == old(fs.files))
        && (found.Ok? ==> var pages := client.service.ListPages(found.value);
              && client.calls == old(client.calls) + [GetListsCall(owner)] + ListRequests(found.value, Requests(pages))
              && fs.files == old(fs.files)[file := Dump(Collected(pages), MemberDid)]
              && (err.None? <==> Complete(pages))
              && (err.Some? ==> err == Some(RequestFailed(GetListCall(found.value, Some(PageLimit), NextCursor(pages, |pages|))))))
    {
      var found := GetListUri(listname, owner);
      if found.Err? {
        return Some(found.error);
      }
      err := WalkList(found.value, file, fs);
    }

    /** The pagination loop of `backup_list`, over the list `uri`. */
    method WalkList(uri: Uri, file: Path, fs: FileSystem) returns (err: Option<Error>)
      requires Valid() && client.service.Valid()
      modifies client, fs
      ensures Valid()
      ensures var pages := client.service.ListPages(uri);
        && client.calls == old(client.calls) + ListRequests(uri, Requests(pages))
        && fs.files == old(fs.files)[file := Dump(Collected(pages), MemberDid)]
        && (err.None? <==> Complete(pages))
        && (err.Some? ==> err == Some(RequestFailed(GetListCall(uri, Some(PageLimit), NextCursor(pages, |pages|)))))
    {
      ghost var pages := client.service.ListPages(uri);
      assert DistinctCursors(pages);
      ghost var calls0, files0 := client.calls, fs.files;
      ghost var k := 0;
      var cursor: Option<Cursor> := None;
      fs.Create(file);
      while true
        invariant Valid()
        invariant k <= |pages| && forall i :: 0 <= i < k ==> pages[i].cursor.Some?
        invariant cursor == NextCursor(pages, k)
        invariant client.calls == calls0 + ListRequests(uri, SentCursors(pages, k))
        invariant fs.files == files0[file := Dump(Flatten(pages[..k]), MemberDid)]
        decreases |pages| - k
      {
        var next, failed := FetchMembers(uri, cursor, file, fs, k, calls0, files0);
        if failed.Some? {
          WalkFailed(pages);
          return failed;
        }
        cursor := next;
        k := k + 1;
        if cursor.None? {
          WalkEnded(pages, k);
          return None;
        }
      }
    }

    /** One `get_list` request of `backup_list`'s loop; the members on the page it returns are written out. */
    method FetchMembers(uri: Uri, cursor: Option<Cursor>, file: Path, fs: FileSystem,
                       ghost k: nat, ghost calls0: seq<Call>, ghost files0: map<Path, string>)
      returns (next: Option<Cursor>, err: Option<Error>)
      requires Valid()
      requires var pages := client.service.ListPages(uri);
        && DistinctCursors(pages) && k <= |pages| && (forall i :: 0 <= i < k ==> pages[i].cursor.Some?)
        && cursor == NextCursor(pages, k)
        && client.calls == calls0 + ListRequests(uri, SentCursors(pages, k))
        && fs.files == files0[file := Dump(Flatten(pages[..k]), MemberDid)]
      modifies client, fs
      ensures Valid()
      ensures var pages := client.service.ListPages(uri);
        && client.calls == calls0 + ListRequests(uri, SentCursors(pages, k + 1))
        && (err.Some? <==> k == |pages|)
        && (err.Some? ==> err == Some(RequestFailed(GetListCall(uri, Some(PageLimit), cursor))) && fs.files == old(fs.files))
        && (err.None? ==> next == pages[k].cursor && fs.files == files0[file := Dump(Flatten(pages[..k + 1]), MemberDid)])
    {
      ghost var pages := client.service.ListPages(uri);
      ServeNext(pages, k);
      ListRequestsNext(uri, pages, k);
      var response := client.GetList(uri, Some(PageLimit), cursor);
      if response.Err? {
        return None, Some(response.error);
      }
      WritePage(fs, file, response.value.items, MemberDid, pages, k, files0);
      return response.value.cursor, None;
    }

    /** `get_followers`: write the DID of each of `actor`'s followers to `file`, following the cursors. */
    method GetFollowers(actor: Handle, file: Path, fs: FileSystem) returns (err: Option<Error>)
      requires Valid() && client.service.Valid()
      modifies client, fs
      ensures Valid()
      ensures var pages := client.service.FollowerPages(actor);
        && client.calls == old(client.calls) + FollowerRequests(actor, Requests(pages))
        && fs.files == old(fs.files)[file := Dump(Collected(pages), FollowerDid)]
        && (err.None? <==> Complete(pages))
        && (err.Some? ==> err == Some(RequestFailed(GetFollowersCall(actor, Some(PageLimit), NextCursor(pages, |pages|)))))
    {
      ghost var pages := client.service.FollowerPages(actor);
      assert DistinctCursors(pages);
      ghost var calls0, files0 := client.calls, fs.files;
      ghost var k := 0;
      var cursor: Option<Cursor> := None;
      fs.Create(file);
      while true
        invariant Valid()
        invariant k <= |pages| && forall i :: 0 <= i < k ==> pages[i].cursor.Some?
        invariant cursor == NextCursor(pages, k)
        invariant client.calls == calls0 + FollowerRequests(actor, SentCursors(pages, k))
        invariant fs.files == files0[file := Dump(Flatten(pages[..k]), FollowerDid)]
        decreases |pages| - k
      {
        var next, failed := FetchFollowers(actor, cursor, file, fs, k, calls0, files0);
        if failed.Some? {
          WalkFailed(pages);
          return failed;
        }
        cursor := next;
        k := k + 1;
        if cursor.None? {
          WalkEnded(pages, k);
          return None;
        }
      }
    }

    /** One `get_followers` request of the loop; the followers on the page it returns are written out. */
    method FetchFollowers(actor: Handle, cursor: Option<Cursor>, file: Path, fs: FileSystem,
                       ghost k: nat, ghost calls0: seq<Call>, ghost files0: map<Path, string>)
      returns (next: Option<Cursor>, err: Option<Error>)
      requires Valid()
      requires var pages := client.service.FollowerPages(actor);
        && DistinctCursors(pages) && k <= |pages| && (forall i :: 0 <= i < k ==> pages[i].cursor.Some?)
        && cursor == NextCursor(pages, k)
        && client.calls == calls0 + FollowerRequests(actor, SentCursors(pages, k))
        && fs.files == files0[file := Dump(Flatten(pages[..k]), FollowerDid)]
      modifies client, fs
      ensures Valid()
      ensures var pages := client.service.FollowerPages(actor);
        && client.calls == calls0 + FollowerRequests(actor, SentCursors(pages, k + 1))
        && (err.Some? <==> k == |pages|)
        && (err.Some? ==> err == Some(RequestFailed(GetFollowersCall(actor, Some(PageLimit), cursor))) && fs.files == old(fs.files))
        && (err.None? ==> next == pages[k].cursor && fs.files == files0[file := Dump(Flatten(pages[..k + 1]), FollowerDid)])
    {
      ghost var pages := client.service.FollowerPages(actor);
      ServeNext(pages, k);
      FollowerRequestsNext(actor, pages, k);
      var response := client.GetFollowers(actor, Some(PageLimit), cursor);
      if response.Err? {
        return None, Some(response.error);
      }
      WritePage(fs, file, response.value.items, FollowerDid, pages, k, files0);
      return response.value.cursor, None;
    }

    /**
     * `get_likes`: turn the post's link into its AT URI, then write the DID
     * of every liker to `file`, following the cursors.
     */
    method GetLikes(postUrl: string, file: Path, fs: FileSystem) returns (err: Option<Error>)
      requires Valid() && client.service.Valid()
      modifies client, fs
      ensures Valid()
      ensures var post := PostUri(client.service.dids, postUrl);
        var resolving := if PostParts(postUrl).Ok? then [ResolveHandleCall(PostParts(postUrl).value.0)] else [];
        && (post.Err? ==> err == Some(post.error) && client.calls == old(client.calls) + resolving
                          && fs.files == old(fs.files))
        && (post.Ok? ==> var pages := client.service.LikePages(post.value);
              && client.calls == old(client.calls) + resolving + LikeRequests(post.value, Requests(pages))
              && fs.files == old(fs.files)[file := Dump(Collected(pages), LikerDid)]
              && (err.None? <==> Complete(pages))
              && (err.Some? ==> err == Some(RequestFailed(GetLikesCall(post.value, Some(PageLimit), NextCursor(pages, |pages|))))))
    {
      var post := LinkToAtUri(postUrl);
      if post.Err? {
        return Some(post.error);
      }
      err := WalkLikes(post.value, file, fs);
    }

    /** The pagination loop of `get_likes`, over the post `uri`. */
    method WalkLikes(uri: Uri, file: Path, fs: FileSystem) returns (err: Option<Error>)
      requires Valid() && client.service.Valid()
      modifies client, fs
      ensures Valid()
      ensures var pages := client.service.LikePages(uri);
        && client.calls == old(client.calls) + LikeRequests(uri, Requests(pages))
        && fs.files == old(fs.files)[file := Dump(Collected(pages), LikerDid)]
        && (err.None? <==> Complete(pages))
        && (err.Some? ==> err == Some(RequestFailed(GetLikesCall(uri, Some(PageLimit), NextCursor(pages, |pages|)))))
    {
      ghost var pages := client.service.LikePages(uri);
      assert DistinctCursors(pages);
      ghost var calls0, files0 := client.calls, fs.files;
      ghost var k := 0;
      var cursor: Option<Cursor> := None;
      fs.Create(file);
      while true
        invariant Valid()
        invariant k <= |pages| && forall i :: 0 <= i < k ==> pages[i].cursor.Some?
        invariant cursor == NextCursor(pages, k)
        invariant client.calls == calls0 + LikeRequests(uri, SentCursors(pages, k))
        invariant fs.files == files0[file := Dump(Flatten(pages[..k]), LikerDid)]
        decreases |pages| - k
      {
        var next, failed := FetchLikes(uri, cursor, file, fs, k, calls0, files0);
        if failed.Some? {
          WalkFailed(pages);
          return failed;
        }
        cursor := next;
        k := k + 1;
        if cursor.None? {
          WalkEnded(pages, k);
          return None;
        }
      }
    }

    /** One `get_likes` request of the loop; the likers on the page it returns are written out. */
    method FetchLikes(uri: Uri, cursor: Option<Cursor>, file: Path, fs: FileSystem,
                       ghost k: nat, ghost calls0: seq<Call>, ghost files0: map<Path, string>)
      returns (next: Option<Cursor>, err: Option<Error>)
      requires Valid()
      requires var pages := client.service.LikePages(uri);
        && DistinctCursors(pages) && k <= |pages| && (forall i :: 0 <= i < k ==> pages[i].cursor.Some?)
        && cursor == NextCursor(pages, k)
        && client.calls == calls0 + LikeRequests(uri, SentCursors(pages, k))
        && fs.files == files0[file := Dump(Flatten(pages[..k]), LikerDid)]
      modifies client, fs
      ensures Valid()
      ensures var pages := client.service.LikePages(uri);
        && client.calls == calls0 + LikeRequests(uri, SentCursors(pages, k + 1))
        && (err.Some? <==> k == |pages|)
        && (err.Some? ==> err == Some(RequestFailed(GetLikesCall(uri, Some(PageLimit), cursor))) && fs.files == old(fs.files))
        && (err.None? ==> next == pages[k].cursor && fs.files == files0[file := Dump(Flatten(pages[..k + 1]), LikerDid)])
    {
      ghost var pages := client.service.LikePages(uri);
      ServeNext(pages, k);
      LikeRequestsNext(uri, pages, k);
      var response := client.GetLikes(uri, Some(PageLimit), cursor);
      if response.Err? {
        return None, Some(response.error);
      }
      WritePage(fs, file, response.value.items, LikerDid, pages, k, files0);
      return response.value.cursor, None;
    }
  }
}
