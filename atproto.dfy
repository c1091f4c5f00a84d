/**
 * The Bluesky service as the scripts see it through the atproto library:
 * the records its endpoints return, the errors a run can end with, and two
 * client objects, `Client` and `IdResolver`, that answer from a fixed
 * `Service` and record every request they send.
 */
module Atproto {
  import opened Wrappers
  import opened Pagination

  type Handle = string
  type Did = string
  type Uri = string

  /** One entry of `get_lists(actor).lists`, read as `l['name']` and `l['uri']`. */
  datatype ListView = ListView(name: string, uri: Uri)
  datatype Profile = Profile(did: Did)
  /** An entry of `get_list(...).items`; its member is `subject.did`. */
  datatype ListItem = ListItem(subject: Profile)
  /** An entry of `get_likes(...).likes`; the liker is `actor.did`. */
  datatype Like = Like(actor: Profile)

  /** `client.login(handle, password)` or `client.login(session_string=token)`. */
  datatype Login = PasswordLogin(handle: Handle, password: string) | SessionLogin(session: string)

  /** One request sent to the service. */
  datatype Call =
    | LoginCall(login: Login)
    | GetListsCall(actor: Handle)
    | XrpcGetCall(url: string)
    | GetListCall(list: Uri, limit: Option<nat>, cursor: Option<Cursor>)
    | GetFollowersCall(actor: Handle, limit: Option<nat>, cursor: Option<Cursor>)
    | GetLikesCall(uri: Uri, limit: Option<nat>, cursor: Option<Cursor>)
    | ResolveHandleCall(handle: Handle)
    | CreateListItemCall(repo: Handle, list: Uri, subject: Did)

  /** Every way a run ends early. */
  datatype Error =
    | MissingHandle              // ValueError: no handle given and none in the config file
    | MissingPassword            // ValueError: no password given and none in the config file
    | FileNotFound(path: string)
    | ListNotFound(name: string) // ListNotFoundException
    | IndexOutOfRange            // IndexError on a post URL with too few segments
    | Unresolved(handle: Handle) // the identity resolver knows no DID for the handle
    | RequestFailed(call: Call)  // the service refused or could not answer the call

  /**
   * What the service knows: the session it hands out per login; for each
   * actor, the lists in the one response a `getLists` request without a
   * cursor returns (its first page, not necessarily all the actor's lists);
   * the pages of each list, follower set and like set; and the DID behind
   * each handle.
   */
  datatype Service = Service(
    sessions: map<Login, string>,
    lists: map<Handle, seq<ListView>>,
    members: map<Uri, seq<Page<ListItem>>>,
    followers: map<Handle, seq<Page<Profile>>>,
    likes: map<Uri, seq<Page<Like>>>,
    dids: map<Handle, Did>)
  {
    function ListPages(list: Uri): seq<Page<ListItem>> {
      if list in members then members[list] else []
    }

    function FollowerPages(actor: Handle): seq<Page<Profile>> {
      if actor in followers then followers[actor] else []
    }

    function LikePages(uri: Uri): seq<Page<Like>> {
      if uri in likes then likes[uri] else []
    }

    /** Every paginated collection hands out each cursor once. */
    predicate Valid() {
      && (forall u :: u in members ==> DistinctCursors(members[u]))
      && (forall a :: a in followers ==> DistinctCursors(followers[a]))
      && (forall u :: u in likes ==> DistinctCursors(likes[u]))
    }
  }

  /** The answer to `call`: the value the service has, or a failed request. */
  function Answer<T>(value: Option<T>, call: Call): Result<T, Error> {
    match value
    case Some(v) => Ok(v)
    case None => Err(RequestFailed(call))
  }

  /** atproto's `Client`: its session and the requests it has sent. */
  class Client {
    const service: Service
    var session: Option<string>
    var calls: seq<Call>

    constructor (service: Service)
      ensures this.service == service && session == None && calls == []
    {
      this.service := service;
      session := None;
      calls := [];
    }

    method Login(login: Login) returns (err: Option<Error>)
      modifies this
      ensures calls == old(calls) + [LoginCall(login)]
      ensures login in service.sessions ==> err == None && session == Some(service.sessions[login])
      ensures login !in service.sessions ==> err == Some(RequestFailed(LoginCall(login))) && session == old(session)
    {
      calls := calls + [LoginCall(login)];
      if login in service.sessions {
        session := Some(service.sessions[login]);
        err := None;
      } else {
        err := Some(RequestFailed(LoginCall(login)));
      }
    }

    /** `export_session_string()`: the session the client holds now. */
    method ExportSession() returns (token: string)
      requires session.Some?
      ensures token == session.value
    {
      token := session.value;
    }

    method GetLists(actor: Handle) returns (r: Result<seq<ListView>, Error>)
      modifies this
      ensures calls == old(calls) + [GetListsCall(actor)] && session == old(session)
      ensures r == Answer(if actor in service.lists then Some(service.lists[actor]) else None, GetListsCall(actor))
    {
      calls := calls + [GetListsCall(actor)];
      r := Answer(if actor in service.lists then Some(service.lists[actor]) else None, GetListsCall(actor));
    }

    /** `client.request.get(host + "/xrpc/app.bsky.graph.getLists?actor=" + actor).content['lists']` */
    method XrpcGetLists(host: string, actor: Handle) returns (r: Result<seq<ListView>, Error>)
      modifies this
      ensures var call := XrpcGetCall(host + "/xrpc/app.bsky.graph.getLists?actor=" + actor);
        && calls == old(calls) + [call] && session == old(session)
        && r == Answer(if actor in service.lists then Some(service.lists[actor]) else None, call)
    {
      var call := XrpcGetCall(host + "/xrpc/app.bsky.graph.getLists?actor=" + actor);
      calls := calls + [call];
      r := Answer(if actor in service.lists then Some(service.lists[actor]) else None, call);
    }

    method GetList(list: Uri, limit: Option<nat>, cursor: Option<Cursor>) returns (r: Result<Page<ListItem>, Error>)
      modifies this
      ensures calls == old(calls) + [GetListCall(list, limit, cursor)] && session == old(session)
      ensures r == Answer(Serve(service.ListPages(list), cursor), GetListCall(list, limit, cursor))
    {
      calls := calls + [GetListCall(list, limit, cursor)];
      r := Answer(Serve(service.ListPages(list), cursor), GetListCall(list, limit, cursor));
    }

    method GetFollowers(actor: Handle, limit: Option<nat>, cursor: Option<Cursor>) returns (r: Result<Page<Profile>, Error>)
      modifies this
      ensures calls == old(calls) + [GetFollowersCall(actor, limit, cursor)] && session == old(session)
      ensures r == Answer(Serve(service.FollowerPages(actor), cursor), GetFollowersCall(actor, limit, cursor))
    {
      calls := calls + [GetFollowersCall(actor, limit, cursor)];
      r := Answer(Serve(service.FollowerPages(actor), cursor), GetFollowersCall(actor, limit, cursor));
    }

    method GetLikes(uri: Uri, limit: Option<nat>, cursor: Option<Cursor>) returns (r: Result<Page<Like>, Error>)
      modifies this
      ensures calls == old(calls) + [GetLikesCall(uri, limit, cursor)] && session == old(session)
      ensures r == Answer(Serve(service.LikePages(uri), cursor), GetLikesCall(uri, limit, cursor))
    {
      calls := calls + [GetLikesCall(uri, limit, cursor)];
      r := Answer(Serve(service.LikePages(uri), cursor), GetLikesCall(uri, limit, cursor));
    }

    /** `resolve_handle(handle).did` */
    method ResolveHandle(handle: Handle) returns (r: Result<Did, Error>)
      modifies this
      ensures calls == old(calls) + [ResolveHandleCall(handle)] && session == old(session)
      ensures r == Answer(if handle in service.dids then Some(service.dids[handle]) else None, ResolveHandleCall(handle))
    {
      calls := calls + [ResolveHandleCall(handle)];
      r := Answer(if handle in service.dids then Some(service.dids[handle]) else None, ResolveHandleCall(handle));
    }

    /** `app.bsky.graph.listitem.create(repo, Record(list=list, subject=subject, ...))` */
    method CreateListItem(repo: Handle, list: Uri, subject: Did)
      modifies this
      ensures calls == old(calls) + [CreateListItemCall(repo, list, subject)] && session == old(session)
    {
      calls := calls + [CreateListItemCall(repo, list, subject)];
    }
  }

  /** atproto's `IdResolver`: `handle.resolve(h)` gives the DID of h, or None. */
  class IdResolver {
    const service: Service
    var lookups: seq<Handle>

    constructor (service: Service)
      ensures this.service == service && lookups == []
    {
      this.service := service;
      lookups := [];
    }

    method Resolve(handle: Handle) returns (did: Option<Did>)
      modifies this
      ensures lookups == old(lookups) + [handle]
      ensures did == if handle in service.dids then Some(service.dids[handle]) else None
    {
      lookups := lookups + [handle];
      did := if handle in service.dids then Some(service.dids[handle]) else None;
    }
  }
}
