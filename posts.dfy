/**
 * `_link_to_at_uri`: from a post's web address
 * (https://bsky.app/profile/<handle>/post/<rkey>) to its AT URI
 * at://<did>/app.bsky.feed.post/<rkey>.
 */
module Posts {
  import opened Wrappers
  import opened Text
  import opened Atproto

  /** The collection of post records. */
  const PostCollection := "app.bsky.feed.post"

  /**
   * Segments 4 and 6 of `link.split('/')`, the author's handle and the
   * record key. Indexing past the end raises IndexError.
   */
  function PostParts(link: string): (r: Result<(Handle, string), Error>)
    ensures r.Err? <==> Occurrences(link, '/') < 6
    ensures r.Err? ==> r.error == IndexOutOfRange
    ensures r.Ok? ==> '/' !in r.value.0 && '/' !in r.value.1
  {
    var parts := Split(link, '/');
    SplitLength(link, '/');
    if |parts| <= 6 then Err(IndexOutOfRange) else Ok((parts[4], parts[6]))
  }

  /** `f"at://{did}/app.bsky.feed.post/{rkey}"` */
  function AtUri(did: Did, rkey: string): Uri {
    "at://" + did + "/" + PostCollection + "/" + rkey
  }

  /**
   * `_link_to_at_uri` against a service that knows the DIDs `dids`: the
   * IndexError of a short link, the failed `resolve_handle`, or the AT URI.
   */
  function PostUri(dids: map<Handle, Did>, link: string): Result<Uri, Error> {
    match PostParts(link)
    case Err(e) => Err(e)
    case Ok((handle, rkey)) =>
      if handle in dids then Ok(AtUri(dids[handle], rkey)) else Err(RequestFailed(ResolveHandleCall(handle)))
  }

  /**
   * The address of a post as the web app shows it,
   * https://<host>/profile/<handle>/post/<rkey>: its segments joined by '/'.
   */
  function PostUrl(host: string, handle: Handle, rkey: string): string {
    Join(["https:", "", host, "profile", handle, "post", rkey], '/')
  }

  /** The segments of a post's web address. */
  lemma PostUrlSegments(host: string, handle: Handle, rkey: string)
    requires '/' !in host && '/' !in handle && '/' !in rkey
    ensures Split(PostUrl(host, handle, rkey), '/') == ["https:", "", host, "profile", handle, "post", rkey]
  {
    SplitJoin(["https:", "", host, "profile", handle, "post", rkey], '/');
  }

  /** A web address of a post yields back its handle and record key. */
  lemma PostPartsOfUrl(host: string, handle: Handle, rkey: string)
    requires '/' !in host && '/' !in handle && '/' !in rkey
    ensures PostParts(PostUrl(host, handle, rkey)) == Ok((handle, rkey))
  {
    PostUrlSegments(host, handle, rkey);
  }

  /**
   * The AT URI has the form at://authority/collection/rkey: split on '/',
   * it gives back the DID as authority, the post collection and the key.
   */
  lemma AtUriParts(did: Did, rkey: string)
    requires '/' !in did && '/' !in rkey
    ensures Split(AtUri(did, rkey), '/') == ["at:", "", did, PostCollection, rkey]
  {
    AtUriJoin(did, rkey);
    SplitJoin(["at:", "", did, PostCollection, rkey], '/');
  }

  /** An AT URI joins its segments with '/'. */
  lemma AtUriJoin(did: Did, rkey: string)
    ensures AtUri(did, rkey) == Join(["at:", "", did, PostCollection, rkey], '/')
  {
    var parts := ["at:", "", did, PostCollection, rkey];
    assert Join(parts[3..], '/') == PostCollection + "/" + rkey;
    assert Join(parts[2..], '/') == did + "/" + PostCollection + "/" + rkey;
  }
}
