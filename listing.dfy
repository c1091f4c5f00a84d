/**
 * List-name resolution (`_get_list_uri`, and `get_list_uri` in the two
 * scripts): one `get_lists` response scanned in order for the first list
 * whose name is exactly the one asked for.
 */
module Listing {
  import opened Wrappers
  import opened Atproto

  /** Index of the first list named `name`; |lists| when none is. */
  function FirstNamed(lists: seq<ListView>, name: string): (i: nat)
    ensures i <= |lists|
    ensures forall j :: 0 <= j < i ==> lists[j].name != name
    ensures i < |lists| ==> lists[i].name == name
    decreases |lists|
  {
    if lists == [] || lists[0].name == name then 0 else 1 + FirstNamed(lists[1..], name)
  }

  /** The uri of the first list named `name`, in response order; None when no list has that name. */
  function FindList(lists: seq<ListView>, name: string): (r: Option<Uri>)
    ensures r.None? <==> forall j :: 0 <= j < |lists| ==> lists[j].name != name
    ensures r.Some? ==> exists i :: 0 <= i < |lists| && lists[i].name == name && lists[i].uri == r.value
                                    && forall j :: 0 <= j < i ==> lists[j].name != name
  {
    var i := FirstNamed(lists, name);
    if i < |lists| then Some(lists[i].uri) else None
  }

  /**
   * The outcome of asking for `actor`'s lists with `request` and scanning
   * them for `name`: the failed request, the uri, or ListNotFound(name).
   */
  function LookupList(service: Service, actor: Handle, name: string, request: Call): Result<Uri, Error> {
    if actor !in service.lists then Err(RequestFailed(request))
    else
      match FindList(service.lists[actor], name)
      case Some(uri) => Ok(uri)
      case None => Err(ListNotFound(name))
  }

  /** First match wins: a list named `name` hides every later list of that name. */
  lemma {:induction false} FindListAppend(a: seq<ListView>, b: seq<ListView>, name: string)
    ensures FindList(a + b, name) == if FindList(a, name).Some? then FindList(a, name) else FindList(b, name)
    decreases |a|
  {
    if a != [] && a[0].name != name {
      FindListAppend(a[1..], b, name);
      assert (a + b)[1..] == a[1..] + b;
      assert FirstNamed(a + b, name) == 1 + FirstNamed(a[1..] + b, name);
      assert FirstNamed(a, name) == 1 + FirstNamed(a[1..], name);
    } else if a == [] {
      assert a + b == b;
    }
  }
}
