/**
 * What the DID dumps write: the field of each record that becomes a line,
 * and the loops that append `did + '\n'` per record to an open file.
 * Shared by `BskyListTool`'s walks and the list backup script.
 */
module Output {
  import opened Pagination
  import opened Atproto
  import opened Files

  /** `entry.subject.did`, `follower.did` and `like.actor.did`: what each output line holds. */
  function MemberDid(item: ListItem): Did { item.subject.did }
  function FollowerDid(follower: Profile): Did { follower.did }
  function LikerDid(like: Like): Did { like.actor.did }

  /** The inner write loop of the walks and of the backup script: one line per item, appended to the open file. */
  method WriteDids<T>(fs: FileSystem, file: Path, items: seq<T>, did: T -> string)
    requires file in fs.files
    modifies fs
    ensures fs.files == old(fs.files)[file := old(fs.files)[file] + Dump(items, did)]
  {
    ghost var start := fs.files[file];
    assert start + Dump(items[..0], did) == start;
    for j := 0 to |items|
      invariant fs.files == old(fs.files)[file := start + Dump(items[..j], did)]
    {
      DumpNext(items, j, did);
      fs.Write(file, did(items[j]) + "\n");
      assert start + Dump(items[..j + 1], did) == start + Dump(items[..j], did) + (did(items[j]) + "\n");
    }
    assert items[..|items|] == items;
  }

  /** Writes out the k-th page of a walk whose first k pages are already in `file`. */
  method WritePage<T>(fs: FileSystem, file: Path, items: seq<T>, did: T -> string,
                      ghost pages: seq<Page<T>>, ghost k: nat, ghost files0: map<Path, string>)
    requires k < |pages| && items == pages[k].items
    requires fs.files == files0[file := Dump(Flatten(pages[..k]), did)]
    modifies fs
    ensures fs.files == files0[file := Dump(Flatten(pages[..k + 1]), did)]
  {
    ghost var written := Dump(Flatten(pages[..k]), did);
    WriteDids(fs, file, items, did);
    assert fs.files == files0[file := written + Dump(items, did)];
    DumpNextPage(pages, k, did);
  }
}
