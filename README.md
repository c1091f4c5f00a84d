# bskyTools, modelled in Dafny

bskyTools holds small command-line tools for Bluesky lists. They work through the
atproto client library:

- `BskyListTool` (`src/bsky_list_tool/bskylisttool.py`) logs in and does four things:
  - it adds every account named in a text file to one of its own lists;
  - it writes the DIDs of a list's members to a file;
  - it writes the DIDs of an account's followers to a file;
  - it writes the DIDs of a post's likers to a file.
- The mass lister (`scratch/bskyMassLister.py`) adds a file of accounts to one fixed list of one fixed account.
- The list backup script (`bskyListBackup.py`) writes the members of a named list of the fixed account to a file.

This project models these three programs and proves what they do.

- **The service.** The Bluesky service is the value `Atproto.Service`. It holds, as maps, the session each login gets, the lists that one `getLists` response holds for each actor, the pages of each paginated collection, and the DID behind each handle.
- **The clients.** atproto's `Client` and `IdResolver` are classes that answer from that value. Each records every request it sends, in order, in `calls` or `lookups`.
- **Local files.** They are `Files.FileSystem`, a class that maps paths to their text.
- **What each operation does.** Each operation of the tool is a method. Its postcondition states:
  - the exact sequence of requests the operation sends;
  - the exact text it leaves in the files;
  - the error it stops with, if any.

  Each postcondition is stated against a specification function. The main ones are:
  - `Pagination.Requests` and `Pagination.Collected`, for the cursor walks;
  - `Entries.AddOutcome`, for the line-by-line adding loop;
  - `Listing.LookupList`, for finding a list by name;
  - `Posts.PostUri`, for turning a post link into an AT URI.

  Lemmas about those functions state what the programs promise:
  - every request after the first carries the cursor of the page before it;
  - the walk stops after the first page without a cursor, and emits every item of every page it received;
  - one record is created per non-blank line, in file order;
  - handles are resolved and DIDs are not;
  - the run stops at the first handle that does not resolve;
  - the first list with the asked-for name wins;
  - a backup file, added back to a list, recreates the same members in the same order.

Files: `wrappers.dfy`, `text.dfy`, `pagination.dfy`, `atproto.dfy`, `files.dfy`, `listing.dfy`,
`credentials.dfy`, `entries.dfy`, `posts.dfy`, `output.dfy`, `tool.dfy`, `mass_lister.dfy`, `list_backup.dfy`.

## Model

| member | source | states |
|---|---|---|
| Text.IsSpace | src/bsky_list_tool/bskylisttool.py:86-87 | Python's `str.isspace` on one character: the characters `strip()` and `rstrip()` remove; no `ensures`: Text.RStrip, Text.LStrip and Text.StripEmptyIffBlank state what is cut with it |
| Text.RStrip | src/bsky_list_tool/bskylisttool.py:87 | `line.rstrip()`: the result is a prefix of the line; it does not end in whitespace; everything cut off is whitespace |
| Text.LStrip | src/bsky_list_tool/bskylisttool.py:86 | the left half of `strip()`: a suffix that does not start with whitespace; everything cut off is whitespace |
| Text.Strip | src/bsky_list_tool/bskylisttool.py:86 | `line.strip()`, defined as the left strip of the right strip; it has no `ensures`: Text.StripEmptyIffBlank states what the source relies on |
| Text.StripEmptyIffBlank | src/bsky_list_tool/bskylisttool.py:86 | `line.strip()` is empty exactly when every character of the line is whitespace |
| Text.Split | src/bsky_list_tool/bskylisttool.py:151 | `str.split('/')`: at least one piece; no piece holds the separator; joining the pieces gives back the string |
| Text.SplitJoin | src/bsky_list_tool/bskylisttool.py:151 | split inverts join when no piece holds the separator |
| Text.SplitLength | src/bsky_list_tool/bskylisttool.py:151-153 | split yields one piece more than the string has separators |
| Text.Lines | src/bsky_list_tool/bskylisttool.py:84-85 | iterating over a text file: the lines together are the text, none is empty, each but the last ends in '\n', and none holds another '\n' |
| Text.LinesAfterPiece | src/bsky_list_tool/bskylisttool.py:85 | a text that starts with a '\n'-free piece and '\n' yields that piece with its '\n' as its first line |
| Pagination.Serve | src/bsky_list_tool/bskylisttool.py:106-108 | the server's answer to a request with `cursor=cursor` (also lines 119 and 131): the first page for no cursor, the page after the one that returned the cursor, or a failure; no `ensures`: Pagination.PageAfterCursor and Pagination.ServeNext state how a walk is answered, and every walk contract rests on them |
| Pagination.PageAfterCursor | src/bsky_list_tool/bskylisttool.py:106-109 | with distinct cursors, the cursor of page k leads to page k + 1, and to nothing after the last page |
| Pagination.ServeNext | src/bsky_list_tool/bskylisttool.py:106-109 | after k pages that all carried a cursor, the next request is answered with page k, or fails when there is none |
| Pagination.FirstLast | src/bsky_list_tool/bskylisttool.py:112-113 | the index of the first page without a cursor: every page before it has one |
| Pagination.RequestsFollowCursors | src/bsky_list_tool/bskylisttool.py:103-113 | the first request carries no cursor; each later one carries the cursor of the page before it; the walk stops right after the first page without a cursor, or after one request more than there are pages |
| Pagination.ChainCollectsAll | src/bsky_list_tool/bskylisttool.py:105-113 | a collection whose pages all carry a cursor except the last is walked to its end: every item is emitted, with one request per page |
| Pagination.WalkEnded | src/bsky_list_tool/bskylisttool.py:112-113 | a walk that stops at page k sent its k requests and emitted the items of pages 0..k-1 |
| Pagination.WalkFailed | src/bsky_list_tool/bskylisttool.py:106-108 | a walk whose pages all carried a cursor ends on one more, failing, request, after emitting every item |
| Pagination.Requests | src/bsky_list_tool/bskylisttool.py:103-113 | the cursors of every request a walk sends, in order; it has no `ensures`: Pagination.RequestsFollowCursors states the request protocol it encodes |
| Pagination.Collected | src/bsky_list_tool/bskylisttool.py:105-113 | the items of every page the walk receives, in order; it has no `ensures`: Pagination.ChainCollectsAll, Pagination.WalkEnded, Pagination.WalkFailed and Pagination.FirstPagePrefix state what it holds |
| Pagination.Dids | src/bsky_list_tool/bskylisttool.py:110-111 | one DID per item, in item order |
| Pagination.Dump | src/bsky_list_tool/bskylisttool.py:110-111 | the text the `f.write(did + '\n')` lines leave (also lines 121-122, 133-134 and bskyListBackup.py:33-34): one line per item; no `ensures`: Pagination.DumpAppend, Pagination.DumpNext and Entries.LinesOfDump state its properties |
| Pagination.FlattenAppend | src/bsky_list_tool/bskylisttool.py:110 | the items of two runs of pages are the items of the first run, then those of the second |
| Pagination.FlattenNext | src/bsky_list_tool/bskylisttool.py:110 | receiving page k adds exactly its items, after those received before it |
| Pagination.DumpAppend | src/bsky_list_tool/bskylisttool.py:111 | the lines written for two runs of items are those of the first run, then those of the second |
| Pagination.DumpNext | src/bsky_list_tool/bskylisttool.py:111 | writing item j adds exactly its line `did + '\n'` |
| Pagination.DumpNextPage | src/bsky_list_tool/bskylisttool.py:110-111 | receiving page k appends that page's lines to the file |
| Pagination.FirstPagePrefix | bskyListBackup.py:28-34 | the first page's items are a prefix of what a full walk collects, and all of it when the first page has no cursor |
| Atproto.Client.constructor | src/bsky_list_tool/bskylisttool.py:36 | `Client()`: no session yet, no request sent |
| Atproto.Client.Login | src/bsky_list_tool/bskylisttool.py:38-41 | `login` records its call; it holds the service's session for a known login, and otherwise fails with the session unchanged |
| Atproto.Client.ExportSession | src/bsky_list_tool/bskylisttool.py:74 | `export_session_string()` returns the session the client holds |
| Atproto.Client.GetLists | src/bsky_list_tool/bskylisttool.py:139-141 | one `get_lists(actor)` request, answered with the lists of its one response page or failing |
| Atproto.Client.XrpcGetLists | scratch/bskyMassLister.py:37-38 | one raw GET of `getLists?actor=`, answered with the lists of its one response page or failing |
| Atproto.Client.GetList | src/bsky_list_tool/bskylisttool.py:106-108 | one `get_list` request, answered as the server serves the cursor |
| Atproto.Client.GetFollowers | src/bsky_list_tool/bskylisttool.py:119 | one `get_followers` request, answered as the server serves the cursor |
| Atproto.Client.GetLikes | src/bsky_list_tool/bskylisttool.py:131 | one `get_likes` request, answered as the server serves the cursor |
| Atproto.Client.ResolveHandle | src/bsky_list_tool/bskylisttool.py:154 | one `resolve_handle` request: the handle's DID, or a failed request |
| Atproto.Client.CreateListItem | src/bsky_list_tool/bskylisttool.py:92-99 | one `listitem.create` request in `repo` for `subject` on `list`; the session is unchanged |
| Atproto.IdResolver.constructor | src/bsky_list_tool/bskylisttool.py:37 | `IdResolver()`: no lookup yet |
| Atproto.IdResolver.Resolve | src/bsky_list_tool/bskylisttool.py:91 | `handle.resolve(h)` records the lookup and gives h's DID, or None for an unknown handle |
| Files.FileSystem.Create | src/bsky_list_tool/bskylisttool.py:75 | `open(path, 'w')` leaves the file empty and every other file unchanged |
| Files.FileSystem.Write | src/bsky_list_tool/bskylisttool.py:76 | `f.write(text)` appends the text to that file only |
| Credentials.ConfigCredentials | src/bsky_list_tool/bskylisttool.py:50-60 | the handle is `my_handle`; the password is `app_password`, but only when `my_handle` is also present, because the first missing option ends the reading |
| Credentials.SelectCredentials | src/bsky_list_tool/bskylisttool.py:19-41 | an argument wins over the config value; a missing handle is reported before a missing password; a saved token selects session login, else password login |
| Listing.FirstNamed | src/bsky_list_tool/bskylisttool.py:142-145 | the index of the first list with the name: no earlier list has it |
| Listing.FindList | src/bsky_list_tool/bskylisttool.py:142-147 | None exactly when no list has the name; otherwise the uri of the first list that has it |
| Listing.LookupList | src/bsky_list_tool/bskylisttool.py:138-148 | the outcome of one `get_lists` request and the scan: the failed request, the uri FindList gives, or ListNotFound; the same function serves `get_list_uri` in scratch/bskyMassLister.py and bskyListBackup.py; it has no `ensures`: Listing.FindList and Listing.FindListAppend state the first-match rule |
| Listing.FindListAppend | src/bsky_list_tool/bskylisttool.py:142-145 | first match wins: a match among earlier lists hides every later list of that name |
| Entries.NormalizeMeaning | src/bsky_list_tool/bskylisttool.py:86-90 | a line is skipped exactly when it strips to nothing; otherwise the entry is the right-stripped line without one leading '@', and it is a DID exactly when it starts with "did:" |
| Entries.Normalize | src/bsky_list_tool/bskylisttool.py:86-90 | one input line: skipped when blank, else right-stripped, one leading '@' dropped, a DID when it starts with "did:"; the mass lister's lines 57-61 do the same; it has no `ensures`: Entries.NormalizeMeaning states its meaning |
| Entries.EntryOutcome | src/bsky_list_tool/bskylisttool.py:88-99 | one accepted entry: a DID gives one create and no lookup; a handle gives one lookup, then a create with its DID or the error Unresolved; it has no `ensures`: Entries.EntriesOutcomeFails and Entries.EntriesOutcomeCreates state its effect over a run |
| Entries.LineOutcome | src/bsky_list_tool/bskylisttool.py:86-99 | one iteration of the loop: nothing for a blank line, else what its entry does; no `ensures`: Entries.StepsAt and Entries.AddOutcomeNext state that the loop is these steps in order |
| Entries.AddOutcome | src/bsky_list_tool/bskylisttool.py:84-99 | the lookups, creates and stopping error of the loop over a file's lines; the mass lister's lines 55-63 are the same loop; it has no `ensures`: Entries.AddOutcomeFollowsEntries, Entries.AddOutcomeAppend, Entries.AddOutcomeStopped and Entries.BackupThenAdd state its properties |
| Entries.Creates | src/bsky_list_tool/bskylisttool.py:92-99 | one create request per subject |
| Entries.CreatesEach | src/bsky_list_tool/bskylisttool.py:92-99 | request i creates the list item for subject i, in the tool's repo, on the list |
| Entries.CreatesAppend | src/bsky_list_tool/bskylisttool.py:92-99 | the creates for two runs of subjects are those of the first run, then those of the second |
| Entries.CreatesThen | src/bsky_list_tool/bskylisttool.py:85-99 | the creates logged after one more step of the loop are those of the run extended by that step |
| Entries.AddOutcomeAppend | src/bsky_list_tool/bskylisttool.py:84-99 | the lines of two texts run as the first text's lines, then, unless they stopped, the second's |
| Entries.AddOutcomeNext | src/bsky_list_tool/bskylisttool.py:85 | the run over the first i + 1 lines is the run over the first i, then line i |
| Entries.AddOutcomeStopped | src/bsky_list_tool/bskylisttool.py:91 | once a run has stopped, further lines change nothing |
| Entries.StoppedAt | src/bsky_list_tool/bskylisttool.py:91 | when line i stops the run, the rest of the file is never acted on |
| Entries.Steps | src/bsky_list_tool/bskylisttool.py:85 | one step per line |
| Entries.StepsAt | src/bsky_list_tool/bskylisttool.py:85-99 | step i is what line i does on its own |
| Entries.AddOutcomeChain | src/bsky_list_tool/bskylisttool.py:85-99 | a run over lines is the chain of what each line does on its own |
| Entries.ChainAppend | src/bsky_list_tool/bskylisttool.py:85 | chaining two runs of steps is the first chain, then the second |
| Entries.ChainNext | src/bsky_list_tool/bskylisttool.py:85 | the chain of the first i + 1 steps is the chain of the first i, then step i |
| Entries.ChainStopped | src/bsky_list_tool/bskylisttool.py:91 | once step i has stopped the chain, later steps change nothing |
| Entries.AddOutcomeIsEntries | src/bsky_list_tool/bskylisttool.py:86 | blank lines do nothing: a run over lines is the run over their accepted entries |
| Entries.EntriesOutcomeFails | src/bsky_list_tool/bskylisttool.py:90-91 | a run over entries fails exactly when some handle among them is unknown to the resolver |
| Entries.EntriesOutcomeCreates | src/bsky_list_tool/bskylisttool.py:88-99 | a run that does not fail creates one record per entry, in order, with the entry's DID or its handle's DID, and looks up exactly the handles |
| Entries.AddOutcomeFollowsEntries | src/bsky_list_tool/bskylisttool.py:84-99 | for a whole file: it fails exactly when an accepted handle does not resolve; otherwise it creates one record per accepted line, in file order, and never looks up a DID line |
| Entries.AddOutcomeTwice | src/bsky_list_tool/bskylisttool.py:84-99 | nothing is deduplicated: a file given twice creates every record twice |
| Entries.NormalizeDidLine | src/bsky_list_tool/bskylisttool.py:86-90 | a line `did + '\n'` is read back as exactly that DID |
| Entries.LinesOfDump | src/bsky_list_tool/bskylisttool.py:110-111 | the lines of a written DID file are the DIDs, each with its '\n' |
| Entries.AddDidLines | src/bsky_list_tool/bskylisttool.py:86-99 | lines each holding one DID create those DIDs, in order, with no lookup |
| Entries.BackupThenAdd | src/bsky_list_tool/bskylisttool.py:101-113 | round trip: adding a file written by a walk creates the same DIDs in the same order, with no lookup and no error |
| Posts.PostParts | src/bsky_list_tool/bskylisttool.py:151-153 | IndexError exactly when the link has fewer than six '/'; otherwise segments 4 and 6, neither holding a '/' |
| Posts.AtUri | src/bsky_list_tool/bskylisttool.py:155 | `f"at://{did}/app.bsky.feed.post/{rkey}"`; it has no `ensures`: Posts.AtUriJoin and Posts.AtUriParts state that it splits back into DID, collection and key |
| Posts.PostUri | src/bsky_list_tool/bskylisttool.py:150-156 | `_link_to_at_uri` against the service's DIDs: the IndexError of a short link, the failed `resolve_handle`, or the AT URI; it has no `ensures`: Posts.PostParts and Posts.PostPartsOfUrl state how the link is read, and Tool.BskyListTool.LinkToAtUri is proved against it |
| Posts.PostUrlSegments | src/bsky_list_tool/bskylisttool.py:151 | a post's web address splits on '/' into its seven segments |
| Posts.PostPartsOfUrl | src/bsky_list_tool/bskylisttool.py:151-153 | from https://host/profile/handle/post/rkey the link yields back exactly the handle and the record key |
| Posts.AtUriJoin | src/bsky_list_tool/bskylisttool.py:155 | `at://{did}/app.bsky.feed.post/{rkey}` is its segments joined by '/' |
| Posts.AtUriParts | src/bsky_list_tool/bskylisttool.py:155 | the AT URI splits back into its DID, the post collection and the record key |
| Output.WriteDids | src/bsky_list_tool/bskylisttool.py:110-111 | the inner write loop appends the items' lines to that file and changes no other file |
| Output.WritePage | src/bsky_list_tool/bskylisttool.py:110-111 | after page k is written, the file holds the lines of pages 0..k |
| Output.MemberDid | src/bsky_list_tool/bskylisttool.py:111 | `entry.subject.did`, the line written per list member; no `ensures` |
| Output.FollowerDid | src/bsky_list_tool/bskylisttool.py:122 | `follower.did`, the line written per follower; no `ensures` |
| Output.LikerDid | src/bsky_list_tool/bskylisttool.py:134 | `like.actor.did`, the line written per like; no `ensures` |
| Tool.ListRequests | src/bsky_list_tool/bskylisttool.py:106-107 | the `get_list` requests of a walk, each with `limit=100` (`PageLimit`) and the cursor sent; no `ensures`: Tool.ListRequestsNext and Tool.BskyListTool.WalkList state the requests a walk sends |
| Tool.FollowerRequests | src/bsky_list_tool/bskylisttool.py:119 | the `get_followers` requests of a walk, each with `limit=100` and the cursor sent; no `ensures`: Tool.FollowerRequestsNext and Tool.BskyListTool.GetFollowers state the requests a walk sends |
| Tool.LikeRequests | src/bsky_list_tool/bskylisttool.py:131 | the `get_likes` requests of a walk, each with `limit=100` and the cursor sent; no `ensures`: Tool.LikeRequestsNext and Tool.BskyListTool.WalkLikes state the requests a walk sends |
| Tool.ListRequestsNext | src/bsky_list_tool/bskylisttool.py:107 | proof helper for the loop: the request after k pages is `get_list` with `limit=100` and the cursor of page k - 1 |
| Tool.FollowerRequestsNext | src/bsky_list_tool/bskylisttool.py:119 | proof helper for the loop: the request after k pages is `get_followers` with `limit=100` and the cursor of page k - 1 |
| Tool.LikeRequestsNext | src/bsky_list_tool/bskylisttool.py:131 | proof helper for the loop: the request after k pages is `get_likes` with `limit=100` and the cursor of page k - 1 |
| Tool.ReadTokenFromFile | src/bsky_list_tool/bskylisttool.py:63-71 | the file's whole text when the token file exists, None otherwise |
| Tool.BskyListTool.constructor | src/bsky_list_tool/bskylisttool.py:34-37 | sets the token file and handle, with a fresh client and resolver |
| Tool.BskyListTool.Open | src/bsky_list_tool/bskylisttool.py:17-41 | `__init__`: the selected credentials' error, the failed login, or a logged-in tool whose only request was that login |
| Tool.BskyListTool.SaveToken | src/bsky_list_tool/bskylisttool.py:73-76 | the token file is overwritten with the current session, and no other file changes |
| Tool.BskyListTool.Exit | src/bsky_list_tool/bskylisttool.py:46-47 | leaving the `with` block saves the session |
| Tool.BskyListTool.GetListUri | src/bsky_list_tool/bskylisttool.py:138-148 | one `get_lists(owner)` request, and the uri of the first list with the name, ListNotFound, or the failed request |
| Tool.BskyListTool.LinkToAtUri | src/bsky_list_tool/bskylisttool.py:150-156 | the AT URI of the linked post; IndexError with no request for a short link; one resolve request otherwise |
| Tool.BskyListTool.AddFileToList | src/bsky_list_tool/bskylisttool.py:78-99 | a missing file fails before any request; then one `get_lists` request; then exactly the lookups and creates of the run over the file's lines, stopping at its error |
| Tool.BskyListTool.AddLines | src/bsky_list_tool/bskylisttool.py:84-99 | the loop sends exactly the creates of `AddOutcome`, looks up exactly its handles, and ends with its error |
| Tool.BskyListTool.AddLine | src/bsky_list_tool/bskylisttool.py:85-99 | one iteration extends the logged run by exactly the step of line i |
| Tool.BskyListTool.AddEntry | src/bsky_list_tool/bskylisttool.py:88-99 | a DID is created as it is; a handle is looked up, then created, or ends the run as Unresolved with no create |
| Tool.BskyListTool.BackupList | src/bsky_list_tool/bskylisttool.py:101-113 | the list lookup's error with the file untouched, or the walk: requests with the cursors of `Requests`, the file holding every collected member's DID, an error exactly when the walk is incomplete, and that error is the failed request with the last cursor |
| Tool.BskyListTool.WalkList | src/bsky_list_tool/bskylisttool.py:103-113 | the loop sends the requests of `Requests(pages)` and leaves the file holding the DIDs of `Collected(pages)`; it succeeds exactly when the collection is complete, and otherwise fails with the `get_list` request that carried the last page's cursor |
| Tool.BskyListTool.FetchMembers | src/bsky_list_tool/bskylisttool.py:106-111 | one iteration: one request with the next cursor; it fails exactly after the last page; otherwise page k's members are appended and its cursor is returned |
| Tool.BskyListTool.GetFollowers | src/bsky_list_tool/bskylisttool.py:115-124 | the same walk over the actor's followers, writing `follower.did`; a failure is the `get_followers` request that carried the last cursor |
| Tool.BskyListTool.FetchFollowers | src/bsky_list_tool/bskylisttool.py:119-122 | one iteration of the followers loop, as for FetchMembers |
| Tool.BskyListTool.GetLikes | src/bsky_list_tool/bskylisttool.py:126-136 | the link's error with no file touched, or the walk over the post's likes after one resolve request, writing `like.actor.did` |
| Tool.BskyListTool.WalkLikes | src/bsky_list_tool/bskylisttool.py:128-136 | the likes loop sends the requests of `Requests(pages)` and writes the likers of `Collected(pages)`; a failure is the `get_likes` request that carried the last cursor |
| Tool.BskyListTool.FetchLikes | src/bsky_list_tool/bskylisttool.py:131-134 | one iteration of the likes loop, as for FetchMembers |
| MassLister.ListsRequest | scratch/bskyMassLister.py:37 | the raw GET of `https://public.api.bsky.app/xrpc/app.bsky.graph.getLists?actor=chaosbengel.de`; no `ensures`: MassLister.GetListUri states that it is the one request sent |
| MassLister.AddUserToList | scratch/bskyMassLister.py:22-30 | one create request, always in the fixed account's repo |
| MassLister.GetUserDid | scratch/bskyMassLister.py:32-33 | one lookup: the handle's DID, or None exactly when the resolver does not know it |
| MassLister.GetListUri | scratch/bskyMassLister.py:35-44 | one raw `getLists` request for the fixed account, then the first list named "Hatespam", whatever name was passed |
| MassLister.AddEntry | scratch/bskyMassLister.py:59-63 | a DID is added as it is; a handle is resolved first, and an unknown one ends the run with no create |
| MassLister.AddLine | scratch/bskyMassLister.py:56-63 | one iteration extends the logged run by exactly the step of line i |
| MassLister.AddLines | scratch/bskyMassLister.py:55-63 | the loop sends exactly the creates of `AddOutcome`, in the fixed repo, and looks up exactly its handles |
| MassLister.AddFile | scratch/bskyMassLister.py:54-63 | the list lookup comes first, then the file is opened; a missing file is noticed only after the lookup |
| MassLister.Run | scratch/bskyMassLister.py:47-63 | `main`: login, list lookup and file each end the run on failure, with exactly the requests sent so far; otherwise the run over the file's lines |
| ListBackup.ListsRequest | bskyListBackup.py:19 | the raw GET of `https://public.api.bsky.app/xrpc/app.bsky.graph.getLists?actor=chaosbengel.de`; no `ensures`: ListBackup.GetListUri states that it is the one request sent |
| ListBackup.GetListUri | bskyListBackup.py:17-26 | one raw `getLists` request for the fixed account, then the first list with the given name, or ListNotFound |
| ListBackup.BackupRequest | bskyListBackup.py:29-31 | the single `get_list` call with neither limit nor cursor; no `ensures`: ListBackup.BackupList states that it is the one request sent |
| ListBackup.BackupList | bskyListBackup.py:28-34 | as written: one `get_list` request with no limit and no cursor; on success the file holds the first page's members only |
| ListBackup.FirstPageOnly | bskyListBackup.py:28-34 | when the first page has a cursor and the second has members, what the script writes is a proper prefix of the list |
| ListBackup.SecondPageLost | bskyListBackup.py:28-34 | on a two-page list, the script writes only the first member, where a full walk writes both |
| ListBackup.Run | bskyListBackup.py:37-45 | `main`: login, then list lookup, then backup; each failure ends the run with the file untouched |

## Left out

- Argument parsing and the command dispatch of each `__main__` block are not modelled. The model's entry points are the operations those blocks call.
- Real I/O is not modelled. Files are a map from path to text. Reading a file is `Text.Lines`, which splits on '\n' only; universal-newline translation of "\r\n" and "\r" is not modelled.
- The config file's syntax is not parsed. `Tool.BskyListTool.Open` takes the options of the file's single section as a map, or None when the file does not exist. ConfigParser's case-insensitive keys are not modelled.
- `Path(None)` and the `is not Path` test are left out. Paths are strings, and a token file or config file is always named.
- The app password of the two scripts comes from the environment variable `BSKY_APP_PASS`. Here it is a parameter of `Run`. An unset variable (None) is not modelled.
- Record timestamps (`created_at=client.get_current_time_iso()`) are not part of a create request: the model has no clock.
- Every create request succeeds. A create the service refuses is not modelled.
- Exceptions become an `Error` value that ends the operation.
  - An unknown handle is the error `Unresolved`, raised before the create. In the library, `resolve` returns None, and the create then fails on a None subject.
  - A failing service request is `RequestFailed` with the request itself.
- The server is a fixed value. Page sizes are not modelled: `Pagination.Serve` and the client's `GetList`, `GetFollowers` and `GetLikes` record the `limit` of a request but answer from the same split into pages whatever it is. So the tool's `limit=100` walk and the backup script's request without a limit (the server's default page size) see the same first page. The backup finding holds for any split in which the first page carries a cursor.
- Listing.LookupList: list lookup sees one page only. `_get_list_uri` and both `get_list_uri` copies send one `getLists` request with no limit and no cursor and never follow a cursor. `Service.lists[actor]` is that one response, not necessarily all of the actor's lists. A list beyond it is reported as ListNotFound, as the source reports it; the model does not describe which lists the server puts in that first response.
- Tool.BskyListTool.BackupList: requires `client.service.Valid()`, meaning each collection hands out each cursor once. The same holds for WalkList, GetFollowers, GetLikes and WalkLikes. Without it the source's `while True` loop need not terminate. The model assumes a well-behaved server rather than modelling divergence.
- The identity resolver's DID-document checks and caching, and the HTTP layer under `client.request.get`, are not modelled. A request is answered from the service value.
- MassLister.GetListUri: models the source as written. It ignores its `list_name` argument and always looks for "Hatespam"; the only caller passes that same name.
- The `ListNotFoundException` message texts (including the German one) are not modelled. The error keeps only the list name.

## Findings

| source | as written | input that shows it | evidently intended | confidence | as-written member | corrected member |
|---|---|---|---|---|---|---|
| bskyListBackup.py:28-34 | `backup_list` sends one `get_list` request and writes only the members on the first page; the page's cursor is never followed | a list whose first page carries a cursor and whose second page holds `did:plc:b`: the file gets `did:plc:a\n` only, where the full list is `did:plc:a\ndid:plc:b\n` | back up every member of the list, following the cursors page after page, as `backup_list` in `src/bsky_list_tool/bskylisttool.py:101-113` does | not executed | ListBackup.SecondPageLost | Tool.BskyListTool.WalkList |
