# Upload-to-new-branch, modelled in Dafny

The backend of this application uploads a local folder to a hosted
repository. It puts the folder on a new branch, as a single commit. All of
its logic is in `backend/services.js`, which has three parts. This project
models each part and proves what the code decides.

* **Branch names** (`generateTimestamp`): the name
  `build-YYYY-MM-DD-HH-MM-SS` built from the moment of the upload.
  Module `Timestamp`, file `timestamp.dfy`. The clock is a parameter
  (`DateTime`: the values of `getFullYear`, `getMonth`, `getDate`,
  `getHours`, `getMinutes`, `getSeconds`). `String(n)` and
  `padStart(2, "0")` are written out (`NatToString`, `IntToString`,
  `PadStart2`). A parser, `ParseBranchName`, is the inverse of the
  formatter. Proving that it recovers the moment shows the exact shape of
  the name and that distinct moments give distinct names.
* **Folder walk** (`gatherFiles`): a folder becomes a flat list of
  `{ path, content }` records. Module `Files`, file `files.dfy`. The
  folder is an `Item` tree (`File` or `Directory`) in the order
  `fs.readdir` lists it, and each file already carries its text.
  `GatherFiles` is the loop of the source, with its recursion into
  directories. It is proved equal to the function `Flatten`. The lemmas
  then prove the following about `Flatten`:
  * the order is depth-first and follows the listing;
  * there is one entry per file and none per directory;
  * each entry's path is the chain of names from the root, joined with `/`.
* **Upload sequence** (`initializeEmptyRepo`, `uploadWithNewBranch`):
  module `Upload`, file `upload.dfy`. The provider is an oracle
  `(position, request) -> reply`. Each method returns the trace of
  requests it sent, each with the reply it got, and the outcome: the new
  branch's name or the error it threw. `uploadWithNewBranch` is split
  into the stages the source runs one after another:
  * `ResolveBaseBranch` is the first lookup, with the 409 handling and
    the README creation;
  * `StartBranch` covers the second lookup, `createRef` and `getCommit`;
  * `CreateBlobs` is the `Promise.all` over the files;
  * `FinishCommit` covers `createTree`, `createCommit` and `updateRef`.

  `CommitFolder` and `UploadWithNewBranch` put the stages together. The
  predicate `FollowsPlan` states what every upload sends after the first
  lookup, as far as it got, whatever the answers. Each request is the one
  the code sends next, given the answers before it. `CommittedAsNewBranch`
  is that sequence sent in full, with every answer a success.

`options.dfy` holds the `Option` type used by the modules.

## Model

| member | source | states |
|---|---|---|
| `Timestamp.NatToString` | backend/services.js:17-24 | `String(n)` of a field: at least one character, all decimal digits. There is a leading `'0'` exactly for the value 0. It has one digit exactly below 10, and at most two exactly below 100 |
| `Timestamp.IntToString` | backend/services.js:17 | `String(year)`: never empty, and starts with `'-'` exactly when the year is negative |
| `Timestamp.PadStart2` | backend/services.js:17-24 | `padStart(2, "0")`: the length is 2, or the input's length when that is longer (nothing is cut). The input is the suffix, and everything before it is `'0'` |
| `Timestamp.FieldShape` | backend/services.js:17-24 | `Field(n)`, which is `String(n).padStart(2, "0")`, is all digits and at least two long. It is exactly two long when the value is below 100, and it always ends with every digit of the value, so nothing is cut |
| `Timestamp.NatToStringRoundTrip` | backend/services.js:17-24 | Reading the decimal rendering of `n` gives `n` back |
| `Timestamp.IntToStringRoundTrip` | backend/services.js:17 | Reading the rendered year, sign included, gives the year back |
| `Timestamp.FieldDigits` | backend/services.js:17-24 | A field value below 100 renders as exactly two decimal digits that read back as the value. Its first digit is `'0'` exactly when the value is below 10 |
| `Timestamp.MonthField` | backend/services.js:17-18 | The month field is `getMonth() + 1`. For the indices 0..11 it is two digits reading 1..12, so "01".."12": it starts with `'0'` for indices 0..8 and with `'1'` for 9..11 |
| `Timestamp.DashedRoundTrip` | backend/services.js:17-24 | The fields after the year, each written after a dash, are 3 characters per field and read back as the same values |
| `Timestamp.BranchNameShape` | backend/services.js:15-25 | `BranchName(t)`, which is `generateTimestamp`, starts with `build-`. When the later fields are two-digit, it is that prefix, the rendered year, then 15 characters. What the name encodes is stated by the next two rows |
| `Timestamp.ParseBranchNameRoundTrip` | backend/services.js:15-25 | Every generated name has the shape `build-<year>-MM-DD-hh-mm-ss` with two-digit fields, and parsing it gives back the exact moment it was made from |
| `Timestamp.BranchNameInjective` | backend/services.js:14-25 | Two different moments, whose later fields are all below 100 (always true of a `Date`), never give the same branch name |
| `Files.JoinShape` | backend/services.js:62 | `Join(base, name)`, which is `path.join(basePath, item.name)` for a plain name, ends with the name. Under the empty base it is the name alone; otherwise it is the base, a `/`, then the name |
| `Files.GatherFiles` | backend/services.js:56-73 | The loop over the listing, with recursion into directories, returns exactly `Flatten(items, basePath)` |
| `Files.FlattenAppend` | backend/services.js:60-70 | Walking two listings one after the other gives the first walk's entries followed by the second's |
| `Files.FlattenSplice` | backend/services.js:60-70 | The entries of the item at position i sit whole, in place: after those of the items listed before it and before those of the items listed after it. A directory's walk is spliced in depth-first |
| `Files.FlattenCount` | backend/services.js:56-73 | The walk has exactly one entry per file at any depth, and none for directories |
| `Files.FlattenSound` | backend/services.js:56-73 | Every entry is a file reached by a chain of item names from the root. Its path is that chain joined onto the base, and its content is that file's text |
| `Files.ItemEntriesSound` | backend/services.js:61-69 | The same for the entries of one item: the file itself, or a file reached through the directory |
| `Files.FlattenComplete` | backend/services.js:56-73 | Every file reached by a chain of names from the root has an entry whose path is that chain joined onto the base and whose content is the file's text |
| `Files.ItemEntriesComplete` | backend/services.js:61-69 | The same for one item: a file gives its own entry, and a directory includes every file under it |
| `Upload.HeadsRef` | backend/services.js:90 | The ref `heads/<branch>`, as used by `getRef` and `updateRef`, names the branch |
| `Upload.FullRef` | backend/services.js:125 | The ref `refs/heads/<branch>`, as used by `createRef`, names the same branch as `heads/<branch>` |
| `Upload.ReadmeText` | backend/services.js:32-34 | The README is `# <repo>`, an empty line, then the description. An empty (falsy) description is replaced by "New repository created via GitHub API.", so the body after the heading is never empty |
| `Upload.InitializeEmptyRepo` | backend/services.js:28-54 | The one request sent: create `ReadME.md` with message "Initial commit: Added README" and the README text, on the given branch of the given repository |
| `Upload.ResolveBaseBranch` | backend/services.js:84-108 | The first request is `getRef heads/<mainBranch>`. A second request is sent exactly when that lookup fails with 409, and it is the README creation on `mainBranch` with the description "Initial repository setup". A failure other than 409 stops everything at one request, and that error is thrown unchanged |
| `Upload.StartBranch` | backend/services.js:114-135 | Second `getRef` of the base branch, then `createRef refs/heads/<name>` at exactly the SHA it returned, then `getCommit` of that same SHA. The first failure stops the stage. Its error is the one thrown, every earlier request having succeeded. Every request goes to the repository and none creates a file |
| `Upload.CreateBlobs` | backend/services.js:137-152 | One `createBlob` (utf-8) per gathered file, in order, all of them sent, all to the repository. The stage fails exactly when some blob failed, with that blob's error. Otherwise the tree entries match the files one to one and in order: the file's path, mode `100644`, type `blob` and that file's blob SHA |
| `Upload.FinishCommit` | backend/services.js:154-174 | `createTree` on the given base tree with the given entries, then `createCommit` with message "Latest code with <name>", the SHA of the new tree and parents exactly `[latestCommitSha]`. Then `updateRef heads/<name>` to the new commit's SHA. The first failure stops the stage, every earlier request having succeeded, and its error is the one thrown |
| `Upload.BuildCommit` | backend/services.js:137-174 | The blob batch, then the tree, the commit and the ref update. On every path, failed or not, the requests are these as far as they went (`BuildPlan`). The whole batch of one blob per file is always sent. A tree is sent only after every blob succeeded, with entries that match the blobs one to one, on the given base tree. The commit's only parent is the given commit, and the ref moved is the new branch. It succeeds exactly when every answer succeeded, and then all `n + 3` requests were sent. An error either stops the requests at the failing one, with all before it succeeded, or ends them with the whole blob batch it failed in. No request creates a file |
| `Upload.PlanTouchesOnlyNewBranch` | backend/services.js:122-174 | In any upload's requests after the first lookup, failed or not, the only ref created is the new branch, at the SHA the lookup returned, as the second request. The only ref moved is that same branch, as the last request of a complete sequence |
| `Upload.ReadmeOnlyOnEmpty` | backend/services.js:84-108 | Given what `UploadWithNewBranch` ensures, a file is created exactly once and only after a 409: as the second request, when the first lookup answered 409 |
| `Upload.ResolvedThenCommitted` | backend/services.js:84-118 | The upload's requests are the resolved head followed by `CommitFolder`'s. `Resolved` points exactly at the second lookup. The whole succeeds exactly when every answer but a leading 409 succeeded |
| `Upload.FailedAfterResolved` | backend/services.js:84-177 | A fail-fast error of `CommitFolder` stays fail-fast for the whole upload, once the leading 409 is set aside |
| `Upload.CommitFolder` | backend/services.js:114-177 | The stages in order, addressed to the same repository and never creating a file. On every path, failed or not, each request is the one the code sends next given the answers before it (`FollowsPlan`). So `createRef` names the new branch at exactly the SHA the second lookup returned, and nothing after that lookup is sent when it failed. It returns the branch name exactly when every answer succeeded, and the trace is then `CommittedAsNewBranch`. An error is fail-fast. Either the requests stop at the failing one, every earlier one having succeeded, and its status is the one thrown. Or the failure is inside the blob batch, which `Promise.all` sends whole: the requests end with that batch, everything before it succeeded, and the status is a failed blob's |
| `Upload.UploadWithNewBranch` | backend/services.js:76-178 | The first request is the lookup of the base branch. After a 409 comes the README creation on that branch. Any other failure of the lookup is rethrown with nothing else sent. Every later request goes to the chosen repository and creates no file. Each one is the one the code sends next given the answers before it (`FollowsPlan`), on failed uploads as well as successful ones. Success happens exactly when no answer but that 409 failed. Any error is fail-fast over the whole upload: past a 409, the requests stop at the failing one, every earlier one having succeeded, or end with the blob batch it failed in. This covers a failed README creation, a failed second lookup and every later step. On success the name returned is `BranchName(now)`, and the rest of the trace is the full `CommittedAsNewBranch` sequence: `createRef` at the resolved SHA, blobs and tree entries one to one with `gatherFiles`' output, the commit's only parent the resolved SHA, and `createRef`/`updateRef` naming the returned branch |

## Left out

- `createOctokitInstance` (backend/services.js:7-12) and everything the provider does with the requests, such as merging the tree with `base_tree` or ref semantics. Replies are opaque oracle inputs.
- Base64 encoding of the README (backend/services.js:35) is a library call. `CreateFile` carries the README text before encoding.
- `Upload.ReadmeText`: a falsy description (`undefined`, `null`, `""`) is represented by the empty string. `uploadWithNewBranch` always passes "Initial repository setup", so the default text never appears on that path.
- Errors are represented by an integer status. An error with no HTTP status (a network failure, say) is one whose status is not 409, and it is rethrown as the code does.
- `Upload.CreateBlobs`: `Promise.all` rejects with the error of whichever blob fails first in time. The model reports the first failed blob in file order, which is one of the possible outcomes. Sending is modelled sequentially; all blob requests are sent in either case, and `Promise.all` keeps the input order for the entries.
- The default value `"main"` of the `mainBranch` parameter (backend/services.js:81). The model takes the base branch name as given, which is what the frontend supplies (the repository's default branch).
- The wall clock (`new Date()`) and local time zones. The moment is a `DateTime` parameter. `Timestamp.BranchNameInjective` cannot make two uploads in the same second distinct, and neither can the source.
- Filesystem access: `fs.readdir`, `fs.readFile` and their failures, and the absolute `fullPath`. The folder is an `Item` tree whose files carry their text. Entries that are not directories (symlinks and other special files) are treated as files, as `isDirectory()` is false for them. The full normalisation of `path.join` is replaced by the plain join that listing names need (no `.`, `..` or `/` in a name).
- `console` logging, and the frontend (`frontend/src/components/GithubIntegration.js`): React UI, `localStorage`, `fetch` and the OAuth exchange.
