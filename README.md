# ad_hierarchy cache update, modelled in Dafny

This project models the core of `hierarchy.py` from the ad_hierarchy repository.
That core is `create_AD_json` together with `check_path_exists_is_file`.

`create_AD_json` checks that the JSON cache path is an existing regular file. It asks
the Active Directory for the groups matching a query and takes each group's
distinguished name (DN) from the entry's string form. It asks for each group's member
users and resolves each user's uid with `getpwnam`. From these it builds the snapshot
`{root_group_name: [{group: [{user: uid}, ...]}, ...]}`. It then loads the cache. When
the cache differs from the snapshot, it copies the cache to a timestamped archive
beside it and writes the snapshot through the `"r+"` handle it loaded the cache with.

Modules, one file each:

- `Wrappers` (`wrappers.dfy`): the `Option` and `Result` types.
- `Text` (`text.dfy`): Python's argument-less `str.split()` and the "second token" taken from a directory entry.
- `Timestamp` (`timestamp.dfy`): the `%Y%m%d%H%M%S` rendering of the clock, and its inverse.
- `Json` (`json.dfy`): parsed JSON values and Python's `==` on them. Dicts ignore key order, lists keep it, and `True == 1 == 1.0`.
- `Files` (`files.dfy`): paths, the filesystem as a map from path to node, and the path check.
  - The `FileSystem` class has `Copy`, which stands for the shell `cp`.
  - The `Handle` class is a file opened with `"r+"`: one position shared by reads and writes.
- `Snapshot` (`snapshot.dfy`): the build. `Build` is the specification. `BuildSnapshot`, `BuildGroups`, `BuildGroup` and `ResolveMembers` are the code's steps and loops, each proved equal to its part of it. The module also holds the snapshot's JSON document.
- `Hierarchy` (`hierarchy.dfy`): the cache update (`Reconcile`), the whole function (`CreateAdJson`), their specifications (`Reconciled`, `Run`) and the lemmas about them.

The external services are parameters:

- The directory is a function from a search filter to the entries found, or `None` when the bind or the search raises.
- `getpwnam` is a map from account name to uid.
- `json.load` is a partial function from text to a JSON value.
- `json.dumps` is an opaque function from a JSON value to text.
- `datetime.now()` is a given date and time.

Behaviour of the code that the model keeps:

- The cache is not replaced. The new document is appended after the old content (see Findings).
- Each user maps to its uid only. The code looks up no gid and no `lg.`-prefixed group.
- An unparsable cache becomes the string `""`. That string never equals a snapshot, so such a cache is always archived and then written.
- The DN is the second whitespace token of the entry's string form. The code reads no structured DN attribute, so a DN that contains a space is cut at the space (`Text.DnWithSpaceIsCut`).
- A missing passwd entry aborts the whole build. No user is skipped.

## Model

| member | source | states |
|---|---|---|
| `Files.CheckPathExistsIsFile` | hierarchy.py:14-30 | returns the path itself exactly for an existing regular file; a missing path or a directory gives `None` (Python's `False`) |
| `Hierarchy.MissingCacheStopsFirst` | hierarchy.py:91-94 | a cache path that is not an existing regular file ends the run before any query, with the filesystem unchanged |
| `Text.Split` | hierarchy.py:99 | every token of `str.split()` is non-empty and free of whitespace |
| `Text.SplitJoin` | hierarchy.py:99 | `split()` gives back the words that `" ".join` put together |
| `Text.SecondTokenOf` | hierarchy.py:107 | the second token of `tag dn rest` is `dn` whenever `dn` is one word |
| `Text.NoSecondTokenOfFewWords` | hierarchy.py:99 | text made of fewer than two words has no second token, so line 99 raises |
| `Text.AllSpaceHasNoTokens` | hierarchy.py:99 | blank or empty text splits into no tokens at all, so line 99 raises |
| `Text.DnWithSpaceIsCut` | hierarchy.py:107 | for every entry `tag a b rest` whose DN `a b` holds a space, the DN taken is only `a`, the part before the space |
| `Snapshot.DnListMeaning` | hierarchy.py:99 | the DN list exists iff every group has a second token, is that token per group in order, and otherwise fails at the first group without one |
| `Snapshot.MembersMeaning` | hierarchy.py:115-118 | succeeds iff every user name has a passwd entry; then lists every user in query order with its own uid; a failure names an account passwd lacks |
| `Snapshot.ResolveMembers` | hierarchy.py:115-118 | the inner loop yields exactly `Members` of the user entries |
| `Snapshot.GroupOfMeaning` | hierarchy.py:107-120 | a group with a DN succeeds iff its member query answers and all its members are known; then its entry is named by the group's account name and lists its members |
| `Snapshot.GroupsMeaning` | hierarchy.py:106-120 | the loop over groups succeeds iff every group is resolvable; then it has one entry per group, in order, each describing its group |
| `Snapshot.BuildGroup` | hierarchy.py:107-120 | the outer loop's body yields exactly `GroupOf` of the group |
| `Snapshot.BuildGroups` | hierarchy.py:106-120 | the outer loop yields exactly `Groups` of the returned groups |
| `Snapshot.BuildSnapshot` | hierarchy.py:97-122 | the group query, the DN check and the loop yield exactly `Build` |
| `Snapshot.BuildSucceedsIff` | hierarchy.py:97-122 | the build succeeds iff the group query answers and every group is resolvable |
| `Snapshot.BuildDescribes` | hierarchy.py:104-122 | a built snapshot has root `root_group_name`, one entry per returned group in order, and each user in order with its uid |
| `Snapshot.DescribesUnique` | hierarchy.py:104-122 | at most one snapshot fits a given set of query answers |
| `Snapshot.DnCheckedFirst` | hierarchy.py:99-107 | the first group without a DN fails the build with that index, whatever the member queries and passwd say |
| `Snapshot.UnknownUserAborts` | hierarchy.py:115-118 | one member without a passwd entry fails the whole build |
| `Snapshot.EmptyGroupKept` | hierarchy.py:114-120 | a group whose member query returns nothing appears with an empty list |
| `Snapshot.BuildJsonShape` | hierarchy.py:114-122 | the document has the single key `root_group_name`; its list has one single-key dict per group in query order; each group lists `{user: uid}` per member in query order |
| `Snapshot.UserJsonInjective` | hierarchy.py:117 | two `{user: uid}` dicts are `==` only for the same user and uid |
| `Snapshot.GroupJsonInjective` | hierarchy.py:114-118 | two `{group: [...]}` dicts are `==` only for the same group with the same members in the same order |
| `Snapshot.SnapshotJsonEqIff` | hierarchy.py:133 | two snapshot documents are `==` exactly when the snapshots are structurally equal, list order included |
| `Json.PyEqReflexive` | hierarchy.py:133 | every parsed value is `==` to itself |
| `Json.StrNeverEqualsObject` | hierarchy.py:128-133 | the `""` of an unparsable cache never equals a dict |
| `Timestamp.PadReadsBack` | hierarchy.py:137 | zero padding gives exactly `width` digits that read back as the number |
| `Timestamp.StampRoundTrip` | hierarchy.py:134-137 | `%Y%m%d%H%M%S` gives 14 digits that parse back to the same date and time |
| `Hierarchy.ArchivePath` | hierarchy.py:134-142 | the archive sits in the cache's directory, is never the cache itself, and is named by the 14-digit stamp of `now`, `_`, then the cache's name |
| `Files.FileSystem.Copy` | hierarchy.py:144-146 | `cp` makes the destination a regular file with the source's content; no other path changes |
| `Files.Handle.Open` | hierarchy.py:124 | opening with `"r+"` puts the position at 0 |
| `Files.Handle.Read` | hierarchy.py:129 | `json.load` reads from the position to the end, and the position ends at the end of the file |
| `Files.Handle.Write` | hierarchy.py:149-152 | a write replaces content from the position onward and moves the position past the written text |
| `Files.Handle.Seek` | hierarchy.py:124 | moves the position (used only by the corrected update) |
| `Files.Handle.Truncate` | hierarchy.py:124 | cuts the content at the position (used only by the corrected update) |
| `Files.Overwrite` | hierarchy.py:149-152 | a write at an offset keeps the content before the offset, places the data, keeps any later content, and grows the file when needed |
| `Files.WriteAtEndAppends` | hierarchy.py:124-152 | a write at the end of the content appends |
| `Files.WriteIntoEmpty` | hierarchy.py:149-152 | a write into emptied content leaves exactly the written text |
| `Hierarchy.Reconcile` | hierarchy.py:124-154 | open, load, compare and, on a difference, `cp` then write; the new filesystem is `Reconciled` of the old |
| `Hierarchy.CreateAdJson` | hierarchy.py:69-156 | the whole function; the outcome and the new filesystem are `Run` of the old one |
| `Hierarchy.FailedBuildWritesNothing` | hierarchy.py:97-122 | a failed build stops the run with that error, and nothing is written |
| `Hierarchy.EqualLeavesCache` | hierarchy.py:133-154 | when the loaded cache equals the snapshot, nothing is archived and the cache is unchanged |
| `Hierarchy.ChangeArchivesThenAppends` | hierarchy.py:133-152 | on a difference, the only new or changed paths are the archive and the cache; the archive holds the pre-write content; the cache holds the old content followed by the new document |
| `Hierarchy.UnparsableCacheAlwaysChanges` | hierarchy.py:128-133 | an unparsable cache is always archived and then appended to |
| `Hierarchy.RunChangesIffSnapshotDiffers` | hierarchy.py:97-154 | if the cache holds a snapshot's document, the run changes nothing iff the new build equals that snapshot; otherwise it archives and appends |
| `Hierarchy.AsWrittenKeepsAppending` | hierarchy.py:124-152 | when the old content followed by copies of the document is never one JSON document, `n` runs with the same snapshot leave the old content followed by `n` copies |
| `Hierarchy.AsWrittenNeverSettles` | hierarchy.py:124-152 | under the same condition, for any `n >= 1` runs the last run still archives the content before it (old content and `n - 1` copies) and appends one more copy: the cache never settles |
| `Hierarchy.AsWrittenSettlesFromEmpty` | hierarchy.py:124-152 | a cache created empty does settle: after the first write, the same snapshot changes nothing |
| `Hierarchy.ReconcileIntended` | hierarchy.py:124-154 | the update with a seek to 0 and a truncate before the write; the new filesystem is `ReconciledIntended` of the old |
| `Hierarchy.IntendedSettles` | hierarchy.py:133-152 | corrected: after one run the cache holds the snapshot's document, or already held an equal one; a second run changes nothing |
| `Hierarchy.IntendedArchivesPrevious` | hierarchy.py:133-152 | corrected: a cache holding `s1`, updated with `s2 != s1`, gains exactly one archive holding `s1`'s document and then holds `s2`'s document |

## Left out

- `get_item_from_AD`: the ldap3 server, connection, bind and search are a network client. They become the `Directory` function, and the requested attribute lists are not modelled. A directory that answers differently to repeated identical searches is not modelled.
- The string form of an ldap3 entry is taken as given text. Reading `sAMAccountName` is taken to give one string; a missing or multi-valued attribute is not modelled.
- `getpwnam` is a foreign OS lookup. It becomes a map from account name to uid; the other passwd fields are not modelled.
- `json.load` and `json.dumps` are the JSON library. They become a partial parser and an opaque serialiser, and the JSON text, indentation and key sorting are not modelled. NaN and infinite floats are not modelled.
- `datetime.now()` is the clock and is an input. Years before 1000 are not modelled: glibc's `%Y` does not pad them to four digits.
- Files.FileSystem.Copy: the shell `cp` always succeeds here. Its exit status, which the code ignores, is not modelled, and neither is shell quoting of paths with spaces. An archive path that is an existing directory (where `cp` copies into it) is not modelled either.
- Opening the cache can fail (permissions, a race with another process). Text decoding, write buffering until `close` and the `close` itself are not modelled.
- Paths are given as a parent directory and a name. `pathlib`'s parsing of a path string and symbolic links are not modelled.
- `sys.exit`'s message and the `None` return become the `Outcome` value. Of the unused `groups_dn_list`, only its failure effect is kept.
- Directory-tree creation, permission and ownership bits, gid lookup through an `lg.`-prefixed group and accounting records are not part of this model: `hierarchy.py` has no code for them.
- Locking, timeouts and atomic rename are not part of this model: the code has none of them.

## Findings

| source | as written | input that shows it | evidently intended | confidence | as-written member | corrected member |
|---|---|---|---|---|---|---|
| hierarchy.py:124-152 | the `"r+"` handle is at the end of the file after `json.load`, so `write` appends the new document to the old content | the cache holds `{}` and the snapshot has any root group: afterwards the file holds `{}` followed by the new document, which `json.load` rejects as extra data, so every later run archives again and appends another copy | the new document replaces the cache content, so a run with an unchanged snapshot changes nothing | high, not executed | `Hierarchy.AsWrittenNeverSettles` | `Hierarchy.ReconcileIntended` |

`Hierarchy.CreateAdJson` keeps the as-written `Reconcile`, because it models what the
program does. `Hierarchy.IntendedSettles` and `Hierarchy.IntendedArchivesPrevious`
prove the intended behaviour of the corrected update.
