# Hubroid watchers and forks screens: the list-holder registry

This is a model of the bookkeeping behind two screens of the hubroid Android GitHub client. One screen lists the users watching a repository and the other lists its forks. Each screen has a retained data fragment that survives configuration changes. The fragment keeps a registry: a list of *list holders*. Each holder is tagged with an integer list type and carries a title, a page request and the items fetched so far.

The two screens follow the same pattern and differ only in the item type (`User` or `Repository`), in the type constant, and in the screen opened on a click. Both constants equal 1: `LIST_WATCHERS` and `LIST_FORKS`. The model therefore has these modules:

- `Nullable`: `Option`, which stands for a Java reference that may be null.
- `GitHub`: `User`, `Repository` and `RepositoryId`, with only the fields the screens read.
- `Registry`: the generic part.
  - The pure search `FirstIndex`, which is the meaning of `List.indexOf`.
  - The pure registry step `Registered` and the lemmas about both.
  - The class `ListHolder<T>`, whose fields the background task updates in place.
  - The class `DataFragment<T>`, with the type search, the find-or-create step and the background task.
- `Watchers` and `Forks`: the per-screen constant and the screen-level operations `OnActivityCreated`, `FetchData` and `OnItemClick`. They are written once for the watchers screen and once for the forks screen, with each screen's own types and constant.

The search method is proved against `FirstIndex` over the registry's sequence of list types (`Kinds()`). The state-changing methods tie the new registry to `Registered(old(Kinds()), type)`. The lemmas about `Registered` then give:

- after `fetchData` the type is found;
- a second find-or-create adds nothing;
- the search result for every other type is unchanged;
- the registry only grows at its end.

A consequence of the code as written: a holder is registered before its background task runs. If that task fails, the empty holder stays in the registry. Every later `fetchData` for the same type reuses it, so the fetch is never retried. `Watchers.FailedFetchIsNotRetried` and `Forks.FailedFetchIsNotRetried` prove this: after a failed fetch, the next `fetchData` returns the same holder, still empty.

## Model

| member | source | states |
|---|---|---|
| `Registry.FirstIndexSpec` | src/net/idlesoft/android/apps/github/ui/fragments/WatchersFragment.java:80 | The meaning of `indexOf`, proved of the recursive search `FirstIndex`. The result is -1 exactly when the element is absent. Otherwise it is a valid position holding the element, with no earlier occurrence. |
| `Registry.FirstIndexUnique` | src/net/idlesoft/android/apps/github/ui/fragments/WatchersFragment.java:78-80 | Suppose a position holds the element and no earlier position does. Then it is the index `indexOf` returns. So identity `indexOf(holder)` returns the loop's own position. |
| `Registry.FirstIndexAppend` | src/net/idlesoft/android/apps/github/ui/fragments/WatchersFragment.java:168 | Appending to a list keeps every existing first occurrence. An element absent before is found at the old length if it is the appended one, and is still absent otherwise. |
| `Registry.DataFragment.InitLists` | src/net/idlesoft/android/apps/github/ui/fragments/WatchersFragment.java:130-131 | A null registry becomes an empty list. A non-null registry is kept as it is, and the target repository is untouched. ForksFragment.java:126-127 is the same. |
| `Registry.DataFragment.FindListIndexByType` | src/net/idlesoft/android/apps/github/ui/fragments/WatchersFragment.java:74-84 | The result is -1 on a null registry. The result is -1 exactly when no holder has the type. Otherwise it is a valid index whose holder has the type, and no earlier holder has it. It equals `FirstIndex(Kinds(), listType)`. The same loop is at ForksFragment.java:70-80. |
| `Registry.DataFragment.FindOrCreate` | src/net/idlesoft/android/apps/github/ui/fragments/WatchersFragment.java:153-168 | If a holder of the type exists, the registry is unchanged and the first such holder is returned. Otherwise exactly one fresh holder is appended, with the type, the title, no items and no request. Earlier holders are untouched. `Kinds()` becomes `Registered(old(Kinds()), type)`. |
| `Registry.DataFragment.RunTask` | src/net/idlesoft/android/apps/github/ui/fragments/WatchersFragment.java:177-190 | If getting the client fails, nothing changes. Otherwise the request is set to the target repository's id. If the page arrives, the items become old items + page. If fetching the page fails, the items are unchanged. The type, the title and the registry's types are always unchanged. ForksFragment.java:172-184 is the same. |
| `Registry.DataFragment.constructor` | src/net/idlesoft/android/apps/github/ui/fragments/WatchersFragment.java:68-69 | A new data fragment has a null registry and no target repository. |
| `Registry.ListHolder.constructor` | src/net/idlesoft/android/apps/github/ui/fragments/WatchersFragment.java:162-166 | A new holder has the given type and title, an empty item list and no request. |
| `Registry.RegisteredFinds` | src/net/idlesoft/android/apps/github/ui/fragments/WatchersFragment.java:153-168 | After find-or-create the search for the type succeeds. It is found at its old index if it was present, and at the old length if it was appended. |
| `Registry.RegisteredIdempotent` | src/net/idlesoft/android/apps/github/ui/fragments/ForksFragment.java:148-163 | Find-or-create twice for the same type gives the same registry as once. |
| `Registry.RegisteredKeepsOthers` | src/net/idlesoft/android/apps/github/ui/fragments/ForksFragment.java:156-163 | Find-or-create for one type leaves the search result of every other type unchanged. |
| `Registry.RegisteredExtends` | src/net/idlesoft/android/apps/github/ui/fragments/ForksFragment.java:150-163 | The registry grows by zero or one holder, and only at its end. The old registry is a prefix of the new one. |
| `Watchers.FetchData` | src/net/idlesoft/android/apps/github/ui/fragments/WatchersFragment.java:144-168 | Requires a non-null registry, since `add` on null would fail. If a `LIST_WATCHERS` holder exists, `userLists` is unchanged. Otherwise one holder is appended with that type, the title and no users. Afterwards `findListIndexByType(LIST_WATCHERS) >= 0`, and the returned holder sits at that index. |
| `Watchers.OnActivityCreated` | src/net/idlesoft/android/apps/github/ui/fragments/WatchersFragment.java:114-139 | A repository argument replaces the target. Otherwise the target is kept and must exist, because its name is dereferenced for the title. A null registry becomes a one-holder registry. A non-null one survives as a prefix and is extended by find-or-create only. A holder is created exactly when no `LIST_WATCHERS` holder existed. If one existed, `userLists` is unchanged. A created holder is fresh, with the title, no users and no request. |
| `Watchers.OnItemClick` | src/net/idlesoft/android/apps/github/ui/fragments/WatchersFragment.java:233 | The position must be within the holder's users. The selected user is the one at that position. |
| `Forks.FetchData` | src/net/idlesoft/android/apps/github/ui/fragments/ForksFragment.java:139-163 | Requires a non-null registry. If a `LIST_FORKS` holder exists, `repositoryLists` is unchanged. Otherwise one holder is appended with that type, the title and no repositories. Afterwards `findListIndexByType(LIST_FORKS) >= 0`, and the returned holder sits at that index. |
| `Forks.OnActivityCreated` | src/net/idlesoft/android/apps/github/ui/fragments/ForksFragment.java:110-134 | A repository argument replaces the target. Otherwise the target must already exist, for the title. `repositoryLists` is replaced by an empty list only if it was null. A non-null one survives as a prefix, and fetching then finds or creates the `LIST_FORKS` holder. A holder is created exactly when no `LIST_FORKS` holder existed. If one existed, `repositoryLists` is unchanged. A created holder is fresh, with the title, no repositories and no request. |
| `Watchers.FailedFetchIsNotRetried` | src/net/idlesoft/android/apps/github/ui/fragments/WatchersFragment.java:153-189 | Start from a registry without `LIST_WATCHERS`. Fetch, let the page fetch fail, then fetch again. The second fetch returns the same holder, which still has no users. |
| `Forks.FailedFetchIsNotRetried` | src/net/idlesoft/android/apps/github/ui/fragments/ForksFragment.java:148-182 | Start from a registry without `LIST_FORKS`. Fetch, let the page fetch fail, then fetch again. The second fetch returns the same holder, which still has no repositories. |
| `Forks.OnItemClick` | src/net/idlesoft/android/apps/github/ui/fragments/ForksFragment.java:226 | The position must be within the holder's repositories. The selected repository is the one at that position. |

## Left out

- Android view plumbing is not modelled. This covers view inflation, the pager and title indicator, the list widget, the adapters' `fillWithItems` and `notifyDataSetChanged`, progress and footer visibility, the action bar itself and `setCurrentItem`. `OnActivityCreated` only returns the action-bar title string.
- The network client is not modelled: `getGHClient`, `WatcherService.pageWatchers`, `RepositoryService.pageForks` and `PageIterator.next`. The page request is modelled by the `RepositoryId` it is built from. The outcome of the task is a `PageFetch` parameter: the client failed, the page fetch failed, or a page of arbitrary items arrived.
- The localised titles from `getString` are passed in as a `title` parameter.
- JSON is not modelled. `GsonUtils.fromJson` of the repository argument is replaced by an optional `Repository` argument: `None` means no arguments or no repository string. `toJson` of the clicked item is not modelled.
- The background execution in `executeNewTask`, its start, cancel and complete callbacks, and the concurrency between the task and the UI thread are not modelled. `RunTask` is one atomic step.
- Exception stack traces are not modelled. Exceptions only leave the items unchanged.
- The item list of a holder is a `seq` field that the task reassigns. The adapter's own reference to the Java `ArrayList` is not modelled, and neither is any aliasing of that list.
- The fragment transaction opened on an item click is not modelled.
- The saving of `currentItem` in `onDestroy` is not modelled, because it needs the pager's state. Neither are `currentItemScroll`, `mCurrentPage` and the `freshen` parameter, which the code never reads.
- `Watchers.OnItemClick` and `Forks.OnItemClick` require the position to be within the holder's items. For a position at or beyond the end, `get` at WatchersFragment.java:233 and ForksFragment.java:226 throws `IndexOutOfBoundsException`. That exception path is not modelled.
- `Registry.DataFragment.RunTask` requires a known target repository unless the client failed. Otherwise the id built at WatchersFragment.java:182-184 and ForksFragment.java:176-177 would throw a `NullPointerException`. That path is not modelled. The only caller is `onActivityCreated`, and it has already dereferenced the target, at line 129 and line 125 respectively.
