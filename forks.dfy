/**
 * The forks screen: one list of the forks of the target repository,
 * cached in the registry under the type LIST_FORKS.
 */
module Forks {
  import opened Nullable
  import opened GitHub
  import opened Registry

  const LIST_FORKS := 1

  /**
   * `fetchData`: find or create the forks holder. A new holder starts the
   * background task; a reused one is only displayed.
   */
  method FetchData(df: DataFragment<Repository>, title: string) returns (holder: ListHolder<Repository>, created: bool)
    requires df.lists.Some?
    modifies df
    ensures df.lists.Some? && df.targetRepository == old(df.targetRepository)
    ensures created <==> LIST_FORKS !in old(df.Kinds())
    ensures !created ==> df.lists == old(df.lists)
    ensures created ==> fresh(holder) && df.lists.value == old(df.lists.value) + [holder]
    ensures created ==> holder.items == [] && holder.title == title && holder.request == None
    ensures holder.kind == LIST_FORKS
    ensures 0 <= FirstIndex(df.Kinds(), LIST_FORKS) < |df.lists.value|
    ensures holder == df.lists.value[FirstIndex(df.Kinds(), LIST_FORKS)]
    ensures df.Kinds() == Registered(old(df.Kinds()), LIST_FORKS)
  {
    holder, created := df.FindOrCreate(LIST_FORKS, title);
  }

  /**
   * `onActivityCreated`: take the target repository from the arguments when
   * they carry one, create the registry if it is still null, and fetch. The
   * action-bar title is the target's name, so a target must be known.
   */
  method OnActivityCreated(df: DataFragment<Repository>, argument: Option<Repository>, title: string)
    returns (barTitle: string, holder: ListHolder<Repository>, created: bool)
    requires argument.Some? || df.targetRepository.Some?
    modifies df
    ensures df.targetRepository == if argument.Some? then argument else old(df.targetRepository)
    ensures barTitle == df.targetRepository.value.name
    ensures df.lists.Some?
    ensures old(df.lists).Some? ==> old(df.lists.value) <= df.lists.value
    ensures old(df.lists).None? ==> created && df.lists == Some([holder])
    ensures df.Kinds() == Registered(old(df.Kinds()), LIST_FORKS)
    ensures created <==> LIST_FORKS !in old(df.Kinds())
    ensures !created ==> df.lists == old(df.lists)
    ensures created ==> fresh(holder) && holder.items == [] && holder.title == title && holder.request == None
    ensures holder.kind == LIST_FORKS && holder in df.Holders()
  {
    ghost var kinds := df.Kinds();
    if argument.Some? {
      df.targetRepository := argument;
    }
    barTitle := df.targetRepository.value.name;
    df.InitLists();
    assert df.Kinds() == kinds;
    var before := df.lists.value;
    holder, created := FetchData(df, title);
    assert before <= df.lists.value;
    assert before == [] ==> before + [holder] == [holder];
  }

  /** The item click: the fork at the clicked position of the holder's list. */
  method OnItemClick(holder: ListHolder<Repository>, position: int) returns (target: Repository)
    requires 0 <= position < |holder.items|
    ensures target == holder.items[position]
  {
    target := holder.items[position];
  }

  /**
   * A fetch that fails leaves its empty holder registered, and the next
   * `fetchData` reuses that holder instead of fetching again.
   */
  method FailedFetchIsNotRetried(df: DataFragment<Repository>, title: string)
    returns (first: ListHolder<Repository>, second: ListHolder<Repository>)
    requires df.lists.Some? && df.targetRepository.Some?
    requires LIST_FORKS !in df.Kinds()
    modifies df
    ensures second == first && second.items == []
  {
    var created;
    first, created := FetchData(df, title);
    df.RunTask(first, NextFailed);
    second, created := FetchData(df, title);
  }
}
