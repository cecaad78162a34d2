/**
 * The list-holder registry that each data fragment keeps across configuration
 * changes: a list of holders, each tagged with a list type, and the
 * find-or-create and page-append steps that act on it.
 */
module Registry {
  import opened Nullable
  import opened GitHub

  /**
   * The first position of `x` in `s`, or -1: the meaning of `List.indexOf`,
   * and the result the type search promises.
   */
  function FirstIndex<X(==)>(s: seq<X>, x: X): int {
    if s == [] then -1
    else if s[0] == x then 0
    else
      var rest := FirstIndex(s[1..], x);
      if rest == -1 then -1 else rest + 1
  }

  /**
   * FirstIndex is -1 exactly when `x` is absent; otherwise it is a position
   * holding `x` with no earlier `x`.
   */
  lemma {:induction false} FirstIndexSpec<X>(s: seq<X>, x: X)
    ensures -1 <= FirstIndex(s, x) < |s|
    ensures FirstIndex(s, x) == -1 <==> x !in s
    ensures FirstIndex(s, x) >= 0 ==> s[FirstIndex(s, x)] == x && x !in s[..FirstIndex(s, x)]
  {
    if s != [] && s[0] != x {
      FirstIndexSpec(s[1..], x);
      assert s == [s[0]] + s[1..];
      var rest := FirstIndex(s[1..], x);
      if rest >= 0 {
        assert s[..rest + 1] == [s[0]] + s[1..][..rest];
      }
    }
  }

  /** A position holding `x` with no earlier `x` is the one FirstIndex finds. */
  lemma {:induction false} FirstIndexUnique<X>(s: seq<X>, x: X, i: int)
    requires 0 <= i < |s| && s[i] == x
    requires forall j :: 0 <= j < i ==> s[j] != x
    ensures FirstIndex(s, x) == i
  {
    if i > 0 {
      assert s[0] != x;
      FirstIndexUnique(s[1..], x, i - 1);
    }
  }

  /** Appending an element never moves an earlier first occurrence. */
  lemma {:induction false} FirstIndexAppend<X>(s: seq<X>, y: X, x: X)
    ensures FirstIndex(s + [y], x) ==
      if x in s then FirstIndex(s, x) else if y == x then |s| else -1
  {
    if s == [] {
      assert s + [y] == [y];
    } else {
      assert (s + [y])[1..] == s[1..] + [y];
      FirstIndexAppend(s[1..], y, x);
      assert s == [s[0]] + s[1..];
    }
  }

  /**
   * The list types of the registry after the find-or-create step for type
   * `t`: unchanged when a holder of type `t` exists, one `t` appended otherwise.
   */
  function Registered(kinds: seq<int>, t: int): seq<int> {
    if FirstIndex(kinds, t) >= 0 then kinds else kinds + [t]
  }

  /** After find-or-create, the search for `t` succeeds, at the old place or at the end. */
  lemma {:induction false} RegisteredFinds(kinds: seq<int>, t: int)
    ensures FirstIndex(Registered(kinds, t), t) ==
      if t in kinds then FirstIndex(kinds, t) else |kinds|
  {
    FirstIndexSpec(kinds, t);
    if t !in kinds {
      FirstIndexAppend(kinds, t, t);
    }
  }

  /** A second find-or-create for the same type adds nothing. */
  lemma {:induction false} RegisteredIdempotent(kinds: seq<int>, t: int)
    ensures Registered(Registered(kinds, t), t) == Registered(kinds, t)
  {
    FirstIndexSpec(kinds, t);
    RegisteredFinds(kinds, t);
  }

  /** Find-or-create for `t` leaves the search result of every other type as it was. */
  lemma {:induction false} RegisteredKeepsOthers(kinds: seq<int>, t: int, u: int)
    requires u != t
    ensures FirstIndex(Registered(kinds, t), u) == FirstIndex(kinds, u)
  {
    FirstIndexSpec(kinds, t);
    if t !in kinds {
      FirstIndexAppend(kinds, t, u);
      FirstIndexSpec(kinds, u);
    }
  }

  /** Find-or-create only ever grows the registry at its end. */
  lemma RegisteredExtends(kinds: seq<int>, t: int)
    ensures var r := Registered(kinds, t);
      |kinds| <= |r| <= |kinds| + 1 && r[..|kinds|] == kinds
  {
  }

  /** What the background task of `fetchData` ended with. */
  datatype PageFetch<T> =
    | ClientFailed          // getting the API client failed before the request was assigned
    | NextFailed            // the request was assigned, fetching its first page failed
    | Fetched(page: seq<T>) // the first page arrived

  /** One cached list: its items, its title, its list type and its page request. */
  class ListHolder<T> {
    var items: seq<T>
    var title: string
    var kind: int
    /** The page iterator, identified by the repository it pages; null until the task assigns it. */
    var request: Option<RepositoryId>

    constructor (kind: int, title: string)
      ensures this.kind == kind && this.title == title
      ensures items == [] && request == None
    {
      this.kind := kind;
      this.title := title;
      items := [];
      request := None;
    }
  }

  /** The list types of a sequence of holders, position by position. */
  ghost function KindsOf<T>(hs: seq<ListHolder<T>>): seq<int>
    reads hs
  {
    seq(|hs|, i reads hs requires 0 <= i < |hs| => hs[i].kind)
  }

  /** The retained fragment that keeps the registry of one screen. */
  class DataFragment<T> {
    /** The registry; null until the screen's activity is first created. */
    var lists: Option<seq<ListHolder<T>>>
    var targetRepository: Option<Repository>

    /** The holders of the registry, none while it is null. */
    function Holders(): seq<ListHolder<T>>
      reads this
    {
      if lists.Some? then lists.value else []
    }

    /** The list types of the registry, in order. */
    ghost function Kinds(): seq<int>
      reads this, Holders()
    {
      KindsOf(Holders())
    }

    constructor ()
      ensures lists == None && targetRepository == None
    {
      lists := None;
      targetRepository := None;
    }

    /** The lazy initialisation in `onActivityCreated`: a null registry becomes an empty one. */
    method InitLists()
      modifies this
      ensures lists == if old(lists).None? then Some([]) else old(lists)
      ensures targetRepository == old(targetRepository)
    {
      if lists.None? {
        lists := Some([]);
      }
    }

    /**
     * The index of the first holder of type `listType`, or -1 when there is
     * none or the registry is null.
     */
    method FindListIndexByType(listType: int) returns (index: int)
      ensures index == FirstIndex(Kinds(), listType)
      ensures lists.None? ==> index == -1
      ensures index == -1 <==> forall h :: h in Holders() ==> h.kind != listType
      ensures index != -1 ==> 0 <= index < |Holders()| && Holders()[index].kind == listType
      ensures forall j :: 0 <= j < index ==> Holders()[j].kind != listType
    {
      if lists.None? {
        return -1;
      }
      FirstIndexSpec(Kinds(), listType);
      var hs := lists.value;
      var i := 0;
      while i < |hs|
        invariant 0 <= i <= |hs|
        invariant forall j :: 0 <= j < i ==> hs[j].kind != listType
      {
        if hs[i].kind == listType {
          // indexOf compares holders by identity; no earlier holder is this one
          index := FirstIndex(hs, hs[i]);
          FirstIndexUnique(hs, hs[i], i);
          FirstIndexUnique(KindsOf(hs), listType, i);
          return;
        }
        i := i + 1;
      }
      assert listType !in KindsOf(hs);
      FirstIndexSpec(KindsOf(hs), listType);
      return -1;
    }

    /**
     * The find-or-create step of `fetchData`: reuse the first holder of type
     * `listType`, or append a fresh one with that type, `title` and no items.
     * The registry must exist: the append would fail on a null one.
     */
    method FindOrCreate(listType: int, title: string) returns (holder: ListHolder<T>, created: bool)
      requires lists.Some?
      modifies this
      ensures lists.Some? && targetRepository == old(targetRepository)
      ensures created <==> listType !in old(Kinds())
      ensures !created ==> lists == old(lists)
      ensures created ==> fresh(holder) && lists.value == old(lists.value) + [holder]
      ensures created ==> holder.items == [] && holder.title == title && holder.request == None
      ensures holder.kind == listType
      ensures 0 <= FirstIndex(Kinds(), listType) < |lists.value|
      ensures holder == lists.value[FirstIndex(Kinds(), listType)]
      ensures Kinds() == Registered(old(Kinds()), listType)
    {
      var before := lists.value;
      ghost var kinds := KindsOf(before);
      var index := FindListIndexByType(listType);
      if index >= 0 {
        holder := before[index];
        created := false;
        assert kinds[index] == listType;
      } else {
        holder := new ListHolder(listType, title);
        created := true;
        lists := Some(before + [holder]);
        assert KindsOf(before) == kinds;
        assert KindsOf(lists.value) == kinds + [listType];
        FirstIndexSpec(kinds, listType);
        FirstIndexAppend(kinds, listType, listType);
      }
    }

    /**
     * The background task that `fetchData` starts for a new holder: assign the
     * page request for the target repository, then append its first page.
     * On a failure the items are left as they were.
     */
    method RunTask(holder: ListHolder<T>, fetch: PageFetch<T>)
      requires fetch.ClientFailed? || targetRepository.Some?
      modifies holder
      ensures holder.kind == old(holder.kind) && holder.title == old(holder.title)
      ensures holder.request ==
        if fetch.ClientFailed? then old(holder.request) else Some(IdOf(targetRepository.value))
      ensures holder.items ==
        if fetch.Fetched? then old(holder.items) + fetch.page else old(holder.items)
      ensures Kinds() == old(Kinds())
    {
      if !fetch.ClientFailed? {
        holder.request := Some(IdOf(targetRepository.value));
        if fetch.Fetched? {
          holder.items := holder.items + fetch.page;
        }
      }
      assert KindsOf(Holders()) == old(KindsOf(Holders()));
    }
  }
}
