/** SimpleLazyList: a list view over a lazy list service that loads its elements a page at a time into a
    cache, in which unloaded positions hold a missing-data marker. */
module LazyLists {
  import opened Wrappers

  /** A cache slot: the missing-data marker or a loaded element. */
  datatype Slot<E> = Missing | Loaded(value: E)

  /** A half-open interval [start, end) of list positions. */
  datatype IndexInterval = IndexInterval(start: int, end: int)
  {
    predicate Contains(i: int)
    {
      start <= i < end
    }
  }

  /** getPage: the page of a position, by Java's integer division (truncating toward zero). */
  function Page(index: nat, pageSize: int): (page: int)
    requires pageSize != 0
    ensures pageSize > 0 ==> page * pageSize <= index < page * pageSize + pageSize
    ensures pageSize < 0 ==> page <= 0
  {
    if pageSize > 0 then index / pageSize else -(index / -pageSize)
  }

  /** getStartEndFromPage: the positions of a page, cut off at the list size. */
  function StartEnd(size: int, pageSize: int, page: int): (r: IndexInterval)
    ensures r.start == page * pageSize && r.end <= size
    ensures r.end == size || r.end == r.start + pageSize
  {
    var startElement := page * pageSize;
    var endElement := if size < startElement + pageSize then size else startElement + pageSize;
    IndexInterval(startElement, endElement)
  }

  /** getStartEndFromIndex: the interval of the page that holds a position. */
  function StartEndOfIndex(size: int, pageSize: int, index: nat): IndexInterval
    requires pageSize != 0
  {
    StartEnd(size, pageSize, Page(index, pageSize))
  }

  /** For positive page sizes, the page interval of a position below the size holds that position,
      spans at most one page and starts on a page boundary. */
  lemma PageHoldsIndex(size: int, pageSize: int, index: nat)
    requires pageSize > 0 && index < size
    ensures var r := StartEndOfIndex(size, pageSize, index);
      r.Contains(index) && 0 <= r.start && r.end - r.start <= pageSize
  {
    var page := Page(index, pageSize);
    assert page == index / pageSize >= 0;
    assert page * pageSize >= 0;
  }

  /** For negative page sizes the interval is empty: nothing is fetched. */
  lemma NegativePageSizeFetchesNothing(size: int, pageSize: int, index: nat)
    requires pageSize < 0
    ensures var r := StartEndOfIndex(size, pageSize, index); r.end < r.start || r.end <= size
    ensures var r := StartEndOfIndex(size, pageSize, index); size <= index ==> !r.Contains(index)
  {
    var page := Page(index, pageSize);
    assert page * pageSize == (index / -pageSize) * -pageSize;
    assert (index / -pageSize) * -pageSize <= index;
  }

  /** The cache after a fetch of [start, end): those positions hold the peer's elements and the others
      are as they were. */
  function Filled<E(==)>(cache: seq<Slot<E>>, peer: seq<E>, startEnd: IndexInterval): (r: seq<Slot<E>>)
    requires |cache| <= |peer|
    ensures |r| == |cache|
    ensures forall i :: 0 <= i < |r| ==> r[i] == if startEnd.Contains(i) then Loaded(peer[i]) else cache[i]
  {
    seq(|cache|, i requires 0 <= i < |cache| => if startEnd.Contains(i) then Loaded(peer[i]) else cache[i])
  }

  /** The cache agrees with the peer: as long, and every loaded slot holds the peer's element. */
  predicate Agrees<E(==)>(cache: seq<Slot<E>>, peer: seq<E>)
  {
    |cache| == |peer| && forall i :: 0 <= i < |cache| && cache[i].Loaded? ==> cache[i].value == peer[i]
  }

  /** A fetch keeps the cache in agreement with the peer, and loads what it covers. */
  lemma FillAgrees<E>(cache: seq<Slot<E>>, peer: seq<E>, startEnd: IndexInterval, i: int)
    requires Agrees(cache, peer) && 0 <= i < |cache|
    ensures Agrees(Filled(cache, peer, startEnd), peer)
    ensures startEnd.Contains(i) ==> Filled(cache, peer, startEnd)[i] == Loaded(peer[i])
    ensures cache[i].Loaded? ==> Filled(cache, peer, startEnd)[i] == cache[i]
  {
  }

  /** Inserting the same element at the same position of the cache and the peer keeps them in
      agreement. */
  lemma InsertAgrees<E>(cache: seq<Slot<E>>, peer: seq<E>, index: nat, element: E)
    requires Agrees(cache, peer) && index <= |cache|
    ensures Agrees(cache[..index] + [Loaded(element)] + cache[index..], peer[..index] + [element] + peer[index..])
  {
    var c := cache[..index] + [Loaded(element)] + cache[index..];
    var p := peer[..index] + [element] + peer[index..];
    forall i | 0 <= i < |c| && c[i].Loaded?
      ensures c[i].value == p[i]
    {
      if i > index {
        assert c[i] == cache[i - 1] && p[i] == peer[i - 1];
      } else if i < index {
        assert c[i] == cache[i] && p[i] == peer[i];
      }
    }
  }

  /** get as written: the page interval is cut off at the size recorded on construction, and the
      slot at the position is returned whether or not the fetch reached it. */
  function GetAsWritten<E(==)>(size: int, pageSize: int, cache: seq<Slot<E>>, peer: seq<E>, index: int): Result<Slot<E>>
    requires Agrees(cache, peer)
  {
    if !(0 <= index < |cache|) then Failure("IndexOutOfBoundsException")
    else if cache[index].Loaded? then Success(cache[index])
    else if pageSize == 0 then Failure("ArithmeticException")
    else
      var r := StartEndOfIndex(size, pageSize, index);
      var fetched := if r.start < r.end && 0 <= r.start then Filled(cache, peer, r) else cache;
      Success(fetched[index])
  }

  /** After an insertion at the front of a ten-element list with pages of five, position 10 lies past
      the recorded size: its page interval [10, 10) is empty and get returns the missing-data marker. */
  lemma GetAsWrittenMissesShiftedEntry(peer: seq<int>)
    requires |peer| == 11
    ensures var cache := [Loaded(peer[0])] + seq(10, _ => Missing);
      Agrees(cache, peer) && GetAsWritten(10, 5, cache, peer, 10) == Success(Missing)
  {
    var cache := [Loaded(peer[0])] + seq(10, _ => Missing);
    assert cache[10] == Missing;
    assert StartEndOfIndex(10, 5, 10) == IndexInterval(10, 10);
  }

  /** get as intended: the page interval is cut off at the current size of the cache, so a missing
      position is always covered by its fetch and the peer's element is returned. */
  function GetIntended<E(==)>(pageSize: int, cache: seq<Slot<E>>, peer: seq<E>, index: int): Result<Slot<E>>
    requires Agrees(cache, peer)
  {
    if !(0 <= index < |cache|) then Failure("IndexOutOfBoundsException")
    else if cache[index].Loaded? then Success(cache[index])
    else if pageSize == 0 then Failure("ArithmeticException")
    else
      var r := StartEndOfIndex(|cache|, pageSize, index);
      var fetched := if r.start < r.end && 0 <= r.start then Filled(cache, peer, r) else cache;
      Success(fetched[index])
  }

  /** With a positive page size, get returns the peer's element at every position of the list, and
      fails outside it. */
  lemma GetIntendedLoads<E>(pageSize: int, cache: seq<Slot<E>>, peer: seq<E>, index: int)
    requires Agrees(cache, peer) && pageSize > 0
    ensures 0 <= index < |cache| ==> GetIntended(pageSize, cache, peer, index) == Success(Loaded(peer[index]))
    ensures !(0 <= index < |cache|) ==> GetIntended(pageSize, cache, peer, index).Failure?
  {
    if 0 <= index < |cache| && cache[index].Missing? {
      PageHoldsIndex(|cache|, pageSize, index);
    }
  }

  /** createListCache and initListCache: a cache of size missing-data markers. */
  method InitListCache<E(==)>(size: int) returns (c: seq<Slot<E>>)
    ensures |c| == if size < 0 then 0 else size
    ensures forall i :: 0 <= i < |c| ==> c[i].Missing?
  {
    c := [];
    var i := 0;
    while i < size
      invariant 0 <= i <= (if size < 0 then 0 else size) && |c| == i
      invariant forall j :: 0 <= j < |c| ==> c[j].Missing?
    {
      c := c + [Missing];
      i := i + 1;
    }
  }

  class SimpleLazyList<E(==)> {
    const pageSize: int
    /** The peer's size when the list was built. */
    const size: int
    const fetchLastPageOnly: bool
    /** The elements of the lazy list service. */
    var peer: seq<E>
    var listCache: seq<Slot<E>>

    /** The list invariant: the cache agrees with the peer and has not shrunk below the recorded size. */
    ghost predicate Valid()
      reads this
    {
      Agrees(listCache, peer) && 0 <= size <= |listCache|
    }

    /** A list over a service: nothing is loaded yet. */
    constructor (pageSize: int, lazyListPeer: seq<E>, fetchLastPageOnly: bool)
      ensures Valid() && this.pageSize == pageSize && this.fetchLastPageOnly == fetchLastPageOnly
      ensures peer == lazyListPeer && size == |lazyListPeer| && |listCache| == size
      ensures forall i :: 0 <= i < |listCache| ==> !IsLoaded(i)
    {
      this.pageSize := pageSize;
      this.fetchLastPageOnly := fetchLastPageOnly;
      peer := lazyListPeer;
      size := |lazyListPeer|;
      new;
      listCache := InitListCache(size);
    }

    /** isLoaded: the slot holds no missing-data marker. */
    predicate IsLoaded(index: int)
      reads this
      requires 0 <= index < |listCache|
    {
      listCache[index].Loaded?
    }

    /** fetch: the peer's elements of the interval are copied into the cache. */
    method Fetch(startEnd: IndexInterval)
      requires Valid() && 0 <= startEnd.start && startEnd.end <= |listCache|
      modifies this
      ensures Valid() && peer == old(peer)
      ensures listCache == Filled(old(listCache), peer, startEnd)
    {
      var data := if startEnd.start < startEnd.end then peer[startEnd.start..startEnd.end] else [];
      var i := startEnd.start;
      while i < startEnd.end
        invariant startEnd.start <= i <= if startEnd.start <= startEnd.end then startEnd.end else startEnd.start
        invariant peer == old(peer) && Agrees(listCache, peer) && |listCache| == |old(listCache)|
        invariant forall j :: 0 <= j < |listCache| ==>
          listCache[j] == if startEnd.start <= j < i then Loaded(peer[j]) else old(listCache)[j]
      {
        listCache := listCache[i := Loaded(data[i - startEnd.start])];
        i := i + 1;
      }
      assert forall j :: 0 <= j < |listCache| ==> listCache[j] == Filled(old(listCache), peer, startEnd)[j];
    }

    /** get: a missing position has its page fetched first; the slot is then returned. */
    method Get(index: int) returns (r: Result<Slot<E>>)
      requires Valid()
      modifies this
      ensures Valid() && peer == old(peer) && |listCache| == |old(listCache)|
      ensures r == GetIntended(pageSize, old(listCache), peer, index)
      ensures r.Success? ==> r == Success(listCache[index])
      ensures r.Failure? || (0 <= index < |old(listCache)| && old(listCache)[index].Loaded?) ==>
        listCache == old(listCache)
    {
      if !(0 <= index < |listCache|) {
        return Failure("IndexOutOfBoundsException");
      }
      if !IsLoaded(index) {
        if pageSize == 0 {
          return Failure("ArithmeticException");
        }
        var startEnd := StartEndOfIndex(|listCache|, pageSize, index);
        if startEnd.start < startEnd.end && 0 <= startEnd.start {
          Fetch(startEnd);
        }
      }
      return Success(listCache[index]);
    }

    /** add(index, element): inserted into the peer and into the cache as loaded; a position past the
        end is refused. */
    method AddAt(index: int, element: E) returns (ok: bool)
      requires Valid()
      modifies this
      ensures Valid()
      ensures ok <==> 0 <= index <= |old(listCache)|
      ensures ok ==> (peer == old(peer)[..index] + [element] + old(peer)[index..] &&
        listCache == old(listCache)[..index] + [Loaded(element)] + old(listCache)[index..])
      ensures !ok ==> peer == old(peer) && listCache == old(listCache)
    {
      if !(0 <= index <= |listCache|) {
        return false;
      }
      InsertAgrees(listCache, peer, index, element);
      peer := peer[..index] + [element] + peer[index..];
      listCache := listCache[..index] + [Loaded(element)] + listCache[index..];
      return true;
    }

    /** add(o): appended at the end of the cache. */
    method Add(o: E) returns (ok: bool)
      requires Valid()
      modifies this
      ensures Valid() && ok
      ensures peer == old(peer) + [o] && listCache == old(listCache) + [Loaded(o)]
    {
      ok := AddAt(|listCache|, o);
      assert old(listCache)[..|old(listCache)|] == old(listCache);
      assert old(peer)[..|old(peer)|] == old(peer);
    }

    /** addAll: each element appended in turn. */
    method AddAll(c: seq<E>) returns (ok: bool)
      requires Valid()
      modifies this
      ensures Valid() && ok
      ensures peer == old(peer) + c
      ensures listCache == old(listCache) + seq(|c|, i requires 0 <= i < |c| => Loaded(c[i]))
    {
      var k := 0;
      while k < |c|
        invariant 0 <= k <= |c| && Valid()
        invariant peer == old(peer) + c[..k]
        invariant listCache == old(listCache) + seq(k, i requires 0 <= i < k => Loaded(c[i]))
      {
        var _ := Add(c[k]);
        assert c[..k + 1] == c[..k] + [c[k]];
        k := k + 1;
      }
      assert c[..k] == c;
      return true;
    }

    /** size: the current number of cache slots, which grows with every add. */
    function Size(): (r: int)
      reads this
      ensures Valid() ==> r == |peer| && r >= size
    {
      |listCache|
    }

    /** isEmpty: no cache slots. */
    predicate IsEmpty()
      reads this
      ensures IsEmpty() <==> Size() == 0
    {
      |listCache| == 0
    }
  }
}
