/*
 * The lazy iteration protocol of the interpreter's Python standard library
 * (stdlib/__builtins__/range.py, list_iterator.py, map.py and filter.py).
 *
 * Each Python class is a Dafny class whose fields are the Python instance
 * attributes. `__next__` is `Next()`, which returns `None` where the Python
 * code raises StopIteration. What an iterator will still produce is the ghost
 * function `Remaining()`, computed from the fields; every `Next()` is proved
 * to pop exactly the head of that sequence.
 *
 * `map` and `filter` hold "some iterator" in their `iterator` attribute (the field `source` here, as `iterator` is a Dafny keyword); the
 * dynamic dispatch of `self.iterator.__next__()` is the `Source` datatype and
 * the dispatching method `SourceNext`. Elements are integers: none of the
 * four classes inspects its elements, only the user callables do.
 */
module Iterators {

  import opened Wrappers

  // ---------------------------------------------------------------------
  // Reference sequences
  // ---------------------------------------------------------------------

  /** The integers lo, lo+1, ..., hi-1 (empty when lo >= hi). */
  function Interval(lo: int, hi: int): seq<int>
    decreases hi - lo
  {
    if lo >= hi then [] else [lo] + Interval(lo + 1, hi)
  }

  /** `f` applied to every element, in order. */
  function MapSeq(f: int -> int, s: seq<int>): seq<int>
  {
    if s == [] then [] else [f(s[0])] + MapSeq(f, s[1..])
  }

  /** The elements of `s` that satisfy `p`, in their original order. */
  function FilterSeq(p: int -> bool, s: seq<int>): seq<int>
  {
    if s == [] then []
    else if p(s[0]) then [s[0]] + FilterSeq(p, s[1..])
    else FilterSeq(p, s[1..])
  }

  /** One `__next__` step on the abstract view: StopIteration exactly when
      nothing remains, otherwise the head is returned and removed. */
  predicate Pops(before: seq<int>, r: Option<int>, after: seq<int>)
  {
    if before == [] then r == None && after == []
    else r == Some(before[0]) && after == before[1..]
  }

  /** How far one `filter.__next__` moves the inner iterator: it consumes a
      prefix of `before` in which the returned value is the only element the
      predicate accepts, and that value is the last one consumed; on
      StopIteration the prefix is everything. */
  ghost predicate Consumes(p: int -> bool, before: seq<int>, r: Option<int>, after: seq<int>)
  {
    var k := |before| - |after|;
    0 <= k && before[k..] == after &&
    FilterSeq(p, before[..k]) == (if r.Some? then [r.value] else []) &&
    (r.None? ==> after == []) &&
    (r.Some? ==> 0 < k && before[k - 1] == r.value)
  }

  // ---------------------------------------------------------------------
  // Dispatch over "any iterator object"
  // ---------------------------------------------------------------------

  datatype Source =
    | RangeSrc(r: Range)
    | ListSrc(l: ListIterator)
    | MapSrc(m: Map)
    | FilterSrc(f: Filter)

  function Obj(s: Source): object
  {
    match s
    case RangeSrc(r) => r
    case ListSrc(l) => l
    case MapSrc(m) => m
    case FilterSrc(f) => f
  }

  /** The objects an iterator's state lives in. */
  ghost function SourceRepr(s: Source): set<object>
    reads Obj(s)
  {
    match s
    case RangeSrc(r) => {r}
    case ListSrc(l) => {l}
    case MapSrc(m) => m.Repr
    case FilterSrc(f) => f.Repr
  }

  ghost predicate SourceValid(s: Source)
    reads Obj(s), SourceRepr(s)
    decreases SourceRepr(s), 2
  {
    match s
    case RangeSrc(_) => true
    case ListSrc(_) => true
    case MapSrc(m) => m.Valid()
    case FilterSrc(f) => f.Valid()
  }

  ghost function SourceRemaining(s: Source): seq<int>
    requires SourceValid(s)
    reads Obj(s), SourceRepr(s)
    decreases SourceRepr(s), 2
  {
    match s
    case RangeSrc(r) => r.Remaining()
    case ListSrc(l) => l.Remaining()
    case MapSrc(m) => m.Remaining()
    case FilterSrc(f) => f.Remaining()
  }

  /** `it.__next__()` on whichever class `it` is an instance of. */
  method SourceNext(s: Source) returns (r: Option<int>)
    requires SourceValid(s)
    modifies SourceRepr(s)
    decreases SourceRepr(s), 2
    ensures SourceValid(s) && SourceRepr(s) == old(SourceRepr(s))
    ensures Pops(old(SourceRemaining(s)), r, SourceRemaining(s))
  {
    match s
    case RangeSrc(rg) => r := rg.Next();
    case ListSrc(l) => r := l.Next();
    case MapSrc(m) => r := m.Next();
    case FilterSrc(f) => r := f.Next();
  }

  /** An argument that a constructor calls `__iter__` on: a Python list, or
      an iterator object. */
  datatype Iterable = ListValue(items: seq<int>) | IteratorValue(src: Source)

  /** `iterable.__iter__()` as the builtins bind it: `range`, `map` and
      `filter` return themselves; neither `list_iterator` nor the builtin
      `list` type binds an `__iter__`, so on those the call fails (None). */
  method CallIterAsWritten(it: Iterable) returns (r: Option<Source>)
    ensures it.ListValue? || it.src.ListSrc? <==> r == None
    ensures it.IteratorValue? && !it.src.ListSrc? ==> r == Some(it.src)
  {
    if it.ListValue? || it.src.ListSrc? {
      r := None;
    } else {
      r := Some(it.src);
    }
  }

  /** `iterable.__iter__()` with a list's `__iter__` giving a fresh
      `list_iterator` over its items, as iterating over a list needs.
      `range`, `map` and `filter` return themselves; `list_iterator`
      defines no `__iter__`, so the call fails (None). */
  method CallIter(it: Iterable) returns (r: Option<Source>)
    ensures it.IteratorValue? && it.src.ListSrc? <==> r == None
    ensures it.IteratorValue? && !it.src.ListSrc? ==> r == Some(it.src)
    ensures it.ListValue? ==>
              r.Some? && r.value.ListSrc? && fresh(r.value.l) &&
              r.value.l.list == it.items && r.value.l.indexCur == 0
  {
    if it.ListValue? {
      var l := new ListIterator(it.items);
      r := Some(ListSrc(l));
    } else if it.src.ListSrc? {
      r := None;
    } else {
      r := Some(it.src);
    }
  }

  // ---------------------------------------------------------------------
  // range
  // ---------------------------------------------------------------------

  class Range {
    var current: int
    var max: int

    ghost function Remaining(): seq<int>
      reads this
    {
      Interval(current, max)
    }

    constructor (max: int)
      ensures current == 0 && this.max == max
      ensures Remaining() == Interval(0, max)
    {
      current := 0;
      this.max := max;
    }

    method Next() returns (r: Option<int>)
      modifies this
      ensures max == old(max)
      ensures old(current) >= old(max) ==> r == None && current == old(current)
      ensures old(current) < old(max) ==> r == Some(old(current)) && current == old(current) + 1
      ensures Pops(old(Remaining()), r, Remaining())
    {
      if current >= max {
        r := None;
      } else {
        var cur := current;
        current := current + 1;
        r := Some(cur);
      }
    }

    /** `__iter__` hands back the same object, with its progress. */
    method Iter() returns (it: Range)
      ensures it == this
    {
      it := this;
    }
  }

  // ---------------------------------------------------------------------
  // list_iterator (it has no __iter__)
  // ---------------------------------------------------------------------

  class ListIterator {
    var list: seq<int>
    var indexCur: nat

    ghost function Remaining(): seq<int>
      reads this
    {
      if indexCur >= |list| then [] else list[indexCur..]
    }

    constructor (list: seq<int>)
      ensures this.list == list && indexCur == 0
      ensures Remaining() == list
    {
      this.list := list;
      indexCur := 0;
    }

    method Next() returns (r: Option<int>)
      modifies this
      ensures list == old(list)
      ensures old(indexCur) >= |list| ==> r == None && indexCur == old(indexCur)
      ensures old(indexCur) < |list| ==> r == Some(list[old(indexCur)]) && indexCur == old(indexCur) + 1
      ensures Pops(old(Remaining()), r, Remaining())
    {
      if indexCur >= |list| {
        r := None;
      } else {
        var result := list[indexCur];
        indexCur := indexCur + 1;
        r := Some(result);
      }
    }
  }

  // ---------------------------------------------------------------------
  // map
  // ---------------------------------------------------------------------

  class Map {
    var mappingFunction: int -> int
    var source: Source
    ghost var Repr: set<object>

    ghost predicate Valid()
      reads this, Repr
      decreases Repr, 1
    {
      this in Repr && Obj(source) in Repr &&
      SourceRepr(source) <= Repr && this !in SourceRepr(source) &&
      SourceValid(source)
    }

    ghost function Remaining(): seq<int>
      requires Valid()
      reads this, Repr
      decreases Repr, 1
    {
      MapSeq(mappingFunction, SourceRemaining(source))
    }

    /** The attribute stores of `__init__`, given the result of
        `iterable.__iter__()`. */
    constructor Init(mappingFunction: int -> int, source: Source)
      requires SourceValid(source)
      ensures Valid() && fresh(Repr - SourceRepr(source))
      ensures this.mappingFunction == mappingFunction && this.source == source
      ensures Remaining() == MapSeq(mappingFunction, SourceRemaining(source))
    {
      this.mappingFunction := mappingFunction;
      this.source := source;
      Repr := {this} + SourceRepr(source);
    }

    method Next() returns (r: Option<int>)
      requires Valid()
      modifies Repr
      decreases Repr, 1
      ensures Valid() && Repr == old(Repr)
      ensures mappingFunction == old(mappingFunction) && source == old(source)
      ensures Pops(old(Remaining()), r, Remaining())
      ensures SourceRemaining(source) ==
        if old(SourceRemaining(source)) == [] then [] else old(SourceRemaining(source))[1..]
    {
      var next := SourceNext(source);
      match next
      case None =>
        r := None;
      case Some(v) =>
        r := Some(mappingFunction(v));
    }

    method Iter() returns (it: Map)
      ensures it == this
    {
      it := this;
    }
  }

  /** `map(f, iterable)`: fails (None) when `iterable.__iter__` does. */
  method NewMap(mappingFunction: int -> int, iterable: Iterable) returns (m: Option<Map>)
    requires iterable.IteratorValue? ==> SourceValid(iterable.src)
    ensures m == None <==> iterable.IteratorValue? && iterable.src.ListSrc?
    ensures m.Some? ==> m.value.Valid() && m.value.mappingFunction == mappingFunction
    ensures m.Some? && iterable.ListValue? ==> fresh(m.value.Repr)
    ensures m.Some? && iterable.IteratorValue? ==> fresh(m.value.Repr - SourceRepr(iterable.src))
    ensures m.Some? && iterable.ListValue? ==>
      m.value.Remaining() == MapSeq(mappingFunction, iterable.items)
    ensures m.Some? && iterable.IteratorValue? ==>
      m.value.source == iterable.src &&
      m.value.Remaining() == MapSeq(mappingFunction, SourceRemaining(iterable.src))
  {
    var it := CallIter(iterable);
    if it == None {
      m := None;
    } else {
      var obj := new Map.Init(mappingFunction, it.value);
      m := Some(obj);
    }
  }

  // ---------------------------------------------------------------------
  // filter (the predicate lives in the attribute `mapping_function`)
  // ---------------------------------------------------------------------

  class Filter {
    var mappingFunction: int -> bool
    var source: Source
    ghost var Repr: set<object>

    ghost predicate Valid()
      reads this, Repr
      decreases Repr, 1
    {
      this in Repr && Obj(source) in Repr &&
      SourceRepr(source) <= Repr && this !in SourceRepr(source) &&
      SourceValid(source)
    }

    ghost function Remaining(): seq<int>
      requires Valid()
      reads this, Repr
      decreases Repr, 1
    {
      FilterSeq(mappingFunction, SourceRemaining(source))
    }

    constructor Init(mappingFunction: int -> bool, source: Source)
      requires SourceValid(source)
      ensures Valid() && fresh(Repr - SourceRepr(source))
      ensures this.mappingFunction == mappingFunction && this.source == source
      ensures Remaining() == FilterSeq(mappingFunction, SourceRemaining(source))
    {
      this.mappingFunction := mappingFunction;
      this.source := source;
      Repr := {this} + SourceRepr(source);
    }

    /** Pulls from the inner iterator until the predicate holds; the inner
        StopIteration ends the loop and propagates. Each round consumes one
        inner element, which is what makes the `while True` terminate. */
    method Next() returns (r: Option<int>)
      requires Valid()
      modifies Repr
      decreases Repr, 1
      ensures Valid() && Repr == old(Repr)
      ensures mappingFunction == old(mappingFunction) && source == old(source)
      ensures r.Some? ==> mappingFunction(r.value)
      ensures Pops(old(Remaining()), r, Remaining())
      ensures Consumes(mappingFunction, old(SourceRemaining(source)), r, SourceRemaining(source))
    {
      ghost var before := SourceRemaining(source);
      ghost var k := 0;
      while true
        invariant Valid() && Repr == old(Repr)
        invariant mappingFunction == old(mappingFunction) && source == old(source)
        invariant FilterSeq(mappingFunction, SourceRemaining(source)) == old(Remaining())
        invariant 0 <= k <= |before| && SourceRemaining(source) == before[k..]
        invariant FilterSeq(mappingFunction, before[..k]) == []
        decreases |SourceRemaining(source)|
      {
        var next := SourceNext(source);
        match next
        case None =>
          r := None;
          assert before[..k] == before;
          return;
        case Some(v) =>
          assert before[..k + 1] == before[..k] + [v];
          FilterSeqAppend(mappingFunction, before[..k], [v]);
          k := k + 1;
          assert SourceRemaining(source) == before[k..];
          if mappingFunction(v) {
            r := Some(v);
            return;
          }
      }
    }

    method Iter() returns (it: Filter)
      ensures it == this
    {
      it := this;
    }
  }

  /** `filter(p, iterable)`: fails (None) when `iterable.__iter__` does. */
  method NewFilter(mappingFunction: int -> bool, iterable: Iterable) returns (f: Option<Filter>)
    requires iterable.IteratorValue? ==> SourceValid(iterable.src)
    ensures f == None <==> iterable.IteratorValue? && iterable.src.ListSrc?
    ensures f.Some? ==> f.value.Valid() && f.value.mappingFunction == mappingFunction
    ensures f.Some? && iterable.ListValue? ==> fresh(f.value.Repr)
    ensures f.Some? && iterable.IteratorValue? ==> fresh(f.value.Repr - SourceRepr(iterable.src))
    ensures f.Some? && iterable.ListValue? ==>
      f.value.Remaining() == FilterSeq(mappingFunction, iterable.items)
    ensures f.Some? && iterable.IteratorValue? ==>
      f.value.source == iterable.src &&
      f.value.Remaining() == FilterSeq(mappingFunction, SourceRemaining(iterable.src))
  {
    var it := CallIter(iterable);
    if it == None {
      f := None;
    } else {
      var obj := new Filter.Init(mappingFunction, it.value);
      f := Some(obj);
    }
  }

  // ---------------------------------------------------------------------
  // The consumer: a `for` loop (or `list(...)`) driving `__next__`
  // ---------------------------------------------------------------------

  /** Calls `__next__` until StopIteration and collects the values, as the
      virtual machine's ForIter instruction does for a `for` loop. */
  method Drain(s: Source) returns (out: seq<int>)
    requires SourceValid(s)
    modifies SourceRepr(s)
    ensures SourceValid(s) && SourceRepr(s) == old(SourceRepr(s))
    ensures out == old(SourceRemaining(s))
    ensures SourceRemaining(s) == []
  {
    out := [];
    while true
      invariant SourceValid(s) && SourceRepr(s) == old(SourceRepr(s))
      invariant out + SourceRemaining(s) == old(SourceRemaining(s))
      decreases |SourceRemaining(s)|
    {
      ghost var before := SourceRemaining(s);
      var next := SourceNext(s);
      match next
      case None =>
        assert out == old(SourceRemaining(s));
        return;
      case Some(v) =>
        assert before == [v] + SourceRemaining(s);
        out := out + [v];
    }
  }

  // ---------------------------------------------------------------------
  // Laws of the reference sequences
  // ---------------------------------------------------------------------

  /** `range` counts up from its start by one, and yields nothing when the
      bound is not above the start. */
  lemma {:induction false} IntervalSpec(lo: int, hi: int)
    ensures |Interval(lo, hi)| == if lo < hi then hi - lo else 0
    ensures forall k :: 0 <= k < |Interval(lo, hi)| ==> Interval(lo, hi)[k] == lo + k
    decreases hi - lo
  {
    if lo < hi {
      IntervalSpec(lo + 1, hi);
    }
  }

  lemma {:induction false} MapSeqSpec(f: int -> int, s: seq<int>)
    ensures |MapSeq(f, s)| == |s|
    ensures forall k :: 0 <= k < |s| ==> MapSeq(f, s)[k] == f(s[k])
  {
    if s != [] {
      MapSeqSpec(f, s[1..]);
    }
  }

  /** Every value the filter keeps satisfies the predicate, each satisfying
      value is kept as often as it occurs, and nothing else is kept. */
  lemma {:induction false} FilterSeqSpec(p: int -> bool, s: seq<int>)
    ensures forall x :: x in FilterSeq(p, s) ==> p(x)
    ensures forall x :: multiset(FilterSeq(p, s))[x] == if p(x) then multiset(s)[x] else 0
  {
    if s != [] {
      FilterSeqSpec(p, s[1..]);
      assert s == [s[0]] + s[1..];
    }
  }

  /** Filtering respects the order of the input: the result for a
      concatenation is the concatenation of the results. */
  lemma {:induction false} FilterSeqAppend(p: int -> bool, a: seq<int>, b: seq<int>)
    ensures FilterSeq(p, a + b) == FilterSeq(p, a) + FilterSeq(p, b)
  {
    if a != [] {
      assert (a + b)[1..] == a[1..] + b;
      FilterSeqAppend(p, a[1..], b);
    } else {
      assert a + b == b;
    }
  }

  /** `filter(p, map(f, s))` yields what `map(f, filter(p . f, s))` yields. */
  lemma {:induction false} FilterOfMap(p: int -> bool, f: int -> int, s: seq<int>)
    ensures FilterSeq(p, MapSeq(f, s)) == MapSeq(f, FilterSeq(x => p(f(x)), s))
  {
    if s != [] {
      FilterOfMap(p, f, s[1..]);
      assert MapSeq(f, s)[1..] == MapSeq(f, s[1..]);
    }
  }

  // ---------------------------------------------------------------------
  // Materialisation through the objects
  // ---------------------------------------------------------------------

  /** `list(range(b))` is 0, 1, ..., b-1. */
  method MaterialiseRange(b: int) returns (out: seq<int>)
    ensures |out| == if b > 0 then b else 0
    ensures forall k :: 0 <= k < |out| ==> out[k] == k
  {
    var r := new Range(b);
    out := Drain(RangeSrc(r));
    IntervalSpec(0, b);
  }

  /** `list(map(f, items))` applies `f` to every item, in order. */
  method MaterialiseMap(f: int -> int, items: seq<int>) returns (out: seq<int>)
    ensures |out| == |items|
    ensures forall k :: 0 <= k < |items| ==> out[k] == f(items[k])
  {
    var m := NewMap(f, ListValue(items));
    out := Drain(MapSrc(m.value));
    MapSeqSpec(f, items);
  }

  /** A filter stacked on a map over a list: the objects compose as the
      sequences do. */
  method MaterialiseFilterOfMap(p: int -> bool, f: int -> int, items: seq<int>) returns (out: seq<int>)
    ensures out == MapSeq(f, FilterSeq(x => p(f(x)), items))
  {
    var m := NewMap(f, ListValue(items));
    var fl := NewFilter(p, IteratorValue(MapSrc(m.value)));
    out := Drain(FilterSrc(fl.value));
    FilterOfMap(p, f, items);
  }

  function IsEven(x: int): bool
  {
    x % 2 == 0
  }

  /** The `for_loop_filter` scenario: `list(filter(is_even, [1..9]))`. */
  method ForLoopFilter() returns (out: seq<int>)
    ensures out == [2, 4, 6, 8]
  {
    var f := NewFilter(IsEven, ListValue([1, 2, 3, 4, 5, 6, 7, 8, 9]));
    out := Drain(FilterSrc(f.value));
    EvensUpToNine();
  }

  /** `m = map(f, r)` while the caller keeps `r`: `__iter__` handed the
      same range to the map, so one `next(m)` moves `r` on by one and the
      caller's own `next(r)` sees the following value. */
  method SharedRangeUnderMap() returns (x: Option<int>, y: Option<int>)
    ensures x == Some(10) && y == Some(1)
  {
    var rg := new Range(5);
    var m := new Map.Init(v => v + 10, RangeSrc(rg));
    x := m.Next();
    IntervalSpec(0, 5);
    IntervalSpec(rg.current, 5);
    y := rg.Next();
  }

  /** `f = filter(is_even, r)` while the caller keeps `r`: `next(f)` twice
      returns 0 and 2, having consumed the rejected 1 and the hit 2, so the
      caller's `next(r)` sees 3. */
  method SharedRangeUnderFilter() returns (x: Option<int>, y: Option<int>, z: Option<int>)
    ensures x == Some(0) && y == Some(2) && z == Some(3)
  {
    var rg := new Range(5);
    var f := new Filter.Init(IsEven, RangeSrc(rg));
    IntervalSpec(0, 5);
    assert FilterSeq(IsEven, Interval(0, 5)) == [0] + FilterSeq(IsEven, Interval(0, 5)[1..]);
    x := f.Next();
    assert rg.current == 1;
    IntervalSpec(1, 5);
    assert FilterSeq(IsEven, Interval(1, 5)) == FilterSeq(IsEven, Interval(1, 5)[1..]);
    assert Interval(1, 5)[1..] == Interval(2, 5);
    y := f.Next();
    assert rg.current == 3;
    z := rg.Next();
  }

  lemma EvensUpToNine()
    ensures FilterSeq(IsEven, [1, 2, 3, 4, 5, 6, 7, 8, 9]) == [2, 4, 6, 8]
  {
    var s := [1, 2, 3, 4, 5, 6, 7, 8, 9];
    assert FilterSeq(IsEven, s[8..]) == [];
    assert FilterSeq(IsEven, s[7..]) == [8];
    assert FilterSeq(IsEven, s[6..]) == [8];
    assert FilterSeq(IsEven, s[5..]) == [6, 8];
    assert FilterSeq(IsEven, s[4..]) == [6, 8];
    assert FilterSeq(IsEven, s[3..]) == [4, 6, 8];
    assert FilterSeq(IsEven, s[2..]) == [4, 6, 8];
    assert FilterSeq(IsEven, s[1..]) == [2, 4, 6, 8];
  }
}
