/** FilterChain: an ordered, mutable sequence of (shared) filters. */
module FilterChain {
  import opened Frames
  import opened FilterBase

  /** The result of std::remove_if by identifier: the filters whose id
      differs from `id`, in their original order. */
  function Without(fs: seq<Filter>, id: string): (r: seq<Filter>)
    ensures |r| <= |fs|
    ensures forall i :: 0 <= i < |r| ==> r[i] in fs && r[i].Id() != id
  {
    if fs == [] then []
    else
      var last := fs[|fs| - 1];
      Without(fs[..|fs| - 1], id) + (if last.Id() != id then [last] else [])
  }

  /** Removal distributes over concatenation: survivors keep their relative order. */
  lemma {:induction false} WithoutConcat(a: seq<Filter>, b: seq<Filter>, id: string)
    ensures Without(a + b, id) == Without(a, id) + Without(b, id)
  {
    if b == [] {
      assert a + b == a;
    } else {
      var b' := b[..|b| - 1];
      assert (a + b)[..|a + b| - 1] == a + b';
      WithoutConcat(a, b', id);
    }
  }

  /** Every occurrence of a filter with another id survives, and none with `id`. */
  lemma {:induction false} WithoutCounts(fs: seq<Filter>, id: string, f: Filter)
    ensures multiset(Without(fs, id))[f] == if f.Id() == id then 0 else multiset(fs)[f]
  {
    if fs != [] {
      var init := fs[..|fs| - 1];
      assert fs == init + [fs[|fs| - 1]];
      WithoutCounts(init, id, f);
    }
  }

  /** Removing an id no filter carries changes nothing. */
  lemma {:induction false} WithoutAbsent(fs: seq<Filter>, id: string)
    requires forall i :: 0 <= i < |fs| ==> fs[i].Id() != id
    ensures Without(fs, id) == fs
  {
    if fs != [] {
      var init := fs[..|fs| - 1];
      WithoutAbsent(init, id);
      assert fs == init + [fs[|fs| - 1]];
    }
  }

  /** Removing twice is removing once. */
  lemma WithoutIdempotent(fs: seq<Filter>, id: string)
    ensures Without(Without(fs, id), id) == Without(fs, id)
  {
    WithoutAbsent(Without(fs, id), id);
  }

  function RemoveAt(s: seq<Filter>, i: nat): (r: seq<Filter>)
    requires i < |s|
    ensures |r| == |s| - 1
  {
    s[..i] + s[i + 1..]
  }

  function InsertAt(s: seq<Filter>, i: nat, x: Filter): (r: seq<Filter>)
    requires i <= |s|
    ensures |r| == |s| + 1
  {
    s[..i] + [x] + s[i..]
  }

  /** vector::erase at `from` followed by vector::insert at `to`. */
  function Moved(s: seq<Filter>, from: nat, to: nat): (r: seq<Filter>)
    requires from < |s| && to < |s|
    ensures |r| == |s| && r[to] == s[from]
  {
    InsertAt(RemoveAt(s, from), to, s[from])
  }

  /** Where each filter lands: the moved one at `to`, those strictly between
      the two positions shift by one toward `from`, the rest stay put. */
  lemma MovedAt(s: seq<Filter>, from: nat, to: nat, i: nat)
    requires from < |s| && to < |s| && i < |s|
    ensures Moved(s, from, to)[i] ==
      if i == to then s[from]
      else if from < to && from <= i < to then s[i + 1]
      else if to < from && to < i <= from then s[i - 1]
      else s[i]
  {
  }

  /** The moved filter sits at `to`; deleting it from the result gives the
      same sequence as deleting it from the input: the others keep their
      relative order. */
  lemma MovedKeepsOthers(s: seq<Filter>, from: nat, to: nat)
    requires from < |s| && to < |s|
    ensures Moved(s, from, to)[to] == s[from]
    ensures RemoveAt(Moved(s, from, to), to) == RemoveAt(s, from)
  {
    var t := RemoveAt(s, from);
    assert Moved(s, from, to)[..to] == t[..to];
    assert Moved(s, from, to)[to + 1..] == t[to..];
  }

  /** A move is a permutation. */
  lemma MovedPermutes(s: seq<Filter>, from: nat, to: nat)
    requires from < |s| && to < |s|
    ensures multiset(Moved(s, from, to)) == multiset(s)
  {
    var x, t := s[from], RemoveAt(s, from);
    var r := Moved(s, from, to);
    assert s == s[..from] + [x] + s[from + 1..];
    assert multiset(s) == multiset(s[..from]) + multiset([x]) + multiset(s[from + 1..]);
    assert multiset(t) == multiset(s[..from]) + multiset(s[from + 1..]);
    assert r == t[..to] + [x] + t[to..];
    assert multiset(r) == multiset(t[..to]) + multiset([x]) + multiset(t[to..]);
    assert t == t[..to] + t[to..];
    assert multiset(t) == multiset(t[..to]) + multiset(t[to..]);
    assert multiset(r) == multiset(t) + multiset([x]);
  }

  /** Moving back undoes a move. */
  lemma MovedInverse(s: seq<Filter>, from: nat, to: nat)
    requires from < |s| && to < |s|
    ensures Moved(Moved(s, from, to), to, from) == s
  {
    var r := Moved(s, from, to);
    MovedKeepsOthers(s, from, to);
    var t := RemoveAt(r, to);
    assert s == s[..from] + [s[from]] + s[from + 1..];
    assert t[..from] == s[..from];
    assert t[from..] == s[from + 1..];
  }

  /** Moving a filter onto its own place is the identity. */
  lemma MovedSame(s: seq<Filter>, i: nat)
    requires i < |s|
    ensures Moved(s, i, i) == s
  {
    assert s == s[..i] + [s[i]] + s[i + 1..];
  }

  /** The frame process() returns: each filter's output, folded left to right
      over the chain (a disabled filter contributes its input unchanged). */
  function Pipeline(fs: seq<Filter>, x: Frame): (r: Frame)
    reads fs
    ensures (forall i :: 0 <= i < |fs| ==> !fs[i].enabled) ==> r == x
  {
    if fs == [] then x else fs[|fs| - 1].Output(Pipeline(fs[..|fs| - 1], x))
  }

  /** The enabled filters, in chain order. */
  function EnabledOnly(fs: seq<Filter>): (r: seq<Filter>)
    reads fs
    ensures forall i :: 0 <= i < |r| ==> r[i] in fs && r[i].enabled
  {
    if fs == [] then []
    else
      var last := fs[|fs| - 1];
      EnabledOnly(fs[..|fs| - 1]) + (if last.enabled then [last] else [])
  }

  /** Reference definition: apply every filter's effect, first to last,
      without looking at any enable flag. */
  function ApplyAll(fs: seq<Filter>, x: Frame): Frame
    reads fs
  {
    if fs == [] then x else ApplyAll(fs[1..], Effect(fs[0].params, x))
  }

  lemma {:induction false} ApplyAllSnoc(fs: seq<Filter>, f: Filter, x: Frame)
    ensures ApplyAll(fs + [f], x) == Effect(f.params, ApplyAll(fs, x))
  {
    if fs != [] {
      assert (fs + [f])[1..] == fs[1..] + [f];
      ApplyAllSnoc(fs[1..], f, Effect(fs[0].params, x));
    }
  }

  /** process() applies exactly the enabled filters' effects, in order. */
  lemma {:induction false} PipelineIsEnabledEffects(fs: seq<Filter>, x: Frame)
    ensures Pipeline(fs, x) == ApplyAll(EnabledOnly(fs), x)
  {
    if fs != [] {
      var init, last := fs[..|fs| - 1], fs[|fs| - 1];
      PipelineIsEnabledEffects(init, x);
      if last.enabled {
        ApplyAllSnoc(EnabledOnly(init), last, x);
      } else {
        assert EnabledOnly(fs) == EnabledOnly(init);
      }
    }
  }

  /** A chain with no enabled filter returns its input. */
  lemma NoEnabledFilterIsIdentity(fs: seq<Filter>, x: Frame)
    requires forall i :: 0 <= i < |fs| ==> !fs[i].enabled
    ensures Pipeline(fs, x) == x
  {
    PipelineIsEnabledEffects(fs, x);
  }

  /** Chains with the same enabled filters process every frame alike: a
      disabled filter is as good as a removed one. */
  lemma SameEnabledSameOutput(a: seq<Filter>, b: seq<Filter>, x: Frame)
    requires EnabledOnly(a) == EnabledOnly(b)
    ensures Pipeline(a, x) == Pipeline(b, x)
  {
    PipelineIsEnabledEffects(a, x);
    PipelineIsEnabledEffects(b, x);
  }

  /** Processing a concatenated chain is processing one part after the other. */
  lemma {:induction false} PipelineConcat(a: seq<Filter>, b: seq<Filter>, x: Frame)
    ensures Pipeline(a + b, x) == Pipeline(b, Pipeline(a, x))
  {
    if b == [] {
      assert a + b == a;
    } else {
      var b' := b[..|b| - 1];
      assert (a + b)[..|a + b| - 1] == a + b';
      PipelineConcat(a, b', x);
    }
  }

  /** The three-channel format of the input survives the whole chain. */
  lemma {:induction false} PipelineKeepsThreeChannels(fs: seq<Filter>, x: Frame)
    requires Channels(x) == 3
    ensures Channels(Pipeline(fs, x)) == 3
  {
    if fs != [] {
      var init, last := fs[..|fs| - 1], fs[|fs| - 1];
      PipelineKeepsThreeChannels(init, x);
      if last.enabled {
        EffectKeepsThreeChannels(last.params, Pipeline(init, x));
      }
    }
  }

  /** Index of the first filter whose id is `id`, or |fs| when there is none. */
  function IndexOfId(fs: seq<Filter>, id: string): (r: nat)
    ensures r <= |fs|
    ensures forall j :: 0 <= j < r ==> fs[j].Id() != id
    ensures r < |fs| ==> fs[r].Id() == id
  {
    if fs == [] then 0
    else if fs[0].Id() == id then 0
    else 1 + IndexOfId(fs[1..], id)
  }

  /** After removing an id, it is not found. */
  lemma NotFoundAfterRemove(fs: seq<Filter>, id: string)
    ensures IndexOfId(Without(fs, id), id) == |Without(fs, id)|
  {
  }

  class FilterChain {
    /** m_filters. */
    var filters: seq<Filter>

    constructor ()
      ensures filters == []
    {
      filters := [];
    }

    /** append: push_back. */
    method Append(f: Filter)
      modifies this
      ensures filters == old(filters) + [f]
    {
      filters := filters + [f];
    }

    /** remove: erase(remove_if(id matches)), a compacting pass. */
    method Remove(id: string)
      modifies this
      ensures filters == Without(old(filters), id)
    {
      var kept: seq<Filter> := [];
      var i := 0;
      while i < |filters|
        invariant 0 <= i <= |filters|
        invariant kept == Without(filters[..i], id)
      {
        if filters[i].Id() != id {
          kept := kept + [filters[i]];
        }
        assert filters[..i + 1][..i] == filters[..i];
        i := i + 1;
      }
      assert filters[..i] == filters;
      filters := kept;
    }

    /** move: a no-op unless both indices are in range and differ;
        otherwise erase at `from`, then insert at `to`. */
    method Move(from: nat, to: nat)
      modifies this
      ensures if from >= |old(filters)| || to >= |old(filters)| || from == to
              then filters == old(filters)
              else filters == Moved(old(filters), from, to)
    {
      if from >= |filters| || to >= |filters| || from == to {
        return;
      }
      var f := filters[from];
      filters := filters[..from] + filters[from + 1..];
      filters := filters[..to] + [f] + filters[to..];
    }

    /** clear. */
    method Clear()
      modifies this
      ensures filters == []
    {
      filters := [];
    }

    /** process: the running frame is passed through every enabled filter in
        turn; `invoked` records the filters whose apply() was called. */
    method Process(src: Frame) returns (dst: Frame, ghost invoked: seq<Filter>)
      requires forall i :: 0 <= i < |filters| ==> filters[i].Valid()
      ensures dst == Pipeline(filters, src)
      ensures invoked == EnabledOnly(filters)
    {
      var frame := src;
      invoked := [];
      var i := 0;
      while i < |filters|
        invariant 0 <= i <= |filters|
        invariant frame == Pipeline(filters[..i], src)
        invariant invoked == EnabledOnly(filters[..i])
      {
        var f := filters[i];
        if f.enabled {
          frame := f.Apply(frame);
          invoked := invoked + [f];
        }
        assert filters[..i + 1][..i] == filters[..i];
        i := i + 1;
      }
      assert filters[..i] == filters;
      dst := frame;
    }

    /** find: the first filter with that id, or null. */
    method Find(id: string) returns (r: Filter?)
      ensures r == if IndexOfId(filters, id) < |filters| then filters[IndexOfId(filters, id)] else null
    {
      var i := 0;
      while i < |filters|
        invariant 0 <= i <= |filters|
        invariant forall j :: 0 <= j < i ==> filters[j].Id() != id
      {
        if filters[i].Id() == id {
          return filters[i];
        }
        i := i + 1;
      }
      return null;
    }

    /** size. */
    method Size() returns (n: nat)
      ensures n == |filters|
    {
      n := |filters|;
    }
  }
}
