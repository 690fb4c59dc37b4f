/**
 * Highlight overlay lists (class `HighlightList` of gtool.py). A list keeps a
 * working list of `(object, permanent)` entries and a baseline `ini` that the
 * working list is restored to before each pointer update; saving promotes the
 * permanent entries of the working list into the baseline.
 */
module Highlight {
  import opened Wrappers
  import opened Scene

  /** One overlay entry: an object and whether it survives a save. */
  datatype Entry = Entry(obj: Gi, permanent: bool)

  /**
   * The value of a highlight list. `ini` is `None` until the first save or
   * reset_save: the constructor assigns a `saved` attribute that nothing
   * reads, so until then `ini` does not exist and `load` cannot run.
   */
  datatype Layer = Layer(l: seq<Entry>, ini: Option<seq<Entry>>)

  /** `to_list`: the objects of the entries, dropping the flags. */
  function Objects(l: seq<Entry>): (r: seq<Gi>)
  {
    seq(|l|, i requires 0 <= i < |l| => l[i].obj)
  }

  /** The entries `add(*objs, permanent=permanent)` appends. */
  function Tagged(objs: seq<Gi>, permanent: bool): (r: seq<Entry>)
  {
    seq(|objs|, i requires 0 <= i < |objs| => Entry(objs[i], permanent))
  }

  /** The permanent entries, in their order (the list `save` builds). */
  function Permanent(l: seq<Entry>): (r: seq<Entry>)
    ensures |r| <= |l|
    ensures forall e :: e in r <==> e in l && e.permanent
  {
    if l == [] then []
    else (if l[0].permanent then [l[0]] else []) + Permanent(l[1..])
  }

  /** `list.remove(e)` on a list that holds `e`: the first occurrence goes. */
  function RemoveFirst(l: seq<Entry>, e: Entry): (r: seq<Entry>)
  {
    if l == [] then []
    else if l[0] == e then l[1..]
    else [l[0]] + RemoveFirst(l[1..], e)
  }

  /** The entries whose object does not satisfy `cond` (the list `remove_if` builds). */
  function KeepUnless(l: seq<Entry>, cond: Gi -> bool): (r: seq<Entry>)
    ensures |r| <= |l|
    ensures forall e :: e in r <==> e in l && !cond(e.obj)
  {
    if l == [] then []
    else (if cond(l[0].obj) then [] else [l[0]]) + KeepUnless(l[1..], cond)
  }

  // The operations the tool applies to a whole list, on values.

  function Added(h: Layer, objs: seq<Gi>, permanent: bool): Layer
  {
    h.(l := h.l + Tagged(objs, permanent))
  }

  function Loaded(h: Layer): Layer
    requires h.ini.Some?
  {
    h.(l := h.ini.value)
  }

  function Saved(h: Layer): Layer
  {
    h.(ini := Some(Permanent(h.l)))
  }

  function ResetSaved(h: Layer): Layer
  {
    h.(ini := Some([]))
  }

  // Properties of the list functions

  /** Filtering the permanent entries distributes over concatenation. */
  lemma {:induction false} PermanentAppend(a: seq<Entry>, b: seq<Entry>)
    ensures Permanent(a + b) == Permanent(a) + Permanent(b)
  {
    if a == [] {
      assert a + b == b;
    } else {
      assert (a + b)[1..] == a[1..] + b;
      PermanentAppend(a[1..], b);
    }
  }

  /** Saving twice keeps the same baseline: every entry of a baseline is permanent. */
  lemma {:induction false} PermanentIdempotent(l: seq<Entry>)
    ensures Permanent(Permanent(l)) == Permanent(l)
  {
    if l != [] {
      PermanentIdempotent(l[1..]);
      var head := if l[0].permanent then [l[0]] else [];
      PermanentAppend(head, Permanent(l[1..]));
    }
  }

  /** The permanent subset of the entries `add` appends: all or nothing. */
  lemma {:induction false} PermanentTagged(objs: seq<Gi>, permanent: bool)
    ensures Permanent(Tagged(objs, permanent)) == if permanent then Tagged(objs, permanent) else []
  {
    if objs != [] {
      assert Tagged(objs, permanent) == [Entry(objs[0], permanent)] + Tagged(objs[1..], permanent);
      PermanentTagged(objs[1..], permanent);
    }
  }

  /**
   * save then load: the working list is exactly the permanent entries present
   * at save time, in order, and the baseline is those same entries.
   */
  lemma SaveThenLoad(h: Layer)
    ensures Loaded(Saved(h)) == Layer(Permanent(h.l), Some(Permanent(h.l)))
  {
  }

  /** Adding to the working list after a save does not touch the baseline, and a load undoes the add. */
  lemma AddAfterSave(h: Layer, objs: seq<Gi>, permanent: bool)
    ensures Added(Saved(h), objs, permanent).ini == Some(Permanent(h.l))
    ensures Loaded(Added(Saved(h), objs, permanent)) == Loaded(Saved(h))
  {
  }

  /**
   * A save after adding permanent entries to a restored baseline extends the
   * baseline by exactly those entries; non-permanent ones are dropped.
   */
  lemma SaveAfterLoadAdd(h: Layer, objs: seq<Gi>, permanent: bool)
    requires h.ini.Some?
    requires forall e :: e in h.ini.value ==> e.permanent
    ensures Saved(Added(Loaded(h), objs, permanent)).ini ==
            Some(h.ini.value + (if permanent then Tagged(objs, permanent) else []))
  {
    PermanentAppend(h.ini.value, Tagged(objs, permanent));
    PermanentTagged(objs, permanent);
    PermanentAll(h.ini.value);
  }

  /** A list of permanent entries is its own permanent subset. */
  lemma {:induction false} PermanentAll(l: seq<Entry>)
    requires forall e :: e in l ==> e.permanent
    ensures Permanent(l) == l
  {
    if l != [] {
      assert l[0] in l;
      PermanentAll(l[1..]);
    }
  }

  /**
   * `remove` takes out the first occurrence and nothing else: what precedes
   * it is untouched, what follows it moves up by one.
   */
  lemma {:induction false} RemoveFirstAt(l: seq<Entry>, e: Entry, i: nat)
    requires i < |l| && l[i] == e
    requires forall j :: 0 <= j < i ==> l[j] != e
    ensures RemoveFirst(l, e) == l[..i] + l[i + 1..]
  {
    if i > 0 {
      RemoveFirstAt(l[1..], e, i - 1);
      assert l[1..][..i - 1] == l[1..i];
      assert l[1..][i..] == l[i + 1..];
      assert l[..i] == [l[0]] + l[1..i];
    }
  }

  /** `remove` drops exactly one copy of the entry it is given. */
  lemma {:induction false} RemoveFirstMultiset(l: seq<Entry>, e: Entry)
    requires e in l
    ensures multiset(RemoveFirst(l, e)) == multiset(l) - multiset{e}
  {
    if l[0] != e {
      RemoveFirstMultiset(l[1..], e);
      assert l == [l[0]] + l[1..];
    } else {
      assert l == [l[0]] + l[1..];
    }
  }

  /** Removing an object's permanent entry never removes a non-permanent entry. */
  lemma KeepsNonPermanent(l: seq<Entry>, x: Gi, y: Gi)
    requires Entry(x, true) in l
    ensures multiset(RemoveFirst(l, Entry(x, true)))[Entry(y, false)] == multiset(l)[Entry(y, false)]
  {
    RemoveFirstMultiset(l, Entry(x, true));
  }

  /** `remove_if` distributes over concatenation, so it keeps the relative order. */
  lemma {:induction false} KeepUnlessAppend(a: seq<Entry>, b: seq<Entry>, cond: Gi -> bool)
    ensures KeepUnless(a + b, cond) == KeepUnless(a, cond) + KeepUnless(b, cond)
  {
    if a == [] {
      assert a + b == b;
    } else {
      assert (a + b)[1..] == a[1..] + b;
      KeepUnlessAppend(a[1..], b, cond);
    }
  }

  /**
   * One overlay list of a tool. `l` is the working list and `ini` the
   * baseline; `saved` is assigned by the constructor and never read.
   */
  class HighlightList {
    var l: seq<Entry>
    var ini: Option<seq<Entry>>
    var saved: seq<Entry>

    /** The list's value. */
    function Value(): Layer
      reads this
    {
      Layer(l, ini)
    }

    constructor ()
      ensures Value() == Layer([], None) && saved == []
    {
      l := [];
      saved := [];
      ini := None;
    }

    /** `to_list`: the objects of the working list, in order. */
    method ToList() returns (r: seq<Gi>)
      ensures |r| == |l|
      ensures forall i :: 0 <= i < |l| ==> r[i] == l[i].obj
      ensures r == Objects(l)
    {
      r := [];
      var i := 0;
      while i < |l|
        invariant 0 <= i <= |l|
        invariant |r| == i
        invariant forall k :: 0 <= k < i ==> r[k] == l[k].obj
      {
        r := r + [l[i].obj];
        i := i + 1;
      }
    }

    /** `add`: appends one entry per object, all with the same flag. */
    method Add(objs: seq<Gi>, permanent: bool)
      modifies this
      ensures Value() == Added(old(Value()), objs, permanent)
      ensures saved == old(saved)
    {
      l := l + Tagged(objs, permanent);
    }

    /** `load`: the working list becomes a copy of the baseline. */
    method Load()
      requires ini.Some?
      modifies this
      ensures Value() == Loaded(old(Value()))
      ensures saved == old(saved)
    {
      l := ini.value;
    }

    /** `save`: the baseline becomes the permanent entries of the working list. */
    method Save()
      modifies this
      ensures Value() == Saved(old(Value()))
      ensures saved == old(saved)
    {
      ini := Some(Permanent(l));
    }

    /** `reset_save`: the baseline becomes empty. */
    method ResetSave()
      modifies this
      ensures Value() == ResetSaved(old(Value()))
      ensures saved == old(saved)
    {
      ini := Some([]);
    }

    /** `pop`: removes and returns the last working entry; `None` stands for the IndexError of an empty list. */
    method Pop() returns (e: Option<Entry>)
      modifies this
      ensures old(l) == [] ==> e == None && l == []
      ensures old(l) != [] ==> e == Some(old(l)[|old(l)| - 1]) && l == old(l)[..|old(l)| - 1]
      ensures ini == old(ini) && saved == old(saved)
    {
      if l == [] {
        e := None;
      } else {
        e := Some(l[|l| - 1]);
        l := l[..|l| - 1];
      }
    }

    /**
     * `remove`: deletes the first `(x, True)` entry. `ok` is false, and the
     * list is unchanged, where Python raises ValueError because there is none.
     */
    method Remove(x: Gi) returns (ok: bool)
      modifies this
      ensures ok <==> Entry(x, true) in old(l)
      ensures l == if ok then RemoveFirst(old(l), Entry(x, true)) else old(l)
      ensures ini == old(ini) && saved == old(saved)
    {
      var target := Entry(x, true);
      var i := 0;
      while i < |l| && l[i] != target
        invariant 0 <= i <= |l|
        invariant forall j :: 0 <= j < i ==> l[j] != target
      {
        i := i + 1;
      }
      ok := i < |l|;
      if ok {
        RemoveFirstAt(l, target, i);
        l := l[..i] + l[i + 1..];
      }
    }

    /** `remove_if`: keeps the entries whose object fails `cond`, whatever their flag. */
    method RemoveIf(cond: Gi -> bool)
      modifies this
      ensures l == KeepUnless(old(l), cond)
      ensures ini == old(ini) && saved == old(saved)
    {
      l := KeepUnless(l, cond);
    }
  }
}
