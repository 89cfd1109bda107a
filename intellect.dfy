/** The pure and stateful helpers of the learning pilot (pypilot/pilots/intellect.py):
    the elapsed-time `stopwatch`, the sliding `History` window of samples, and
    `inputs`, which selects named fields from each sample and flattens them
    into one vector. */
module Intellect {

  /** `stopwatch`: accumulates the time between `start` and `stop`. The clock
      reading is a parameter; a start time of 0 stands for the source's
      initial `False`. */
  class Stopwatch {
    var total: real
    var starttime: real

    constructor ()
      ensures total == 0.0 && starttime == 0.0
    {
      total, starttime := 0.0, 0.0;
    }

    method Start(now: real)
      modifies this`starttime
      ensures starttime == now
    {
      starttime := now;
    }

    /** Adds the time since the start to the total. The start time is kept,
        so a later `Time` at the same clock reading counts that span twice. */
    method Stop(now: real)
      modifies this`total
      ensures total == old(total) + (now - starttime)
      ensures starttime != 0.0 ==> Time(now) == old(Time(now)) + (now - starttime)
    {
      total := total + (now - starttime);
    }

    /** The total plus the time since the start; 0 before any start. */
    function Time(now: real): (t: real)
      reads this
      ensures starttime == 0.0 ==> t == 0.0
      ensures starttime != 0.0 ==> t - total == now - starttime
    {
      if starttime == 0.0 then 0.0 else total + now - starttime
    }
  }

  /** The source's `data[1:]`: drops the first element, and is empty on empty. */
  function Drop1<T>(data: seq<T>): (r: seq<T>)
    ensures data == [] ==> r == []
    ensures data != [] ==> data == [data[0]] + r
  {
    if data == [] then [] else data[1..]
  }

  /** The window after `put(x)` on a window of `samples` holding `data`. */
  function PutValue<T>(samples: int, data: seq<T>, x: T): seq<T> {
    (if |data| == samples then Drop1(data) else data) + [x]
  }

  /** After a put the new item is last; a window that was not full keeps its
      items and grows by one; a full window of positive size keeps its size
      and loses its oldest item; a window within a positive bound stays
      within it. */
  lemma PutValueShape<T>(samples: int, data: seq<T>, x: T)
    ensures var r := PutValue(samples, data, x);
      && |r| > 0 && r[|r| - 1] == x
      && (|data| != samples ==> |r| == |data| + 1 && r[..|r| - 1] == data)
      && (|data| == samples && samples > 0 ==> |r| == samples && r == data[1..] + [x])
      && (samples > 0 && |data| <= samples ==> |r| <= samples)
  {
    var r := PutValue(samples, data, x);
    if |data| != samples {
      assert r[..|r| - 1] == data;
    }
  }

  /** The window after putting each of `xs` in turn into `data`: the last
      item put is the newest, and a window within a positive bound stays
      within it. */
  function PutAll<T>(samples: int, data: seq<T>, xs: seq<T>): (r: seq<T>)
    ensures xs != [] ==> |r| > 0 && r[|r| - 1] == xs[|xs| - 1]
    ensures samples > 0 && |data| <= samples ==> |r| <= samples
    decreases |xs|
  {
    if xs == [] then data
    else
      var window := PutAll(samples, data, xs[..|xs| - 1]);
      PutValueShape(samples, window, xs[|xs| - 1]);
      PutValue(samples, window, xs[|xs| - 1])
  }

  /** The last `n` elements of `xs`, or all of them when there are fewer. */
  function Last<T>(xs: seq<T>, n: nat): (r: seq<T>)
    ensures |r| == if |xs| <= n then |xs| else n
  {
    if |xs| <= n then xs else xs[|xs| - n..]
  }

  /** On a full window, dropping the oldest and appending the next item of
      `xs` slides the window of the last `s` items by one. */
  lemma SlideWindow<T>(xs: seq<T>, s: int)
    requires 0 < s < |xs|
    ensures Drop1(xs[|xs| - 1 - s..|xs| - 1]) + [xs[|xs| - 1]] == xs[|xs| - s..]
  {
    var n := |xs|;
    var w := xs[n - 1 - s..n - 1];
    assert Drop1(w) == xs[n - s..n - 1];
    assert xs[n - s..] == xs[n - s..n - 1] + [xs[n - 1]];
  }

  /** Putting `x` into a window holding the last `samples` items of `front`
      leaves the last `samples` items of `front + [x]`. */
  lemma PutValueLast<T>(samples: int, front: seq<T>, x: T)
    requires samples > 0
    ensures PutValue(samples, Last(front, samples), x) == Last(front + [x], samples)
  {
    var ys := front + [x];
    if |front| >= samples {
      assert Last(front, samples) == ys[|ys| - 1 - samples..|ys| - 1];
      SlideWindow(ys, samples);
    }
  }

  /** A window of positive size fed from empty holds exactly the most recent
      `samples` items, oldest first. */
  lemma {:induction false} PutAllKeepsLatest<T>(samples: int, xs: seq<T>)
    requires samples > 0
    ensures PutAll(samples, [], xs) == Last(xs, samples)
    decreases |xs|
  {
    if xs != [] {
      var front, x := xs[..|xs| - 1], xs[|xs| - 1];
      assert PutAll(samples, [], xs) == PutValue(samples, PutAll(samples, [], front), x);
      PutAllKeepsLatest(samples, front);
      PutValueLast(samples, front, x);
      assert front + [x] == xs;
    }
  }

  /** `History`: a window of at most `samples` items where a put onto a full
      window drops the oldest. The source derives `samples` from its
      configuration; here it is given. */
  class History<T> {
    const samples: int
    var data: seq<T>

    constructor (samples: int)
      ensures this.samples == samples && data == []
    {
      this.samples := samples;
      data := [];
    }

    predicate Full()
      reads this
    {
      |data| == samples
    }

    method Put(x: T)
      modifies this`data
      ensures data == PutValue(samples, old(data), x)
      ensures data[|data| - 1] == x
      ensures !old(Full()) ==> |data| == old(|data|) + 1 && data[..|data| - 1] == old(data)
      ensures old(Full()) && samples > 0 ==> |data| == samples && data == old(data)[1..] + [x]
      ensures samples > 0 && old(|data|) <= samples ==> |data| <= samples
    {
      PutValueShape(samples, data, x);
      if Full() {
        data := Drop1(data);
      }
      data := data + [x];
    }

    method Clear()
      modifies this`data
      ensures Full() <==> samples == 0
      ensures data == []
    {
      data := [];
    }

    /** `full()`: the window holds exactly `samples` items. */
    method IsFull() returns (b: bool)
      ensures b <==> |data| == samples
      ensures b && samples > 0 ==> data != []
    {
      b := Full();
    }
  }

  /** A sensor value as the source's records hold it: a number or a list. */
  datatype Value = Scalar(x: real) | List(items: seq<Value>)

  /** A sample: the named values recorded in one cycle, in their key order. */
  type Entry = seq<(string, Value)>

  /** What `select` contributes for one field: nothing when its name is not
      wanted, the elements of a list value, or the value itself. */
  function Piece(name: string, value: Value, names: seq<string>): seq<Value> {
    if name !in names then []
    else if value.List? then value.items
    else [value]
  }

  /** `select(values, names)`: the pieces of the fields in order. Nothing
      is selected when no name is wanted or there is no field, and a single
      field contributes exactly its piece. */
  function Selected(entry: Entry, names: seq<string>): (r: seq<Value>)
    ensures names == [] || entry == [] ==> r == []
    ensures |entry| == 1 ==> r == Piece(entry[0].0, entry[0].1, names)
    decreases |entry|
  {
    if entry == [] then []
    else
      var (name, value) := entry[|entry| - 1];
      Selected(entry[..|entry| - 1], names) + Piece(name, value, names)
  }

  /** `select` as the source computes it, one field at a time. */
  method Select(entry: Entry, names: seq<string>) returns (data: seq<Value>)
    ensures data == Selected(entry, names)
  {
    data := [];
    var i := 0;
    while i < |entry|
      invariant 0 <= i <= |entry|
      invariant data == Selected(entry[..i], names)
    {
      var (name, value) := entry[i];
      SelectedStep(entry, names, i);
      if name in names {
        if value.List? {
          data := data + value.items;
        } else {
          data := data + [value];
        }
      }
      i := i + 1;
    }
    assert entry[..|entry|] == entry;
  }

  lemma {:induction false} SelectedAppend(a: Entry, b: Entry, names: seq<string>)
    ensures Selected(a + b, names) == Selected(a, names) + Selected(b, names)
    decreases |b|
  {
    if b != [] {
      var n := |b|;
      assert (a + b)[..|a + b| - 1] == a + b[..n - 1];
      assert (a + b)[|a + b| - 1] == b[n - 1];
      SelectedAppend(a, b[..n - 1], names);
    } else {
      assert a + b == a;
    }
  }

  /** Every selected value comes from a wanted field: it is that field's value
      or one of the elements of its list. */
  lemma {:induction false} SelectedFromWanted(entry: Entry, names: seq<string>, v: Value)
    requires v in Selected(entry, names)
    ensures exists i :: (0 <= i < |entry| && entry[i].0 in names &&
      ((entry[i].1.Scalar? && v == entry[i].1) || (entry[i].1.List? && v in entry[i].1.items)))
    decreases |entry|
  {
    var n := |entry|;
    var front := entry[..n - 1];
    var (name, value) := entry[n - 1];
    if v in Selected(front, names) {
      SelectedFromWanted(front, names, v);
      var i :| 0 <= i < |front| && front[i].0 in names &&
        ((front[i].1.Scalar? && v == front[i].1) || (front[i].1.List? && v in front[i].1.items));
      assert entry[i] == front[i];
    } else {
      assert v in Piece(name, value, names);
      assert entry[n - 1].0 in names;
    }
  }

  /** Selecting one more field appends that field's piece. */
  lemma SelectedStep(entry: Entry, names: seq<string>, i: int)
    requires 0 <= i < |entry|
    ensures Selected(entry[..i + 1], names) == Selected(entry[..i], names) + Piece(entry[i].0, entry[i].1, names)
  {
    var pre := entry[..i + 1];
    assert pre[..|pre| - 1] == entry[..i];
    assert pre[|pre| - 1] == entry[i];
  }

  /** Field `i` contributes its piece in place: after the selection of the
      fields before it and before the selection of the fields after it. In
      particular every piece of a wanted field is selected. */
  lemma SelectedSplit(entry: Entry, names: seq<string>, i: int)
    requires 0 <= i < |entry|
    ensures Selected(entry, names)
         == Selected(entry[..i], names) + Piece(entry[i].0, entry[i].1, names) + Selected(entry[i + 1..], names)
  {
    var pre, post := entry[..i + 1], entry[i + 1..];
    SelectedStep(entry, names, i);
    SelectedAppend(pre, post, names);
    assert pre + post == entry;
  }

  /** `flatten`: a number becomes a one-element vector, a list the in-order
      concatenation of its elements' flattenings. */
  function Flatten(v: Value): (r: seq<real>)
    ensures v.Scalar? ==> |r| == 1
    ensures v.List? && (forall i :: 0 <= i < |v.items| ==> v.items[i].Scalar?) ==> |r| == |v.items|
    decreases v, 1
  {
    match v
    case Scalar(x) => [x]
    case List(items) => FlattenAll(items)
  }

  /** The in-order concatenation of the flattenings of `items`: empty for
      no items, the flattening of the item for one, and one number per item
      when all are numbers. */
  function FlattenAll(items: seq<Value>): (r: seq<real>)
    ensures items == [] ==> r == []
    ensures |items| == 1 ==> r == Flatten(items[0])
    ensures (forall i :: 0 <= i < |items| ==> items[i].Scalar?) ==> |r| == |items|
    decreases items, 0
  {
    if items == [] then []
    else FlattenAll(items[..|items| - 1]) + Flatten(items[|items| - 1])
  }

  lemma {:induction false} FlattenAllAppend(a: seq<Value>, b: seq<Value>)
    ensures FlattenAll(a + b) == FlattenAll(a) + FlattenAll(b)
    decreases |b|
  {
    if b != [] {
      var n := |b|;
      assert (a + b)[..|a + b| - 1] == a + b[..n - 1];
      assert (a + b)[|a + b| - 1] == b[n - 1];
      FlattenAllAppend(a, b[..n - 1]);
    } else {
      assert a + b == a;
    }
  }

  /** Numbers as scalar values. */
  function Scalars(xs: seq<real>): (vs: seq<Value>)
    ensures |vs| == |xs| && forall i :: 0 <= i < |xs| ==> vs[i] == Scalar(xs[i])
  {
    seq(|xs|, i requires 0 <= i < |xs| => Scalar(xs[i]))
  }

  /** Flattening a list of numbers gives back the numbers. */
  lemma {:induction false} FlattenScalars(xs: seq<real>)
    ensures FlattenAll(Scalars(xs)) == xs
    decreases |xs|
  {
    if xs != [] {
      var n := |xs|;
      assert Scalars(xs)[..n - 1] == Scalars(xs[..n - 1]);
      FlattenScalars(xs[..n - 1]);
      assert xs == xs[..n - 1] + [xs[n - 1]];
    }
  }

  /** Flattening is idempotent: the flattening of a value, re-wrapped as a
      list of numbers, flattens to itself. */
  lemma FlattenIdempotent(v: Value)
    ensures Flatten(List(Scalars(Flatten(v)))) == Flatten(v)
  {
    FlattenScalars(Flatten(v));
  }

  /** The selections of every sample of a history, each as one list value. */
  function Selections(history: seq<Entry>, names: seq<string>): seq<Value> {
    seq(|history|, i requires 0 <= i < |history| => List(Selected(history[i], names)))
  }

  /** `inputs(history, names)`: the flattened selections of all samples;
      empty for an empty history, and for a single sample the flattening of
      its selection. */
  function Inputs(history: seq<Entry>, names: seq<string>): (r: seq<real>)
    ensures history == [] ==> r == []
    ensures |history| == 1 ==> r == FlattenAll(Selected(history[0], names))
  {
    Flatten(List(Selections(history, names)))
  }

  /** The input vector grows sample by sample: a further sample adds the
      flattening of its selection at the end. */
  lemma InputsAppend(history: seq<Entry>, entry: Entry, names: seq<string>)
    ensures Inputs(history + [entry], names) == Inputs(history, names) + FlattenAll(Selected(entry, names))
  {
    assert Selections(history + [entry], names) == Selections(history, names) + [List(Selected(entry, names))];
    FlattenAllAppend(Selections(history, names), [List(Selected(entry, names))]);
    assert FlattenAll([List(Selected(entry, names))]) == FlattenAll(Selected(entry, names)) by {
      assert [List(Selected(entry, names))][..0] == [];
    }
  }

  /** Sum of the flattened selection lengths of every sample. */
  function InputSize(history: seq<Entry>, names: seq<string>): nat
    decreases |history|
  {
    if history == [] then 0
    else InputSize(history[..|history| - 1], names) + |FlattenAll(Selected(history[|history| - 1], names))|
  }

  /** The length of the input vector is the sum over samples of the sizes of
      their flattened selections. */
  lemma {:induction false} InputsLength(history: seq<Entry>, names: seq<string>)
    ensures |Inputs(history, names)| == InputSize(history, names)
    decreases |history|
  {
    if history == [] {
      assert Selections(history, names) == [];
      assert Inputs(history, names) == FlattenAll([]);
    } else {
      var n := |history|;
      assert history == history[..n - 1] + [history[n - 1]];
      InputsLength(history[..n - 1], names);
      InputsAppend(history[..n - 1], history[n - 1], names);
    }
  }
}
