/** Child-process teardown (the `cleanup` signal handler): which children are
    signalled, and in which order. */
module Lifecycle {
  import opened Wrappers

  /** An entry of `childprocesses`: its `.process`, the pid of a running
      process, or none when the collaborator has no process of its own. */
  datatype Child = Child(process: Option<int>)

  /** What `cleanup` was called for: an OS signal number, or normal exit. */
  datatype Reason = Signal(number: int) | AtExit

  /** Pids of the entries that hold a process, in list order. */
  function LivePids(children: seq<Child>): (pids: seq<int>)
    ensures |pids| <= |children|
  {
    if children == [] then []
    else (if children[0].process.Some? then [children[0].process.value] else [])
         + LivePids(children[1..])
  }

  /** The SIGTERMs `cleanup` sends, in order: it pops entries from the end of
      the list and signals each that holds a process. */
  function TermOrder(children: seq<Child>): (pids: seq<int>)
    ensures |pids| <= |children|
    ensures (forall i :: 0 <= i < |children| ==> children[i].process.None?) ==> pids == []
  {
    if children == [] then []
    else
      var last := children[|children| - 1];
      (if last.process.Some? then [last.process.value] else [])
      + TermOrder(children[..|children| - 1])
  }

  function Reverse(s: seq<int>): (r: seq<int>)
    ensures |r| == |s|
  {
    if s == [] then [] else Reverse(s[1..]) + [s[0]]
  }

  lemma {:induction false} ReverseAppend(a: seq<int>, b: seq<int>)
    ensures Reverse(a + b) == Reverse(b) + Reverse(a)
  {
    if a == [] {
      assert a + b == b;
    } else {
      assert (a + b)[1..] == a[1..] + b;
      ReverseAppend(a[1..], b);
    }
  }

  lemma {:induction false} LivePidsAppend(a: seq<Child>, b: seq<Child>)
    ensures LivePids(a + b) == LivePids(a) + LivePids(b)
  {
    if a == [] {
      assert a + b == b;
    } else {
      var head := if a[0].process.Some? then [a[0].process.value] else [];
      assert (a + b)[0] == a[0];
      assert (a + b)[1..] == a[1..] + b;
      assert LivePids(a + b) == head + LivePids(a[1..] + b);
      LivePidsAppend(a[1..], b);
      assert LivePids(a) == head + LivePids(a[1..]);
    }
  }

  /** `cleanup` signals exactly the children that hold a process, one SIGTERM
      each, last entry first. */
  lemma {:induction false} TermOrderReversesLive(children: seq<Child>)
    ensures TermOrder(children) == Reverse(LivePids(children))
  {
    if children != [] {
      var n := |children|;
      var front, last := children[..n - 1], children[n - 1];
      assert children == front + [last];
      TermOrderReversesLive(front);
      LivePidsAppend(front, [last]);
      assert LivePids([last]) == (if last.process.Some? then [last.process.value] else []) + LivePids([]);
      ReverseAppend(LivePids(front), LivePids([last]));
    }
  }
}
