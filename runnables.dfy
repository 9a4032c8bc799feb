/**
  The objects Mocha hands to its event listeners: tests, hooks and the suites
  above them, linked upward through `parent`; and the walk that finds the root
  suite a test belongs to.
 */
module Runnables {
  import opened Wrappers

  /** The `err` object Mocha attaches to a test and the error it passes with a `fail` event. */
  datatype ErrorInfo = ErrorInfo(message: string, stack: Option<string>)

  /**
    A test, hook or suite. Mocha's top-level suite has the empty title and no
    parent. `duration` is in milliseconds and may be undefined; `state` is
    `"passed"`, `"failed"` or something else (pending, undefined).
   */
  datatype Node = Node(
    title: string,
    parent: Option<Node>,
    duration: Option<nat>,
    state: Option<string>,
    file: Option<string>,
    err: Option<ErrorInfo>)

  /** The node sits directly under the top-level suite, or has no parent at all. */
  predicate AtRootLevel(n: Node) {
    n.parent.None? || n.parent.value.title == ""
  }

  /** The node and its ancestors, nearest first: an independent view of the parent relation. */
  function Chain(n: Node): (c: seq<Node>)
    ensures |c| >= 1 && c[0] == n
    ensures forall i :: 0 <= i < |c| - 1 ==> c[i].parent == Some(c[i + 1])
    ensures c[|c| - 1].parent.None?
  {
    match n.parent
    case None => [n]
    case Some(p) => [n] + Chain(p)
  }

  /**
    `_getRootTestTitle`: null for an absent test; otherwise the title of the
    first node, walking up from the test, that is at root level.
   */
  function RootTitle(test: Option<Node>): (r: Option<string>)
    ensures r.Some? <==> test.Some?
  {
    match test
    case None => None
    case Some(n) =>
      if n.parent.None? || n.parent.value.title == "" then Some(n.title)
      else RootTitle(n.parent)
  }

  /** The property key a present test is filed under. */
  function RootKey(n: Node): string {
    RootTitle(Some(n)).value
  }

  /**
    The root title is the title of the nearest ancestor-or-self at root
    level: whichever index `i` of the chain is at root level with none below
    it, its title is the result.
   */
  lemma {:induction false} RootTitleIsNearestRootLevel(n: Node, i: nat)
    requires i < |Chain(n)| && AtRootLevel(Chain(n)[i])
    requires forall j :: 0 <= j < i ==> !AtRootLevel(Chain(n)[j])
    ensures RootTitle(Some(n)) == Some(Chain(n)[i].title)
  {
    if i > 0 {
      var p := n.parent.value;
      assert Chain(n) == [n] + Chain(p);
      forall j | 0 <= j < i - 1
        ensures !AtRootLevel(Chain(p)[j])
      {
        assert Chain(p)[j] == Chain(n)[j + 1];
      }
      RootTitleIsNearestRootLevel(p, i - 1);
    }
  }

  /** Such an ancestor always exists: the walk terminates at a root-level node. */
  lemma {:induction false} NearestRootLevelExists(n: Node)
    ensures exists i :: 0 <= i < |Chain(n)| && AtRootLevel(Chain(n)[i])
              && forall j :: 0 <= j < i ==> !AtRootLevel(Chain(n)[j])
  {
    if AtRootLevel(n) {
      assert AtRootLevel(Chain(n)[0]);
    } else {
      var p := n.parent.value;
      NearestRootLevelExists(p);
      var i :| 0 <= i < |Chain(p)| && AtRootLevel(Chain(p)[i])
                && forall j :: 0 <= j < i ==> !AtRootLevel(Chain(p)[j]);
      NearestAfterCons(n, Chain(n), Chain(p), i);
    }
  }

  /** A node that is not at root level puts its parent's nearest root-level index one further along. */
  lemma NearestAfterCons(n: Node, c: seq<Node>, cp: seq<Node>, i: nat)
    requires c == [n] + cp && !AtRootLevel(n) && i < |cp| && AtRootLevel(cp[i])
    requires forall j :: 0 <= j < i ==> !AtRootLevel(cp[j])
    ensures i + 1 < |c| && AtRootLevel(c[i + 1]) && forall j :: 0 <= j < i + 1 ==> !AtRootLevel(c[j])
  {
    forall j | 0 <= j < i + 1
      ensures !AtRootLevel(c[j])
    {
      if j > 0 {
        assert c[j] == cp[j - 1];
      }
    }
  }
}
