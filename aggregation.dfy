/**
  The result store a Runner keeps during one Mocha run, as values: five
  dictionaries keyed by root-suite title, the effect of each Mocha event on
  them, the fold of a whole event stream, and the invariants that fold keeps.
 */
module Aggregation {
  import opened Wrappers
  import opened Dicts
  import opened Runnables

  /** `{test}` for a pass or a pending test, `{test, error}` for a failure. */
  datatype Record = Record(test: Node, error: Option<ErrorInfo>)

  type Records = seq<Record>

  /** The four stores `_addData` can append to, named as in the source. */
  datatype Bucket = Passes | Fails | Pending | Total

  /** The Mocha events the Runner listens to; `end` is the end of the list. */
  datatype Event =
    | TestEnd(test: Node)
    | HookEnd(test: Node)
    | PassEvent(test: Node)
    | FailEvent(test: Node, error: ErrorInfo)
    | PendingEvent(test: Node)

  /** The object `run` resolves with. */
  datatype Results = Results(
    passes: Dict<Records>,
    failures: Dict<Records>,
    timeTaken: Dict<nat>,
    total: Dict<Records>,
    pending: Dict<Records>)

  /** The records under `k`; a bucket that was never created reads as empty. */
  function Lookup(d: Dict<Records>, k: Key): Records {
    d.GetOr(k, [])
  }

  /** `test.duration` is truthy: defined and not zero. */
  predicate Truthy(d: Option<nat>) {
    d.Some? && d.value != 0
  }

  /** What `_setDuration` adds for this node. */
  function Increment(n: Node): nat {
    if Truthy(n.duration) then n.duration.value else 0
  }

  /** The key under which the grand total is kept, beside the per-root sums. */
  const TotalKey: Key := "total"

  /** `test end` or `hook end`. */
  predicate Timing(e: Event) {
    e.TestEnd? || e.HookEnd?
  }

  /** The listener for this event throws: `test.err.stack` is read from a test without `err`. */
  predicate Throws(e: Event) {
    e.FailEvent? && e.test.err.None?
  }

  /** The outcome store a pass, failure or pending event is filed in. */
  function Outcome(e: Event): Bucket
    requires !Timing(e)
  {
    match e
    case PassEvent(_) => Passes
    case FailEvent(_, _) => Fails
    case PendingEvent(_) => Pending
  }

  /** The record `_setData` stores for the event: the error, if any, carries the test's own stack. */
  function Stored(e: Event): Record
    requires !Timing(e) && !Throws(e)
  {
    if e.FailEvent? then Record(e.test, Some(e.error.(stack := e.test.err.value.stack)))
    else Record(e.test, None)
  }

  datatype Store = Store(
    passes: Dict<Records>,
    fails: Dict<Records>,
    pending: Dict<Records>,
    total: Dict<Records>,
    duration: Dict<nat>)
  {
    function Bucket(b: Bucket): Dict<Records> {
      match b
      case Passes => passes
      case Fails => fails
      case Pending => pending
      case Total => total
    }

    function WithBucket(b: Bucket, d: Dict<Records>): (t: Store)
      ensures t.Bucket(b) == d && t.duration == duration
      ensures forall b' :: b' != b ==> t.Bucket(b') == Bucket(b')
    {
      match b
      case Passes => this.(passes := d)
      case Fails => this.(fails := d)
      case Pending => this.(pending := d)
      case Total => this.(total := d)
    }

    /** Elapsed milliseconds recorded under `k` (missing reads as 0). */
    function Elapsed(k: Key): nat {
      duration.GetOr(k, 0)
    }

    ghost predicate Valid() {
      passes.Valid() && fails.Valid() && pending.Valid() && total.Valid() && duration.Valid()
    }

    /**
      `_addData(b, k, r)`: the bucket under `k` (created empty when missing)
      gets `r` at its end; every other key and every other store is unchanged.
     */
    function Added(b: Bucket, k: Key, r: Record): (t: Store)
      ensures Lookup(t.Bucket(b), k) == Lookup(Bucket(b), k) + [r]
      ensures t.Bucket(b).entries.Keys == Bucket(b).entries.Keys + {k}
      ensures forall k' :: k' != k ==> Lookup(t.Bucket(b), k') == Lookup(Bucket(b), k')
      ensures forall b' :: b' != b ==> t.Bucket(b') == Bucket(b')
      ensures t.duration == duration
      ensures Valid() ==> t.Valid()
    {
      var d := Bucket(b);
      WithBucket(b, d.Put(k, Lookup(d, k) + [r]))
    }

    /** `keys.forEach(key => this._addData(key, k, r))`, one bucket after the other. */
    function AddedAll(bs: seq<Bucket>, k: Key, r: Record): (t: Store)
      ensures t.duration == duration
      ensures Valid() ==> t.Valid()
      decreases |bs|
    {
      if bs == [] then this
      else AddedAll(bs[..|bs| - 1], k, r).Added(bs[|bs| - 1], k, r)
    }

    /** `!this.duration[k] && (this.duration[k] = 0)` */
    static function Reset(d: Dict<nat>, k: Key): (r: Dict<nat>)
      ensures r.entries.Keys == d.entries.Keys + {k}
      ensures forall k' :: r.GetOr(k', 0) == d.GetOr(k', 0)
      ensures d.Valid() ==> r.Valid()
    {
      if d.GetOr(k, 0) == 0 then d.Put(k, 0) else d
    }

    /**
      `_setDuration(test)`: both the grand-total slot and the root's slot
      exist afterwards; a truthy duration is added to the grand total and
      then to the root's slot, so a root titled "total" receives it twice.
     */
    function Timed(test: Node): (t: Store)
      ensures t.passes == passes && t.fails == fails && t.pending == pending && t.total == total
      ensures TotalKey in t.duration.entries && RootKey(test) in t.duration.entries
      ensures t.duration.entries.Keys == duration.entries.Keys + {TotalKey, RootKey(test)}
      ensures RootKey(test) != TotalKey ==>
                && t.Elapsed(TotalKey) == Elapsed(TotalKey) + Increment(test)
                && t.Elapsed(RootKey(test)) == Elapsed(RootKey(test)) + Increment(test)
      ensures RootKey(test) == TotalKey ==> t.Elapsed(TotalKey) == Elapsed(TotalKey) + 2 * Increment(test)
      ensures forall k :: k != TotalKey && k != RootKey(test) ==> t.Elapsed(k) == Elapsed(k)
      ensures Valid() ==> t.Valid()
    {
      this.(duration := Clock(duration, test))
    }

    /** The duration store after `_setDuration(test)`. */
    static function Clock(d: Dict<nat>, test: Node): Dict<nat> {
      var root := RootKey(test);
      Bump(Bump(Reset(Reset(d, TotalKey), root), TotalKey, test), root, test)
    }

    /** `test.duration && (d[k] += test.duration)` */
    static function Bump(d: Dict<nat>, k: Key, test: Node): (r: Dict<nat>)
      ensures r.GetOr(k, 0) == d.GetOr(k, 0) + Increment(test)
      ensures forall k' :: k' != k ==> r.GetOr(k', 0) == d.GetOr(k', 0)
      ensures k in d.entries ==> r.entries.Keys == d.entries.Keys
      ensures d.Valid() ==> r.Valid()
    {
      if Truthy(test.duration) then d.Put(k, d.GetOr(k, 0) + test.duration.value) else d
    }

    /**
      `_setData(bs, test, error)`. For a failure the error first receives
      `test.err.stack`; when the test carries no `err` that read throws and
      nothing is stored (None).
     */
    function Filed(bs: seq<Bucket>, test: Node, error: Option<ErrorInfo>): (t: Option<Store>)
      ensures t.None? <==> error.Some? && test.err.None?
      ensures t.Some? ==> t.value.duration == duration
    {
      if error.Some? && test.err.None? then None
      else
        var stored := if error.Some? then Some(error.value.(stack := test.err.value.stack)) else None;
        Some(AddedAll(bs, RootKey(test), Record(test, stored)))
    }

    /**
      The listener wired to each event in `run`: the end of a test or hook
      records its duration; a pass, failure or pending test is filed under its
      outcome and under `total`; a failure whose test has no `err` throws.
     */
    function Observe(e: Event): (t: Option<Store>)
      ensures Timing(e) ==> t == Some(Timed(e.test))
      ensures t.None? <==> Throws(e)
      ensures !Timing(e) ==> t == Filed([Outcome(e), Total], e.test, if e.FailEvent? then Some(e.error) else None)
      ensures Valid() && t.Some? ==> t.value.Valid()
    {
      if Timing(e) then Some(Timed(e.test))
      else if Throws(e) then None
      else
        AddedTwo(Outcome(e), Total, RootKey(e.test), Stored(e));
        Some(Added(Outcome(e), RootKey(e.test), Stored(e)).Added(Total, RootKey(e.test), Stored(e)))
    }

    /**
      What `keys.forEach(key => this._addData(key, k, r))` appends: each
      store listed in `bs` gets `r` at the end of its bucket under `k`, once
      per listing; every other key and every unlisted store is unchanged.
     */
    lemma {:induction false} AddedAllFiles(bs: seq<Bucket>, k: Key, r: Record)
      ensures forall b :: b !in bs ==> AddedAll(bs, k, r).Bucket(b) == Bucket(b)
      ensures forall b, k' :: k' != k ==> Lookup(AddedAll(bs, k, r).Bucket(b), k') == Lookup(Bucket(b), k')
      ensures forall b :: |Lookup(AddedAll(bs, k, r).Bucket(b), k)| == |Lookup(Bucket(b), k)| + multiset(bs)[b]
      ensures forall b :: Lookup(Bucket(b), k) <= Lookup(AddedAll(bs, k, r).Bucket(b), k)
      ensures forall b, i :: |Lookup(Bucket(b), k)| <= i < |Lookup(AddedAll(bs, k, r).Bucket(b), k)| ==>
                Lookup(AddedAll(bs, k, r).Bucket(b), k)[i] == r
      decreases |bs|
    {
      if bs != [] {
        var init, last := bs[..|bs| - 1], bs[|bs| - 1];
        AddedAllFiles(init, k, r);
        assert bs == init + [last];
        assert multiset(bs) == multiset(init) + multiset{last};
        var u := AddedAll(init, k, r);
        var t := u.Added(last, k, r);
        assert AddedAll(bs, k, r) == t;
        forall b
          ensures Lookup(Bucket(b), k) <= Lookup(t.Bucket(b), k)
          ensures forall i :: |Lookup(Bucket(b), k)| <= i < |Lookup(t.Bucket(b), k)| ==> Lookup(t.Bucket(b), k)[i] == r
        {
          if b == last {
            GrowByOne(Lookup(Bucket(b), k), Lookup(u.Bucket(b), k), Lookup(t.Bucket(b), k), r);
          }
        }
      }
    }

    lemma AddedTwo(b1: Bucket, b2: Bucket, k: Key, r: Record)
      ensures AddedAll([b1, b2], k, r) == Added(b1, k, r).Added(b2, k, r)
    {
      assert [b1, b2][..1] == [b1];
      assert [b1][..0] == [];
      assert AddedAll([b1], k, r) == AddedAll([], k, r).Added(b1, k, r);
    }

    /** Each record is filed under the root title of its own test. */
    ghost predicate Grouped() {
      forall b, k, i :: 0 <= i < |Lookup(Bucket(b), k)| ==> RootKey(Lookup(Bucket(b), k)[i].test) == k
    }

    /** `total[k]` holds exactly the records of `passes[k]`, `fails[k]` and `pending[k]`. */
    ghost predicate Conserved() {
      forall k :: multiset(Lookup(total, k)) == multiset(Lookup(passes, k)) + multiset(Lookup(fails, k)) + multiset(Lookup(pending, k))
    }

    /** `total` has a key exactly when some outcome store has it, and never an empty bucket. */
    ghost predicate KeysAgree() {
      && (forall k :: k in total.entries <==> (k in passes.entries || k in fails.entries || k in pending.entries))
      && (forall k :: k in total.entries ==> |total.entries[k]| > 0)
    }

    ghost predicate Consistent() {
      Valid() && Grouped() && Conserved() && KeysAgree()
    }

    /** `resolve({passes, failures, timeTaken, total, pending})` */
    function Published(): (r: Results)
      ensures r.passes == passes && r.failures == fails && r.timeTaken == duration
      ensures r.total == total && r.pending == pending
    {
      Results(passes, fails, duration, total, pending)
    }
  }

  /** A bucket that extends `a` with copies of `r` still does so after one more `r`. */
  lemma GrowByOne(a: Records, u: Records, t: Records, r: Record)
    requires a <= u && (forall i :: |a| <= i < |u| ==> u[i] == r) && t == u + [r]
    ensures a <= t && forall i :: |a| <= i < |t| ==> t[i] == r
  {
    assert t[..|u|] == u;
  }

  /** The five empty dictionaries a Runner starts with. */
  function EmptyStore(): (s: Store)
    ensures s.Consistent()
    ensures forall b, k :: Lookup(s.Bucket(b), k) == []
  {
    Store(Empty(), Empty(), Empty(), Empty(), Empty())
  }
}

/** The event stream folded over the store: `run` from its first listener call to `end`. */
module Runs {
  import opened Wrappers
  import opened Dicts
  import opened Runnables
  import opened Aggregation

  /** How far a run got: the store reached, and whether every listener returned normally. */
  datatype Progress = Progress(store: Store, finished: bool)

  /**
    The store after the listeners have handled `evs` in order. A listener
    that throws (a failure whose test has no `err`) ends the run with the store
    as it was before that event.
   */
  function Replay(s: Store, evs: seq<Event>): Progress
    decreases |evs|
  {
    if evs == [] then Progress(s, true)
    else
      var prev := Replay(s, evs[..|evs| - 1]);
      if !prev.finished then prev
      else
        match prev.store.Observe(evs[|evs| - 1])
        case None => Progress(prev.store, false)
        case Some(t) => Progress(t, true)
  }

  /** A run finishes exactly when no failure arrives without its test's `err`. */
  lemma {:induction false} ReplayFinishes(s: Store, evs: seq<Event>)
    ensures Replay(s, evs).finished <==> forall i :: 0 <= i < |evs| ==> !Throws(evs[i])
    decreases |evs|
  {
    if evs != [] {
      var init := evs[..|evs| - 1];
      ReplayFinishes(s, init);
      ReplayLast(s, evs);
      NoThrowSnoc(evs, init);
    }
  }

  /** No event of `evs` throws exactly when none before the last does and the last does not. */
  lemma NoThrowSnoc(evs: seq<Event>, init: seq<Event>)
    requires evs != [] && init == evs[..|evs| - 1]
    ensures (forall i :: 0 <= i < |evs| ==> !Throws(evs[i])) <==>
              (forall i :: 0 <= i < |init| ==> !Throws(init[i])) && !Throws(evs[|evs| - 1])
  {
    assert forall i :: 0 <= i < |init| ==> init[i] == evs[i];
  }

  lemma ReplayLast(s: Store, evs: seq<Event>)
    requires evs != []
    ensures Replay(s, evs).finished <==> Replay(s, evs[..|evs| - 1]).finished && !Throws(evs[|evs| - 1])
  {
    var prev := Replay(s, evs[..|evs| - 1]);
    if prev.finished {
      var t := prev.store.Observe(evs[|evs| - 1]);
      assert t.None? <==> Throws(evs[|evs| - 1]);
    }
  }

  /** Once a listener has thrown, later events change nothing. */
  lemma {:induction false} ReplayStopsAtThrow(s: Store, evs: seq<Event>, j: nat)
    requires j <= |evs| && !Replay(s, evs[..j]).finished
    ensures Replay(s, evs) == Replay(s, evs[..j])
    decreases |evs|
  {
    if j < |evs| {
      var init := evs[..|evs| - 1];
      assert init[..j] == evs[..j];
      ReplayStopsAtThrow(s, init, j);
    } else {
      assert evs[..j] == evs;
    }
  }

  /**
    What one pass, failure or pending event does to the store: one record,
    filed under the test's root title, at the end of the outcome store and of
    `total`; a failure's record is `{test, error}` with `error.stack` equal to
    `test.err.stack`, the others are `{test}`; every other key, the other
    stores and the durations are unchanged.
   */
  lemma ObserveFiles(s: Store, e: Event)
    requires !Timing(e) && !Throws(e)
    ensures var t := s.Observe(e).value;
      var k := RootKey(e.test);
      var out := Outcome(e);
      && Lookup(t.Bucket(out), k) == Lookup(s.Bucket(out), k) + [Stored(e)]
      && Lookup(t.total, k) == Lookup(s.total, k) + [Stored(e)]
      && (forall k' :: k' != k ==> Lookup(t.Bucket(out), k') == Lookup(s.Bucket(out), k'))
      && (forall k' :: k' != k ==> Lookup(t.total, k') == Lookup(s.total, k'))
      && t.Bucket(out).entries.Keys == s.Bucket(out).entries.Keys + {k}
      && t.total.entries.Keys == s.total.entries.Keys + {k}
      && (forall b :: b != out && b != Total ==> t.Bucket(b) == s.Bucket(b))
      && t.duration == s.duration
    ensures Stored(e).test == e.test
    ensures e.FailEvent? ==> Stored(e).error == Some(ErrorInfo(e.error.message, e.test.err.value.stack))
    ensures !e.FailEvent? ==> Stored(e).error.None?
  {
    var k := RootKey(e.test);
    var s1 := s.Added(Outcome(e), k, Stored(e));
    assert s1.Bucket(Total) == s.Bucket(Total);
    assert s1.Added(Total, k, Stored(e)).Bucket(Outcome(e)) == s1.Bucket(Outcome(e));
  }

  /** One handled event keeps grouping, conservation and key agreement. */
  lemma ObserveKeepsConsistent(s: Store, e: Event)
    requires s.Consistent() && !Throws(e)
    ensures s.Observe(e).value.Consistent()
  {
    if Timing(e) {
      TimedKeepsConsistent(s, e.test);
    } else {
      FilingKeepsConsistent(s, e);
    }
  }

  /** Recording a duration leaves the four test stores, and so their invariants, as they were. */
  lemma TimedKeepsConsistent(s: Store, test: Node)
    requires s.Consistent()
    ensures s.Timed(test).Consistent()
  {
    SameStoresConsistent(s, s.Timed(test));
  }

  /** The invariants speak only of the four test stores and of well-formed dictionaries. */
  lemma SameStoresConsistent(s: Store, t: Store)
    requires s.Consistent() && t.duration.Valid()
    requires t.passes == s.passes && t.fails == s.fails && t.pending == s.pending && t.total == s.total
    ensures t.Consistent()
  {
    assert forall b :: t.Bucket(b) == s.Bucket(b);
  }

  lemma FilingKeepsConsistent(s: Store, e: Event)
    requires s.Consistent() && !Throws(e) && !Timing(e)
    ensures s.Observe(e).value.Consistent()
  {
    ObserveKeepsGrouped(s, e);
    ObserveKeepsConserved(s, e);
    ObserveKeepsKeys(s, e);
  }

  lemma ObserveKeepsGrouped(s: Store, e: Event)
    requires s.Grouped() && !Throws(e) && !Timing(e)
    ensures s.Observe(e).value.Grouped()
  {
    var t := s.Observe(e).value;
    var k := RootKey(e.test);
    var out := Outcome(e);
    ObserveFiles(s, e);
    AppendGrouped(s, t, out, k, Stored(e));
  }

  /** Grouping survives the same record, filed under its own root, going to an outcome store and to `total`. */
  lemma AppendGrouped(s: Store, t: Store, out: Bucket, k: Key, r: Record)
    requires s.Grouped() && RootKey(r.test) == k
    requires Lookup(t.Bucket(out), k) == Lookup(s.Bucket(out), k) + [r]
    requires Lookup(t.total, k) == Lookup(s.total, k) + [r]
    requires forall k' :: k' != k ==> Lookup(t.Bucket(out), k') == Lookup(s.Bucket(out), k')
    requires forall k' :: k' != k ==> Lookup(t.total, k') == Lookup(s.total, k')
    requires forall b :: b != out && b != Total ==> t.Bucket(b) == s.Bucket(b)
    ensures t.Grouped()
  {
    forall b, k', i | 0 <= i < |Lookup(t.Bucket(b), k')|
      ensures RootKey(Lookup(t.Bucket(b), k')[i].test) == k'
    {
      if b != out && b != Total {
        assert Lookup(t.Bucket(b), k') == Lookup(s.Bucket(b), k');
      } else if k' != k {
        assert Lookup(t.Bucket(b), k') == Lookup(s.Bucket(b), k');
      } else if i < |Lookup(s.Bucket(b), k')| {
        assert Lookup(t.Bucket(b), k')[i] == Lookup(s.Bucket(b), k')[i];
      }
    }
  }

  lemma ObserveKeepsConserved(s: Store, e: Event)
    requires s.Conserved() && !Throws(e) && !Timing(e)
    ensures s.Observe(e).value.Conserved()
  {
    var t := s.Observe(e).value;
    ObserveFiles(s, e);
    forall k' ensures multiset(Lookup(t.total, k')) == multiset(Lookup(t.passes, k')) + multiset(Lookup(t.fails, k')) + multiset(Lookup(t.pending, k'))
    {
      AppendConserves(s, t, Outcome(e), RootKey(e.test), Stored(e), k');
    }
  }

  /** The multiset bookkeeping for one key after the same record went to an outcome store and to `total`. */
  lemma AppendConserves(s: Store, t: Store, out: Bucket, k: Key, r: Record, k': Key)
    requires out != Total
    requires multiset(Lookup(s.total, k')) == multiset(Lookup(s.passes, k')) + multiset(Lookup(s.fails, k')) + multiset(Lookup(s.pending, k'))
    requires Lookup(t.Bucket(out), k) == Lookup(s.Bucket(out), k) + [r]
    requires Lookup(t.total, k) == Lookup(s.total, k) + [r]
    requires k' != k ==> Lookup(t.Bucket(out), k') == Lookup(s.Bucket(out), k') && Lookup(t.total, k') == Lookup(s.total, k')
    requires forall b :: b != out && b != Total ==> t.Bucket(b) == s.Bucket(b)
    ensures multiset(Lookup(t.total, k')) == multiset(Lookup(t.passes, k')) + multiset(Lookup(t.fails, k')) + multiset(Lookup(t.pending, k'))
  {
    var grown: multiset<Record> := if k' == k then multiset{r} else multiset{};
    assert multiset(Lookup(t.total, k')) == multiset(Lookup(s.total, k')) + grown by {
      if k' == k { assert Lookup(t.total, k) == Lookup(s.total, k) + [r]; }
    }
    assert multiset(Lookup(t.Bucket(out), k')) == multiset(Lookup(s.Bucket(out), k')) + grown by {
      if k' == k { assert Lookup(t.Bucket(out), k) == Lookup(s.Bucket(out), k) + [r]; }
    }
    var p, f, n := multiset(Lookup(s.passes, k')), multiset(Lookup(s.fails, k')), multiset(Lookup(s.pending, k'));
    var p', f', n' := multiset(Lookup(t.passes, k')), multiset(Lookup(t.fails, k')), multiset(Lookup(t.pending, k'));
    if out == Passes {
      assert p' == p + grown && f' == f && n' == n by {
        assert t.Bucket(Passes) == t.passes && s.Bucket(Passes) == s.passes;
        assert t.Bucket(Fails) == s.Bucket(Fails) && t.Bucket(Pending) == s.Bucket(Pending);
      }
    } else if out == Fails {
      assert p' == p && f' == f + grown && n' == n by {
        assert t.Bucket(Fails) == t.fails && s.Bucket(Fails) == s.fails;
        assert t.Bucket(Passes) == s.Bucket(Passes) && t.Bucket(Pending) == s.Bucket(Pending);
      }
    } else {
      assert p' == p && f' == f && n' == n + grown by {
        assert t.Bucket(Pending) == t.pending && s.Bucket(Pending) == s.pending;
        assert t.Bucket(Passes) == s.Bucket(Passes) && t.Bucket(Fails) == s.Bucket(Fails);
      }
    }
    GrowOne(multiset(Lookup(s.total, k')), p, f, n, p', f', n', grown);
  }

  /** When the union grows by `g` and so does exactly one of its three parts, the parts still make up the union. */
  lemma GrowOne<T>(all: multiset<T>, a: multiset<T>, b: multiset<T>, c: multiset<T>,
                   a': multiset<T>, b': multiset<T>, c': multiset<T>, g: multiset<T>)
    requires all == a + b + c
    requires (a' == a + g && b' == b && c' == c) || (a' == a && b' == b + g && c' == c) || (a' == a && b' == b && c' == c + g)
    ensures all + g == a' + b' + c'
  {
  }

  lemma ObserveKeepsKeys(s: Store, e: Event)
    requires s.KeysAgree() && !Throws(e) && !Timing(e)
    ensures s.Observe(e).value.KeysAgree()
  {
    var t := s.Observe(e).value;
    var k := RootKey(e.test);
    ObserveFiles(s, e);
    forall k' | k' in t.total.entries ensures |t.total.entries[k']| > 0 {
      assert t.total.entries[k'] == Lookup(t.total, k');
      if k' != k { assert Lookup(s.total, k') == s.total.entries[k']; }
    }
  }

  /** After any event stream that starts consistent (for one, the empty store), the store stays consistent. */
  lemma {:induction false} ReplayKeepsConsistent(s: Store, evs: seq<Event>)
    requires s.Consistent()
    ensures Replay(s, evs).store.Consistent()
    decreases |evs|
  {
    if evs != [] {
      var prev := Replay(s, evs[..|evs| - 1]);
      ReplayKeepsConsistent(s, evs[..|evs| - 1]);
      if prev.finished && !Throws(evs[|evs| - 1]) {
        ObserveKeepsConsistent(prev.store, evs[|evs| - 1]);
      }
    }
  }

  /** Count conservation: for every key, the number of records in `total` is the sum over the outcome stores. */
  lemma ConservedCounts(s: Store, k: Key)
    requires s.Conserved()
    ensures |Lookup(s.total, k)| == |Lookup(s.passes, k)| + |Lookup(s.fails, k)| + |Lookup(s.pending, k)|
  {
    assert |multiset(Lookup(s.total, k))| == |multiset(Lookup(s.passes, k)) + multiset(Lookup(s.fails, k)) + multiset(Lookup(s.pending, k))|;
  }

  /**
    The records a run files in store `b` under root title `k`, in event
    order: one per pass, failure or pending event of a test under root `k`,
    in its outcome store and in `total`.
   */
  function FiledRecords(evs: seq<Event>, b: Bucket, k: Key): Records
    decreases |evs|
  {
    if evs == [] then []
    else
      var e := evs[|evs| - 1];
      FiledRecords(evs[..|evs| - 1], b, k) +
        (if !Timing(e) && !Throws(e) && RootKey(e.test) == k && (b == Total || b == Outcome(e)) then [Stored(e)] else [])
  }

  /** Over a finished run, each bucket under `k` grows by exactly the records filed there, in event order. */
  lemma {:induction false} ReplayFiledRecords(s: Store, evs: seq<Event>, b: Bucket, k: Key)
    requires Replay(s, evs).finished
    ensures Lookup(Replay(s, evs).store.Bucket(b), k) == Lookup(s.Bucket(b), k) + FiledRecords(evs, b, k)
    decreases |evs|
  {
    if evs != [] {
      var init := evs[..|evs| - 1];
      var e := evs[|evs| - 1];
      ReplayLast(s, evs);
      ReplayFiledRecords(s, init, b, k);
      var u := Replay(s, init).store;
      assert Replay(s, evs).store == u.Observe(e).value;
      ObserveAppends(u, e, b, k);
    }
  }

  /** One handled event appends to bucket `b` under `k` exactly what `FiledRecords` adds for it. */
  lemma ObserveAppends(u: Store, e: Event, b: Bucket, k: Key)
    requires !Throws(e)
    ensures Lookup(u.Observe(e).value.Bucket(b), k) == Lookup(u.Bucket(b), k) +
      (if !Timing(e) && !Throws(e) && RootKey(e.test) == k && (b == Total || b == Outcome(e)) then [Stored(e)] else [])
  {
    if !Timing(e) {
      ObserveFiles(u, e);
    }
  }

  /** A run from the empty store ends with `total` keyed by exactly the root titles of the tests it filed. */
  lemma ReplayTotalKeys(evs: seq<Event>, k: Key)
    requires Replay(EmptyStore(), evs).finished
    ensures k in Replay(EmptyStore(), evs).store.total.entries <==> FiledRecords(evs, Total, k) != []
    ensures forall b :: Lookup(Replay(EmptyStore(), evs).store.Bucket(b), k) == FiledRecords(evs, b, k)
  {
    var t := Replay(EmptyStore(), evs).store;
    forall b ensures Lookup(t.Bucket(b), k) == FiledRecords(evs, b, k) {
      ReplayFiledRecords(EmptyStore(), evs, b, k);
    }
    ReplayKeepsConsistent(EmptyStore(), evs);
    assert t.total == t.Bucket(Total);
  }

  /** Milliseconds a timing event adds to the slot of root `k`. */
  function RootTime(evs: seq<Event>, k: Key): nat
    decreases |evs|
  {
    if evs == [] then 0
    else
      var e := evs[|evs| - 1];
      RootTime(evs[..|evs| - 1], k) + (if (e.TestEnd? || e.HookEnd?) && RootKey(e.test) == k then Increment(e.test) else 0)
  }

  /** The sum of all truthy durations of the timing events. */
  function AllTime(evs: seq<Event>): nat
    decreases |evs|
  {
    if evs == [] then 0
    else
      var e := evs[|evs| - 1];
      AllTime(evs[..|evs| - 1]) + (if e.TestEnd? || e.HookEnd? then Increment(e.test) else 0)
  }

  /**
    Duration accumulation over a finished run: each root's slot grows by the
    truthy durations of that root's tests and hooks, and the grand-total slot
    by all of them, plus a second time those of a root titled "total".
   */
  lemma {:induction false} ReplayElapsed(s: Store, evs: seq<Event>, k: Key)
    requires Replay(s, evs).finished
    ensures k != TotalKey ==> Replay(s, evs).store.Elapsed(k) == s.Elapsed(k) + RootTime(evs, k)
    ensures Replay(s, evs).store.Elapsed(TotalKey) == s.Elapsed(TotalKey) + AllTime(evs) + RootTime(evs, TotalKey)
    decreases |evs|
  {
    if evs != [] {
      var init := evs[..|evs| - 1];
      assert Replay(s, init).finished;
      ReplayElapsed(s, init, k);
      ReplayElapsed(s, init, TotalKey);
    }
  }

  /** With no root suite titled "total", the grand total is exactly the sum of all truthy durations. */
  lemma {:induction false} NoTotalRootTime(evs: seq<Event>)
    requires forall i :: 0 <= i < |evs| ==> RootKey(evs[i].test) != TotalKey
    ensures RootTime(evs, TotalKey) == 0
    decreases |evs|
  {
    if evs != [] {
      var init := evs[..|evs| - 1];
      assert forall i :: 0 <= i < |init| ==> init[i] == evs[i];
      NoTotalRootTime(init);
    }
  }

  /**
    Every test or hook that ended has a duration slot for its root, and the
    grand-total slot exists, even when the duration was zero or undefined;
    no slot is ever removed.
   */
  lemma {:induction false} ReplayTimingKeys(s: Store, evs: seq<Event>)
    requires Replay(s, evs).finished
    ensures s.duration.entries.Keys <= Replay(s, evs).store.duration.entries.Keys
    ensures forall i :: 0 <= i < |evs| && Timing(evs[i]) ==>
              RootKey(evs[i].test) in Replay(s, evs).store.duration.entries
              && TotalKey in Replay(s, evs).store.duration.entries
    decreases |evs|
  {
    if evs != [] {
      var init := evs[..|evs| - 1];
      var e := evs[|evs| - 1];
      var u := Replay(s, init).store;
      assert Replay(s, init).finished;
      ReplayTimingKeys(s, init);
      var t := Replay(s, evs).store;
      assert t == u.Observe(e).value;
      assert u.duration.entries.Keys <= t.duration.entries.Keys;
      TimedKeysSnoc(evs, init, u.duration.entries.Keys, t.duration.entries.Keys);
    }
  }

  /** The timing events of `evs` keep their keys in `after` when those of `init` had them in `before`. */
  lemma TimedKeysSnoc(evs: seq<Event>, init: seq<Event>, before: set<Key>, after: set<Key>)
    requires evs != [] && init == evs[..|evs| - 1] && before <= after
    requires forall i :: 0 <= i < |init| && Timing(init[i]) ==> RootKey(init[i].test) in before && TotalKey in before
    requires Timing(evs[|evs| - 1]) ==> RootKey(evs[|evs| - 1].test) in after && TotalKey in after
    ensures forall i :: 0 <= i < |evs| && Timing(evs[i]) ==> RootKey(evs[i].test) in after && TotalKey in after
  {
    assert forall i :: 0 <= i < |init| ==> init[i] == evs[i];
  }

}
