/**
  The Runner object of lib/runner.js: five result dictionaries that its
  private helpers update in place while Mocha emits events, the event loop
  of `run`, and `generateReport`, which renders a run's results and
  back-fills the data object it is given.
 */
module Runners {
  import opened Wrappers
  import opened Dicts
  import opened Runnables
  import opened Aggregation
  import opened Runs
  import opened Reports

  class Runner {
    var passes: Dict<Records>
    var fails: Dict<Records>
    var pending: Dict<Records>
    var total: Dict<Records>
    var duration: Dict<nat>

    /** The five dictionaries as one value. */
    function Snapshot(): Store
      reads this
    {
      Store(passes, fails, pending, total, duration)
    }

    /** The constructor's stores: all five start as `{}`. */
    constructor ()
      ensures Snapshot() == EmptyStore()
    {
      passes, fails, pending, total, duration := Empty(), Empty(), Empty(), Empty(), Empty();
    }

    /** `_addData(obj, key, data)`: create the missing bucket, then push. */
    method AddData(obj: Bucket, key: Key, data: Record)
      modifies this
      ensures Snapshot() == old(Snapshot()).Added(obj, key, data)
    {
      var store := Snapshot().Bucket(obj);
      if key !in store.entries {
        store := store.Put(key, []);
      }
      store := store.Put(key, store.entries[key] + [data]);
      match obj
      case Passes => passes := store;
      case Fails => fails := store;
      case Pending => pending := store;
      case Total => total := store;
    }

    /**
      `_setDuration(test)`: both slots are created as 0 when missing or zero,
      then a truthy duration is added to the grand total and to the root's slot.
     */
    method SetDuration(test: Node)
      modifies this
      ensures Snapshot() == old(Snapshot()).Timed(test)
    {
      var rootTitle := RootKey(test);
      ghost var start := duration;
      if duration.GetOr(TotalKey, 0) == 0 {
        duration := duration.Put(TotalKey, 0);
      }
      assert duration == Store.Reset(start, TotalKey);
      if duration.GetOr(rootTitle, 0) == 0 {
        duration := duration.Put(rootTitle, 0);
      }
      ghost var reset := duration;
      if Truthy(test.duration) {
        duration := duration.Put(TotalKey, duration.GetOr(TotalKey, 0) + test.duration.value);
      }
      assert duration == Store.Bump(reset, TotalKey, test);
      ghost var bumped := duration;
      if Truthy(test.duration) {
        duration := duration.Put(rootTitle, duration.GetOr(rootTitle, 0) + test.duration.value);
      }
      assert duration == Store.Bump(bumped, rootTitle, test);
    }

    /**
      `_setData(keys, test, error)`. `ok` is false when reading `test.err.stack`
      throws; the stores are then as they were.
     */
    method SetData(keys: seq<Bucket>, test: Node, error: Option<ErrorInfo>) returns (ok: bool)
      modifies this
      ensures ok <==> old(Snapshot()).Filed(keys, test, error).Some?
      ensures ok ==> Snapshot() == old(Snapshot()).Filed(keys, test, error).value
      ensures !ok ==> Snapshot() == old(Snapshot())
    {
      var rootTitle := RootKey(test);
      var stored := error;
      if error.Some? {
        if test.err.None? {
          return false;
        }
        stored := Some(error.value.(stack := test.err.value.stack));
      }
      for i := 0 to |keys|
        invariant Snapshot() == old(Snapshot()).AddedAll(keys[..i], rootTitle, Record(test, stored))
      {
        AddData(keys[i], rootTitle, Record(test, stored));
        assert keys[..i + 1][..i] == keys[..i];
      }
      assert keys[..|keys|] == keys;
      return true;
    }

    /**
      `run()`: each event is passed to its listener in order; at the end the
      promise resolves with the five dictionaries. A listener that throws
      leaves the promise unresolved (None).
     */
    method Run(events: seq<Event>) returns (results: Option<Results>)
      modifies this
      ensures Snapshot() == Replay(old(Snapshot()), events).store
      ensures results.Some? <==> Replay(old(Snapshot()), events).finished
      ensures results.Some? ==> results.value == Snapshot().Published()
    {
      ghost var start := Snapshot();
      for i := 0 to |events|
        invariant Replay(start, events[..i]) == Progress(Snapshot(), true)
      {
        var e := events[i];
        ghost var before := Snapshot();
        ReplayStep(start, events, i, before);
        var ok := true;
        match e {
          case TestEnd(test) =>
            SetDuration(test);
            assert before.Observe(e) == Some(before.Timed(test));
          case HookEnd(hook) =>
            SetDuration(hook);
            assert before.Observe(e) == Some(before.Timed(hook));
          case PassEvent(test) =>
            ok := SetData([Passes, Total], test, None);
            assert before.Observe(e) == before.Filed([Passes, Total], test, None);
          case FailEvent(test, error) =>
            ok := SetData([Fails, Total], test, Some(error));
            assert before.Observe(e) == before.Filed([Fails, Total], test, Some(error));
          case PendingEvent(test) =>
            ok := SetData([Pending, Total], test, None);
            assert before.Observe(e) == before.Filed([Pending, Total], test, None);
        }
        if !ok {
          ReplayStopsAtThrow(start, events, i + 1);
          return None;
        }
      }
      assert events[..|events|] == events;
      return Some(Snapshot().Published());
    }

    /**
      `generateReport(suiteName, data)`: `data` null stands for a missing
      data object. The result and the back-filled data are those of `Report`.
     */
    method GenerateReport(suiteName: Option<string>, data: ReportData?, fmt: Formatter)
      returns (r: Result<string, ReportError>)
      modifies data
      ensures data == null ==> r == Report(suiteName, None, fmt).text
      ensures data != null ==> r == Report(suiteName, Some(old(data.Value())), fmt).text
      ensures data != null ==> data.Value() == Report(suiteName, Some(old(data.Value())), fmt).after.value
    {
      if suiteName.None? || suiteName.value == "" {
        return Failure(NoSuiteName);
      }
      if data == null {
        return Failure(NoContents);
      }
      var title := Banner(suiteName.value);
      if |data.total.keys| == 1 {
        r := RenderSingle(title, data, fmt);
      } else {
        r := RenderSuites(title, data, fmt);
      }
    }
  }

  /** One more event of `run`, in terms of the listener's effect on the store. */
  lemma ReplayStep(s: Store, evs: seq<Event>, i: nat, u: Store)
    requires i < |evs| && Replay(s, evs[..i]) == Progress(u, true)
    ensures u.Observe(evs[i]).None? ==> Replay(s, evs[..i + 1]) == Progress(u, false)
    ensures u.Observe(evs[i]).Some? ==> Replay(s, evs[..i + 1]) == Progress(u.Observe(evs[i]).value, true)
  {
    assert evs[..i + 1][..i] == evs[..i];
  }

  /** The number of records in the three outcome stores under the first `n` keys of `total`. */
  function OutcomeCount(d: Results, n: nat): nat
    requires n <= |d.total.keys|
  {
    if n == 0 then 0
    else
      var k := d.total.keys[n - 1];
      OutcomeCount(d, n - 1) + |Lookup(d.passes, k)| + |Lookup(d.failures, k)| + |Lookup(d.pending, k)|
  }

  lemma {:induction false} RecordCountConserved(s: Store, n: nat)
    requires s.Conserved() && n <= |s.total.keys|
    ensures RecordCount(s.total, n) == OutcomeCount(s.Published(), n)
  {
    if n > 0 {
      RecordCountConserved(s, n - 1);
      ConservedCounts(s, s.total.keys[n - 1]);
    }
  }

  /**
    For the results of a run, the multi-suite grand totals count every
    record of `total` once: totalPass + totalFail + totalSkip is the number
    of passed, failed and pending records over all suites.
   */
  lemma GrandTotals(s: Store)
    requires s.Consistent()
    ensures var t := TallyKeys(s.Published().total, |s.total.keys|);
      t.passed + t.failed + t.skipped == OutcomeCount(s.Published(), |s.total.keys|)
  {
    TallyKeysCounts(s.total, |s.total.keys|);
    RecordCountConserved(s, |s.total.keys|);
  }
}
