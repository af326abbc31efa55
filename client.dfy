/**
  The client entry's route hooks (src/entry/client.js): which matched route
  components must fetch data before a navigation resolves, which `fetch` hooks
  that yields, and the `beforeRouteUpdate` guard of the global mixin.
 */
module Client {
  import opened Wrappers

  /** The identity of a `fetch` hook function. */
  type Hook = nat

  /** A matched route component, as far as these hooks look at it: `id` is its
      object identity (two entries are the same component exactly when they
      are equal values), `fetch` its optional data hook and `refetch` the
      truthiness of its `refetch` option. */
  datatype Component = Component(id: nat, fetch: Option<Hook>, refetch: bool)

  // -----------------------------------------------------------------------
  // Which components are activated

  /** The filter callback's own test at index i:
      `prevMatched[i] !== c || !!c.refetch`. Past the end of `prev` the
      comparison is against `undefined`, which no component equals. */
  predicate Differs(matched: seq<Component>, prev: seq<Component>, i: nat): (r: bool)
    requires i < |matched|
    ensures i >= |prev| ==> r
    ensures !r <==> i < |prev| && prev[i] == matched[i] && !matched[i].refetch
  {
    i >= |prev| || prev[i] != matched[i] || matched[i].refetch
  }

  /** The first index at or after k where the test holds, or |matched|. */
  function FirstDifferingFrom(matched: seq<Component>, prev: seq<Component>, k: nat): (f: nat)
    requires k <= |matched|
    ensures k <= f <= |matched|
    ensures forall i :: k <= i < f ==> !Differs(matched, prev, i)
    ensures f < |matched| ==> Differs(matched, prev, f)
    decreases |matched| - k
  {
    if k == |matched| then k
    else if Differs(matched, prev, k) then k
    else FirstDifferingFrom(matched, prev, k + 1)
  }

  /** The least index whose component is new, changed or marked `refetch`. */
  function FirstDiffering(matched: seq<Component>, prev: seq<Component>): (f: nat)
    ensures f <= |matched|
    ensures forall i :: 0 <= i < f ==> !Differs(matched, prev, i)
    ensures f < |matched| ==> Differs(matched, prev, f)
  {
    FirstDifferingFrom(matched, prev, 0)
  }

  /** The `activated` filter: walks `matched` keeping each component once the
      flag `diffed` is set, and setting it at the first index where the test
      of `Differs` holds; the flag turns true and stays true. */
  method Activated(matched: seq<Component>, prev: seq<Component>) returns (activated: seq<Component>)
    ensures activated == matched[FirstDiffering(matched, prev)..]
  {
    ghost var f := FirstDiffering(matched, prev);
    var diffed := false;
    activated := [];
    var i := 0;
    while i < |matched|
      invariant 0 <= i <= |matched|
      invariant diffed <==> f < i
      invariant activated == if diffed then matched[f..i] else []
    {
      var c := matched[i];
      var keep: bool;
      if diffed {
        keep := true;
      } else {
        diffed := i >= |prev| || prev[i] != c || c.refetch;
        assert diffed == Differs(matched, prev, i);
        keep := diffed;
      }
      if keep {
        activated := activated + [c];
      }
      i := i + 1;
    }
  }

  /** Selection is a suffix: an index is kept exactly when the test holds at
      it or at some earlier index, so once one index is kept all later ones are. */
  lemma SelectedIffDiffersAtOrBefore(matched: seq<Component>, prev: seq<Component>, i: nat)
    requires i < |matched|
    ensures FirstDiffering(matched, prev) <= i <==> exists j :: 0 <= j <= i && Differs(matched, prev, j)
  {
  }

  /** Nothing is activated exactly when every matched component is the one
      matched before at the same index and none asks to refetch. */
  lemma NothingActivatedIffUnchanged(matched: seq<Component>, prev: seq<Component>)
    ensures FirstDiffering(matched, prev) == |matched| <==>
      (|matched| <= |prev| && forall i :: 0 <= i < |matched| ==> prev[i] == matched[i] && !matched[i].refetch)
  {
    var f := FirstDiffering(matched, prev);
    if |matched| > |prev| {
      assert Differs(matched, prev, |prev|);
    }
    if f == |matched| {
      forall i | 0 <= i < |matched| ensures prev[i] == matched[i] && !matched[i].refetch {
        assert !Differs(matched, prev, i);
      }
    } else {
      assert Differs(matched, prev, f);
    }
  }

  /** Components beyond the previous route's depth compare against `undefined`
      and are always activated. */
  lemma DeeperComponentsActivated(matched: seq<Component>, prev: seq<Component>)
    ensures FirstDiffering(matched, prev) <= |prev| || FirstDiffering(matched, prev) == |matched|
    ensures |matched| - FirstDiffering(matched, prev) >= |matched| - |prev|
  {
    if |prev| < |matched| {
      assert Differs(matched, prev, |prev|);
    }
  }

  // -----------------------------------------------------------------------
  // The hooks of the activated components

  /** `activated.map(c => c.fetch)`. */
  function Fetches(cs: seq<Component>): (fs: seq<Option<Hook>>)
    ensures |fs| == |cs|
    ensures forall i :: 0 <= i < |cs| ==> fs[i] == cs[i].fetch
  {
    if cs == [] then [] else [cs[0].fetch] + Fetches(cs[1..])
  }

  /** `.filter(fetch => !!fetch)`: a hook function is always truthy. */
  function Present(fs: seq<Option<Hook>>): (hs: seq<Hook>)
    ensures |hs| <= |fs|
    ensures forall h :: h in hs <==> Some(h) in fs
  {
    if fs == [] then []
    else (if fs[0].Some? then [fs[0].value] else []) + Present(fs[1..])
  }

  /** `hooks`: the fetch hooks of the given components. */
  function Hooks(cs: seq<Component>): (hs: seq<Hook>)
    ensures |hs| <= |cs|
    ensures forall h :: h in hs <==> exists i :: 0 <= i < |cs| && cs[i].fetch == Some(h)
  {
    var fs := Fetches(cs);
    assert forall h :: Some(h) in fs <==> exists i :: 0 <= i < |cs| && cs[i].fetch == Some(h) by {
      forall h ensures Some(h) in fs <==> exists i :: 0 <= i < |cs| && cs[i].fetch == Some(h) {
        if Some(h) in fs {
          var i :| 0 <= i < |fs| && fs[i] == Some(h);
          assert cs[i].fetch == Some(h);
        }
      }
    }
    Present(fs)
  }

  /** Dropping absent hooks distributes over concatenation. */
  lemma {:induction false} PresentAppend(a: seq<Option<Hook>>, b: seq<Option<Hook>>)
    ensures Present(a + b) == Present(a) + Present(b)
    decreases |a|
  {
    if a == [] {
      assert a + b == b;
    } else {
      assert (a + b)[1..] == a[1..] + b;
      PresentAppend(a[1..], b);
    }
  }

  /** The hooks keep the components' order: those of a concatenation are the
      hooks of the first part followed by those of the second. */
  lemma HooksInOrder(a: seq<Component>, b: seq<Component>)
    ensures Hooks(a + b) == Hooks(a) + Hooks(b)
  {
    var fa, fb := Fetches(a), Fetches(b);
    assert Fetches(a + b) == fa + fb by {
      assert |Fetches(a + b)| == |fa + fb|;
      forall i | 0 <= i < |a + b| ensures Fetches(a + b)[i] == (fa + fb)[i] {
        if i < |a| { assert (a + b)[i] == a[i]; } else { assert (a + b)[i] == b[i - |a|]; }
      }
    }
    PresentAppend(fa, fb);
  }

  /** A single component contributes its hook exactly when it has one. */
  lemma HooksOfOne(c: Component)
    ensures Hooks([c]) == if c.fetch.Some? then [c.fetch.value] else []
  {
  }

  /** There are as many hooks as components exactly when every component has one. */
  lemma {:induction false} HooksLengthIffAllFetch(cs: seq<Component>)
    ensures |Hooks(cs)| == |cs| <==> forall i :: 0 <= i < |cs| ==> cs[i].fetch.Some?
    decreases |cs|
  {
    if cs != [] {
      HooksInOrder([cs[0]], cs[1..]);
      HooksOfOne(cs[0]);
      assert [cs[0]] + cs[1..] == cs;
      HooksLengthIffAllFetch(cs[1..]);
      if |Hooks(cs)| == |cs| {
        assert cs[0].fetch.Some?;
        forall i | 0 <= i < |cs| ensures cs[i].fetch.Some? {
          if i > 0 { assert cs[1..][i - 1] == cs[i]; }
        }
      }
      if forall i :: 0 <= i < |cs| ==> cs[i].fetch.Some? {
        assert forall i :: 0 <= i < |cs[1..]| ==> cs[1..][i].fetch.Some? by {
          forall i | 0 <= i < |cs[1..]| ensures cs[1..][i].fetch.Some? {
            assert cs[1..][i] == cs[i + 1];
          }
        }
      }
    }
  }

  // -----------------------------------------------------------------------
  // The `beforeRouteUpdate` guard of the global mixin

  /** A call of the guard's `next` callback. */
  datatype NextCall = Proceed | Abort(error: string)

  /** What one run of the guard does: whether it called `fetch`, and the calls
      of `next` it made, in order. */
  datatype GuardRun = GuardRun(fetched: bool, nextCalls: seq<NextCall>)

  /** The outcome of an awaited `fetch`: `None` when it resolves, the error
      when it rejects. */
  function AfterFetch(rejection: Option<string>): NextCall {
    match rejection
    case None => Proceed
    case Some(e) => Abort(e)
  }

  /** The guard as written: without both `fetch` and `refetch` it does
      `return next`, handing back the callback without calling it. */
  function RouteUpdateGuardAsWritten(options: Component, rejection: Option<string>): (run: GuardRun)
    ensures run.fetched <==> options.fetch.Some? && options.refetch
    ensures run.fetched ==> run.nextCalls == [AfterFetch(rejection)]
    ensures !run.fetched ==> run.nextCalls == []
  {
    if options.fetch.None? || !options.refetch then GuardRun(false, [])
    else GuardRun(true, [AfterFetch(rejection)])
  }

  /** A route update that reuses a component without `refetch` never calls
      `next`, so the navigation is left pending. */
  lemma AsWrittenLeavesNavigationPending()
    ensures RouteUpdateGuardAsWritten(Component(0, None, false), None).nextCalls == []
    ensures RouteUpdateGuardAsWritten(Component(0, Some(0), false), None).nextCalls == []
  {
  }

  /** The guard as intended: the skip path calls `next()` too. */
  function RouteUpdateGuard(options: Component, rejection: Option<string>): (run: GuardRun)
    ensures run.fetched <==> options.fetch.Some? && options.refetch
    ensures |run.nextCalls| == 1
    ensures run.nextCalls[0] == Proceed <==> !run.fetched || rejection.None?
    ensures run.fetched ==> run.nextCalls == RouteUpdateGuardAsWritten(options, rejection).nextCalls
  {
    if options.fetch.None? || !options.refetch then GuardRun(false, [Proceed])
    else GuardRun(true, [AfterFetch(rejection)])
  }
}
