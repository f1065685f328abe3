/** The renderer's back/forward history of queries (useNavigation.ts): a list of queries and a
    cursor into it, `-1` before the first query. */
module Navigation {

  /** A history and its cursor. */
  datatype Nav = Nav(history: seq<string>, index: int)

  /** The cursor is `-1` or points at an entry. */
  predicate WellFormed(n: Nav) {
    -1 <= n.index < |n.history|
  }

  const Initial := Nav([], -1)

  /** `h.slice(0, k)` for `k >= 0`: the first `k` entries, or all of them when there are fewer. */
  function Prefix(h: seq<string>, k: nat): (r: seq<string>)
    ensures |r| == if k <= |h| then k else |h|
    ensures r == h[..|r|]
  {
    if k <= |h| then h[..k] else h
  }

  /** `navigate(q)`: what follows the cursor is dropped, `q` is appended and the cursor moves
      one step on. */
  function Navigated(n: Nav, q: string): (r: Nav)
    requires n.index >= -1
    ensures WellFormed(n) ==> WellFormed(r) && Query(r) == q
  {
    Nav(Prefix(n.history, n.index + 1) + [q], n.index + 1)
  }

  /** `back` as written: `Math.max(0, i - 1)`. */
  function StepBackAsWritten(n: Nav): (r: Nav)
    ensures r.history == n.history && r.index >= 0
    ensures n.index > 0 ==> r.index == n.index - 1
  {
    Nav(n.history, if n.index - 1 > 0 then n.index - 1 else 0)
  }

  /** `back` as evidently intended: the cursor moves back only when there is an entry before it. */
  function StepBack(n: Nav): (r: Nav)
    ensures r.history == n.history
    ensures r.index == n.index || r.index == n.index - 1
    ensures WellFormed(n) ==> WellFormed(r)
  {
    Nav(n.history, if n.index > 0 then n.index - 1 else n.index)
  }

  /** `forward`: `Math.min(history.length - 1, i + 1)`. */
  function StepForward(n: Nav): (r: Nav)
    ensures r.history == n.history
    ensures WellFormed(n) ==> WellFormed(r)
  {
    Nav(n.history, if |n.history| - 1 < n.index + 1 then |n.history| - 1 else n.index + 1)
  }

  /** `canGoBack`: exactly when going back moves the cursor. */
  predicate BackEnabled(n: Nav)
    ensures BackEnabled(n) <==> StepBack(n) != n
  {
    n.index > 0
  }

  /** `canGoForward`: on a well-formed state, exactly when going forward moves the cursor. */
  predicate ForwardEnabled(n: Nav)
    ensures WellFormed(n) ==> (ForwardEnabled(n) <==> StepForward(n) != n)
  {
    n.index < |n.history| - 1
  }

  /** `history[currentIndex] ?? ''`. */
  function Query(n: Nav): (q: string)
    ensures 0 <= n.index < |n.history| ==> q == n.history[n.index]
    ensures !(0 <= n.index < |n.history|) ==> q == ""
  {
    if 0 <= n.index < |n.history| then n.history[n.index] else ""
  }

  /** Navigating keeps the entries up to the cursor, shows the new query, leaves nothing to go
      forward to and can go back exactly when there was a current entry. */
  lemma NavigatedShows(n: Nav, q: string)
    requires WellFormed(n)
    ensures var m := Navigated(n, q);
      && WellFormed(m)
      && m.history[..n.index + 1] == n.history[..n.index + 1]
      && |m.history| == n.index + 2
      && Query(m) == q && !ForwardEnabled(m)
      && (BackEnabled(m) <==> n.index >= 0)
  {
  }

  /** Going back after navigating returns to the entry that was current. */
  lemma NavigateThenBack(n: Nav, q: string)
    requires WellFormed(n) && n.index >= 0
    ensures Query(StepBack(Navigated(n, q))) == Query(n)
  {
    var m := Navigated(n, q);
    assert m.history[n.index] == n.history[n.index];
  }

  /** `back` moves the cursor one entry back when it can and never leaves the history; the
      history is unchanged. */
  lemma BackStep(n: Nav)
    requires WellFormed(n)
    ensures WellFormed(StepBack(n)) && StepBack(n).history == n.history
    ensures BackEnabled(n) ==> StepBack(n).index == n.index - 1
    ensures !BackEnabled(n) ==> StepBack(n) == n
  {
  }

  /** `forward` moves the cursor one entry on when it can and never past the last entry; the
      history is unchanged. */
  lemma ForwardStep(n: Nav)
    requires WellFormed(n)
    ensures WellFormed(StepForward(n)) && StepForward(n).history == n.history
    ensures ForwardEnabled(n) ==> StepForward(n).index == n.index + 1
    ensures !ForwardEnabled(n) ==> StepForward(n).index == |n.history| - 1
  {
  }

  /** Forward undoes back, and back undoes forward from an entry, whenever the first step was
      possible. */
  lemma BackForwardInverse(n: Nav)
    requires WellFormed(n)
    ensures BackEnabled(n) ==> StepForward(StepBack(n)) == n
    ensures ForwardEnabled(n) && n.index >= 0 ==> StepBack(StepForward(n)) == n
  {
  }

  /** The two versions of `back` agree wherever the cursor is on an entry, in particular whenever
      the back button is enabled. */
  lemma BackAgreesOnEntries(n: Nav)
    requires n.index >= 0
    ensures StepBackAsWritten(n) == StepBack(n)
  {
  }

  /** As written, `back` from the initial state puts the cursor on entry 0 of an empty history;
      the next query is then appended at index 0 while the cursor moves to 1, so the page shows
      `''` instead of that query. The intended `back` keeps the state. */
  lemma BackFromStartLosesQuery(q: string)
    ensures !WellFormed(StepBackAsWritten(Initial))
    ensures var m := Navigated(StepBackAsWritten(Initial), q);
      m == Nav([q], 1) && Query(m) == ""
    ensures StepBack(Initial) == Initial && Query(Navigated(StepBack(Initial), q)) == q
  {
  }

  /** The hook's state. */
  class History {
    var history: seq<string>
    var currentIndex: int

    function State(): Nav
      reads this
    {
      Nav(history, currentIndex)
    }

    ghost predicate Valid()
      reads this
    {
      WellFormed(State())
    }

    constructor()
      ensures Valid() && State() == Initial
    {
      history := [];
      currentIndex := -1;
    }

    method Navigate(query: string)
      requires Valid()
      modifies this
      ensures Valid() && State() == Navigated(old(State()), query)
      ensures CurrentQuery() == query && !CanGoForward()
    {
      NavigatedShows(State(), query);
      history := history[..currentIndex + 1] + [query];
      currentIndex := currentIndex + 1;
    }

    method Back()
      requires Valid()
      modifies this
      ensures Valid() && State() == StepBack(old(State()))
    {
      BackStep(State());
      if currentIndex > 0 {
        currentIndex := currentIndex - 1;
      }
    }

    method Forward()
      requires Valid()
      modifies this
      ensures Valid() && State() == StepForward(old(State()))
    {
      ForwardStep(State());
      var last := |history| - 1;
      if last < currentIndex + 1 {
        currentIndex := last;
      } else {
        currentIndex := currentIndex + 1;
      }
    }

    predicate CanGoBack()
      reads this
    {
      BackEnabled(State())
    }

    predicate CanGoForward()
      reads this
    {
      ForwardEnabled(State())
    }

    function CurrentQuery(): (q: string)
      reads this
      ensures q == Query(State())
    {
      if 0 <= currentIndex < |history| then history[currentIndex] else ""
    }
  }
}
