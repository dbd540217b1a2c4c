/** The report selection: the ordered list of at most five coin tickers the user
    has switched on for the live chart, and the toggle protocol that changes it
    (`enableToggle`, assets/js/app.js). These are the values the protocol
    computes; `Storage.LocalStore.EnableToggle` reads and writes them. */
module Selection {
  import opened Base

  /** The most coins the report holds; the code tests `length === 5`. */
  const Capacity: nat := 5

  /** What a toggle did, which also decides the switch's `checked` state:
      on after `Added`, off otherwise. `RejectedAtCapacity` opens the overflow
      prompt, whose switches toggle with the rejected ticker as `pending`. */
  datatype Outcome = Added | Removed | RejectedAtCapacity(pending: Symbol)

  /** The list a toggle leaves behind, and what it did. */
  datatype Step = Step(coins: seq<Symbol>, outcome: Outcome)

  predicate NoDuplicates(s: seq<Symbol>) {
    forall i, j :: 0 <= i < j < |s| ==> s[i] != s[j]
  }

  /** The invariant the design promises for the persisted selection. */
  predicate Valid(s: seq<Symbol>) {
    |s| <= Capacity && NoDuplicates(s)
  }

  /** `s.find(coin => coin === x)` used as a condition: it yields the element
      itself, so an empty ticker counts as not found even when present. */
  predicate Found(s: seq<Symbol>, x: Symbol) {
    x in s && x != ""
  }

  /** `s.findIndex(coin => coin === x)` for a present `x`: the first position holding `x`. */
  function IndexOf(s: seq<Symbol>, x: Symbol): (i: nat)
    requires x in s
    ensures i < |s| && s[i] == x && x !in s[..i]
  {
    if s[0] == x then 0
    else
      var k := IndexOf(s[1..], x);
      assert s[..k + 1] == [s[0]] + s[1..][..k];
      k + 1
  }

  /** `s.splice(s.findIndex(...), 1)`: drop the first occurrence of `x`. */
  function Remove(s: seq<Symbol>, x: Symbol): (r: seq<Symbol>)
    requires x in s
    ensures |r| == |s| - 1
    ensures forall y :: y in r ==> y in s
  {
    var i := IndexOf(s, x);
    s[..i] + s[i + 1..]
  }

  /** The splice takes out exactly one occurrence of `x`, whether or not the
      list has duplicates. */
  lemma RemoveOneOccurrence(s: seq<Symbol>, x: Symbol)
    requires x in s
    ensures multiset(Remove(s, x)) == multiset(s) - multiset{x}
  {
    var i := IndexOf(s, x);
    assert s == s[..i] + [x] + s[i + 1..];
  }

  /** Every entry of `s` other than `x`, in order: an independent description of
      what removing `x` from a duplicate-free list leaves. */
  function Without(s: seq<Symbol>, x: Symbol): (r: seq<Symbol>)
    ensures forall y :: y in r <==> y in s && y != x
  {
    if s == [] then []
    else if s[0] == x then Without(s[1..], x)
    else [s[0]] + Without(s[1..], x)
  }

  /** One call of `enableToggle(toggle, addToggle)` on the list `s`, with
      `id == toggle.id` and `pending == addToggle` (`None` for a card's switch,
      the rejected ticker for a switch of the overflow prompt). */
  function Toggle(s: seq<Symbol>, id: Symbol, pending: Option<Symbol>): (r: Step)
    ensures r.outcome.Removed? <==> Found(s, id)
    ensures r.outcome.RejectedAtCapacity? <==> !Found(s, id) && |s| == Capacity
    ensures r.outcome.RejectedAtCapacity? ==> r.coins == s && r.outcome.pending == id
    ensures r.outcome.Added? ==> r.coins == s + [id]
    ensures r.outcome.Removed? ==> |r.coins| <= |s|
    ensures forall y :: y in r.coins ==> y in s || y == id || pending == Some(y)
  {
    if Found(s, id) then
      var rest := Remove(s, id);
      if pending.Some? && pending.value != "" && !Found(rest, pending.value) then
        Step(rest + [pending.value], Removed)
      else
        Step(rest, Removed)
    else if |s| == Capacity then
      Step(s, RejectedAtCapacity(id))
    else
      Step(s + [id], Added)
  }

  /** In a duplicate-free list, removing the first occurrence of `x` is removing `x`. */
  lemma {:induction false} RemoveIsWithout(s: seq<Symbol>, x: Symbol)
    requires x in s && NoDuplicates(s)
    ensures Remove(s, x) == Without(s, x)
    ensures |Without(s, x)| == |s| - 1
  {
    if s[0] == x {
      assert x !in s[1..] by {
        forall k | 0 <= k < |s| - 1 ensures s[1..][k] != x { assert s[0] != s[k + 1]; }
      }
      WithoutAbsent(s[1..], x);
    } else {
      var t := s[1..];
      assert NoDuplicates(t) by {
        forall i, j | 0 <= i < j < |t| ensures t[i] != t[j] { assert s[i + 1] != s[j + 1]; }
      }
      RemoveIsWithout(t, x);
      var i := IndexOf(t, x);
      assert IndexOf(s, x) == i + 1;
      assert s[..i + 1] == [s[0]] + t[..i];
      assert s[i + 2..] == t[i + 1..];
    }
  }

  /** Removing an absent entry changes nothing. */
  lemma {:induction false} WithoutAbsent(s: seq<Symbol>, x: Symbol)
    requires x !in s
    ensures Without(s, x) == s
  {
    if s != [] {
      WithoutAbsent(s[1..], x);
    }
  }

  /** Removing a present entry shortens the list. */
  lemma {:induction false} WithoutShrinks(s: seq<Symbol>, x: Symbol)
    requires x in s
    ensures |Without(s, x)| < |s|
  {
    if s[0] != x {
      WithoutShrinks(s[1..], x);
    } else {
      WithoutNoLonger(s[1..], x);
    }
  }

  lemma {:induction false} WithoutNoLonger(s: seq<Symbol>, x: Symbol)
    ensures |Without(s, x)| <= |s|
  {
    if s != [] {
      WithoutNoLonger(s[1..], x);
    }
  }

  /** Filtering keeps the list duplicate-free. */
  lemma {:induction false} WithoutKeepsNoDuplicates(s: seq<Symbol>, x: Symbol)
    requires NoDuplicates(s)
    ensures NoDuplicates(Without(s, x))
  {
    if s != [] {
      var t := s[1..];
      assert NoDuplicates(t) by {
        forall i, j | 0 <= i < j < |t| ensures t[i] != t[j] { assert s[i + 1] != s[j + 1]; }
      }
      WithoutKeepsNoDuplicates(t, x);
      assert s[0] !in t by {
        forall k | 0 <= k < |t| ensures t[k] != s[0] { assert s[0] != s[k + 1]; }
      }
      if s[0] != x {
        var w := Without(t, x);
        assert s[0] !in w;
        var r := [s[0]] + w;
        forall i, j | 0 <= i < j < |r| ensures r[i] != r[j] {
          if i == 0 { assert r[j] == w[j - 1]; } else { assert r[i] == w[i - 1] && r[j] == w[j - 1]; }
        }
      }
    }
  }

  /** Appending a ticker the list lacks keeps it duplicate-free. */
  lemma AppendFreshKeepsNoDuplicates(s: seq<Symbol>, x: Symbol)
    requires NoDuplicates(s) && x !in s
    ensures NoDuplicates(s + [x])
  {
    var r := s + [x];
    forall i, j | 0 <= i < j < |r| ensures r[i] != r[j] {
      if j == |s| { assert r[i] == s[i]; }
    }
  }

  /** Toggling a coin already in the selection removes exactly that entry; the
      others keep their relative order, and the switch ends up off. */
  lemma ToggleRemovesMember(s: seq<Symbol>, id: Symbol)
    requires Found(s, id) && NoDuplicates(s)
    ensures Toggle(s, id, None) == Step(Without(s, id), Removed)
    ensures |Toggle(s, id, None).coins| == |s| - 1 && id !in Toggle(s, id, None).coins
  {
    RemoveIsWithout(s, id);
  }

  /** Toggling a coin outside a selection with room appends it at the end, and
      the switch ends up on. */
  lemma ToggleAppendsNonMember(s: seq<Symbol>, id: Symbol, pending: Option<Symbol>)
    requires !Found(s, id) && |s| < Capacity
    ensures Toggle(s, id, pending) == Step(s + [id], Added)
  {
  }

  /** Toggling a coin outside a full selection leaves the list as it was and
      opens the overflow prompt for that coin. */
  lemma ToggleRejectsAtCapacity(s: seq<Symbol>, id: Symbol, pending: Option<Symbol>)
    requires !Found(s, id) && |s| == Capacity
    ensures Toggle(s, id, pending) == Step(s, RejectedAtCapacity(id))
  {
  }

  /** A switch of the overflow prompt: toggling member `m` with pending coin `f`
      removes `m` and admits `f` at the end unless `f` is already there. */
  lemma PromptToggleSwaps(s: seq<Symbol>, m: Symbol, f: Symbol)
    requires Found(s, m) && NoDuplicates(s) && f != ""
    ensures var rest := Without(s, m);
      Toggle(s, m, Some(f)) == Step(if f in rest then rest else rest + [f], Removed)
  {
    RemoveIsWithout(s, m);
  }

  /** Every toggle keeps the selection at most five long and duplicate-free,
      provided the switch has a non-empty ticker (see EmptyTickerDuplicates). */
  lemma ToggleKeepsValid(s: seq<Symbol>, id: Symbol, pending: Option<Symbol>)
    requires Valid(s) && id != ""
    ensures Valid(Toggle(s, id, pending).coins)
  {
    if Found(s, id) {
      RemoveIsWithout(s, id);
      WithoutKeepsNoDuplicates(s, id);
      var rest := Without(s, id);
      if pending.Some? && pending.value != "" && !Found(rest, pending.value) {
        AppendFreshKeepsNoDuplicates(rest, pending.value);
      }
    } else if |s| < Capacity {
      AppendFreshKeepsNoDuplicates(s, id);
    }
  }

  /** The `find` test treats an empty ticker as absent, so toggling it when it is
      already selected appends it a second time. */
  lemma EmptyTickerDuplicates()
    ensures Toggle([""], "", None) == Step(["", ""], Added)
    ensures !NoDuplicates(Toggle([""], "", None).coins)
  {
    assert Toggle([""], "", None).coins[0] == Toggle([""], "", None).coins[1];
  }

  /** Toggling the same coin twice from a card, with no overflow in between,
      restores its membership and the set of selected coins; when the coin was
      not selected, the very same list. */
  lemma ToggleTwiceRestores(s: seq<Symbol>, id: Symbol)
    requires Valid(s) && id != ""
    requires !Toggle(s, id, None).outcome.RejectedAtCapacity?
    ensures var t := Toggle(Toggle(s, id, None).coins, id, None).coins;
      (id in t <==> id in s) && multiset(t) == multiset(s) && (id !in s ==> t == s)
  {
    var once := Toggle(s, id, None).coins;
    if id in s {
      ToggleRemovesMember(s, id);
      RemoveOneOccurrence(s, id);
    } else {
      assert once == s + [id];
      assert once[..|s|] == s;
    }
  }

  /** The overflow walk-through: with five coins selected, a sixth is refused and
      the list kept; switching off the second coin from the prompt then yields
      the other four followed by the sixth. */
  lemma OverflowThenSwap(a: Symbol, b: Symbol, c: Symbol, d: Symbol, e: Symbol, f: Symbol)
    requires a != "" && b != "" && c != "" && d != "" && e != "" && f != ""
    requires NoDuplicates([a, b, c, d, e, f])
    ensures Toggle([a, b, c, d, e], f, None) == Step([a, b, c, d, e], RejectedAtCapacity(f))
    ensures Toggle([a, b, c, d, e], b, Some(f)) == Step([a, c, d, e, f], Removed)
  {
    var s := [a, b, c, d, e];
    var all := [a, b, c, d, e, f];
    assert f !in s by {
      forall k | 0 <= k < 5 ensures s[k] != f { assert all[k] != all[5]; }
    }
    assert a != b by { assert all[0] != all[1]; }
    assert IndexOf(s, b) == 1;
    assert Remove(s, b) == [a, c, d, e];
  }
}
