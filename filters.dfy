/** The pure decisions behind the coin cards (assets/js/app.js): which coins
    the search button keeps, which card switches are drawn checked
    (`generateCoinsHTML`), and which cards "show only selected" leaves visible
    (`showAllSelectedCoins`). */
module Filters {
  import opened Base
  import Text
  import Selection

  /** A coin matches the search box when its ticker equals the query ignoring case. */
  predicate Matches(coin: CoinSummary, query: string) {
    Text.SameIgnoringCase(coin.symbol, query)
  }

  /** The search button's `coins.filter(...)` over the listing. */
  function Search(coins: seq<CoinSummary>, query: string): (r: seq<CoinSummary>)
    ensures |r| <= |coins|
    ensures forall c :: c in r <==> c in coins && Matches(c, query)
  {
    if coins == [] then []
    else (if Matches(coins[0], query) then [coins[0]] else []) + Search(coins[1..], query)
  }

  /** The `checked` attribute of each card's switch: its ticker is in the selection. */
  function CheckedFlags(coins: seq<CoinSummary>, selection: seq<Symbol>): (r: seq<bool>)
    ensures |r| == |coins|
    ensures forall i :: 0 <= i < |coins| ==> (r[i] <==> coins[i].symbol in selection)
  {
    seq(|coins|, i requires 0 <= i < |coins| => coins[i].symbol in selection)
  }

  /** The ids of the cards' switches, which are the coins' tickers. */
  function SwitchIds(coins: seq<CoinSummary>): (r: seq<Symbol>)
    ensures |r| == |coins| && forall i :: 0 <= i < |coins| ==> r[i] == coins[i].symbol
  {
    seq(|coins|, i requires 0 <= i < |coins| => coins[i].symbol)
  }

  /** `showAllSelectedCoins`: with the filter box ticked a card is shown exactly
      when its switch id is selected; unticked, every card is shown. */
  function Visible(cards: seq<Symbol>, selection: seq<Symbol>, onlySelected: bool): (r: seq<bool>)
    ensures |r| == |cards|
    ensures onlySelected ==> forall i :: 0 <= i < |cards| ==> (r[i] <==> cards[i] in selection)
    ensures !onlySelected ==> forall i :: 0 <= i < |cards| ==> r[i]
  {
    seq(|cards|, i requires 0 <= i < |cards| => !onlySelected || cards[i] in selection)
  }

  /** How many entries are true. */
  function CountTrue(flags: seq<bool>): nat {
    if flags == [] then 0 else (if flags[0] then 1 else 0) + CountTrue(flags[1..])
  }

  /** The search keeps the listing's order: filtering a concatenation is
      concatenating the filtered parts. */
  lemma {:induction false} SearchKeepsOrder(a: seq<CoinSummary>, b: seq<CoinSummary>, query: string)
    ensures Search(a + b, query) == Search(a, query) + Search(b, query)
  {
    if a == [] {
      assert a + b == b;
    } else {
      assert (a + b)[0] == a[0] && (a + b)[1..] == a[1..] + b;
      SearchKeepsOrder(a[1..], b, query);
    }
  }

  /** Searching the search's own result changes nothing. */
  lemma {:induction false} SearchIdempotent(coins: seq<CoinSummary>, query: string)
    ensures Search(Search(coins, query), query) == Search(coins, query)
  {
    if coins != [] {
      var t := Search(coins[1..], query);
      SearchIdempotent(coins[1..], query);
      if Matches(coins[0], query) {
        var r := [coins[0]] + t;
        assert r[0] == coins[0] && r[1..] == t;
        assert Search(r, query) == [coins[0]] + Search(t, query);
      } else {
        assert Search(coins, query) == t;
      }
    }
  }

  /** The case of the query does not matter. */
  lemma {:induction false} SearchIgnoresQueryCase(coins: seq<CoinSummary>, query: string)
    ensures Search(coins, query) == Search(coins, Text.Lower(query))
  {
    Text.LowerIdempotent(query);
    if coins != [] {
      SearchIgnoresQueryCase(coins[1..], query);
    }
  }

  /** With the filter ticked, the visible cards are exactly the checked ones. */
  lemma ShownAreChecked(coins: seq<CoinSummary>, selection: seq<Symbol>)
    ensures Visible(SwitchIds(coins), selection, true) == CheckedFlags(coins, selection)
  {
  }

  /** Re-drawing the cards after a card's switch toggled `id` without overflow
      flips the checked state of the cards with that ticker and of no other;
      after an overflow every card is drawn as before. */
  lemma ToggleFlipsOnlyItsCards(coins: seq<CoinSummary>, s: seq<Symbol>, id: Symbol)
    requires Selection.Valid(s) && id != ""
    ensures var step := Selection.Toggle(s, id, None);
      var before := CheckedFlags(coins, s);
      var after := CheckedFlags(coins, step.coins);
      && (step.outcome.RejectedAtCapacity? ==> after == before)
      && (!step.outcome.RejectedAtCapacity? ==>
            forall i :: 0 <= i < |coins| ==> (after[i] <==> if coins[i].symbol == id then !before[i] else before[i]))
  {
    if Selection.Found(s, id) {
      Selection.ToggleRemovesMember(s, id);
    }
  }

  /** With distinct tickers on the cards, "show only selected" shows at most as
      many cards as the selection has entries. */
  lemma {:induction false} ShownAtMostSelected(cards: seq<Symbol>, selection: seq<Symbol>)
    requires Selection.NoDuplicates(cards)
    ensures CountTrue(Visible(cards, selection, true)) <= |selection|
  {
    if cards != [] {
      var c, rest := cards[0], cards[1..];
      assert Selection.NoDuplicates(rest) by {
        forall i, j | 0 <= i < j < |rest| ensures rest[i] != rest[j] { assert cards[i + 1] != cards[j + 1]; }
      }
      assert Visible(cards, selection, true)[1..] == Visible(rest, selection, true);
      if c in selection {
        var others := Selection.Without(selection, c);
        Selection.WithoutShrinks(selection, c);
        assert Visible(rest, selection, true) == Visible(rest, others, true) by {
          forall k | 0 <= k < |rest| ensures rest[k] != c { assert cards[0] != cards[k + 1]; }
        }
        ShownAtMostSelected(rest, others);
      } else {
        ShownAtMostSelected(rest, selection);
      }
    }
  }

  /** With distinct tickers on the cards and a valid selection, "show only
      selected" shows at most five cards. */
  lemma ShownAtMostCapacity(coins: seq<CoinSummary>, selection: seq<Symbol>)
    requires Selection.NoDuplicates(SwitchIds(coins)) && Selection.Valid(selection)
    ensures CountTrue(Visible(SwitchIds(coins), selection, true)) <= Selection.Capacity
  {
    ShownAtMostSelected(SwitchIds(coins), selection);
  }
}
