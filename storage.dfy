/** The browser's local key-value store as the page uses it: the read-through
    caches of the market listing (`getAllCoins`) and of one coin's details
    (`getSingleCoin`), the default entries written at start-up (`initStorage`)
    and the persisted report selection (`getEnabledCoins`, `setEnabledCoins`,
    `enableToggle`), all in assets/js/app.js. Values are kept decoded: the JSON
    text of each key is not modelled, only whether the key is present. */
module Storage {
  import opened Base
  import Selection

  /** `3 * 60 * 1000`: the listing is reused while strictly younger than this. */
  const ListWindow: int := 3 * 60 * 1000

  /** `2 * 60 * 1000`: a coin's details are reused while at most this old. */
  const DetailWindow: int := 2 * 60 * 1000

  /** The text under `allCoinsTime`: the empty string `initStorage` writes, or a
      time in milliseconds. Only the latter is truthy. */
  datatype Stamp = Blank | At(ms: Millis)

  /** An entry of `singlesCoinsInfo`: the fetched details with the `time` field
      `getSingleCoin` adds before storing them. */
  datatype Stamped = Stamped(info: CoinDetail, time: Millis)

  /** The four keys the page reads and writes; `None` is an absent key. */
  datatype StoreState = StoreState(
    allCoins: Option<seq<CoinSummary>>,
    allCoinsTime: Option<Stamp>,
    singlesCoinsInfo: Option<map<CoinId, Stamped>>,
    reportsCoins: Option<seq<Symbol>>)

  /** What a cache read returns, the store it leaves, and whether it went to the network. */
  datatype Read<T> = Read(result: Fetch<T>, store: StoreState, networkUsed: bool)

  /** A step of a browsing session that touches the store. */
  datatype Op =
    | ListRead(now: Millis, list: Fetch<seq<CoinSummary>>)
    | DetailRead(coin: CoinId, at: Millis, detail: Fetch<CoinDetail>)
    | Init
    | ToggleStep(id: Symbol, pending: Option<Symbol>)

  /** `getSinglesCoinInfo`: the stored detail map, or `{}` when the key is absent. */
  function Singles(st: StoreState): map<CoinId, Stamped> {
    if st.singlesCoinsInfo.Some? then st.singlesCoinsInfo.value else map[]
  }

  /** `getEnabledCoins`: the stored selection, or `[]` when the key is absent. */
  function EnabledCoins(st: StoreState): seq<Symbol> {
    if st.reportsCoins.Some? then st.reportsCoins.value else []
  }

  /** The listing may be served from the store: both keys truthy and the stored
      time less than `ListWindow` before `now`. */
  predicate ListFresh(st: StoreState, now: Millis) {
    && st.allCoins.Some?
    && st.allCoinsTime.Some? && st.allCoinsTime.value.At?
    && now - st.allCoinsTime.value.ms < ListWindow
  }

  /** A coin's details may be served from the store: an entry exists and is at
      most `DetailWindow` old. */
  predicate DetailFresh(st: StoreState, coin: CoinId, now: Millis) {
    coin in Singles(st) && now - Singles(st)[coin].time <= DetailWindow
  }

  /** `getAllCoins` at time `now`, where `fetch` is what the listing request
      would deliver. A fresh listing is returned as stored; otherwise the
      request is awaited and, if it succeeds, its data and `now` replace the two
      listing keys. */
  function ReadList(st: StoreState, now: Millis, fetch: Fetch<seq<CoinSummary>>): (o: Read<seq<CoinSummary>>)
    ensures o.networkUsed <==> !ListFresh(st, now)
    ensures o.result.Resolved? ==> o.store.allCoins == Some(o.result.value)
    ensures ListFresh(st, now) ==> o.result == Resolved(st.allCoins.value) && o.store == st
    ensures !ListFresh(st, now) && fetch.Resolved? ==>
      o.store == st.(allCoins := Some(fetch.value), allCoinsTime := Some(At(now)))
    ensures !ListFresh(st, now) ==> o.result == fetch
    ensures o.result.Failed? ==> o.store == st
    ensures o.store.singlesCoinsInfo == st.singlesCoinsInfo && o.store.reportsCoins == st.reportsCoins
  {
    if ListFresh(st, now) then
      Read(Resolved(st.allCoins.value), st, false)
    else
      match fetch
      case Failed => Read(Failed, st, true)
      case Resolved(data) => Read(fetch, st.(allCoins := Some(data), allCoinsTime := Some(At(now))), true)
  }

  /** `getSingleCoin(coin)` at time `now`, where `fetch` is what the detail
      request would deliver. A fresh entry is returned as stored; otherwise the
      request is awaited, stamped with `now` and written under `coin` alone. */
  function ReadDetail(st: StoreState, coin: CoinId, now: Millis, fetch: Fetch<CoinDetail>): (o: Read<Stamped>)
    ensures o.networkUsed <==> !DetailFresh(st, coin, now)
    ensures o.result.Resolved? ==> coin in Singles(o.store) && Singles(o.store)[coin] == o.result.value
    ensures DetailFresh(st, coin, now) ==> o.result == Resolved(Singles(st)[coin]) && o.store == st
    ensures !DetailFresh(st, coin, now) && fetch.Resolved? ==>
      o.store == st.(singlesCoinsInfo := Some(Singles(st)[coin := Stamped(fetch.value, now)]))
    ensures !DetailFresh(st, coin, now) && fetch.Resolved? ==> o.result == Resolved(Stamped(fetch.value, now))
    ensures !DetailFresh(st, coin, now) && fetch.Failed? ==> o.result == Failed
    ensures o.result.Failed? ==> o.store == st
    ensures forall other :: other != coin ==>
      (other in Singles(o.store) <==> other in Singles(st)) &&
      (other in Singles(st) ==> Singles(o.store)[other] == Singles(st)[other])
    ensures o.store.allCoins == st.allCoins && o.store.allCoinsTime == st.allCoinsTime
    ensures o.store.reportsCoins == st.reportsCoins
  {
    var coins := Singles(st);
    if DetailFresh(st, coin, now) then
      Read(Resolved(coins[coin]), st, false)
    else
      match fetch
      case Failed => Read(Failed, st, true)
      case Resolved(info) =>
        var entry := Stamped(info, now);
        Read(Resolved(entry), st.(singlesCoinsInfo := Some(coins[coin := entry])), true)
  }

  /** `initStorage`: every absent key gets its default: `{}`, `[]`, `[]` and
      the empty time text. A present key is never rewritten with another value. */
  function Initialized(st: StoreState): (r: StoreState)
    ensures r.allCoins.Some? && r.allCoinsTime.Some? && r.singlesCoinsInfo.Some? && r.reportsCoins.Some?
    ensures st.allCoins.Some? ==> r.allCoins == st.allCoins
    ensures st.allCoinsTime.Some? ==> r.allCoinsTime == st.allCoinsTime
    ensures st.singlesCoinsInfo.Some? ==> r.singlesCoinsInfo == st.singlesCoinsInfo
    ensures st.reportsCoins.Some? ==> r.reportsCoins == st.reportsCoins
    ensures st.allCoins.None? ==> r.allCoins == Some([])
    ensures st.allCoinsTime.None? ==> r.allCoinsTime == Some(Blank)
    ensures st.singlesCoinsInfo.None? ==> r.singlesCoinsInfo == Some(map[])
    ensures st.reportsCoins.None? ==> r.reportsCoins == Some([])
  {
    StoreState(
      if st.allCoins.None? then Some([]) else st.allCoins,
      if st.allCoinsTime.None? then Some(Blank) else st.allCoinsTime,
      if st.singlesCoinsInfo.None? then Some(map[]) else st.singlesCoinsInfo,
      if st.reportsCoins.None? then Some([]) else st.reportsCoins)
  }

  /** `enableToggle` on the stored selection: the new list is written back
      unless the toggle was refused at capacity, which returns before writing. */
  function ToggleStored(st: StoreState, id: Symbol, pending: Option<Symbol>): (r: (StoreState, Selection.Outcome))
    ensures r.1.RejectedAtCapacity? ==> r.0 == st
    ensures !r.1.RejectedAtCapacity? ==> r.0 == st.(reportsCoins := Some(EnabledCoins(r.0)))
    ensures EnabledCoins(r.0) == Selection.Toggle(EnabledCoins(st), id, pending).coins
    ensures r.1 == Selection.Toggle(EnabledCoins(st), id, pending).outcome
  {
    var step := Selection.Toggle(EnabledCoins(st), id, pending);
    if step.outcome.RejectedAtCapacity? then (st, step.outcome)
    else (st.(reportsCoins := Some(step.coins)), step.outcome)
  }

  /** The store after one step of a session. */
  function Apply(st: StoreState, op: Op): StoreState {
    match op
    case ListRead(now, list) => ReadList(st, now, list).store
    case DetailRead(coin, at, detail) => ReadDetail(st, coin, at, detail).store
    case Init => Initialized(st)
    case ToggleStep(id, pending) => ToggleStored(st, id, pending).0
  }

  /** The store after a whole session, steps taken in order. */
  function Session(st: StoreState, ops: seq<Op>): StoreState
    decreases |ops|
  {
    if ops == [] then st else Session(Apply(st, ops[0]), ops[1..])
  }

  /** Right after a listing refresh, a second read hits exactly while it is less
      than `ListWindow` later, and a hit returns the very data just stored and
      leaves the store alone; otherwise it goes to the network once more. */
  lemma ListRefreshWindow(st: StoreState, now: Millis, fetch: Fetch<seq<CoinSummary>>,
                          later: Millis, again: Fetch<seq<CoinSummary>>)
    requires ReadList(st, now, fetch).networkUsed && ReadList(st, now, fetch).result.Resolved?
    ensures var first := ReadList(st, now, fetch);
      var second := ReadList(first.store, later, again);
      && (second.networkUsed <==> later - now >= ListWindow)
      && (!second.networkUsed ==> second.result == first.result && second.store == first.store)
  {
  }

  /** Right after a detail refresh, a second read of that coin hits exactly while
      it is at most `DetailWindow` later (the bound is inclusive, unlike the
      listing's), and a hit returns the entry just stored. */
  lemma DetailRefreshWindow(st: StoreState, coin: CoinId, now: Millis, fetch: Fetch<CoinDetail>,
                            later: Millis, again: Fetch<CoinDetail>)
    requires ReadDetail(st, coin, now, fetch).networkUsed && ReadDetail(st, coin, now, fetch).result.Resolved?
    ensures var first := ReadDetail(st, coin, now, fetch);
      var second := ReadDetail(first.store, coin, later, again);
      && (second.networkUsed <==> later - now > DetailWindow)
      && (!second.networkUsed ==> second.result == first.result && second.store == first.store)
  {
  }

  /** The two caches are independent: reading one coin's details never changes
      whether the listing, or another coin's details, are fresh; reading the
      listing never changes whether any coin's details are fresh. */
  lemma CachesIndependent(st: StoreState, coin: CoinId, other: CoinId, now: Millis, later: Millis,
                          list: Fetch<seq<CoinSummary>>, detail: Fetch<CoinDetail>)
    requires other != coin
    ensures ListFresh(ReadDetail(st, coin, now, detail).store, later) == ListFresh(st, later)
    ensures DetailFresh(ReadDetail(st, coin, now, detail).store, other, later) == DetailFresh(st, other, later)
    ensures DetailFresh(ReadList(st, now, list).store, other, later) == DetailFresh(st, other, later)
  {
  }

  /** On a first visit (nothing stored) `initStorage` leaves an empty listing
      under a blank time, so the listing is stale at every moment and the next
      read goes to the network. */
  lemma FirstVisitFetches(now: Millis, fetch: Fetch<seq<CoinSummary>>)
    ensures var st := Initialized(StoreState(None, None, None, None));
      && st == StoreState(Some([]), Some(Blank), Some(map[]), Some([]))
      && ReadList(st, now, fetch).networkUsed
      && ReadList(st, now, fetch).result == fetch
  {
  }

  /** `initStorage` is idempotent and invisible to every reader: unless the
      listing's time survives without the listing itself, each cache read gives
      the same answer before and after it, and the selection reads the same. */
  lemma InitKeepsReads(st: StoreState, now: Millis, coin: CoinId,
                       list: Fetch<seq<CoinSummary>>, detail: Fetch<CoinDetail>)
    requires st.allCoins.None? ==> st.allCoinsTime.None? || st.allCoinsTime.value.Blank?
    ensures Initialized(Initialized(st)) == Initialized(st)
    ensures ReadList(Initialized(st), now, list).result == ReadList(st, now, list).result
    ensures ReadList(Initialized(st), now, list).networkUsed == ReadList(st, now, list).networkUsed
    ensures ReadDetail(Initialized(st), coin, now, detail).result == ReadDetail(st, coin, now, detail).result
    ensures EnabledCoins(Initialized(st)) == EnabledCoins(st)
  {
  }

  /** A listing time kept without its listing is the one case where
      `initStorage` changes an answer: the default `[]` is then served as fresh. */
  lemma InitServesEmptyListing(t: Millis, now: Millis, fetch: Fetch<seq<CoinSummary>>)
    requires now - t < ListWindow
    ensures ReadList(Initialized(StoreState(None, Some(At(t)), None, None)), now, fetch).result == Resolved([])
  {
  }

  /** Only toggles write the selection: a session of cache reads and
      initialisations leaves `getEnabledCoins` unchanged. */
  lemma {:induction false} OnlyTogglesChangeSelection(st: StoreState, ops: seq<Op>)
    requires forall k :: 0 <= k < |ops| ==> !ops[k].ToggleStep?
    ensures EnabledCoins(Session(st, ops)) == EnabledCoins(st)
    decreases |ops|
  {
    if ops != [] {
      OnlyTogglesChangeSelection(Apply(st, ops[0]), ops[1..]);
    }
  }

  /** Over any session whose switches carry non-empty tickers, the stored
      selection stays at most five long and duplicate-free. */
  lemma {:induction false} SessionKeepsSelectionValid(st: StoreState, ops: seq<Op>)
    requires Selection.Valid(EnabledCoins(st))
    requires forall k :: 0 <= k < |ops| ==> ops[k].ToggleStep? ==> ops[k].id != ""
    ensures Selection.Valid(EnabledCoins(Session(st, ops)))
    decreases |ops|
  {
    if ops != [] {
      if ops[0].ToggleStep? {
        Selection.ToggleKeepsValid(EnabledCoins(st), ops[0].id, ops[0].pending);
      }
      SessionKeepsSelectionValid(Apply(st, ops[0]), ops[1..]);
    }
  }

  /** The browser's `localStorage`, holding the four keys. */
  class LocalStore {
    var allCoins: Option<seq<CoinSummary>>
    var allCoinsTime: Option<Stamp>
    var singlesCoinsInfo: Option<map<CoinId, Stamped>>
    var reportsCoins: Option<seq<Symbol>>

    function State(): StoreState
      reads this
    {
      StoreState(allCoins, allCoinsTime, singlesCoinsInfo, reportsCoins)
    }

    /** The store as the browser hands it to the page. */
    constructor (st: StoreState)
      ensures State() == st
    {
      allCoins, allCoinsTime := st.allCoins, st.allCoinsTime;
      singlesCoinsInfo, reportsCoins := st.singlesCoinsInfo, st.reportsCoins;
    }

    /** `getEnabledCoins`. */
    method GetEnabledCoins() returns (coins: seq<Symbol>)
      ensures coins == EnabledCoins(State())
      ensures reportsCoins.Some? ==> coins == reportsCoins.value
      ensures reportsCoins.None? ==> coins == []
    {
      coins := if reportsCoins.Some? then reportsCoins.value else [];
    }

    /** `setEnabledCoins`: overwrites the selection key and no other. */
    method SetEnabledCoins(coins: seq<Symbol>)
      modifies this
      ensures State() == old(State()).(reportsCoins := Some(coins))
      ensures EnabledCoins(State()) == coins
    {
      reportsCoins := Some(coins);
    }

    /** `getSinglesCoinInfo`. */
    method GetSinglesCoinInfo() returns (coins: map<CoinId, Stamped>)
      ensures coins == Singles(State())
      ensures singlesCoinsInfo.None? ==> coins == map[]
    {
      coins := if singlesCoinsInfo.Some? then singlesCoinsInfo.value else map[];
    }

    /** `setSinglesCoinInfo`: overwrites the detail map key and no other. */
    method SetSinglesCoinInfo(coins: map<CoinId, Stamped>)
      modifies this
      ensures State() == old(State()).(singlesCoinsInfo := Some(coins))
      ensures Singles(State()) == coins
    {
      singlesCoinsInfo := Some(coins);
    }

    /** `getAllCoins` at time `now`; `fetch` is what the listing request delivers
        if it is made. */
    method GetAllCoins(now: Millis, fetch: Fetch<seq<CoinSummary>>) returns (result: Fetch<seq<CoinSummary>>, networkUsed: bool)
      modifies this
      ensures Read(result, State(), networkUsed) == ReadList(old(State()), now, fetch)
    {
      var cachedData := allCoins;
      var cacheTime := allCoinsTime;
      if cachedData.Some? && cacheTime.Some? && cacheTime.value.At? && now - cacheTime.value.ms < ListWindow {
        return Resolved(cachedData.value), false;
      }
      networkUsed := true;
      if fetch.Failed? {
        return Failed, networkUsed;
      }
      allCoins := Some(fetch.value);
      allCoinsTime := Some(At(now));
      result := fetch;
    }

    /** `getSingleCoin(coin)` at time `now`; `fetch` is what the detail request
        delivers if it is made. */
    method GetSingleCoin(coin: CoinId, now: Millis, fetch: Fetch<CoinDetail>) returns (result: Fetch<Stamped>, networkUsed: bool)
      modifies this
      ensures Read(result, State(), networkUsed) == ReadDetail(old(State()), coin, now, fetch)
    {
      var coins := GetSinglesCoinInfo();
      if coin in coins && now - coins[coin].time <= DetailWindow {
        return Resolved(coins[coin]), false;
      }
      networkUsed := true;
      if fetch.Failed? {
        return Failed, networkUsed;
      }
      var newData := Stamped(fetch.value, now);
      coins := coins[coin := newData];
      SetSinglesCoinInfo(coins);
      result := Resolved(newData);
    }

    /** `initStorage`. */
    method InitStorage()
      modifies this
      ensures State() == Initialized(old(State()))
    {
      if singlesCoinsInfo.None? { SetSinglesCoinInfo(map[]); }
      if reportsCoins.None? { SetEnabledCoins([]); }
      if allCoins.None? { allCoins := Some([]); }
      if allCoinsTime.None? || allCoinsTime.value.Blank? { allCoinsTime := Some(Blank); }
    }

    /** `enableToggle(toggle, addToggle)` with `id == toggle.id` and
        `pending == addToggle`; the outcome tells how the switch ends up and
        whether the overflow prompt opens. */
    method EnableToggle(id: Symbol, pending: Option<Symbol>) returns (outcome: Selection.Outcome)
      modifies this
      ensures (State(), outcome) == ToggleStored(old(State()), id, pending)
    {
      var allEnabledToggles := GetEnabledCoins();
      if Selection.Found(allEnabledToggles, id) {
        var indexOfCoin := Selection.IndexOf(allEnabledToggles, id);
        allEnabledToggles := allEnabledToggles[..indexOfCoin] + allEnabledToggles[indexOfCoin + 1..];
        outcome := Selection.Removed;
        if pending.Some? && pending.value != "" {
          if !Selection.Found(allEnabledToggles, pending.value) {
            allEnabledToggles := allEnabledToggles + [pending.value];
          }
        }
      } else {
        if |allEnabledToggles| == Selection.Capacity {
          return Selection.RejectedAtCapacity(id);
        }
        allEnabledToggles := allEnabledToggles + [id];
        outcome := Selection.Added;
      }
      SetEnabledCoins(allEnabledToggles);
    }
  }
}
