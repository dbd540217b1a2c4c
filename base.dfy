/** Values shared by every part of the model: the browser store's "absent or
    present" reads, the outcome of a network fetch, and the coin records the
    market endpoints return. */
module Base {

  /** A value that may be missing, as `localStorage.getItem` returns `null` for an absent key. */
  datatype Option<T> = None | Some(value: T)

  /** What an awaited `fetch(...).then(r => r.json())` yields: the decoded body,
      or a rejected promise. */
  datatype Fetch<T> = Resolved(value: T) | Failed

  /** A coin ticker as the page uses it: the id of a card's switch and an entry
      of the persisted selection. */
  type Symbol = string

  /** A coin id as the detail endpoint and the detail cache key use it. */
  type CoinId = string

  /** A point in time in milliseconds since the epoch (`new Date().getTime()`). */
  type Millis = int

  /** One entry of the market listing; the other market fields are carried
      through untouched and are not modelled. */
  datatype CoinSummary = CoinSummary(id: CoinId, symbol: Symbol, name: string)

  /** The part of a coin's detail record that the page reads: name, thumbnail and
      the three current prices shown in the popover. */
  datatype CoinDetail = CoinDetail(id: CoinId, name: string, thumb: string, usd: real, eur: real, ils: real)
}
