/** What is fixed for a whole run: peers, catalog, schedules, and the oracles for every random draw. */
module Settings {
  import opened Messages

  const QUERY_TTL := 10
  const STORE_NUMBERS := 100_000_000
  const RESTOCK_BELOW := 10
  const RESTOCK_QTY := 50
  const DEFAULT_PRICE := 100.0

  datatype Action = BrowseCatalog | HistoryCheck | EvaluateInventory | UpdateTracking

  datatype Timer = Timer(cycle: int, offset: int)

  /** A product that browsing brings up, with the category browsed. */
  datatype Shown = Shown(sku: int, category: string)

  /** A row of the catalog's mapping of a SKU to its suppliers. */
  datatype Source = Source(supplier: Option<int>, primary: bool)

  /** What a random number in the course of shopping is drawn for. */
  datatype Roll = ViewRoll | CartRoll | PurchaseRoll

  /** Prices are divided by base prices. */
  type BasePrice = p: real | p != 0.0 witness 1.0

  datatype Config = Config(
    transport: Option<int>,
    government: Option<int>,
    sources: int -> seq<Source>,
    parts: int -> seq<int>,
    sellersOf: int -> seq<int>,
    basePrice: int -> BasePrice,
    baseTransit: int,
    timers: (int, Action) -> Option<Timer>,
    answer: Request -> Data,
    rank: QueryId -> int,
    interest: (int, string) -> real,
    urgency: (int, string) -> real,
    sensitivity: int -> real,
    browse: (int, int) -> seq<Shown>,
    roll: (int, int, int, Roll) -> real,
    pick: (int, int, int) -> nat,
    cancels: (int, int, int, int) -> bool,
    hash: OrderId -> nat,
    shipHash: ShipmentId -> nat)

  function FirstPrimary(sources: seq<Source>): Option<Source> {
    if sources == [] then None
    else if sources[0].primary then Some(sources[0])
    else FirstPrimary(sources[1..])
  }

  /** The supplier of a SKU: that of its first primary source, else that of its first source, if it has one. */
  function SupplierOf(cfg: Config, sku: int): Option<int> {
    var sources := cfg.sources(sku);
    match FirstPrimary(sources)
    case Some(source) => source.supplier
    case None => if sources == [] then None else sources[0].supplier
  }

  /** `abs(hash(order_request_id)) % 10**8` */
  function StoreNumber(cfg: Config, rid: OrderId): (n: int)
    ensures 0 <= n < STORE_NUMBERS
  {
    cfg.hash(rid) % STORE_NUMBERS
  }

  /** Peers are looked up in a dictionary and tested for truth, so that an absent peer and a zero id are alike. */
  predicate Truthy(peer: Option<int>) {
    peer.Some? && peer.value != 0
  }

  function FirstFiring(timer: Timer): int {
    if timer.offset > 1 then timer.offset else 1
  }

  function Period(timer: Timer): (p: int)
    ensures p >= 1
  {
    if timer.cycle + timer.offset > 1 then timer.cycle + timer.offset else 1
  }

  /** The ticks at which a recurring action fires: an arithmetic progression. */
  predicate Fires(timer: Timer, tick: int) {
    tick >= FirstFiring(timer) && (tick - FirstFiring(timer)) % Period(timer) == 0
  }

  predicate Due(cfg: Config, agent: int, action: Action, tick: int) {
    match cfg.timers(agent, action)
    case None => false
    case Some(timer) => Fires(timer, tick)
  }

  /** The carrier's tracking fires at every tick from 1 on. */
  ghost predicate TracksAlways(cfg: Config, carrier: int) {
    forall t :: t >= 1 ==> Due(cfg, carrier, UpdateTracking, t)
  }

  datatype Pending = Pending(topic: Topic, issued: int)

  /** No query has been pending for more than ten ticks. */
  ghost predicate Recent(queries: map<QueryId, Pending>, tick: int) {
    forall q :: q in queries ==> tick - queries[q].issued <= 10
  }

  /** What is left of the pending queries are those that have been so for at most ten ticks. */
  ghost predicate OnlyRecent(before: map<QueryId, Pending>, after: map<QueryId, Pending>, tick: int) {
    && (forall q :: q in after <==> q in before && tick - before[q].issued <= 10)
    && (forall q :: q in after ==> after[q] == before[q])
  }

  /** `_expire_pending_queries` */
  function Expire(queries: map<QueryId, Pending>, tick: int): map<QueryId, Pending> {
    map q | q in queries && tick - queries[q].issued <= QUERY_TTL :: queries[q]
  }
}
