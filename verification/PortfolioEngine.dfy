/** The portfolio engine: one venue per pair of the universe, one shared ledger and risk manager
    (kaupo/core/portfolio_engine.py). */
module PortfolioEngine {
  import opened Domain
  import opened Accounting
  import opened PaperVenue
  import opened PortfolioSteps
  import E = Engine
  import L = Ledger
  import Risk = RiskManager
  import Sums

  datatype Config = Config(venue: VenueConfig, risk: Risk.RiskConfig, seconds: int)

  /** `closes` holds the last known close of each pair, also when it misses a step. */
  datatype State = State(venues: map<Pair, VenueState>, books: Books, risk: Risk.Manager, closes: map<Pair, real>,
                         killed: bool)

  /** A universe step, the sorted list of its pairs, and what the operator and the strategy do. */
  datatype Input = Input(step: Step, order: seq<Pair>, control: E.Control, intents: seq<OrderIntent>)

  function Closes(candles: map<Pair, Candle>): map<Pair, real> {
    map p | p in candles :: candles[p].close
  }

  /** One pair's turn: its venue's candle, then its fills on the shared ledger. */
  function Turn(cfg: Config, s: State, p: Pair, c: Candle): E.Settlement
    requires p in s.venues
  {
    var pr := OnCandle(cfg.venue, s.venues[p], c);
    E.Settle(cfg.risk, E.Settlement(pr.venue.(newOrders := [], expired := []), s.books, s.risk, []), pr.fills)
  }

  function AfterTurn(cfg: Config, s: State, p: Pair, c: Candle): State
    requires p in s.venues
  {
    var t := Turn(cfg, s, p, c);
    s.(venues := s.venues[p := t.venue], books := t.books, risk := t.risk)
  }

  function AfterTurns(cfg: Config, s: State, order: seq<Pair>, candles: map<Pair, Candle>): State
    requires forall p :: p in order ==> p in s.venues && p in candles
    decreases |order|
  {
    if order == [] then s
    else AfterTurns(cfg, AfterTurn(cfg, s, order[0], candles[order[0]]), order[1..], candles)
  }

  function RiskStateAt(cfg: Config, s: State, ts: int): Risk.RiskState {
    Risk.RiskState((ts + cfg.seconds) / E.DAY, s.books.cash, map p | p in s.venues :: PositionOf(s.books, p), s.closes)
  }

  /** Intents outside the universe are refused before risk sees them. */
  function InUniverse(intents: seq<OrderIntent>, venues: set<Pair>): seq<OrderIntent> {
    if intents == [] then []
    else (if intents[0].pair in venues then [intents[0]] else []) + InUniverse(intents[1..], venues)
  }

  function Routed(venues: map<Pair, VenueState>, a: Risk.Assessment, ts: int): map<Pair, VenueState> {
    var p := a.intent.pair;
    if a.decision.Refused? || p !in venues then venues
    else venues[p := Submit(venues[p], E.OrderFrom(a, ts, venues[p].nextId)).(nextId := venues[p].nextId + 1)]
  }

  function RoutedAll(venues: map<Pair, VenueState>, batch: seq<Risk.Assessment>, ts: int): map<Pair, VenueState>
    decreases |batch|
  {
    if batch == [] then venues else RoutedAll(Routed(venues, batch[0], ts), batch[1..], ts)
  }

  /** Risk's time-based checks on the whole portfolio. */
  ghost function Checked(cfg: Config, s: State, ts: int): Risk.Manager {
    var st := RiskStateAt(cfg, s, ts);
    Risk.OnCandle(cfg.risk, s.risk, st.day, Risk.FloorEquity(st))
  }

  /** The approved intents go to their venues. */
  ghost function Submitted(cfg: Config, s: State, intents: seq<OrderIntent>, ts: int): State
    requires cfg.risk.costRate != -1.0
  {
    var batch := Risk.AssessSpot(cfg.risk, s.risk.cooldown, InUniverse(intents, s.venues.Keys),
        RiskStateAt(cfg, s, ts));
    s.(venues := RoutedAll(s.venues, batch, ts))
  }

  /** After the checks: halted or paused, killed, or the strategy's turn. */
  ghost function Acted(cfg: Config, s: State, i: Input): State
    requires cfg.risk.costRate != -1.0
  {
    if s.risk.halted || i.control.Pause? then s
    else if i.control.Kill? then s.(killed := true)
    else Submitted(cfg, s, i.intents, i.step.ts)
  }

  /** Risk on the whole portfolio, operator control, then the approved intents to their venues. */
  ghost function Decide(cfg: Config, s: State, i: Input): State
    requires cfg.risk.costRate != -1.0
  {
    Acted(cfg, s.(risk := Checked(cfg, s, i.step.ts)), i)
  }

  /** A step of the universe: every pair of it has a candle and a venue. */
  ghost predicate ValidInput(i: Input, venues: set<Pair>) {
    && (forall p :: p in i.order <==> p in i.step.candles)
    && i.step.candles.Keys <= venues
    && (forall p :: p in i.step.candles ==> ValidCandle(i.step.candles[p]))
    && Risk.ValidIntents(i.intents)
  }

  ghost function AfterFills(cfg: Config, s: State, i: Input): State
    requires ValidInput(i, s.venues.Keys)
  {
    AfterTurns(cfg, s.(closes := s.closes + Closes(i.step.candles)), i.order, i.step.candles)
  }

  ghost function Processed(cfg: Config, s: State, i: Input): State
    requires cfg.risk.costRate != -1.0 && ValidInput(i, s.venues.Keys)
  {
    Decide(cfg, AfterFills(cfg, s, i), i)
  }

  // ----- what every reachable state keeps -----

  ghost function Universe(s: State): iset<Pair> {
    iset p | p in s.venues
  }

  /** Each venue agrees with the shared ledger on its own pair, and no money is ever negative. */
  ghost predicate Invariant(s: State, opening: Books) {
    && (forall p :: p in s.venues ==> E.VenueSound(iset{p}, s.venues[p]))
    && E.Solvent(s.books) && PaidIn(s.books) == PaidIn(opening) && E.KeysWithin(Universe(s), s.books, opening)
    && (forall p :: p in s.venues ==> Agrees(s, opening, p))
  }

  predicate Agrees(s: State, opening: Books, p: Pair)
    requires p in s.venues
  {
    PositionOf(s.books, p).size - PositionAt(s.venues[p], p) == PositionOf(opening, p).size
  }

  /** Fills of one pair leave every other position alone. */
  lemma {:induction false} OthersUntouched(cfg: Risk.RiskConfig, s: E.Settlement, fills: seq<Fill>, p: Pair)
    requires forall f :: f in fills ==> f.pair == p
    ensures forall q :: q != p ==> PositionOf(E.Settle(cfg, s, fills).books, q) == PositionOf(s.books, q)
    ensures forall q :: q != p ==> (q in E.Settle(cfg, s, fills).books.positions <==> q in s.books.positions)
    decreases |fills|
  {
    if fills != [] {
      assert fills[0] in fills;
      OthersUntouched(cfg, E.SettleOne(cfg, s, fills[0]), fills[1..], p);
    }
  }

  lemma TurnKeepsPair(cfg: Config, s: State, p: Pair, c: Candle)
    requires E.FairFees(cfg.venue) && ValidCandle(c) && p in s.venues
    requires E.VenueSound(iset{p}, s.venues[p]) && E.Solvent(s.books)
    ensures var t := Turn(cfg, s, p, c);
            && E.VenueSound(iset{p}, t.venue) && E.Solvent(t.books) && PaidIn(t.books) == PaidIn(s.books)
            && E.KeysWithin(iset{p}, t.books, s.books)
            && PositionOf(t.books, p).size - PositionAt(t.venue, p)
                == PositionOf(s.books, p).size - PositionAt(s.venues[p], p)
            && (forall q :: q != p ==> PositionOf(t.books, q) == PositionOf(s.books, q))
  {
    E.CandleSound(iset{p}, cfg.venue, s.venues[p], c);
    OnCandleTracksItsFills(cfg.venue, s.venues[p], c);
    var pr := OnCandle(cfg.venue, s.venues[p], c);
    var start := E.Settlement(pr.venue.(newOrders := [], expired := []), s.books, s.risk, []);
    E.SettleSound(iset{p}, cfg.risk, start, pr.fills);
    OthersUntouched(cfg.risk, start, pr.fills, p);
    assert PositionAt(start.venue, p) == PositionAt(pr.venue, p) == PositionAt(s.venues[p], p) + NetDelta(pr.fills, p);
  }

  /** What a turn promises about its own pair carries over to the whole portfolio. */
  lemma PairTurned(s: State, p: Pair, t: E.Settlement, opening: Books)
    requires p in s.venues && Invariant(s, opening)
    requires E.VenueSound(iset{p}, t.venue) && E.Solvent(t.books) && PaidIn(t.books) == PaidIn(s.books)
    requires E.KeysWithin(iset{p}, t.books, s.books)
    requires PositionOf(t.books, p).size - PositionAt(t.venue, p)
        == PositionOf(s.books, p).size - PositionAt(s.venues[p], p)
    requires forall q :: q != p ==> PositionOf(t.books, q) == PositionOf(s.books, q)
    ensures Invariant(s.(venues := s.venues[p := t.venue], books := t.books, risk := t.risk), opening)
  {
    var s' := s.(venues := s.venues[p := t.venue], books := t.books, risk := t.risk);
    assert Universe(s') == Universe(s);
    forall q | q in s'.venues ensures E.VenueSound(iset{q}, s'.venues[q]) && Agrees(s', opening, q) {
      assert Agrees(s, opening, q);
    }
  }

  lemma TurnKeeps(cfg: Config, s: State, p: Pair, c: Candle, opening: Books)
    requires E.FairFees(cfg.venue) && ValidCandle(c) && p in s.venues && Invariant(s, opening)
    ensures Invariant(AfterTurn(cfg, s, p, c), opening)
    ensures AfterTurn(cfg, s, p, c).venues.Keys == s.venues.Keys
  {
    TurnKeepsPair(cfg, s, p, c);
    PairTurned(s, p, Turn(cfg, s, p, c), opening);
  }

  lemma {:induction false} TurnsKeep(cfg: Config, s: State, order: seq<Pair>, candles: map<Pair, Candle>,
                                     opening: Books)
    requires E.FairFees(cfg.venue) && Invariant(s, opening)
    requires forall p :: p in order ==> p in s.venues && p in candles && ValidCandle(candles[p])
    ensures var t := AfterTurns(cfg, s, order, candles);
            Invariant(t, opening) && t.venues.Keys == s.venues.Keys && t.closes == s.closes && t.killed == s.killed
    decreases |order|
  {
    if order != [] {
      assert order[0] in order;
      TurnKeeps(cfg, s, order[0], candles[order[0]], opening);
      TurnsKeep(cfg, AfterTurn(cfg, s, order[0], candles[order[0]]), order[1..], candles, opening);
    }
  }

  lemma {:induction false} UniverseIntents(intents: seq<OrderIntent>, venues: set<Pair>)
    requires Risk.ValidIntents(intents)
    ensures Risk.ValidIntents(InUniverse(intents, venues))
    ensures forall i :: i in InUniverse(intents, venues) ==> i.pair in venues
  {
    if intents != [] {
      assert intents[0] in intents;
      UniverseIntents(intents[1..], venues);
    }
  }

  lemma RouteKeeps(venues: map<Pair, VenueState>, a: Risk.Assessment, ts: int)
    requires forall p :: p in venues ==> E.VenueSound(iset{p}, venues[p])
    requires !a.decision.Refused? ==> a.size >= 0.0
    ensures var after := Routed(venues, a, ts);
            && after.Keys == venues.Keys
            && (forall p :: p in after ==> E.VenueSound(iset{p}, after[p]) && after[p].positions == venues[p].positions)
  {
    var p := a.intent.pair;
    if !a.decision.Refused? && p in venues {
      E.SubmissionSound(iset{p}, venues[p], a, ts);
    }
  }

  /** Submissions reach only the venue of their own pair and move no position. */
  lemma {:induction false} RoutingKeeps(venues: map<Pair, VenueState>, batch: seq<Risk.Assessment>, ts: int)
    requires forall p :: p in venues ==> E.VenueSound(iset{p}, venues[p])
    requires forall a :: a in batch && !a.decision.Refused? ==> a.size >= 0.0
    ensures var after := RoutedAll(venues, batch, ts);
            && after.Keys == venues.Keys
            && (forall p :: p in after ==> E.VenueSound(iset{p}, after[p]) && after[p].positions == venues[p].positions)
    decreases |batch|
  {
    if batch != [] {
      assert batch[0] in batch;
      RouteKeeps(venues, batch[0], ts);
      RoutingKeeps(Routed(venues, batch[0], ts), batch[1..], ts);
    }
  }

  /** Nothing but queues, risk and the operator's switch may change after the fills. */
  lemma SameBooks(s: State, s': State, opening: Books)
    requires Invariant(s, opening) && s'.books == s.books && s'.venues.Keys == s.venues.Keys
    requires forall p :: p in s.venues ==>
               E.VenueSound(iset{p}, s'.venues[p]) && s'.venues[p].positions == s.venues[p].positions
    ensures Invariant(s', opening)
  {
    assert Universe(s') == Universe(s);
    forall p | p in s'.venues ensures Agrees(s', opening, p) {
      assert Agrees(s, opening, p);
    }
  }

  lemma SubmissionsKeep(cfg: Config, s: State, intents: seq<OrderIntent>, ts: int, opening: Books)
    requires cfg.risk.costRate != -1.0 && Risk.ValidIntents(intents) && Invariant(s, opening)
    ensures Invariant(Submitted(cfg, s, intents, ts), opening)
    ensures Submitted(cfg, s, intents, ts).venues.Keys == s.venues.Keys
  {
    var asked, st := InUniverse(intents, s.venues.Keys), RiskStateAt(cfg, s, ts);
    UniverseIntents(intents, s.venues.Keys);
    E.ApprovedSizes(Universe(s), cfg.risk, s.risk.cooldown, asked, st, Risk.Batch(st.cash, map[], map[]));
    RoutingKeeps(s.venues, Risk.AssessSpot(cfg.risk, s.risk.cooldown, asked, st), ts);
    SameBooks(s, Submitted(cfg, s, intents, ts), opening);
  }

  lemma ActedKeeps(cfg: Config, s: State, i: Input, opening: Books)
    requires cfg.risk.costRate != -1.0 && Risk.ValidIntents(i.intents) && Invariant(s, opening)
    ensures Invariant(Acted(cfg, s, i), opening) && Acted(cfg, s, i).venues.Keys == s.venues.Keys
  {
    SubmissionsKeep(cfg, s, i.intents, i.step.ts, opening);
    SameBooks(s, s.(killed := true), opening);
  }

  lemma DecideKeeps(cfg: Config, s: State, i: Input, opening: Books)
    requires cfg.risk.costRate != -1.0 && Risk.ValidIntents(i.intents) && Invariant(s, opening)
    ensures Invariant(Decide(cfg, s, i), opening) && Decide(cfg, s, i).venues.Keys == s.venues.Keys
  {
    SameBooks(s, s.(risk := Checked(cfg, s, i.step.ts)), opening);
    ActedKeeps(cfg, s.(risk := Checked(cfg, s, i.step.ts)), i, opening);
  }

  /** A run stops taking steps once it is halted or killed. */
  ghost predicate ValidInputs(inputs: seq<Input>, venues: set<Pair>) {
    forall i :: i in inputs ==> ValidInput(i, venues)
  }

  lemma FillsKeep(cfg: Config, s: State, i: Input, opening: Books)
    requires E.FairFees(cfg.venue) && ValidInput(i, s.venues.Keys) && Invariant(s, opening)
    ensures Invariant(AfterFills(cfg, s, i), opening) && AfterFills(cfg, s, i).venues.Keys == s.venues.Keys
  {
    var priced := s.(closes := s.closes + Closes(i.step.candles));
    SameBooks(s, priced, opening);
    TurnsKeep(cfg, priced, i.order, i.step.candles, opening);
  }

  ghost predicate Runs(cfg: Config, s: State, inputs: seq<Input>, end: State)
    requires cfg.risk.costRate != -1.0
    decreases |inputs|
  {
    if inputs == [] || s.killed || s.risk.halted then end == s
    else ValidInput(inputs[0], s.venues.Keys) && Runs(cfg, Processed(cfg, s, inputs[0]), inputs[1..], end)
  }

  lemma {:induction false} RunKeeps(cfg: Config, s: State, inputs: seq<Input>, end: State, opening: Books)
    requires cfg.risk.costRate != -1.0 && E.FairFees(cfg.venue) && Invariant(s, opening) && Runs(cfg, s, inputs, end)
    ensures Invariant(end, opening) && end.venues.Keys == s.venues.Keys
    decreases |inputs|
  {
    if inputs != [] && !s.killed && !s.risk.halted {
      FillsKeep(cfg, s, inputs[0], opening);
      DecideKeeps(cfg, AfterFills(cfg, s, inputs[0]), inputs[0], opening);
      RunKeeps(cfg, Processed(cfg, s, inputs[0]), inputs[1..], end, opening);
    }
  }

  function Start(universe: set<Pair>, opening: Books, risk: Risk.Manager): State {
    State(map p | p in universe :: VenueState([], [], [], [], [], map[], map[], [], map[], 0),
          opening, risk, map[], false)
  }

  /** What the invariant says of one state. */
  ghost predicate Agreement(t: State, universe: set<Pair>, opening: Books) {
    && t.venues.Keys == universe
    && (forall p ::
        p in universe ==> PositionOf(t.books, p).size == PositionAt(t.venues[p], p) + PositionOf(opening, p).size)
    && (forall p :: p in t.books.positions ==> p in universe || p in opening.positions)
    && t.books.cash >= 0.0 && (forall p :: PositionOf(t.books, p).size >= 0.0)
    && PaidIn(t.books) == PaidIn(opening)
  }

  lemma InvariantAgrees(t: State, opening: Books)
    requires Invariant(t, opening)
    ensures Agreement(t, t.venues.Keys, opening)
  {
    forall p | p in t.venues
      ensures PositionOf(t.books, p).size == PositionAt(t.venues[p], p) + PositionOf(opening, p).size
    {
      assert Agrees(t, opening, p);
    }
  }

  /** Over every portfolio run, in whatever order the pairs of a step take their turns: each venue
      and the shared ledger differ on its pair by the opening position exactly, a pair outside the
      universe is never touched, and cash and positions are never negative. */
  lemma {:induction false} EveryPortfolioRunAgrees(cfg: Config, universe: set<Pair>, opening: Books, risk: Risk.Manager,
                                                   inputs: seq<Input>, end: State, i: Input)
    requires cfg.risk.costRate != -1.0 && E.FairFees(cfg.venue) && E.Solvent(opening)
    requires Runs(cfg, Start(universe, opening, risk), inputs, end) && ValidInput(i, end.venues.Keys)
    ensures Agreement(AfterFills(cfg, end, i), universe, opening)
  {
    StartKeeps(universe, opening, risk);
    RunKeeps(cfg, Start(universe, opening, risk), inputs, end, opening);
    FillsKeep(cfg, end, i, opening);
    InvariantAgrees(AfterFills(cfg, end, i), opening);
  }

  lemma StartKeeps(universe: set<Pair>, opening: Books, risk: Risk.Manager)
    requires E.Solvent(opening)
    ensures Invariant(Start(universe, opening, risk), opening) && Start(universe, opening, risk).venues.Keys == universe
  {
    var start := Start(universe, opening, risk);
    forall p | p in universe ensures E.VenueSound(iset{p}, start.venues[p]) && Agrees(start, opening, p) {
    }
  }

  // ----- the floor with many pairs -----

  lemma {:induction false} SumPadding(a: map<Pair, real>, b: map<Pair, real>)
    requires a.Keys <= b.Keys && forall p :: p in b ==> b[p] == if p in a then a[p] else 0.0
    ensures Sums.Sum(a) == Sums.Sum(b)
    decreases |b|
  {
    if b != map[] {
      var p :| p in b;
      Sums.SumRemove(b, p);
      if p in a {
        Sums.SumRemove(a, p);
        SumPadding(a - {p}, b - {p});
      } else {
        SumPadding(a, b - {p});
      }
    } else {
      assert a == b;
    }
  }

  /** Pairs without a position add nothing to what risk sees. */
  lemma UniverseCost(b: Books, held: map<Pair, Position>)
    requires b.positions.Keys <= held.Keys && forall p :: p in held ==> held[p] == PositionOf(b, p)
    ensures Sums.Sum(map p | p in held :: Cost(held[p])) == CostBasis(b.positions)
  {
    SumPadding(map p | p in b.positions :: Cost(b.positions[p]), map p | p in held :: Cost(held[p]));
  }

  lemma UniverseWorth(b: Books, held: map<Pair, Position>, prices: map<Pair, real>)
    requires b.positions.Keys <= held.Keys && forall p :: p in held ==> held[p] == PositionOf(b, p)
    ensures Sums.Sum(map p | p in held :: Worth(held[p], Risk.Get(prices, p))) == MarketValue(b.positions, prices)
  {
    SumPadding(map p | p in b.positions :: ValueAt(b.positions[p], p, prices),
               map p | p in held :: Worth(held[p], Risk.Get(prices, p)));
  }

  /** At every step of every fresh portfolio run the daily-loss floor that risk checks exceeds
      neither opening cash plus realized PnL nor the equity at the last known prices. */
  lemma {:induction false} FloorBelowRealizedAndEquity(cfg: Config, universe: set<Pair>, cash: real, inputs: seq<Input>,
                                                       end: State, i: Input)
    requires cfg.risk.costRate != -1.0 && E.FairFees(cfg.venue) && cash >= 0.0
    requires Runs(cfg, Start(universe, Books(cash, map[], 0.0), Risk.FRESH), inputs, end)
    requires ValidInput(i, end.venues.Keys)
    ensures var s := AfterFills(cfg, end, i);
            var floor := Risk.FloorEquity(RiskStateAt(cfg, s, i.step.ts));
            floor <= cash + s.books.realized && floor <= EquityOf(s.books, s.closes)
  {
    var opening := Books(cash, map[], 0.0);
    StartKeeps(universe, opening, Risk.FRESH);
    RunKeeps(cfg, Start(universe, opening, Risk.FRESH), inputs, end, opening);
    FillsKeep(cfg, end, i, opening);
    FloorOfState(cfg, AfterFills(cfg, end, i), cash, i.step.ts);
  }

  lemma FloorOfState(cfg: Config, s: State, cash: real, ts: int)
    requires Invariant(s, Books(cash, map[], 0.0))
    ensures var floor := Risk.FloorEquity(RiskStateAt(cfg, s, ts));
            floor <= cash + s.books.realized && floor <= EquityOf(s.books, s.closes)
  {
    var st := RiskStateAt(cfg, s, ts);
    Risk.FloorBelowBoth(st);
    assert st.positions.Keys == s.venues.Keys;
    UniverseCost(s.books, st.positions);
    UniverseWorth(s.books, st.positions, s.closes);
    E.NoCost(map[]);
  }

  // ----- the engine object -----

  class PortfolioEngine {
    const cfg: Config
    const venues: map<Pair, PaperVenue>
    const ledger: L.Ledger
    const risk: Risk.RiskManager
    var lastCloses: map<Pair, real>
    var killed: bool

    /** One venue object per pair. */
    ghost predicate Valid() {
      && risk.cfg == cfg.risk && !ledger.perp && !cfg.risk.perp
      && (forall p :: p in venues ==> venues[p].cfg == cfg.venue)
      && (forall p, q :: p in venues && q in venues && p != q ==> venues[p] != venues[q])
    }

    ghost function VenueStates(): map<Pair, VenueState>
      reads venues.Values
    {
      map p | p in venues :: venues[p].State()
    }

    ghost function Portfolio(): State
      reads this, ledger, risk, venues.Values
    {
      State(VenueStates(), ledger.Books(), risk.State(), lastCloses, killed)
    }

    constructor (cfg: Config, venues: map<Pair, PaperVenue>, ledger: L.Ledger, risk: Risk.RiskManager)
      requires risk.cfg == cfg.risk && !ledger.perp && !cfg.risk.perp
      requires forall p :: p in venues ==> venues[p].cfg == cfg.venue
      requires forall p, q :: p in venues && q in venues && p != q ==> venues[p] != venues[q]
      ensures Valid() && this.venues == venues && this.ledger == ledger && this.risk == risk && this.cfg == cfg
    {
      this.cfg, this.venues, this.ledger, this.risk := cfg, venues, ledger, risk;
      lastCloses, killed := map[], false;
    }

    /** One pair's candle on its own venue. */
    method RunVenue(venue: PaperVenue, c: Candle)
      requires risk.cfg == cfg.risk && !ledger.perp && venue.cfg == cfg.venue
      modifies venue, ledger, risk
      ensures var pr := OnCandle(cfg.venue, old(venue.State()), c);
              var t := E.Settle(cfg.risk, E.Settlement(pr.venue.(newOrders := [], expired := []), old(ledger.Books()),
                                                       old(risk.State()), []), pr.fills);
              venue.State() == t.venue && ledger.Books() == t.books && risk.State() == t.risk
    {
      var fills := venue.CandleStep(c);
      var _ := venue.DrainNewOrders();
      var _ := venue.DrainExpired();
      var _ := E.ApplyFills(cfg.risk, venue, ledger, risk, fills);
    }

    method TakeTurn(p: Pair, c: Candle)
      requires Valid() && p in venues
      modifies venues.Values, ledger, risk
      ensures Portfolio() == AfterTurn(cfg, old(Portfolio()), p, c)
    {
      RunVenue(venues[p], c);
      assert VenueStates() == old(VenueStates())[p := venues[p].State()];
    }

    /** The pairs of a step take their turns in sorted order. */
    method RunVenues(order: seq<Pair>, candles: map<Pair, Candle>)
      requires Valid() && forall p :: p in order ==> p in venues && p in candles
      modifies venues.Values, ledger, risk
      ensures Portfolio() == AfterTurns(cfg, old(Portfolio()), order, candles)
    {
      for k := 0 to |order|
        invariant AfterTurns(cfg, old(Portfolio()), order, candles) == AfterTurns(cfg, Portfolio(), order[k..], candles)
      {
        assert order[k..][0] == order[k] && order[k..][1..] == order[k + 1..];
        TakeTurn(order[k], candles[order[k]]);
      }
    }

    /** One joined step. */
    method ProcessStep(i: Input)
      requires Valid() && cfg.risk.costRate != -1.0 && ValidInput(i, venues.Keys)
      modifies this, venues.Values, ledger, risk
      ensures Portfolio() == Processed(cfg, old(Portfolio()), i)
    {
      FillStep(i);
      DrainLedger();
      CheckRisk(i.step.ts);
      Act(i);
    }

    /** The step's prices and fills. */
    method FillStep(i: Input)
      requires Valid() && ValidInput(i, venues.Keys)
      modifies this, venues.Values, ledger, risk
      ensures Portfolio() == AfterFills(cfg, old(Portfolio()), i)
    {
      Track(i.step.candles);
      RunVenues(i.order, i.step.candles);
    }

    /** Hand the new journal entries to the recorder. */
    method DrainLedger()
      modifies ledger
      ensures Portfolio() == old(Portfolio())
    {
      var _ := ledger.DrainEntries();
    }

    /** Advance the last known prices. */
    method Track(candles: map<Pair, Candle>)
      modifies this`lastCloses
      ensures Portfolio() == old(Portfolio()).(closes := old(lastCloses) + Closes(candles))
    {
      lastCloses := lastCloses + Closes(candles);
    }

    method RiskStateNow(ts: int) returns (st: Risk.RiskState)
      ensures st == RiskStateAt(cfg, Portfolio(), ts)
    {
      st := Risk.RiskState((ts + cfg.seconds) / E.DAY, ledger.cash,
                           map p | p in venues :: PositionOf(ledger.Books(), p), lastCloses);
    }

    method CheckRisk(ts: int)
      requires Valid()
      modifies risk
      ensures Portfolio() == old(Portfolio()).(risk := Checked(cfg, old(Portfolio()), ts))
    {
      var st := RiskStateNow(ts);
      var _ := risk.CandleStep(st);
    }

    /** Operator control, then the strategy's approved intents. */
    method Act(i: Input)
      requires Valid() && cfg.risk.costRate != -1.0
      modifies this, venues.Values
      ensures Portfolio() == Acted(cfg, old(Portfolio()), i)
    {
      if risk.halted {
        return;
      }
      match i.control {
        case Kill => killed := true;
        case Pause =>
        case Proceed =>
          AskStrategy(i.intents, i.step.ts);
      }
    }

    method AskStrategy(intents: seq<OrderIntent>, ts: int)
      requires Valid() && cfg.risk.costRate != -1.0
      modifies venues.Values
      ensures Portfolio() == Submitted(cfg, old(Portfolio()), intents, ts)
    {
      assert VenueStates().Keys == venues.Keys;
      var st := RiskStateNow(ts);
      var batch := risk.AssessIntents(InUniverse(intents, venues.Keys), st);
      SubmitApproved(batch, ts);
    }

    /** Send every approved intent to the venue of its pair. */
    method SubmitApproved(batch: seq<Risk.Assessment>, ts: int)
      requires Valid()
      modifies venues.Values
      ensures VenueStates() == RoutedAll(old(VenueStates()), batch, ts)
    {
      for k := 0 to |batch|
        invariant RoutedAll(old(VenueStates()), batch, ts) == RoutedAll(VenueStates(), batch[k..], ts)
      {
        assert batch[k..][0] == batch[k] && batch[k..][1..] == batch[k + 1..];
        Route(batch[k], ts);
      }
    }

    method Route(a: Risk.Assessment, ts: int)
      requires Valid()
      modifies venues.Values
      ensures VenueStates() == Routed(old(VenueStates()), a, ts)
    {
      var p := a.intent.pair;
      if a.decision.Refused? || p !in venues {
        return;
      }
      Send(venues[p], a, ts);
      assert VenueStates() == old(VenueStates())[p := venues[p].State()];
    }

    static method Send(venue: PaperVenue, a: Risk.Assessment, ts: int)
      modifies venue
      ensures venue.State()
           == Submit(old(venue.State()), E.OrderFrom(a, ts, old(venue.nextId))).(nextId := old(venue.nextId) + 1)
    {
      venue.SubmitOrder(E.OrderFrom(a, ts, venue.nextId));
      venue.nextId := venue.nextId + 1;
    }
  }
}
