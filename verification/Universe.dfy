/** The automatic universe (data/universe.py): screener pages are parsed, joined with the SEC identities, de-duplicated
    by issuer and cut off at a target, and no quote is lost or counted twice on the way. */
module Universe {
  import opened Common
  import opened Sorting

  // ---------- Quotes and rows ----------

  /** A quote as its fields are read: normalized text, and numbers only when finite. */
  datatype Quote =
    | NotAnObject
    | Quote(
        ticker: string, kind: string, exchange: string,
        cap: Option<real>, price: Option<real>, volume: Option<real>, currency: Option<string>)

  datatype Policy = Policy(
    target: nat, minimum: nat, pageSize: nat, maxScreened: nat,
    minCap: real, minPrice: real, minVolume: real,
    secExchanges: set<string>, marketCodes: set<string>)

  /** What the policy's constructor enforces. */
  predicate ValidPolicy(p: Policy) {
    100 <= p.minimum <= p.target <= 1000 && 1 <= p.pageSize <= 250 && p.target <= p.maxScreened <= 5000
  }

  datatype Row = Row(
    ticker: string, exchange: string, cap: real, price: real, volume: real, currency: string, hash: string)

  datatype Reason =
    | InvalidRow | NonEquity | ExchangeOutsidePolicy | IncompleteMetrics | BelowThreshold | Illiquid
    | DuplicateRow | MissingIdentity | SecExchangeOutsidePolicy | DuplicateIssuer | BelowCutoff

  datatype Exclusion = Exclusion(ticker: string, reason: Reason)

  const UNKNOWN := "UNKNOWN"

  predicate TickerStart(c: char) {
    'A' <= c <= 'Z' || '0' <= c <= '9'
  }

  predicate ValidTicker(s: string) {
    && 1 <= |s| <= 20 && TickerStart(s[0])
    && forall i :: 1 <= i < |s| ==> TickerStart(s[i]) || s[i] == '.' || s[i] == '-'
  }

  function SafeTicker(q: Quote): string {
    if q.NotAnObject? || !ValidTicker(q.ticker) then UNKNOWN else q.ticker
  }

  /** Why a quote is not screened, if it is not. */
  function Screened(q: Quote, p: Policy): (r: Option<Reason>)
    ensures r.None? ==>
      q.Quote? && q.cap.Some? && q.price.Some? && q.volume.Some? && q.currency.Some? && SafeTicker(q) == q.ticker
  {
    if q.NotAnObject? || SafeTicker(q) == UNKNOWN then Some(InvalidRow)
    else if q.kind != "EQUITY" then Some(NonEquity)
    else if q.exchange !in p.marketCodes then Some(ExchangeOutsidePolicy)
    else if q.cap.None? || q.price.None? || q.volume.None? || q.currency.None? then Some(IncompleteMetrics)
    else if q.cap.value < p.minCap || q.price.value < p.minPrice then Some(BelowThreshold)
    else if q.volume.value < p.minVolume then Some(Illiquid)
    else None
  }

  /** What the policy asks of a quote. */
  predicate Qualifies(q: Quote, p: Policy) {
    && q.Quote? && ValidTicker(q.ticker) && q.ticker != UNKNOWN && q.kind == "EQUITY" && q.exchange in p.marketCodes
    && q.cap.Some? && q.cap.value >= p.minCap && q.price.Some? && q.price.value >= p.minPrice
    && q.volume.Some? && q.volume.value >= p.minVolume && q.currency.Some?
  }

  /** A quote passes exactly when it qualifies, and is illiquid exactly when a larger volume is all it lacks. */
  lemma ScreenedIff(q: Quote, p: Policy)
    ensures Screened(q, p).None? <==> Qualifies(q, p)
    ensures Screened(q, p) == Some(Illiquid) <==>
      q.Quote? && q.volume.Some? && q.volume.value < p.minVolume && Qualifies(q.(volume := Some(p.minVolume)), p)
  {
  }

  function RowOf(q: Quote, p: Policy, hash: string): Row
    requires Screened(q, p).None?
  {
    Row(q.ticker, q.exchange, q.cap.value, q.price.value, q.volume.value, q.currency.value, hash)
  }

  function PageRows(quotes: seq<Quote>, p: Policy, hash: string): seq<Row> {
    if quotes == [] then []
    else
      var n := |quotes| - 1;
      PageRows(quotes[..n], p, hash) + (if Screened(quotes[n], p).None? then [RowOf(quotes[n], p, hash)] else [])
  }

  function PageExclusions(quotes: seq<Quote>, p: Policy): seq<Exclusion> {
    if quotes == [] then []
    else
      var n, reason := |quotes| - 1, Screened(quotes[|quotes| - 1], p);
      PageExclusions(quotes[..n], p) + (if reason.Some? then [Exclusion(SafeTicker(quotes[n]), reason.value)] else [])
  }

  predicate RowFrom(q: Quote, p: Policy, hash: string, r: Row) {
    && Qualifies(q, p) && r.ticker == q.ticker && r.exchange == q.exchange && r.hash == hash
    && Some(r.cap) == q.cap && Some(r.price) == q.price && Some(r.volume) == q.volume && Some(r.currency) == q.currency
  }

  /** The rows of a page are its qualifying quotes, under the page's hash. */
  lemma {:induction false} PageRowsAreExact(quotes: seq<Quote>, p: Policy, hash: string, r: Row)
    ensures r in PageRows(quotes, p, hash) <==> exists q :: q in quotes && RowFrom(q, p, hash, r)
  {
    if quotes != [] {
      var front, last := quotes[..|quotes| - 1], quotes[|quotes| - 1];
      LastTaken(quotes);
      PageRowsAreExact(front, p, hash, r);
      ScreenedIff(last, p);
      if Qualifies(last, p) { assert RowFrom(last, p, hash, r) <==> r == RowOf(last, p, hash); }
      assert last in quotes;
      if q :| q in quotes && RowFrom(q, p, hash, r) { assert q in front || q == last; }
    }
  }

  /** What is amiss with a quote, fault by fault. */
  predicate Faulty(q: Quote, p: Policy, r: Reason) {
    if q.NotAnObject? then r == InvalidRow
    else
      match r {
        case InvalidRow => !ValidTicker(q.ticker) || q.ticker == UNKNOWN
        case NonEquity => q.kind != "EQUITY"
        case ExchangeOutsidePolicy => q.exchange !in p.marketCodes
        case IncompleteMetrics => !(q.cap.Some? && q.price.Some? && q.volume.Some? && q.currency.Some?)
        case BelowThreshold => (q.cap.Some? && q.cap.value < p.minCap) || (q.price.Some? && q.price.value < p.minPrice)
        case Illiquid => q.volume.Some? && q.volume.value < p.minVolume
        case _ => false
      }
  }

  const FAULTS := [InvalidRow, NonEquity, ExchangeOutsidePolicy, IncompleteMetrics, BelowThreshold, Illiquid]

  /** The k-th fault is the first in the order above. */
  predicate FirstFault(q: Quote, p: Policy, k: nat) {
    k < |FAULTS| && Faulty(q, p, FAULTS[k]) && forall j :: 0 <= j < k ==> !Faulty(q, p, FAULTS[j])
  }

  lemma FirstFaultIsNamed(q: Quote, p: Policy, k: nat)
    requires k < |FAULTS|
    ensures Screened(q, p) == Some(FAULTS[k]) <==> FirstFault(q, p, k)
  {
    assert Faulty(q, p, FAULTS[0]) <==> q.NotAnObject? || !ValidTicker(q.ticker) || q.ticker == UNKNOWN;
    if FirstFault(q, p, k) {
      forall j | 0 <= j < k ensures !Faulty(q, p, FAULTS[j]) { }
      assert k > 1 ==> !Faulty(q, p, FAULTS[1]);
      assert k > 2 ==> !Faulty(q, p, FAULTS[2]);
      assert k > 3 ==> !Faulty(q, p, FAULTS[3]);
      assert k > 4 ==> !Faulty(q, p, FAULTS[4]);
    }
  }

  /** A page's exclusions name the first fault of each quote that does not qualify. */
  lemma {:induction false} PageExclusionsAreExact(quotes: seq<Quote>, p: Policy, ticker: string, k: nat)
    requires k < |FAULTS|
    ensures Exclusion(ticker, FAULTS[k]) in PageExclusions(quotes, p) <==>
      exists q :: q in quotes && SafeTicker(q) == ticker && FirstFault(q, p, k)
  {
    if quotes != [] {
      var front, last := quotes[..|quotes| - 1], quotes[|quotes| - 1];
      LastTaken(quotes);
      PageExclusionsAreExact(front, p, ticker, k);
      FirstFaultIsNamed(last, p, k);
      assert last in quotes;
      if q :| q in quotes && SafeTicker(q) == ticker && FirstFault(q, p, k) { assert q in front || q == last; }
    }
  }

  /** `data` is the length of a "data" list, which counts as the page's rows when there is one. */
  datatype Page = Page(quotes: Option<seq<Quote>>, total: Option<nat>, hash: string, data: Option<nat>)

  function RowCount(page: Page): nat {
    if page.data.Some? then page.data.value else if page.quotes.Some? then |page.quotes.value| else 0
  }

  datatype DiscoveryError =
    | NoQuotesList | BadTotal | ConflictingTotals
    | BadMember | BadCoverage | BadLineage | Insufficient(manifest: Manifest)

  datatype Parsed = Parsed(rows: seq<Row>, exclusions: seq<Exclusion>, total: nat)

  predicate Readable(page: Page) {
    page.quotes.Some? && page.total.Some?
  }

  method ParseMarketPage(page: Page, p: Policy) returns (r: Result<Parsed, DiscoveryError>)
    ensures r.Ok? <==> Readable(page)
    ensures r.Err? ==> r.error == if page.quotes.None? then NoQuotesList else BadTotal
    ensures r.Ok? ==> r.value.rows == PageRows(page.quotes.value, p, page.hash)
    ensures r.Ok? ==> r.value.exclusions == PageExclusions(page.quotes.value, p) && r.value.total == page.total.value
  {
    if page.quotes.None? { return Err(NoQuotesList); }
    if page.total.None? { return Err(BadTotal); }
    var quotes := page.quotes.value;
    var rows: seq<Row>, exclusions: seq<Exclusion> := [], [];
    for i := 0 to |quotes|
      invariant rows == PageRows(quotes[..i], p, page.hash) && exclusions == PageExclusions(quotes[..i], p)
    {
      assert quotes[..i + 1][..i] == quotes[..i];
      var reason := Screened(quotes[i], p);
      if reason.Some? {
        exclusions := exclusions + [Exclusion(SafeTicker(quotes[i]), reason.value)];
      } else {
        rows := rows + [RowOf(quotes[i], p, page.hash)];
      }
    }
    assert quotes[..|quotes|] == quotes;
    return Ok(Parsed(rows, exclusions, page.total.value));
  }

  // ---------- Tickers, with multiplicity ----------

  function QuoteTickers(s: seq<Quote>): multiset<string> {
    multiset(Mapped(SafeTicker, s))
  }

  function RowTicker(r: Row): string {
    r.ticker
  }

  function RowTickers(s: seq<Row>): multiset<string> {
    multiset(Mapped(RowTicker, s))
  }

  function ExcludedTicker(e: Exclusion): string {
    e.ticker
  }

  function ExcludedTickers(s: seq<Exclusion>): multiset<string> {
    multiset(Mapped(ExcludedTicker, s))
  }

  /** One more ticker on one side of the account, and on one of the two other sides. */
  lemma Balanced(a: multiset<string>, b: multiset<string>, c: multiset<string>, t: string)
    requires a == b + c
    ensures a + multiset{t} == (b + multiset{t}) + c
    ensures a + multiset{t} == b + (c + multiset{t})
  {
  }

  lemma {:induction false} PageConserves(quotes: seq<Quote>, p: Policy, hash: string)
    ensures QuoteTickers(quotes) == RowTickers(PageRows(quotes, p, hash)) + ExcludedTickers(PageExclusions(quotes, p))
  {
    if quotes != [] {
      var front, q := quotes[..|quotes| - 1], quotes[|quotes| - 1];
      PageConserves(front, p, hash);
      assert quotes == front + [q];
      MappedSnoc(SafeTicker, front, q);
      Balanced(QuoteTickers(front), RowTickers(PageRows(front, p, hash)), ExcludedTickers(PageExclusions(front, p)),
               SafeTicker(q));
      if Screened(q, p).None? {
        MappedSnoc(RowTicker, PageRows(front, p, hash), RowOf(q, p, hash));
        assert PageExclusions(quotes, p) == PageExclusions(front, p);
      } else {
        MappedSnoc(ExcludedTicker, PageExclusions(front, p), Exclusion(SafeTicker(q), Screened(q, p).value));
        assert PageRows(quotes, p, hash) == PageRows(front, p, hash);
      }
    }
  }

  // ---------- One row for each ticker ----------

  /** `(market_cap, source_content_hash)` compared as a pair */
  predicate Outranks(a: Row, b: Row) {
    a.cap > b.cap || (a.cap == b.cap && CompareField(Text(a.hash), Text(b.hash)) > 0)
  }

  function Best(rows: seq<Row>, ticker: string): Option<Row> {
    if rows == [] then None
    else
      var before, last := Best(rows[..|rows| - 1], ticker), rows[|rows| - 1];
      if last.ticker != ticker then before
      else if before.Some? && !Outranks(last, before.value) then before
      else Some(last)
  }

  function RepeatExclusions(rows: seq<Row>): seq<Exclusion> {
    if rows == [] then []
    else
      var front, last := rows[..|rows| - 1], rows[|rows| - 1];
      RepeatExclusions(front) + (if Best(front, last.ticker).Some? then [Exclusion(last.ticker, DuplicateRow)] else [])
  }

  function TickersSeen(rows: seq<Row>): seq<string> {
    Distinct(Mapped(RowTicker, rows))
  }

  lemma {:induction false} BestExists(rows: seq<Row>, ticker: string)
    ensures Best(rows, ticker).Some? <==> exists r :: r in rows && r.ticker == ticker
    ensures Best(rows, ticker).Some? ==> Best(rows, ticker).value in rows && Best(rows, ticker).value.ticker == ticker
  {
    if rows != [] {
      BestExists(rows[..|rows| - 1], ticker);
      assert rows == rows[..|rows| - 1] + [rows[|rows| - 1]];
    }
  }

  /** The row kept for a ticker is one that no other outranks. */
  lemma {:induction false} BestIsLargest(rows: seq<Row>, ticker: string, r: Row)
    requires r in rows && r.ticker == ticker
    ensures Best(rows, ticker).Some? && !Outranks(r, Best(rows, ticker).value)
    ensures var best := Best(rows, ticker).value;
      best.cap > r.cap || (best.cap == r.cap && TextOrder(r.hash, best.hash))
  {
    if Best(rows, ticker).Some? { FieldIsTextOrder(r.hash, Best(rows, ticker).value.hash); }
    BestExists(rows, ticker);
    var front, last := rows[..|rows| - 1], rows[|rows| - 1];
    FieldOrder(Text(last.hash), Text(last.hash));
    if r in front {
      BestIsLargest(front, ticker, r);
      var before := Best(front, ticker).value;
      if last.ticker == ticker && Outranks(last, before) && Outranks(r, last) { OutranksChains(r, last, before); }
    }
  }

  lemma OutranksChains(a: Row, b: Row, c: Row)
    requires Outranks(a, b) && Outranks(b, c)
    ensures Outranks(a, c)
  {
    FieldOrder(Text(a.hash), Text(b.hash));
    FieldOrder(Text(b.hash), Text(c.hash));
    FieldOrder(Text(a.hash), Text(c.hash));
    if CompareField(Text(c.hash), Text(b.hash)) <= 0 && CompareField(Text(b.hash), Text(a.hash)) <= 0 {
      FieldChain(Text(c.hash), Text(b.hash), Text(a.hash));
    }
  }

  lemma SeenTicker(rows: seq<Row>, ticker: string)
    ensures ticker in TickersSeen(rows) <==> Best(rows, ticker).Some?
  {
    BestExists(rows, ticker);
    var all := Mapped(RowTicker, rows);
    assert ticker in Elements(TickersSeen(rows)) <==> ticker in Elements(all);
    if ticker in all {
      var i :| 0 <= i < |rows| && all[i] == ticker;
      assert rows[i] in rows;
    }
    if r :| r in rows && r.ticker == ticker {
      var i :| 0 <= i < |rows| && rows[i] == r;
      assert all[i] == ticker;
    }
  }

  lemma SeenSnoc(front: seq<Row>, last: Row)
    ensures TickersSeen(front + [last]) ==
      if Best(front, last.ticker).Some? then TickersSeen(front) else TickersSeen(front) + [last.ticker]
  {
    SeenTicker(front, last.ticker);
    assert Mapped(RowTicker, front + [last]) == Mapped(RowTicker, front) + [last.ticker];
    assert Mapped(RowTicker, front + [last])[..|front|] == Mapped(RowTicker, front);
  }

  lemma {:induction false} RepeatsConserve(rows: seq<Row>)
    ensures RowTickers(rows) == multiset(TickersSeen(rows)) + ExcludedTickers(RepeatExclusions(rows))
  {
    if rows != [] {
      var front, last := rows[..|rows| - 1], rows[|rows| - 1];
      RepeatsConserve(front);
      assert rows == front + [last];
      MappedSnoc(RowTicker, front, last);
      SeenSnoc(front, last);
      Balanced(RowTickers(front), multiset(TickersSeen(front)), ExcludedTickers(RepeatExclusions(front)), last.ticker);
      if Best(front, last.ticker).Some? {
        MappedSnoc(ExcludedTicker, RepeatExclusions(front), Exclusion(last.ticker, DuplicateRow));
      } else {
        assert RepeatExclusions(rows) == RepeatExclusions(front);
      }
    }
  }

  // ---------- The join with the SEC identities ----------

  /** `exchange` is compared without regard to case and stands here in folded form. */
  datatype Identity = Identity(ticker: string, cik: string, company: string, exchange: string)

  type Identities = map<string, Identity>

  predicate OwnTickers(ids: Identities) {
    forall t :: t in ids ==> ids[t].ticker == t
  }

  datatype Listed = Listed(identity: Identity, row: Row)

  function ListedTicker(x: Listed): string {
    x.identity.ticker
  }

  function ListedTickers(s: seq<Listed>): multiset<string> {
    multiset(Mapped(ListedTicker, s))
  }

  predicate Admitted(ids: Identities, p: Policy, ticker: string) {
    ticker in ids && ids[ticker].exchange in p.secExchanges
  }

  function JoinReason(ids: Identities, ticker: string): Reason {
    if ticker in ids then SecExchangeOutsidePolicy else MissingIdentity
  }

  predicate AllSeen(rows: seq<Row>, tickers: seq<string>) {
    forall t :: t in tickers ==> Best(rows, t).Some?
  }

  function Joined(rows: seq<Row>, ids: Identities, p: Policy, tickers: seq<string>): seq<Listed>
    requires AllSeen(rows, tickers)
  {
    if tickers == [] then []
    else
      var n, t := |tickers| - 1, tickers[|tickers| - 1];
      Joined(rows, ids, p, tickers[..n]) + (if Admitted(ids, p, t) then [Listed(ids[t], Best(rows, t).value)] else [])
  }

  function JoinExclusions(ids: Identities, p: Policy, tickers: seq<string>): seq<Exclusion> {
    if tickers == [] then []
    else
      var n, t := |tickers| - 1, tickers[|tickers| - 1];
      JoinExclusions(ids, p, tickers[..n]) + (if Admitted(ids, p, t) then [] else [Exclusion(t, JoinReason(ids, t))])
  }

  lemma {:induction false} JoinConserves(rows: seq<Row>, ids: Identities, p: Policy, tickers: seq<string>)
    requires AllSeen(rows, tickers) && OwnTickers(ids)
    ensures multiset(tickers) ==
      ListedTickers(Joined(rows, ids, p, tickers)) + ExcludedTickers(JoinExclusions(ids, p, tickers))
  {
    if tickers != [] {
      var front, t := tickers[..|tickers| - 1], tickers[|tickers| - 1];
      JoinConserves(rows, ids, p, front);
      assert tickers == front + [t];
      Balanced(multiset(front), ListedTickers(Joined(rows, ids, p, front)),
               ExcludedTickers(JoinExclusions(ids, p, front)), t);
      if Admitted(ids, p, t) {
        MappedSnoc(ListedTicker, Joined(rows, ids, p, front), Listed(ids[t], Best(rows, t).value));
        assert JoinExclusions(ids, p, tickers) == JoinExclusions(ids, p, front);
      } else {
        MappedSnoc(ExcludedTicker, JoinExclusions(ids, p, front), Exclusion(t, JoinReason(ids, t)));
        assert Joined(rows, ids, p, tickers) == Joined(rows, ids, p, front);
      }
    }
  }

  /** A share class that may enter the universe: the best row of its ticker, with a verified identity. */
  predicate Candidate(rows: seq<Row>, ids: Identities, p: Policy, x: Listed) {
    var t := x.identity.ticker;
    Admitted(ids, p, t) && ids[t] == x.identity && Best(rows, t) == Some(x.row)
  }

  lemma {:induction false} JoinedAreCandidates(rows: seq<Row>, ids: Identities, p: Policy, tickers: seq<string>)
    requires AllSeen(rows, tickers) && OwnTickers(ids) && Unique(tickers)
    ensures forall x :: x in Joined(rows, ids, p, tickers) <==>
      x.identity.ticker in tickers && Candidate(rows, ids, p, x)
    ensures Unique(Joined(rows, ids, p, tickers))
  {
    if tickers != [] {
      var front, t := tickers[..|tickers| - 1], tickers[|tickers| - 1];
      UniquePrefix(tickers, |front|);
      JoinedAreCandidates(rows, ids, p, front);
      assert tickers == front + [t];
      if Admitted(ids, p, t) {
        UniqueAppend(Joined(rows, ids, p, front), Listed(ids[t], Best(rows, t).value));
      } else {
        assert Joined(rows, ids, p, tickers) == Joined(rows, ids, p, front);
      }
    }
  }

  // ---------- One share class for each issuer ----------

  /** Larger market cap first, then the smaller ticker. */
  predicate RankedBefore(x: Listed, y: Listed) {
    x.row.cap > y.row.cap
    || (x.row.cap == y.row.cap && CompareField(Text(x.identity.ticker), Text(y.identity.ticker)) <= 0)
  }

  lemma RankingIsLinear()
    ensures Linear(RankedBefore)
  {
    forall x, y ensures Connected(RankedBefore, x, y) { FieldOrder(Text(x.identity.ticker), Text(y.identity.ticker)); }
    forall x, y, z ensures Chains(RankedBefore, x, y, z) {
      if RankedBefore(x, y) && RankedBefore(y, z) && x.row.cap == y.row.cap == z.row.cap {
        FieldChain(Text(x.identity.ticker), Text(y.identity.ticker), Text(z.identity.ticker));
      }
    }
  }

  /** The same without sort keys. */
  ghost predicate Precedes(x: Listed, y: Listed) {
    x.row.cap > y.row.cap || (x.row.cap == y.row.cap && TextOrder(x.identity.ticker, y.identity.ticker))
  }

  lemma RankedReads(x: Listed, y: Listed)
    ensures RankedBefore(x, y) <==> Precedes(x, y)
  {
    FieldIsTextOrder(x.identity.ticker, y.identity.ticker);
  }

  function Ciks(s: seq<Listed>): set<string> {
    set x | x in s :: x.identity.cik
  }

  function Dedupe(s: seq<Listed>): seq<Listed> {
    if s == [] then []
    else
      var kept, x := Dedupe(s[..|s| - 1]), s[|s| - 1];
      if x.identity.cik in Ciks(kept) then kept else kept + [x]
  }

  function IssuerExclusions(s: seq<Listed>): seq<Exclusion> {
    if s == [] then []
    else
      var front, x := s[..|s| - 1], s[|s| - 1];
      IssuerExclusions(front)
      + (if x.identity.cik in Ciks(Dedupe(front)) then [Exclusion(x.identity.ticker, DuplicateIssuer)] else [])
  }

  lemma {:induction false} DedupeConserves(s: seq<Listed>)
    ensures ListedTickers(s) == ListedTickers(Dedupe(s)) + ExcludedTickers(IssuerExclusions(s))
  {
    if s != [] {
      var front, x := s[..|s| - 1], s[|s| - 1];
      DedupeConserves(front);
      assert s == front + [x];
      MappedSnoc(ListedTicker, front, x);
      Balanced(ListedTickers(front), ListedTickers(Dedupe(front)), ExcludedTickers(IssuerExclusions(front)),
               ListedTicker(x));
      if x.identity.cik in Ciks(Dedupe(front)) {
        MappedSnoc(ExcludedTicker, IssuerExclusions(front), Exclusion(x.identity.ticker, DuplicateIssuer));
      } else {
        MappedSnoc(ListedTicker, Dedupe(front), x);
        assert IssuerExclusions(s) == IssuerExclusions(front);
      }
    }
  }

  function CikOf(x: Listed): string {
    x.identity.cik
  }

  lemma NewIssuer(kept: seq<Listed>, x: Listed)
    requires Unique(Mapped(CikOf, kept)) && x.identity.cik !in Ciks(kept)
    ensures Unique(Mapped(CikOf, kept + [x])) && Ciks(kept + [x]) == Ciks(kept) + {x.identity.cik}
  {
    assert Mapped(CikOf, kept + [x]) == Mapped(CikOf, kept) + [x.identity.cik];
    forall i | 0 <= i < |kept| ensures Mapped(CikOf, kept)[i] != x.identity.cik { assert kept[i] in kept; }
    UniqueAppend(Mapped(CikOf, kept), x.identity.cik);
  }

  lemma {:induction false} DedupeKeepsIssuers(s: seq<Listed>)
    ensures Ciks(Dedupe(s)) == Ciks(s)
    ensures Unique(Mapped(CikOf, Dedupe(s)))
    ensures forall x :: x in Dedupe(s) ==> x in s
  {
    if s != [] {
      var front, x := s[..|s| - 1], s[|s| - 1];
      DedupeKeepsIssuers(front);
      assert s == front + [x];
      assert Ciks(s) == Ciks(front) + {x.identity.cik};
      if x.identity.cik !in Ciks(Dedupe(front)) { NewIssuer(Dedupe(front), x); }
    }
  }

  predicate BestOfIssuer(s: seq<Listed>, x: Listed) {
    x in s && forall y :: y in s && y.identity.cik == x.identity.cik ==> RankedBefore(x, y)
  }

  /** Of a ranked list exactly the best share class of each issuer is kept, in order. */
  lemma {:induction false} DedupeKeepsBest(s: seq<Listed>)
    requires InOrder(RankedBefore, s) && Unique(s) && Separates(RankedBefore, s)
    ensures forall x :: x in Dedupe(s) <==> BestOfIssuer(s, x)
    ensures InOrder(RankedBefore, Dedupe(s)) && Unique(Dedupe(s))
  {
    if s != [] {
      var front, z := s[..|s| - 1], s[|s| - 1];
      InOrderPrefix(RankedBefore, s, |front|);
      UniquePrefix(s, |front|);
      DedupeKeepsBest(front);
      DedupeKeepsIssuers(front);
      assert s == front + [z];
      LastOfIssuer(s);
      if z.identity.cik !in Ciks(front) {
        InOrderAppend(RankedBefore, Dedupe(front), z);
        UniqueAppend(Dedupe(front), z);
      }
    }
  }

  lemma LastOfIssuer(s: seq<Listed>)
    requires s != [] && InOrder(RankedBefore, s) && Unique(s) && Separates(RankedBefore, s)
    ensures var front, z := s[..|s| - 1], s[|s| - 1];
      && (BestOfIssuer(s, z) <==> z.identity.cik !in Ciks(front))
      && forall x :: x != z ==> (BestOfIssuer(s, x) <==> BestOfIssuer(front, x))
  {
    var front, z := s[..|s| - 1], s[|s| - 1];
    InOrderPrefix(RankedBefore, s, |front|);
    UniquePrefix(s, |front|);
    assert s == front + [z];
    FieldOrder(Text(z.identity.ticker), Text(z.identity.ticker));
    if z.identity.cik in Ciks(front) {
      var y :| y in front && y.identity.cik == z.identity.cik;
      assert Separated(RankedBefore, y, z) && RankedBefore(y, z) && y != z;
    }
  }

  // ---------- The eligible rows ----------

  function SortedTickers(rows: seq<Row>): seq<string> {
    SortBy(ByKey((t: string) => [Text(t)]), TickersSeen(rows))
  }

  lemma SortedTickersAreSeen(rows: seq<Row>)
    ensures AllSeen(rows, SortedTickers(rows)) && Unique(SortedTickers(rows))
    ensures forall t :: Best(rows, t).Some? ==> t in SortedTickers(rows)
    ensures multiset(SortedTickers(rows)) == multiset(TickersSeen(rows))
  {
    SortedUnique(ByKey((t: string) => [Text(t)]), TickersSeen(rows));
    SameMembers(SortedTickers(rows), TickersSeen(rows));
    forall t ensures t in SortedTickers(rows) <==> Best(rows, t).Some? { SeenTicker(rows, t); }
  }

  /** The joined share classes in rank order, before de-duplication by issuer. */
  function Ranked(rows: seq<Row>, ids: Identities, p: Policy): seq<Listed> {
    SortedTickersAreSeen(rows);
    SortBy(RankedBefore, Joined(rows, ids, p, SortedTickers(rows)))
  }

  function Eligible(rows: seq<Row>, ids: Identities, p: Policy): seq<Listed> {
    Dedupe(Ranked(rows, ids, p))
  }

  function EligibleExclusions(rows: seq<Row>, ids: Identities, p: Policy): seq<Exclusion> {
    RepeatExclusions(rows) + JoinExclusions(ids, p, SortedTickers(rows)) + IssuerExclusions(Ranked(rows, ids, p))
  }

  predicate Repeats(rows: seq<Row>, ticker: string) {
    exists i, j :: 0 <= i < j < |rows| && rows[i].ticker == ticker && rows[j].ticker == ticker
  }

  lemma {:induction false} RepeatsAreExact(rows: seq<Row>, e: Exclusion)
    ensures e in RepeatExclusions(rows) <==> e.reason == DuplicateRow && Repeats(rows, e.ticker)
  {
    if rows != [] {
      var front, n := rows[..|rows| - 1], |rows| - 1;
      RepeatsAreExact(front, e);
      BestExists(front, e.ticker);
      if Repeats(rows, e.ticker) {
        var i, j :| 0 <= i < j < |rows| && rows[i].ticker == e.ticker && rows[j].ticker == e.ticker;
        assert front[i] in front;
        if j < n { assert front[i].ticker == e.ticker && front[j].ticker == e.ticker; }
      }
      if Repeats(front, e.ticker) {
        var i, j :| 0 <= i < j < |front| && front[i].ticker == e.ticker && front[j].ticker == e.ticker;
        assert rows[i].ticker == e.ticker && rows[j].ticker == e.ticker;
      }
      if rows[n].ticker == e.ticker && Best(front, e.ticker).Some? {
        var i :| 0 <= i < |front| && front[i].ticker == e.ticker;
        assert rows[i].ticker == e.ticker;
      }
    }
  }

  lemma {:induction false} JoinExclusionsAreExact(ids: Identities, p: Policy, tickers: seq<string>, e: Exclusion)
    ensures e in JoinExclusions(ids, p, tickers) <==> e.ticker in tickers && Unlisted(ids, p, e)
  {
    if tickers != [] {
      var front, t := tickers[..|tickers| - 1], tickers[|tickers| - 1];
      JoinExclusionsAreExact(ids, p, front, e);
      LastTaken(tickers);
      if e.ticker == t { assert Admitted(ids, p, t) ==> !Unlisted(ids, p, e); }
    }
  }

  predicate Unlisted(ids: Identities, p: Policy, e: Exclusion) {
    match e.reason
    case MissingIdentity => e.ticker !in ids
    case SecExchangeOutsidePolicy => e.ticker in ids && ids[e.ticker].exchange !in p.secExchanges
    case _ => false
  }

  predicate PassedOver(s: seq<Listed>, kept: seq<Listed>, ticker: string) {
    exists x :: x in s && x !in kept && x.identity.ticker == ticker
  }

  lemma {:induction false} IssuerExclusionsAreExact(s: seq<Listed>, e: Exclusion)
    requires Unique(s)
    ensures e in IssuerExclusions(s) <==> e.reason == DuplicateIssuer && PassedOver(s, Dedupe(s), e.ticker)
  {
    if s != [] {
      var front, last := s[..|s| - 1], s[|s| - 1];
      LastTaken(s);
      UniquePrefix(s, |front|);
      IssuerExclusionsAreExact(front, e);
      DedupeKeepsIssuers(front);
      assert last !in front;
      if PassedOver(s, Dedupe(s), e.ticker) {
        var x :| x in s && x !in Dedupe(s) && x.identity.ticker == e.ticker;
        assert x in front || x == last;
      }
      if PassedOver(front, Dedupe(front), e.ticker) {
        var x :| x in front && x !in Dedupe(front) && x.identity.ticker == e.ticker;
        assert x in s && x !in Dedupe(s);
      }
      if last.identity.cik in Ciks(Dedupe(front)) { assert last in s && last !in Dedupe(s); }
    }
  }

  /** Why a ticker with a row is left out: it has another row, no identity, an exchange outside the policy, or
      its candidate is not its issuer's best. */
  predicate LeftOut(rows: seq<Row>, ids: Identities, p: Policy, e: Exclusion) {
    match e.reason
    case DuplicateRow => Repeats(rows, e.ticker)
    case DuplicateIssuer => PassedOver(Ranked(rows, ids, p), Eligible(rows, ids, p), e.ticker)
    case _ => Best(rows, e.ticker).Some? && Unlisted(ids, p, e)
  }

  /** Every exclusion's reason holds of its ticker, and whatever holds is recorded. */
  lemma ExclusionsTellWhy(rows: seq<Row>, ids: Identities, p: Policy, e: Exclusion)
    requires OwnTickers(ids)
    ensures e in EligibleExclusions(rows, ids, p) <==> LeftOut(rows, ids, p, e)
  {
    SortedTickersAreSeen(rows);
    RepeatsAreExact(rows, e);
    JoinExclusionsAreExact(ids, p, SortedTickers(rows), e);
    RankedCandidates(rows, ids, p);
    IssuerExclusionsAreExact(Ranked(rows, ids, p), e);
  }

  /** Every row becomes an eligible share class or an exclusion of its ticker. */
  lemma EligibleConserves(rows: seq<Row>, ids: Identities, p: Policy)
    requires OwnTickers(ids)
    ensures RowTickers(rows) ==
      ListedTickers(Eligible(rows, ids, p)) + ExcludedTickers(EligibleExclusions(rows, ids, p))
  {
    var tickers := SortedTickers(rows);
    SortedTickersAreSeen(rows);
    RepeatsConserve(rows);
    JoinConserves(rows, ids, p, tickers);
    MappedPermutation(ListedTicker, Joined(rows, ids, p, tickers), Ranked(rows, ids, p));
    DedupeConserves(Ranked(rows, ids, p));
    ExcludedInThree(RepeatExclusions(rows), JoinExclusions(ids, p, tickers), IssuerExclusions(Ranked(rows, ids, p)));
  }

  lemma RankedCandidates(rows: seq<Row>, ids: Identities, p: Policy)
    requires OwnTickers(ids)
    ensures var s := Ranked(rows, ids, p);
      && InOrder(RankedBefore, s) && Unique(s) && Separates(RankedBefore, s)
      && forall x :: x in s <==> Candidate(rows, ids, p, x)
  {
    var tickers := SortedTickers(rows);
    SortedTickersAreSeen(rows);
    JoinedAreCandidates(rows, ids, p, tickers);
    RankingIsLinear();
    SortByIsInOrder(RankedBefore, Joined(rows, ids, p, tickers));
    SortedUnique(RankedBefore, Joined(rows, ids, p, tickers));
    SameMembers(Ranked(rows, ids, p), Joined(rows, ids, p, tickers));
    forall x, y | x in Ranked(rows, ids, p) && y in Ranked(rows, ids, p) ensures Separated(RankedBefore, x, y) {
      if RankedBefore(x, y) && RankedBefore(y, x) { SameRankSameTicker(x, y); }
    }
  }

  lemma SameRankSameTicker(x: Listed, y: Listed)
    requires RankedBefore(x, y) && RankedBefore(y, x)
    ensures x.identity.ticker == y.identity.ticker
  {
    FieldOrder(Text(x.identity.ticker), Text(y.identity.ticker));
    TextIsInjective(x.identity.ticker, y.identity.ticker);
  }

  /** A share class is eligible exactly when it is a candidate and no share class of the same issuer has a larger market
      cap, or an equal one and a smaller ticker. */
  lemma EligibleIsExact(rows: seq<Row>, ids: Identities, p: Policy, x: Listed)
    requires OwnTickers(ids)
    ensures x in Eligible(rows, ids, p) <==>
      Candidate(rows, ids, p, x)
      && forall y :: Candidate(rows, ids, p, y) && y.identity.cik == x.identity.cik ==> Precedes(x, y)
  {
    RankedCandidates(rows, ids, p);
    DedupeKeepsBest(Ranked(rows, ids, p));
    forall y ensures RankedBefore(x, y) <==> Precedes(x, y) { RankedReads(x, y); }
  }

  lemma EligibleIsOrdered(rows: seq<Row>, ids: Identities, p: Policy)
    requires OwnTickers(ids)
    ensures InOrder(RankedBefore, Eligible(rows, ids, p))
    ensures Unique(Mapped(CikOf, Eligible(rows, ids, p))) && Unique(Mapped(ListedTicker, Eligible(rows, ids, p)))
    ensures forall y :: Candidate(rows, ids, p, y) ==> y.identity.cik in Ciks(Eligible(rows, ids, p))
  {
    RankedCandidates(rows, ids, p);
    DedupeKeepsBest(Ranked(rows, ids, p));
    DedupeKeepsIssuers(Ranked(rows, ids, p));
    TickersAreUnique(rows, ids, p, Eligible(rows, ids, p));
  }

  lemma TickersAreUnique(rows: seq<Row>, ids: Identities, p: Policy, s: seq<Listed>)
    requires Unique(s) && forall x :: x in s ==> Candidate(rows, ids, p, x)
    ensures Unique(Mapped(ListedTicker, s))
  {
    forall i, j | 0 <= i < j < |s| ensures Differ(Mapped(ListedTicker, s), i, j) {
      assert Differ(s, i, j) && s[i] in s && s[j] in s;
    }
  }

  ghost predicate BestTable(rows: seq<Row>, best: map<string, Row>) {
    forall t {:trigger BestAt(rows, best, t)} :: BestAt(rows, best, t)
  }

  predicate BestAt(rows: seq<Row>, best: map<string, Row>, t: string) {
    Best(rows, t) == if t in best then Some(best[t]) else None
  }

  lemma BestTableGrows(rows: seq<Row>, best: map<string, Row>, row: Row)
    requires BestTable(rows, best)
    ensures row.ticker in best <==> Best(rows, row.ticker).Some?
    ensures BestTable(rows + [row],
      if row.ticker in best && !Outranks(row, best[row.ticker]) then best else best[row.ticker := row])
  {
    var best' := if row.ticker in best && !Outranks(row, best[row.ticker]) then best else best[row.ticker := row];
    assert (rows + [row])[..|rows|] == rows;
    forall t ensures BestAt(rows + [row], best', t) { assert BestAt(rows, best, t); }
    assert BestAt(rows, best, row.ticker);
  }

  /** `best_by_ticker`, with its keys in the order they were first inserted. */
  method BestRows(rows: seq<Row>) returns (best: map<string, Row>, keys: seq<string>, exclusions: seq<Exclusion>)
    ensures BestTable(rows, best) && keys == TickersSeen(rows) && exclusions == RepeatExclusions(rows)
  {
    best, keys, exclusions := map[], [], [];
    for i := 0 to |rows|
      invariant BestTable(rows[..i], best)
      invariant keys == TickersSeen(rows[..i]) && exclusions == RepeatExclusions(rows[..i])
    {
      var row := rows[i];
      assert rows[..i + 1] == rows[..i] + [row] && rows[..i + 1][..i] == rows[..i];
      SeenSnoc(rows[..i], row);
      BestTableGrows(rows[..i], best, row);
      if row.ticker in best {
        exclusions := exclusions + [Exclusion(row.ticker, DuplicateRow)];
        if !Outranks(row, best[row.ticker]) { continue; }
      } else {
        keys := keys + [row.ticker];
      }
      best := best[row.ticker := row];
    }
    assert rows[..|rows|] == rows;
  }

  method JoinRows(rows: seq<Row>, best: map<string, Row>, ids: Identities, p: Policy, tickers: seq<string>)
    returns (eligible: seq<Listed>, exclusions: seq<Exclusion>)
    requires AllSeen(rows, tickers) && BestTable(rows, best)
    ensures eligible == Joined(rows, ids, p, tickers) && exclusions == JoinExclusions(ids, p, tickers)
  {
    eligible, exclusions := [], [];
    for i := 0 to |tickers|
      invariant eligible == Joined(rows, ids, p, tickers[..i]) && exclusions == JoinExclusions(ids, p, tickers[..i])
    {
      assert tickers[..i + 1][..i] == tickers[..i];
      var t := tickers[i];
      if t !in ids {
        exclusions := exclusions + [Exclusion(t, MissingIdentity)];
      } else if ids[t].exchange !in p.secExchanges {
        exclusions := exclusions + [Exclusion(t, SecExchangeOutsidePolicy)];
      } else {
        assert BestAt(rows, best, t);
        eligible := eligible + [Listed(ids[t], best[t])];
      }
    }
    assert tickers[..|tickers|] == tickers;
  }

  method KeepOnePerIssuer(ranked: seq<Listed>) returns (kept: seq<Listed>, exclusions: seq<Exclusion>)
    ensures kept == Dedupe(ranked) && exclusions == IssuerExclusions(ranked)
  {
    kept, exclusions := [], [];
    var keptByCik: map<string, string> := map[];
    for i := 0 to |ranked|
      invariant kept == Dedupe(ranked[..i]) && exclusions == IssuerExclusions(ranked[..i])
      invariant keptByCik.Keys == Ciks(kept)
    {
      assert ranked[..i + 1][..i] == ranked[..i];
      var x := ranked[i];
      if x.identity.cik in keptByCik {
        exclusions := exclusions + [Exclusion(x.identity.ticker, DuplicateIssuer)];
      } else {
        assert Ciks(kept + [x]) == Ciks(kept) + {x.identity.cik};
        keptByCik := keptByCik[x.identity.cik := x.identity.ticker];
        kept := kept + [x];
      }
    }
    assert ranked[..|ranked|] == ranked;
  }

  method EligibleRows(rows: seq<Row>, ids: Identities, p: Policy)
    returns (kept: seq<Listed>, exclusions: seq<Exclusion>)
    ensures kept == Eligible(rows, ids, p) && exclusions == EligibleExclusions(rows, ids, p)
  {
    SortedTickersAreSeen(rows);
    var best, keys, repeats := BestRows(rows);
    var tickers := SortBy(ByKey((t: string) => [Text(t)]), keys);
    var joined, missing := JoinRows(rows, best, ids, p, tickers);
    var issuers: seq<Exclusion>;
    kept, issuers := KeepOnePerIssuer(SortBy(RankedBefore, joined));
    exclusions := repeats + missing + issuers;
  }

  // ---------- Discovery ----------

  datatype Manifest = Manifest(
    members: seq<Listed>, exclusions: seq<Exclusion>, sources: seq<Page>,
    reportedTotal: nat, uniqueCount: nat, fetchedCount: nat)

  function QuotesIn(page: Page): seq<Quote> {
    if page.quotes.Some? then page.quotes.value else []
  }

  function QuotesOf(pages: seq<Page>): seq<Quote> {
    if pages == [] then [] else QuotesOf(pages[..|pages| - 1]) + QuotesIn(pages[|pages| - 1])
  }

  function RowsIn(page: Page, p: Policy): seq<Row> {
    PageRows(QuotesIn(page), p, page.hash)
  }

  function RowsOf(pages: seq<Page>, p: Policy): seq<Row> {
    if pages == [] then [] else RowsOf(pages[..|pages| - 1], p) + RowsIn(pages[|pages| - 1], p)
  }

  function ExclusionsOf(pages: seq<Page>, p: Policy): seq<Exclusion> {
    if pages == [] then []
    else ExclusionsOf(pages[..|pages| - 1], p) + PageExclusions(QuotesIn(pages[|pages| - 1]), p)
  }

  function FetchedRows(pages: seq<Page>): nat {
    if pages == [] then 0 else FetchedRows(pages[..|pages| - 1]) + RowCount(pages[|pages| - 1])
  }

  lemma {:induction false} PagesConserve(pages: seq<Page>, p: Policy)
    ensures QuoteTickers(QuotesOf(pages)) == RowTickers(RowsOf(pages, p)) + ExcludedTickers(ExclusionsOf(pages, p))
  {
    if pages != [] {
      var front, page := pages[..|pages| - 1], pages[|pages| - 1];
      PagesConserve(front, p);
      PageConserves(QuotesIn(page), p, page.hash);
      MappedAppend(SafeTicker, QuotesOf(front), QuotesIn(page));
      MappedAppend(RowTicker, RowsOf(front, p), RowsIn(page, p));
      MappedAppend(ExcludedTicker, ExclusionsOf(front, p), PageExclusions(QuotesIn(page), p));
    }
  }

  /** When no page carries a "data" list the retained row counts count the quotes. */
  lemma {:induction false} RowCountsAgree(pages: seq<Page>)
    requires forall i :: 0 <= i < |pages| ==> pages[i].data.None?
    ensures FetchedRows(pages) == |QuotesOf(pages)|
  {
    if pages != [] { RowCountsAgree(pages[..|pages| - 1]); }
  }

  lemma {:induction false} PageRowsCarryHash(quotes: seq<Quote>, p: Policy, hash: string)
    ensures forall r :: r in PageRows(quotes, p, hash) ==> r.hash == hash
  {
    if quotes != [] { PageRowsCarryHash(quotes[..|quotes| - 1], p, hash); }
  }

  lemma {:induction false} RowsCarryLineage(pages: seq<Page>, p: Policy, r: Row)
    requires r in RowsOf(pages, p)
    ensures exists i :: 0 <= i < |pages| && pages[i].hash == r.hash
  {
    var front, page := pages[..|pages| - 1], pages[|pages| - 1];
    if r in RowsOf(front, p) {
      RowsCarryLineage(front, p, r);
      var i :| 0 <= i < |front| && front[i].hash == r.hash;
      assert pages[i].hash == r.hash;
    } else {
      PageRowsCarryHash(QuotesIn(page), p, page.hash);
    }
  }

  function CutOff(x: Listed): Exclusion {
    Exclusion(x.identity.ticker, BelowCutoff)
  }

  predicate GoodCurrency(s: string) {
    |s| == 3 && forall i :: 0 <= i < 3 ==> 'A' <= s[i] <= 'Z'
  }

  predicate GoodMember(x: Listed) {
    GoodCurrency(x.row.currency)
  }

  /** The members of a manifest are the first `target` eligible share classes in rank order. */
  ghost predicate Selected(pages: seq<Page>, ids: Identities, p: Policy, members: seq<Listed>) {
    var eligible := Eligible(RowsOf(pages, p), ids, p);
    members == eligible[..Least(p.target, |eligible|)]
  }

  /** Every quote of every page is a member or an exclusion under its own ticker, exactly once. */
  ghost predicate Accounted(m: Manifest) {
    && QuoteTickers(QuotesOf(m.sources)) == ListedTickers(m.members) + ExcludedTickers(m.exclusions)
    && |QuotesOf(m.sources)| == |m.members| + |m.exclusions|
  }

  /** The account of tickers is an account of numbers too. */
  lemma AccountsCount(m: Manifest)
    requires QuoteTickers(QuotesOf(m.sources)) == ListedTickers(m.members) + ExcludedTickers(m.exclusions)
    ensures |QuotesOf(m.sources)| == |m.members| + |m.exclusions|
  {
    assert |QuoteTickers(QuotesOf(m.sources))| == |ListedTickers(m.members)| + |ExcludedTickers(m.exclusions)|;
  }

  lemma CutOffConserves(eligible: seq<Listed>, n: nat)
    requires n <= |eligible|
    ensures ListedTickers(eligible) == ListedTickers(eligible[..n]) + ExcludedTickers(Mapped(CutOff, eligible[n..]))
  {
    assert eligible == eligible[..n] + eligible[n..];
    MappedAppend(ListedTicker, eligible[..n], eligible[n..]);
    assert Mapped(ListedTicker, eligible[n..]) == Mapped(ExcludedTicker, Mapped(CutOff, eligible[n..]));
  }

  /** The bookkeeping of `discover` after paging. */
  function ManifestExclusions(pages: seq<Page>, ids: Identities, p: Policy): seq<Exclusion> {
    var rows := RowsOf(pages, p);
    var eligible := Eligible(rows, ids, p);
    ExclusionsOf(pages, p) + EligibleExclusions(rows, ids, p)
    + Mapped(CutOff, eligible[Least(p.target, |eligible|)..])
  }

  lemma {:induction false} ExclusionsAreExact(pages: seq<Page>, p: Policy, ticker: string, k: nat)
    requires k < |FAULTS|
    ensures Exclusion(ticker, FAULTS[k]) in ExclusionsOf(pages, p) <==> Faulted(QuotesOf(pages), p, ticker, k)
  {
    if pages != [] {
      var front, quotes := pages[..|pages| - 1], QuotesIn(pages[|pages| - 1]);
      ExclusionsAreExact(front, p, ticker, k);
      PageExclusionsAreExact(quotes, p, ticker, k);
      FaultedAppend(QuotesOf(front), quotes, p, ticker, k);
    }
  }

  /** A quote of the ticker has the k-th fault as its first. */
  predicate Faulted(quotes: seq<Quote>, p: Policy, ticker: string, k: nat) {
    exists q :: q in quotes && SafeTicker(q) == ticker && FirstFault(q, p, k)
  }

  lemma FaultedAppend(a: seq<Quote>, b: seq<Quote>, p: Policy, ticker: string, k: nat)
    ensures Faulted(a + b, p, ticker, k) <==> Faulted(a, p, ticker, k) || Faulted(b, p, ticker, k)
  {
    if Faulted(a + b, p, ticker, k) {
      var q :| q in a + b && SafeTicker(q) == ticker && FirstFault(q, p, k);
      assert q in a || q in b;
    }
    if q :| (q in a || q in b) && SafeTicker(q) == ticker && FirstFault(q, p, k) { assert q in a + b; }
  }

  lemma {:induction false} PageReasons(pages: seq<Page>, p: Policy)
    ensures forall e :: e in ExclusionsOf(pages, p) ==> e.reason in FAULTS
  {
    if pages != [] {
      PageReasons(pages[..|pages| - 1], p);
      ReasonsOfPage(QuotesIn(pages[|pages| - 1]), p);
    }
  }

  lemma {:induction false} ReasonsOfPage(quotes: seq<Quote>, p: Policy)
    ensures forall e :: e in PageExclusions(quotes, p) ==> e.reason in FAULTS
  {
    if quotes != [] {
      ReasonsOfPage(quotes[..|quotes| - 1], p);
      var reason := Screened(quotes[|quotes| - 1], p);
      assert reason.Some? ==> reason.value in FAULTS;
    }
  }

  /** Cut off by the target: an issuer's best share class that is no member. */
  ghost predicate OverTarget(pages: seq<Page>, ids: Identities, p: Policy, members: seq<Listed>, ticker: string) {
    exists x :: BestCandidate(RowsOf(pages, p), ids, p, x) && x !in members && x.identity.ticker == ticker
  }

  lemma InSuffix<T>(s: seq<T>, n: nat, x: T)
    requires n <= |s| && Unique(s)
    ensures x in s[n..] <==> x in s && x !in s[..n]
  {
    assert s == s[..n] + s[n..];
    forall i, j | 0 <= i < n <= j < |s| ensures s[i] != s[j] { assert Differ(s, i, j); }
  }

  lemma EligibleUnique(rows: seq<Row>, ids: Identities, p: Policy)
    requires OwnTickers(ids)
    ensures Unique(Eligible(rows, ids, p))
  {
    RankedCandidates(rows, ids, p);
    DedupeKeepsBest(Ranked(rows, ids, p));
  }

  lemma CutOffTells(pages: seq<Page>, ids: Identities, p: Policy, members: seq<Listed>, e: Exclusion)
    requires OwnTickers(ids) && Selected(pages, ids, p, members)
    ensures var eligible := Eligible(RowsOf(pages, p), ids, p);
      e in Mapped(CutOff, eligible[|members|..]) <==>
        e.reason == BelowCutoff && OverTarget(pages, ids, p, members, e.ticker)
  {
    var rows := RowsOf(pages, p);
    var eligible := Eligible(rows, ids, p);
    EligibleUnique(rows, ids, p);
    forall x ensures x in eligible[|members|..] <==> BestCandidate(rows, ids, p, x) && x !in members {
      EligibleIsExact(rows, ids, p, x);
      InSuffix(eligible, |members|, x);
    }
    MappedMembers(eligible[|members|..], e);
  }

  lemma MappedMembers(s: seq<Listed>, e: Exclusion)
    ensures e in Mapped(CutOff, s) <==> e.reason == BelowCutoff && exists x :: x in s && x.identity.ticker == e.ticker
  {
    if e in Mapped(CutOff, s) {
      var i :| 0 <= i < |s| && Mapped(CutOff, s)[i] == e;
      assert s[i] in s;
    }
    if e.reason == BelowCutoff && exists x :: x in s && x.identity.ticker == e.ticker {
      var x :| x in s && x.identity.ticker == e.ticker;
      var i :| 0 <= i < |s| && s[i] == x;
      assert Mapped(CutOff, s)[i] == e;
    }
  }

  /** Every exclusion of a manifest gives a reason that holds of its ticker, and whatever holds is recorded. */
  lemma ManifestTellsWhy(pages: seq<Page>, ids: Identities, p: Policy, members: seq<Listed>, e: Exclusion)
    requires OwnTickers(ids) && Selected(pages, ids, p, members)
    ensures e in ManifestExclusions(pages, ids, p) <==>
      || (exists k: nat :: k < |FAULTS| && e.reason == FAULTS[k] && Faulted(QuotesOf(pages), p, e.ticker, k))
      || LeftOut(RowsOf(pages, p), ids, p, e)
      || (e.reason == BelowCutoff && OverTarget(pages, ids, p, members, e.ticker))
  {
    PageReasons(pages, p);
    forall k: nat | k < |FAULTS| && e.reason == FAULTS[k]
      ensures e in ExclusionsOf(pages, p) <==> Faulted(QuotesOf(pages), p, e.ticker, k)
    {
      ExclusionsAreExact(pages, p, e.ticker, k);
    }
    ExclusionsTellWhy(RowsOf(pages, p), ids, p, e);
    CutOffTells(pages, ids, p, members, e);
  }

  lemma ExcludedInThree(a: seq<Exclusion>, b: seq<Exclusion>, c: seq<Exclusion>)
    ensures ExcludedTickers(a + b + c) == ExcludedTickers(a) + ExcludedTickers(b) + ExcludedTickers(c)
  {
    MappedAppend(ExcludedTicker, a, b);
    MappedAppend(ExcludedTicker, a + b, c);
  }

  lemma AccountsAdd(
      rows: multiset<string>, x: multiset<string>, eligible: multiset<string>, y: multiset<string>,
      members: multiset<string>, z: multiset<string>)
    requires rows == eligible + y && eligible == members + z
    ensures rows + x == members + (x + y + z)
  {
  }

  lemma ManifestConserves(pages: seq<Page>, ids: Identities, p: Policy, m: Manifest)
    requires OwnTickers(ids) && m.sources == pages && Selected(pages, ids, p, m.members)
    requires m.exclusions == ManifestExclusions(pages, ids, p)
    ensures Accounted(m)
  {
    var rows := RowsOf(pages, p);
    var eligible := Eligible(rows, ids, p);
    PagesConserve(pages, p);
    EligibleConserves(rows, ids, p);
    CutOffConserves(eligible, Least(p.target, |eligible|));
    ExcludedInThree(ExclusionsOf(pages, p), EligibleExclusions(rows, ids, p),
                    Mapped(CutOff, eligible[Least(p.target, |eligible|)..]));
    AccountsAdd(
      RowTickers(RowsOf(pages, p)), ExcludedTickers(ExclusionsOf(pages, p)),
      ListedTickers(eligible), ExcludedTickers(EligibleExclusions(rows, ids, p)),
      ListedTickers(m.members), ExcludedTickers(Mapped(CutOff, eligible[Least(p.target, |eligible|)..])));
    AccountsCount(m);
  }

  /** Members are unique by ticker and by issuer, ranked, each the best share class of its issuer, and each from one of
      the retained pages; nothing that ranks before a member is left out. */
  ghost predicate ProperMembers(pages: seq<Page>, ids: Identities, p: Policy, members: seq<Listed>) {
    var rows := RowsOf(pages, p);
    && Unique(Mapped(ListedTicker, members)) && Unique(Mapped(CikOf, members))
    && |members| <= p.target && (forall i, j :: 0 <= i < j < |members| ==> Precedes(members[i], members[j]))
    && (forall x :: x in members ==> BestCandidate(rows, ids, p, x) && FromPage(pages, x.row) && MeetsPolicy(p, x))
    && (forall x :: BestCandidate(rows, ids, p, x) && x !in members ==>
          |members| == p.target && forall y :: y in members ==> Precedes(y, x))
  }

  /** A member's row passes every threshold of the policy, and its exchanges are admitted. */
  predicate MeetsPolicy(p: Policy, x: Listed) {
    && x.row.cap >= p.minCap && x.row.price >= p.minPrice && x.row.volume >= p.minVolume
    && x.row.exchange in p.marketCodes && ValidTicker(x.row.ticker) && x.row.ticker == x.identity.ticker
    && x.identity.exchange in p.secExchanges
  }

  lemma {:induction false} RowsMeetPolicy(pages: seq<Page>, p: Policy, r: Row)
    requires r in RowsOf(pages, p)
    ensures r.cap >= p.minCap && r.price >= p.minPrice && r.volume >= p.minVolume
    ensures r.exchange in p.marketCodes && ValidTicker(r.ticker)
  {
    var front, last := pages[..|pages| - 1], pages[|pages| - 1];
    if r in RowsOf(front, p) {
      RowsMeetPolicy(front, p, r);
    } else {
      PageRowsAreExact(QuotesIn(last), p, last.hash, r);
    }
  }

  lemma CandidateMeetsPolicy(pages: seq<Page>, ids: Identities, p: Policy, x: Listed)
    requires OwnTickers(ids) && Candidate(RowsOf(pages, p), ids, p, x)
    ensures MeetsPolicy(p, x)
  {
    BestExists(RowsOf(pages, p), x.identity.ticker);
    RowsMeetPolicy(pages, p, x.row);
  }

  ghost predicate BestCandidate(rows: seq<Row>, ids: Identities, p: Policy, x: Listed) {
    Candidate(rows, ids, p, x) && forall y :: Candidate(rows, ids, p, y) && y.identity.cik == x.identity.cik ==>
      Precedes(x, y)
  }

  predicate FromPage(pages: seq<Page>, r: Row) {
    exists i :: 0 <= i < |pages| && pages[i].hash == r.hash
  }

  lemma UniqueSlice<T>(s: seq<T>, n: nat)
    requires Unique(s) && n <= |s|
    ensures Unique(s[..n])
  {
    forall i, j | 0 <= i < j < n ensures Differ(s[..n], i, j) { assert Differ(s, i, j); }
  }

  lemma InOrderSlice<T>(le: (T, T) -> bool, s: seq<T>, n: nat)
    requires InOrder(le, s) && n <= |s|
    ensures InOrder(le, s[..n])
    ensures forall i, j :: 0 <= i < n <= j < |s| ==> le(s[i], s[j])
  {
    forall i, j | 0 <= i < j < n ensures OrderedAt(le, s[..n], i, j) { assert OrderedAt(le, s, i, j); }
    forall i, j | 0 <= i < n <= j < |s| ensures le(s[i], s[j]) { assert OrderedAt(le, s, i, j); }
  }

  lemma MembersAreProper(pages: seq<Page>, ids: Identities, p: Policy, members: seq<Listed>)
    requires OwnTickers(ids) && Selected(pages, ids, p, members)
    ensures ProperMembers(pages, ids, p, members)
  {
    var rows := RowsOf(pages, p);
    var eligible := Eligible(rows, ids, p);
    var n := Least(p.target, |eligible|);
    EligibleIsOrdered(rows, ids, p);
    assert Mapped(ListedTicker, members) == Mapped(ListedTicker, eligible)[..n];
    assert Mapped(CikOf, members) == Mapped(CikOf, eligible)[..n];
    UniqueSlice(Mapped(ListedTicker, eligible), n);
    UniqueSlice(Mapped(CikOf, eligible), n);
    InOrderSlice(RankedBefore, eligible, n);
    forall i, j | 0 <= i < j < |members| ensures Precedes(members[i], members[j]) {
      assert OrderedAt(RankedBefore, members, i, j);
      RankedReads(members[i], members[j]);
    }
    forall x | x in members ensures BestCandidate(rows, ids, p, x) && FromPage(pages, x.row) && MeetsPolicy(p, x) {
      assert x in eligible;
      EligibleIsExact(rows, ids, p, x);
      CandidateMeetsPolicy(pages, ids, p, x);
      BestExists(rows, x.identity.ticker);
      RowsCarryLineage(pages, p, x.row);
    }
    forall x | BestCandidate(rows, ids, p, x) && x !in members
      ensures |members| == p.target && forall y :: y in members ==> Precedes(y, x)
    {
      EligibleIsExact(rows, ids, p, x);
      LeftOutIsLater(eligible, n, x);
      forall y | y in members ensures Precedes(y, x) { RankedReads(y, x); }
    }
  }

  lemma InPrefix<T>(s: seq<T>, n: nat, j: nat)
    requires j < n <= |s|
    ensures s[j] in s[..n]
  {
    assert s[..n][j] == s[j];
  }

  lemma LeftOutIsLater(eligible: seq<Listed>, n: nat, x: Listed)
    requires n <= |eligible| && InOrder(RankedBefore, eligible) && x in eligible && x !in eligible[..n]
    ensures n < |eligible| && forall y :: y in eligible[..n] ==> RankedBefore(y, x)
  {
    var j: nat :| j < |eligible| && eligible[j] == x;
    if j < n { InPrefix(eligible, n, j); }
    InOrderSlice(RankedBefore, eligible, n);
    forall y | y in eligible[..n] ensures RankedBefore(y, x) {
      var i :| 0 <= i < n && eligible[i] == y;
      assert OrderedAt(RankedBefore, eligible, i, j);
    }
  }

  /** The constructor's first coverage check cannot fail: members have distinct tickers, all of them seen. */
  lemma MembersAreSeen(pages: seq<Page>, ids: Identities, p: Policy, members: seq<Listed>)
    requires OwnTickers(ids) && Selected(pages, ids, p, members)
    ensures |members| <= |TickersSeen(RowsOf(pages, p))|
  {
    var rows := RowsOf(pages, p);
    MembersAreProper(pages, ids, p, members);
    var tickers := Mapped(ListedTicker, members);
    forall t | t in Elements(tickers) ensures t in Elements(TickersSeen(rows)) {
      var i :| 0 <= i < |members| && tickers[i] == t;
      assert members[i] in members;
      SeenTicker(rows, t);
    }
    SubsetSize(Elements(tickers), Elements(TickersSeen(rows)));
    UniqueLength(tickers);
    UniqueLength(TickersSeen(rows));
  }

  // ---------- Paging ----------

  /** The screener, by offset and size. */
  type Market = (nat, nat) -> Page

  function SizeAt(p: Policy, offset: nat): nat {
    if offset < p.maxScreened then Least(p.pageSize, p.maxScreened - offset) else 0
  }

  function OffsetOf(p: Policy, k: nat): nat {
    if k == 0 then 0 else OffsetOf(p, k - 1) + SizeAt(p, OffsetOf(p, k - 1))
  }

  lemma {:induction false} OffsetsAreRegular(p: Policy, k: nat)
    ensures OffsetOf(p, k) == Least(k * p.pageSize, p.maxScreened)
  {
    if k > 0 {
      OffsetsAreRegular(p, k - 1);
      assert k * p.pageSize == (k - 1) * p.pageSize + p.pageSize;
    }
  }

  predicate Enough(p: Policy, ids: Identities, pages: seq<Page>) {
    |Eligible(RowsOf(pages, p), ids, p)| >= p.target
  }

  /** Why `discover` asks for another page after these: there are too few eligible rows so far, the last page had usable
      rows, and the reported total lies beyond. */
  predicate LeaveMore(p: Policy, ids: Identities, pages: seq<Page>) {
    && pages != []
    && !Enough(p, ids, pages)
    && var last := pages[|pages| - 1];
    && RowsIn(last, p) != []
    && last.total.Some? && OffsetOf(p, |pages|) < last.total.value
  }

  predicate Continues(p: Policy, ids: Identities, pages: seq<Page>, k: nat) {
    k < |pages| && LeaveMore(p, ids, pages[..k + 1])
  }

  /** The k-th page is the screener's answer for its offset, readable, and reports the common total. */
  predicate FetchedAt(market: Market, p: Policy, pages: seq<Page>, k: nat) {
    && k < |pages|
    && OffsetOf(p, k) < p.maxScreened
    && pages[k] == market(OffsetOf(p, k), SizeAt(p, OffsetOf(p, k)))
    && Readable(pages[k]) && pages[k].total == pages[0].total
  }

  /** Pages fetched one after the other, each because the one before left something to ask for. */
  ghost predicate Fetched(market: Market, p: Policy, ids: Identities, pages: seq<Page>) {
    pages != [] && AllFetched(market, p, pages) && AllContinue(p, ids, pages, |pages| - 1)
  }

  /** Paging has ended: nothing more is wanted, offered or allowed. */
  predicate Exhausted(p: Policy, ids: Identities, pages: seq<Page>) {
    pages != [] && (!LeaveMore(p, ids, pages) || OffsetOf(p, |pages|) >= p.maxScreened)
  }

  ghost predicate AllFetched(market: Market, p: Policy, pages: seq<Page>) {
    forall k: nat {:trigger FetchedAt(market, p, pages, k)} :: k < |pages| ==> FetchedAt(market, p, pages, k)
  }

  ghost predicate AllContinue(p: Policy, ids: Identities, pages: seq<Page>, n: nat) {
    forall k: nat {:trigger Continues(p, ids, pages, k)} :: k < n ==> Continues(p, ids, pages, k)
  }

  lemma AllFetchedOneMore(market: Market, p: Policy, pages: seq<Page>, page: Page)
    requires AllFetched(market, p, pages) && OffsetOf(p, |pages|) < p.maxScreened && Readable(page)
    requires page == market(OffsetOf(p, |pages|), SizeAt(p, OffsetOf(p, |pages|)))
    requires pages != [] ==> page.total == pages[0].total
    ensures AllFetched(market, p, pages + [page])
  {
    forall k: nat | k < |pages| + 1 ensures FetchedAt(market, p, pages + [page], k) {
      if k < |pages| { assert FetchedAt(market, p, pages, k); }
    }
  }

  lemma AllContinueStill(p: Policy, ids: Identities, pages: seq<Page>, page: Page)
    requires AllContinue(p, ids, pages, |pages|)
    ensures AllContinue(p, ids, pages + [page], |pages|)
  {
    forall k: nat | k < |pages| ensures Continues(p, ids, pages + [page], k) { ContinuesStill(p, ids, pages, page, k); }
  }

  lemma ContinuesStill(p: Policy, ids: Identities, pages: seq<Page>, page: Page, k: nat)
    requires Continues(p, ids, pages, k)
    ensures Continues(p, ids, pages + [page], k)
  {
    assert (pages + [page])[..k + 1] == pages[..k + 1];
  }

  /** Where the paging loop stands when it asks for a page. */
  ghost predicate Paging(market: Market, ids: Identities, p: Policy, sources: seq<Page>, total: Option<nat>) {
    && AllFetched(market, p, sources) && AllContinue(p, ids, sources, |sources|)
    && total == if sources == [] then None else sources[0].total
  }

  ghost predicate Tabled(p: Policy, sources: seq<Page>, rows: seq<Row>, exclusions: seq<Exclusion>) {
    rows == RowsOf(sources, p) && exclusions == ExclusionsOf(sources, p)
  }

  /** Whether the loop goes on after one more page that agrees with those before it. */
  lemma PageTaken(
      market: Market, ids: Identities, p: Policy, sources: seq<Page>, total: Option<nat>, page: Page, goesOn: bool)
    requires Paging(market, ids, p, sources, total) && OffsetOf(p, |sources|) < p.maxScreened
    requires page == market(OffsetOf(p, |sources|), SizeAt(p, OffsetOf(p, |sources|)))
    requires Readable(page) && (total.Some? ==> page.total == total)
    requires goesOn <==> LeaveMore(p, ids, sources + [page])
    ensures Fetched(market, p, ids, sources + [page])
    ensures if goesOn then Paging(market, ids, p, sources + [page], page.total) else Exhausted(p, ids, sources + [page])
  {
    if sources != [] { assert FetchedAt(market, p, sources, 0); }
    AllFetchedOneMore(market, p, sources, page);
    AllContinueStill(p, ids, sources, page);
    if goesOn { AllContinueOneMore(p, ids, sources + [page], |sources|); }
  }

  lemma AllContinueOneMore(p: Policy, ids: Identities, pages: seq<Page>, n: nat)
    requires AllContinue(p, ids, pages, n) && |pages| == n + 1 && LeaveMore(p, ids, pages)
    ensures AllContinue(p, ids, pages, n + 1)
  {
    ContinuesNow(p, ids, pages, n);
  }

  lemma ContinuesNow(p: Policy, ids: Identities, pages: seq<Page>, n: nat)
    requires |pages| == n + 1 && LeaveMore(p, ids, pages)
    ensures Continues(p, ids, pages, n)
  {
    TakeAll(pages);
  }

  lemma TabledOneMore(p: Policy, sources: seq<Page>, page: Page, rows: seq<Row>, exclusions: seq<Exclusion>)
    requires Tabled(p, sources, rows, exclusions) && Readable(page)
    ensures Tabled(p, sources + [page],
      rows + RowsIn(page, p), exclusions + PageExclusions(QuotesIn(page), p))
  {
    assert (sources + [page])[..|sources|] == sources;
  }

  /** The loop's tests, as it makes them on its own tables. */
  lemma GoesOn(p: Policy, ids: Identities, sources: seq<Page>, page: Page, rows: seq<Row>, eligible: nat)
    requires rows == RowsOf(sources + [page], p) && eligible == |Eligible(rows, ids, p)| && page.total.Some?
    ensures LeaveMore(p, ids, sources + [page]) <==>
      eligible < p.target && RowsIn(page, p) != [] && OffsetOf(p, |sources| + 1) < page.total.value
  {
  }

  lemma Decided(
      market: Market, ids: Identities, p: Policy, sources: seq<Page>, total: Option<nat>, page: Page,
      rows: seq<Row>, exclusions: seq<Exclusion>, eligible: nat, goesOn: bool)
    requires Paging(market, ids, p, sources, total) && OffsetOf(p, |sources|) < p.maxScreened
    requires page == market(OffsetOf(p, |sources|), SizeAt(p, OffsetOf(p, |sources|)))
    requires Readable(page) && (total.Some? ==> page.total == total)
    requires Tabled(p, sources + [page], rows, exclusions) && eligible == |Eligible(rows, ids, p)|
    requires goesOn <==> eligible < p.target && RowsIn(page, p) != [] && OffsetOf(p, |sources| + 1) < page.total.value
    ensures Fetched(market, p, ids, sources + [page])
    ensures if goesOn then Paging(market, ids, p, sources + [page], page.total) else Exhausted(p, ids, sources + [page])
  {
    GoesOn(p, ids, sources, page, rows, eligible);
    PageTaken(market, ids, p, sources, total, page, goesOn);
  }

  lemma PagingStops(market: Market, ids: Identities, p: Policy, sources: seq<Page>, total: Option<nat>)
    requires Paging(market, ids, p, sources, total) && OffsetOf(p, |sources|) >= p.maxScreened && p.maxScreened > 0
    ensures Fetched(market, p, ids, sources) && Exhausted(p, ids, sources)
  {
  }

  function CommonTotal(sources: seq<Page>): Option<nat> {
    if sources == [] then None else sources[0].total
  }

  /** Why a page is refused, given the total that the pages before it reported. */
  predicate PageRefused(page: Page, common: Option<nat>, e: DiscoveryError) {
    match e
    case NoQuotesList => page.quotes.None?
    case BadTotal => page.quotes.Some? && page.total.None?
    case ConflictingTotals => Readable(page) && common.Some? && page.total != common
    case _ => false
  }

  /** Paging asks for a page after `sources`, and is refused. */
  ghost predicate FailsAfter(market: Market, ids: Identities, p: Policy, sources: seq<Page>, e: DiscoveryError) {
    var offset := OffsetOf(p, |sources|);
    && Paging(market, ids, p, sources, CommonTotal(sources)) && offset < p.maxScreened
    && PageRefused(market(offset, SizeAt(p, offset)), CommonTotal(sources), e)
  }

  ghost predicate PagingFails(market: Market, ids: Identities, p: Policy, e: DiscoveryError) {
    exists sources :: FailsAfter(market, ids, p, sources, e)
  }

  ghost predicate PagingEnds(market: Market, ids: Identities, p: Policy, sources: seq<Page>) {
    Fetched(market, p, ids, sources) && Exhausted(p, ids, sources)
  }

  /** Requests start at whole page sizes, so all pages but the last are full and together stay under the limit. */
  lemma PagesAreFew(market: Market, ids: Identities, p: Policy, pages: seq<Page>, k: nat)
    requires Fetched(market, p, ids, pages) && k < |pages|
    ensures pages[k] == market(k * p.pageSize, SizeAt(p, k * p.pageSize))
    ensures k * p.pageSize < p.maxScreened
    ensures k < |pages| - 1 ==> SizeAt(p, k * p.pageSize) == p.pageSize
  {
    OffsetsAreRegular(p, k);
    assert FetchedAt(market, p, pages, k);
    if k < |pages| - 1 {
      assert FetchedAt(market, p, pages, k + 1);
      OffsetsAreRegular(p, k + 1);
      NextMultiple(k, p.pageSize);
    }
  }

  lemma NextMultiple(k: nat, size: nat)
    ensures (k + 1) * size == k * size + size
  {
  }

  /** One request and its answer, refused when unreadable or when its total conflicts with the pages before. */
  method ReadPage(market: Market, p: Policy, offset: nat, providerTotal: Option<nat>)
    returns (r: Result<Page, DiscoveryError>, parsed: Parsed)
    requires offset < p.maxScreened
    ensures r.Ok? ==> r.value == market(offset, SizeAt(p, offset)) && Readable(r.value)
    ensures r.Ok? ==> providerTotal.Some? ==> r.value.total == providerTotal
    ensures r.Ok? ==> parsed.rows == RowsIn(r.value, p) && parsed.exclusions == PageExclusions(QuotesIn(r.value), p)
    ensures r.Ok? ==> Some(parsed.total) == r.value.total
    ensures r.Err? ==> PageRefused(market(offset, SizeAt(p, offset)), providerTotal, r.error)
  {
    var size := Least(p.pageSize, p.maxScreened - offset);
    var page := market(offset, size);
    parsed := Parsed([], [], 0);
    var result := ParseMarketPage(page, p);
    if result.Err? { return Err(result.error), parsed; }
    parsed := result.value;
    if providerTotal.Some? && parsed.total != providerTotal.value { return Err(ConflictingTotals), parsed; }
    return Ok(page), parsed;
  }

  /** One turn of the paging loop, from a request to the decision to go on. */
  method NextPage(market: Market, ids: Identities, p: Policy, offset: nat, ghost sources: seq<Page>,
                  providerTotal: Option<nat>, rows: seq<Row>, exclusions: seq<Exclusion>)
    returns (r: Result<Page, DiscoveryError>, rows': seq<Row>, exclusions': seq<Exclusion>, goesOn: bool)
    requires Paging(market, ids, p, sources, providerTotal) && Tabled(p, sources, rows, exclusions)
    requires offset == OffsetOf(p, |sources|) < p.maxScreened
    ensures r.Ok? ==> Fetched(market, p, ids, sources + [r.value]) && Tabled(p, sources + [r.value], rows', exclusions')
    ensures r.Ok? ==>
      if goesOn then Paging(market, ids, p, sources + [r.value], r.value.total)
      else Exhausted(p, ids, sources + [r.value])
    ensures r.Err? ==> FailsAfter(market, ids, p, sources, r.error)
  {
    rows', exclusions', goesOn := rows, exclusions, false;
    var read, parsed := ReadPage(market, p, offset, providerTotal);
    if read.Err? { return Err(read.error), rows', exclusions', goesOn; }
    var page := read.value;
    TabledOneMore(p, sources, page, rows, exclusions);
    rows' := rows + parsed.rows;
    exclusions' := exclusions + parsed.exclusions;
    var eligible, _ := EligibleRows(rows', ids, p);
    goesOn := |eligible| < p.target && parsed.rows != [] && offset + SizeAt(p, offset) < parsed.total;
    Decided(market, ids, p, sources, providerTotal, page, rows', exclusions', |eligible|, goesOn);
    return Ok(page), rows', exclusions', goesOn;
  }

  /** The paging loop of `discover`. */
  method FetchPages(market: Market, ids: Identities, p: Policy)
    returns (r: Result<seq<Page>, DiscoveryError>, rows: seq<Row>, exclusions: seq<Exclusion>)
    requires ValidPolicy(p)
    ensures r.Ok? ==> PagingEnds(market, ids, p, r.value) && Tabled(p, r.value, rows, exclusions)
    ensures r.Err? ==> PagingFails(market, ids, p, r.error)
  {
    var sources: seq<Page>, providerTotal: Option<nat>, offset := [], None, 0;
    rows, exclusions := [], [];
    while offset < p.maxScreened
      invariant Paging(market, ids, p, sources, providerTotal) && Tabled(p, sources, rows, exclusions)
      invariant offset == OffsetOf(p, |sources|)
      decreases p.maxScreened - offset
    {
      var page, goesOn;
      page, rows, exclusions, goesOn := NextPage(market, ids, p, offset, sources, providerTotal, rows, exclusions);
      if page.Err? { return Err(page.error), rows, exclusions; }
      sources := sources + [page.value];
      if !goesOn { return Ok(sources), rows, exclusions; }
      providerTotal := page.value.total;
      offset := offset + SizeAt(p, offset);
    }
    PagingStops(market, ids, p, sources, providerTotal);
    return Ok(sources), rows, exclusions;
  }

  /** The exclusions of the share classes beyond the target. */
  method ExcludeBeyond(others: seq<Listed>, before: seq<Exclusion>) returns (exclusions: seq<Exclusion>)
    ensures exclusions == before + Mapped(CutOff, others)
  {
    exclusions := before;
    for i := 0 to |others|
      invariant exclusions == before + Mapped(CutOff, others[..i])
    {
      assert others[..i + 1] == others[..i] + [others[i]];
      MappedAppend(CutOff, others[..i], [others[i]]);
      exclusions := exclusions + [Exclusion(others[i].identity.ticker, BelowCutoff)];
    }
    assert others[..|others|] == others;
  }

  /** The manifest of the pages that paging fetched. */
  function ManifestOf(pages: seq<Page>, ids: Identities, p: Policy): Manifest
    requires pages != [] && pages[0].total.Some?
  {
    var rows := RowsOf(pages, p);
    var eligible := Eligible(rows, ids, p);
    Manifest(eligible[..Least(p.target, |eligible|)], ManifestExclusions(pages, ids, p), pages,
             pages[0].total.value, |TickersSeen(rows)|, FetchedRows(pages))
  }

  predicate GoodMembers(m: Manifest) {
    forall x :: x in m.members ==> GoodMember(x)
  }

  /** The coverage check, without the part that cannot fail. */
  predicate Covered(m: Manifest) {
    m.uniqueCount <= m.fetchedCount <= m.reportedTotal
  }

  /** What comes of a manifest: each refusal has its one cause. */
  function Concluded(m: Manifest, p: Policy): Result<Manifest, DiscoveryError> {
    if !GoodMembers(m) then Err(BadMember)
    else if !Covered(m) then Err(BadCoverage)
    else if |m.members| < p.minimum then Err(Insufficient(m))
    else Ok(m)
  }

  /** Either paging is refused, or it ends and its pages decide. */
  ghost predicate Discovers(market: Market, ids: Identities, p: Policy, r: Result<Manifest, DiscoveryError>) {
    || (r.Err? && PagingFails(market, ids, p, r.error))
    || exists pages :: PagingEnds(market, ids, p, pages) && Concludes(pages, ids, p, r)
  }

  ghost predicate Concludes(pages: seq<Page>, ids: Identities, p: Policy, r: Result<Manifest, DiscoveryError>) {
    pages != [] && pages[0].total.Some? && r == Concluded(ManifestOf(pages, ids, p), p)
  }

  lemma ManifestIsSound(pages: seq<Page>, ids: Identities, p: Policy)
    requires OwnTickers(ids) && pages != [] && pages[0].total.Some?
    ensures var m := ManifestOf(pages, ids, p);
      && |m.members| <= m.uniqueCount
      && (forall x :: x in m.members ==> FromPage(pages, x.row))
      && (Covered(m) ==> SoundManifest(ids, p, pages, m))
  {
    var m := ManifestOf(pages, ids, p);
    ManifestConserves(pages, ids, p, m);
    MembersAreProper(pages, ids, p, m.members);
    MembersAreSeen(pages, ids, p, m.members);
  }

  /** `discover`, from the identities on. The market's answers are whatever they are. */
  method Discover(market: Market, ids: Identities, p: Policy) returns (r: Result<Manifest, DiscoveryError>)
    requires ValidPolicy(p) && OwnTickers(ids)
    ensures Discovers(market, ids, p, r)
    ensures r.Ok? ==> Sound(market, ids, p, r.value) && |r.value.members| >= p.minimum
    ensures r.Err? && r.error.Insufficient? ==>
      Sound(market, ids, p, r.error.manifest) && |r.error.manifest.members| < p.minimum
  {
    var fetched, rows, exclusions := FetchPages(market, ids, p);
    if fetched.Err? { return Err(fetched.error); }
    assert FetchedAt(market, p, fetched.value, 0);
    r := MakeManifest(ids, p, fetched.value, rows, exclusions);
    ManifestIsSound(fetched.value, ids, p);
    assert Concludes(fetched.value, ids, p, r);
  }

  /** The selection, and the checks of the manifest's constructor; the lineage check cannot fail. */
  method MakeManifest(ids: Identities, p: Policy, sources: seq<Page>, rows: seq<Row>, parsed: seq<Exclusion>)
    returns (r: Result<Manifest, DiscoveryError>)
    requires OwnTickers(ids) && Tabled(p, sources, rows, parsed) && sources != [] && sources[0].total.Some?
    ensures r == Concluded(ManifestOf(sources, ids, p), p)
  {
    var eligible, joined := EligibleRows(rows, ids, p);
    EligibleIsOrdered(rows, ids, p);
    SortedStays(RankedBefore, eligible);
    var ordered := SortBy(RankedBefore, eligible);
    var n := Least(p.target, |ordered|);
    var selected := ordered[..n];
    var exclusions := ExcludeBeyond(ordered[n..], parsed + joined);
    var m := Manifest(selected, exclusions, sources, sources[0].total.value, |TickersSeen(rows)|, FetchedRows(sources));
    ManifestIsSound(sources, ids, p);
    r := CheckManifest(p, m);
  }

  method CheckManifest(p: Policy, m: Manifest) returns (r: Result<Manifest, DiscoveryError>)
    requires |m.members| <= m.uniqueCount && forall x :: x in m.members ==> FromPage(m.sources, x.row)
    ensures r == Concluded(m, p)
  {
    if exists x :: x in m.members && !GoodMember(x) { return Err(BadMember); }
    if !(|m.members| <= m.uniqueCount <= m.fetchedCount <= m.reportedTotal) { return Err(BadCoverage); }
    if exists x :: x in m.members && !FromPage(m.sources, x.row) { return Err(BadLineage); }
    return if |m.members| < p.minimum then Err(Insufficient(m)) else Ok(m);
  }

  // ---------- The market's answers determine the result ----------

  lemma SamePages(market: Market, p: Policy, a: seq<Page>, b: seq<Page>)
    requires AllFetched(market, p, a) && AllFetched(market, p, b) && |a| <= |b|
    ensures a == b[..|a|]
  {
    forall k: nat | k < |a| ensures a[k] == b[k] {
      assert FetchedAt(market, p, a, k) && FetchedAt(market, p, b, k);
    }
  }

  /** Where paging went on it had not ended. */
  lemma StillGoing(p: Policy, ids: Identities, a: seq<Page>, b: seq<Page>, n: nat)
    requires a != [] && |a| <= |b| && a == b[..|a|] && |a| <= n && AllContinue(p, ids, b, n)
    requires OffsetOf(p, |a|) < p.maxScreened
    ensures !Exhausted(p, ids, a)
  {
    WentOn(p, ids, b, n, |a| - 1);
  }

  lemma WentOn(p: Policy, ids: Identities, pages: seq<Page>, n: nat, k: nat)
    requires AllContinue(p, ids, pages, n) && k < n && k < |pages|
    ensures LeaveMore(p, ids, pages[..k + 1])
  {
    assert Continues(p, ids, pages, k);
  }

  lemma EndsHere(market: Market, ids: Identities, p: Policy, a: seq<Page>, b: seq<Page>)
    requires b != [] && PagingEnds(market, ids, p, a) && AllFetched(market, p, b) && AllContinue(p, ids, b, |b| - 1)
    ensures |b| <= |a|
  {
    if |a| < |b| {
      SamePages(market, p, a, b);
      assert FetchedAt(market, p, b, |a|);
      StillGoing(p, ids, a, b, |b| - 1);
    }
  }

  lemma OneEnd(market: Market, ids: Identities, p: Policy, a: seq<Page>, b: seq<Page>)
    requires PagingEnds(market, ids, p, a) && PagingEnds(market, ids, p, b)
    ensures a == b
  {
    EndsHere(market, ids, p, a, b);
    EndsHere(market, ids, p, b, a);
    SamePages(market, p, a, b);
  }

  /** The page that is refused stands in no other account of the same paging. */
  lemma RefusedIsLast(
      market: Market, ids: Identities, p: Policy, sources: seq<Page>, e: DiscoveryError, other: seq<Page>)
    requires FailsAfter(market, ids, p, sources, e) && AllFetched(market, p, other)
    ensures |other| <= |sources|
  {
    if |sources| < |other| {
      assert FetchedAt(market, p, other, |sources|) && FetchedAt(market, p, other, 0);
      SamePages(market, p, sources, other);
    }
  }

  lemma NoEndAfterRefusal(
      market: Market, ids: Identities, p: Policy, sources: seq<Page>, e: DiscoveryError, a: seq<Page>)
    requires FailsAfter(market, ids, p, sources, e)
    ensures !PagingEnds(market, ids, p, a)
  {
    if PagingEnds(market, ids, p, a) {
      RefusedIsLast(market, ids, p, sources, e, a);
      SamePages(market, p, a, sources);
      if |a| < |sources| { assert FetchedAt(market, p, sources, |a|); }
      StillGoing(p, ids, a, sources, |sources|);
    }
  }

  lemma OneRefusal(
      market: Market, ids: Identities, p: Policy, s: seq<Page>, e: DiscoveryError, s': seq<Page>, e': DiscoveryError)
    requires FailsAfter(market, ids, p, s, e) && FailsAfter(market, ids, p, s', e')
    ensures e == e'
  {
    RefusedIsLast(market, ids, p, s, e, s');
    RefusedIsLast(market, ids, p, s', e', s);
    SamePages(market, p, s, s');
  }

  /** The answers of the market leave `discover` one result. */
  lemma DiscoveryIsDetermined(
      market: Market, ids: Identities, p: Policy,
      r: Result<Manifest, DiscoveryError>, r': Result<Manifest, DiscoveryError>)
    requires Discovers(market, ids, p, r) && Discovers(market, ids, p, r')
    ensures r == r'
  {
    if r.Err? && PagingFails(market, ids, p, r.error) {
      var s :| FailsAfter(market, ids, p, s, r.error);
      if r'.Err? && PagingFails(market, ids, p, r'.error) {
        var s' :| FailsAfter(market, ids, p, s', r'.error);
        OneRefusal(market, ids, p, s, r.error, s', r'.error);
      } else {
        var pages :| PagingEnds(market, ids, p, pages) && Concludes(pages, ids, p, r');
        NoEndAfterRefusal(market, ids, p, s, r.error, pages);
      }
    } else {
      var pages :| PagingEnds(market, ids, p, pages) && Concludes(pages, ids, p, r);
      if r'.Err? && PagingFails(market, ids, p, r'.error) {
        var s' :| FailsAfter(market, ids, p, s', r'.error);
        NoEndAfterRefusal(market, ids, p, s', r'.error, pages);
      } else {
        var pages' :| PagingEnds(market, ids, p, pages') && Concludes(pages', ids, p, r');
        OneEnd(market, ids, p, pages, pages');
      }
    }
  }

  /** What a manifest says of the pages it retains: its members are the proper ones and every quote is accounted for. */
  ghost predicate SoundManifest(ids: Identities, p: Policy, sources: seq<Page>, m: Manifest) {
    && m.sources == sources && sources != []
    && ProperMembers(sources, ids, p, m.members)
    && Accounted(m)
    && m.fetchedCount == FetchedRows(sources) <= m.reportedTotal
    && sources[0].total == Some(m.reportedTotal)
  }

  /** A manifest whose pages are those that paging had to fetch. */
  ghost predicate Sound(market: Market, ids: Identities, p: Policy, m: Manifest) {
    Fetched(market, p, ids, m.sources) && Exhausted(p, ids, m.sources) && SoundManifest(ids, p, m.sources, m)
  }

  /** The retained row count is the number of members and exclusions, unless a page counted a "data" list. */
  lemma RetainedCountsAccount(ids: Identities, p: Policy, m: Manifest)
    requires SoundManifest(ids, p, m.sources, m) && forall i :: 0 <= i < |m.sources| ==> m.sources[i].data.None?
    ensures m.fetchedCount == |m.members| + |m.exclusions|
  {
    RowCountsAgree(m.sources);
  }
}
