/**
 * The daily batch: for every instrument of the universe, in table order,
 * download one day of one-minute bars; skip the instrument when nothing came
 * back; otherwise bring the index to Asia/Kolkata, find or create
 * root/sector/company and upload a new file named after the symbol and date.
 *
 * The run date, the root folder id and the download are parameters; the
 * download is a function of the request, so a rerun on the same date with the
 * same market data sees the same frames.
 */
module DailyJob {
  import opened Wrappers
  import opened Calendar
  import opened ArtifactNames
  import opened TimeNormalizer
  import opened DriveStore

  /** One row of the instrument universe: the ticker and where its files go. */
  datatype SymbolEntry = SymbolEntry(symbol: string, sector: string, company: string)

  /** The instrument universe, in insertion order: the index and its constituents, then sector by sector. */
  const SymbolMap: seq<SymbolEntry> :=
    NiftySymbols + FinancialServicesSymbols + InformationTechnologySymbols + ConsumerGoodsSymbols + AutomobilesSymbols + ConstructionSymbols + EnergySymbols + PharmaceuticalsSymbols + MetalsSymbols + TelecommunicationSymbols

  const NiftySymbols: seq<SymbolEntry> := [
    SymbolEntry("^NSEI", "Nifty", "Nifty 50"),
    SymbolEntry("RELIANCE.NS", "Nifty", "Reliance Industries"),
    SymbolEntry("HDFCBANK.NS", "Nifty", "HDFC Bank"),
    SymbolEntry("ICICIBANK.NS", "Nifty", "ICICI Bank"),
    SymbolEntry("INFY.NS", "Nifty", "Infosys"),
    SymbolEntry("ITC.NS", "Nifty", "ITC"),
    SymbolEntry("TCS.NS", "Nifty", "TCS"),
    SymbolEntry("LT.NS", "Nifty", "Larsen & Toubro"),
    SymbolEntry("BHARTIARTL.NS", "Nifty", "Bharti Airtel"),
    SymbolEntry("AXISBANK.NS", "Nifty", "Axis Bank"),
    SymbolEntry("SBIN.NS", "Nifty", "State Bank of India")
  ]

  const FinancialServicesSymbols: seq<SymbolEntry> := [
    SymbolEntry("KOTAKBANK.NS", "Financial Services", "Kotak Mahindra Bank"),
    SymbolEntry("BAJFINANCE.NS", "Financial Services", "Bajaj Finance"),
    SymbolEntry("BAJAJFINSV.NS", "Financial Services", "Bajaj Finserv"),
    SymbolEntry("HDFCLIFE.NS", "Financial Services", "HDFC Life"),
    SymbolEntry("SBILIFE.NS", "Financial Services", "SBI Life")
  ]

  const InformationTechnologySymbols: seq<SymbolEntry> := [
    SymbolEntry("HCLTECH.NS", "Information Technology", "HCL Technologies"),
    SymbolEntry("WIPRO.NS", "Information Technology", "Wipro"),
    SymbolEntry("TECHM.NS", "Information Technology", "Tech Mahindra"),
    SymbolEntry("LTIM.NS", "Information Technology", "LTIMindtree"),
    SymbolEntry("TATAELXSI.NS", "Information Technology", "Tata Elxsi")
  ]

  const ConsumerGoodsSymbols: seq<SymbolEntry> := [
    SymbolEntry("HINDUNILVR.NS", "Consumer Goods", "Hindustan Unilever"),
    SymbolEntry("NESTLEIND.NS", "Consumer Goods", "Nestle India"),
    SymbolEntry("BRITANNIA.NS", "Consumer Goods", "Britannia"),
    SymbolEntry("TATACONSUM.NS", "Consumer Goods", "Tata Consumer Products"),
    SymbolEntry("DABUR.NS", "Consumer Goods", "Dabur India")
  ]

  const AutomobilesSymbols: seq<SymbolEntry> := [
    SymbolEntry("MARUTI.NS", "Automobiles", "Maruti Suzuki"),
    SymbolEntry("M&M.NS", "Automobiles", "Mahindra & Mahindra"),
    SymbolEntry("TATAMOTORS.NS", "Automobiles", "Tata Motors"),
    SymbolEntry("BAJAJ-AUTO.NS", "Automobiles", "Bajaj Auto"),
    SymbolEntry("HEROMOTOCO.NS", "Automobiles", "Hero MotoCorp")
  ]

  const ConstructionSymbols: seq<SymbolEntry> := [
    SymbolEntry("ULTRACEMCO.NS", "Construction", "UltraTech Cement"),
    SymbolEntry("GRASIM.NS", "Construction", "Grasim Industries"),
    SymbolEntry("SHREECEM.NS", "Construction", "Shree Cement"),
    SymbolEntry("DLF.NS", "Construction", "DLF"),
    SymbolEntry("AMBUJACEM.NS", "Construction", "Ambuja Cements")
  ]

  const EnergySymbols: seq<SymbolEntry> := [
    SymbolEntry("NTPC.NS", "Energy", "NTPC"),
    SymbolEntry("POWERGRID.NS", "Energy", "Power Grid"),
    SymbolEntry("ONGC.NS", "Energy", "ONGC"),
    SymbolEntry("BPCL.NS", "Energy", "BPCL"),
    SymbolEntry("IOC.NS", "Energy", "IOC")
  ]

  const PharmaceuticalsSymbols: seq<SymbolEntry> := [
    SymbolEntry("SUNPHARMA.NS", "Pharmaceuticals", "Sun Pharma"),
    SymbolEntry("DRREDDY.NS", "Pharmaceuticals", "Dr. Reddy's"),
    SymbolEntry("CIPLA.NS", "Pharmaceuticals", "Cipla"),
    SymbolEntry("DIVISLAB.NS", "Pharmaceuticals", "Divi's Labs"),
    SymbolEntry("APOLLOHOSP.NS", "Pharmaceuticals", "Apollo Hospitals")
  ]

  const MetalsSymbols: seq<SymbolEntry> := [
    SymbolEntry("TATASTEEL.NS", "Metals", "Tata Steel"),
    SymbolEntry("JSWSTEEL.NS", "Metals", "JSW Steel"),
    SymbolEntry("HINDALCO.NS", "Metals", "Hindalco"),
    SymbolEntry("COALINDIA.NS", "Metals", "Coal India"),
    SymbolEntry("VEDL.NS", "Metals", "Vedanta")
  ]

  const TelecommunicationSymbols: seq<SymbolEntry> := [
    SymbolEntry("IDEA.NS", "Telecommunication", "Vodafone Idea"),
    SymbolEntry("TATACOMM.NS", "Telecommunication", "Tata Communications"),
    SymbolEntry("INDUSTOWER.NS", "Telecommunication", "Indus Towers"),
    SymbolEntry("TEJASNET.NS", "Telecommunication", "Tejas Networks")
  ]

  /** The bar interval the job asks for. */
  const Interval := "1m"

  /** The arguments of one download: the symbol, the interval and the [start, end) date window. */
  datatype Request = Request(symbol: string, interval: string, start: string, end: string)

  /** How a run ends: normally, or with the error raised before anything is written. */
  datatype Outcome = Completed | MissingRootFolder | DateOverflow

  /** The download request for `symbol` on run date `today`; None where computing the end date overflows. */
  function FetchRequest(symbol: string, today: Date): (r: Option<Request>)
    requires ValidDate(today)
    ensures r.None? <==> today == Date(MaxYear, 12, 31)
    ensures r.Some? ==> r.value.symbol == symbol && r.value.interval == Interval
  {
    match NextDay(today)
    case None => None
    case Some(tomorrow) => Some(Request(symbol, Interval, FormatDate(today, '-'), FormatDate(tomorrow, '-')))
  }

  /** The download window starts on the run date and ends exactly one calendar day later. */
  lemma FetchWindowIsOneDay(symbol: string, today: Date)
    requires ValidDate(today) && today != Date(MaxYear, 12, 31)
    ensures var r := FetchRequest(symbol, today).value;
      && ParseDate(r.start, '-') == Some(today)
      && ParseDate(r.end, '-').Some?
      && Ordinal(ParseDate(r.end, '-').value) == Ordinal(today) + 1
  {
    var tomorrow := NextDay(today).value;
    FormatDateRoundTrip(today, '-');
    FormatDateRoundTrip(tomorrow, '-');
    NextDayIsOneDayLater(today);
  }

  /** The company folder a resolved root/sector/company path ends in, if both folders exist. */
  function ResolvePath(nodes: seq<Node>, e: SymbolEntry, root: Id): Option<Id> {
    var sectors := FolderQuery(nodes, e.sector, root);
    if sectors == [] then None
    else
      var companies := FolderQuery(nodes, e.company, sectors[0]);
      if companies == [] then None else Some(companies[0])
  }

  /** A resolved path stays resolved to the same folder whatever is created afterwards. */
  lemma ResolvePathStable(nodes: seq<Node>, more: seq<Node>, e: SymbolEntry, root: Id)
    requires ResolvePath(nodes, e, root).Some?
    ensures ResolvePath(nodes + more, e, root) == ResolvePath(nodes, e, root)
  {
    var sectors := FolderQuery(nodes, e.sector, root);
    FolderQueryAppend(nodes, more, e.sector, root);
    FolderQueryAppend(nodes, more, e.company, sectors[0]);
  }

  /** The two `get_or_create_folder` calls: the sector folder under the root, then the company folder under it. */
  function ResolveFolders(st: State, e: SymbolEntry, root: Id): (Id, State) {
    var (sectorId, st1) := FindOrCreate(st, e.sector, root);
    FindOrCreate(st1, e.company, sectorId)
  }

  /**
   * Resolving appends at most the two missing folders and nothing else, and
   * the returned folder is what the path resolves to from then on, whatever is
   * created afterwards.
   */
  lemma ResolveFoldersSpec(st: State, e: SymbolEntry, root: Id, more: seq<Node>)
    requires st.Valid()
    ensures var (companyId, st') := ResolveFolders(st, e, root);
      && st'.Valid()
      && |st.nodes| <= |st'.nodes| <= |st.nodes| + 2
      && st'.nodes[..|st.nodes|] == st.nodes
      && (forall i :: |st.nodes| <= i < |st'.nodes| ==> st'.nodes[i].isFolder)
      && ResolvePath(st'.nodes + more, e, root) == Some(companyId)
  {
    var (sectorId, st1) := FindOrCreate(st, e.sector, root);
    var (companyId, st2) := FindOrCreate(st1, e.company, sectorId);
    FindOrCreateGrows(st, e.sector, root);
    FindOrCreateGrows(st1, e.company, sectorId);
    assert st2.nodes[..|st.nodes|] == st1.nodes[..|st.nodes|];
    assert st2.nodes + more == st1.nodes + (st2.nodes[|st1.nodes|..] + more);
    FindOrCreateStable(st, e.sector, root, st2.nodes[|st1.nodes|..] + more);
    FindOrCreateStable(st1, e.company, sectorId, more);
  }

  /** The frame downloaded for `e` on `today`. */
  function Fetched(e: SymbolEntry, today: Date, fetch: Request -> Frame): Frame
    requires ValidDate(today) && today != Date(MaxYear, 12, 31)
  {
    fetch(FetchRequest(e.symbol, today).value)
  }

  /** The file node the loop body uploads for `e`, given its id and the company folder it goes in. */
  function Upload(id: Id, e: SymbolEntry, today: Date, companyId: Id, fetch: Request -> Frame): Node
    requires ValidDate(today) && today != Date(MaxYear, 12, 31)
  {
    Node(id, ArtifactName(e.symbol, today), companyId, false, false, Normalize(Fetched(e, today, fetch)))
  }

  /** One pass of the loop body for entry `e`. */
  function Step(st: State, e: SymbolEntry, today: Date, root: Id, fetch: Request -> Frame): State
    requires ValidDate(today) && today != Date(MaxYear, 12, 31)
  {
    var frame := Fetched(e, today, fetch);
    if IsEmpty(frame) then st
    else
      var (companyId, st') := ResolveFolders(st, e, root);
      Create(st', ArtifactName(e.symbol, today), companyId, false, Normalize(frame)).1
  }

  /**
   * An instrument with no data leaves the store as it was. Any other
   * instrument appends at most two folders and then exactly one file, whose
   * name is the artifact name, whose rows are the normalized frame and whose
   * parent is the company folder the root/sector/company path now resolves to.
   */
  lemma StepSpec(st: State, e: SymbolEntry, today: Date, root: Id, fetch: Request -> Frame)
    requires st.Valid() && ValidDate(today) && today != Date(MaxYear, 12, 31)
    ensures var st' := Step(st, e, today, root, fetch);
      && st'.Valid()
      && (IsEmpty(Fetched(e, today, fetch)) ==> st' == st)
      && (!IsEmpty(Fetched(e, today, fetch)) ==>
            && |st.nodes| < |st'.nodes| <= |st.nodes| + 3
            && st'.nodes[..|st.nodes|] == st.nodes
            && (forall i :: |st.nodes| <= i < |st'.nodes| - 1 ==> st'.nodes[i].isFolder)
            && ResolvePath(st'.nodes, e, root).Some?
            && st'.nodes[|st'.nodes| - 1] == Upload(st'.nodes[|st'.nodes| - 1].id, e, today, ResolvePath(st'.nodes, e, root).value, fetch))
  {
    if !IsEmpty(Fetched(e, today, fetch)) {
      var (companyId, st2) := ResolveFolders(st, e, root);
      var file := Upload(st2.nextId, e, today, companyId, fetch);
      ResolveFoldersSpec(st, e, root, [file]);
      var st3 := Step(st, e, today, root, fetch);
      assert st3 == State(st2.nodes + [file], st2.nextId + 1);
      assert st3.nodes[..|st.nodes|] == st2.nodes[..|st.nodes|];
    }
  }

  /** The frame-free part of StepSpec: the store stays valid, only grows, and a non-empty instrument ends up resolved. */
  lemma StepGrows(st: State, e: SymbolEntry, today: Date, root: Id, fetch: Request -> Frame)
    requires st.Valid() && ValidDate(today) && today != Date(MaxYear, 12, 31)
    ensures var st' := Step(st, e, today, root, fetch);
      && st'.Valid()
      && |st.nodes| <= |st'.nodes|
      && st'.nodes == st.nodes + st'.nodes[|st.nodes|..]
      && (!IsEmpty(Fetched(e, today, fetch)) ==> ResolvePath(st'.nodes, e, root).Some?)
  {
    StepSpec(st, e, today, root, fetch);
    var st' := Step(st, e, today, root, fetch);
    assert st'.nodes == st'.nodes[..|st.nodes|] + st'.nodes[|st.nodes|..];
  }

  /** When the path is already resolved, a non-empty instrument appends exactly its file and no folder. */
  lemma StepWhenResolved(st: State, e: SymbolEntry, today: Date, root: Id, fetch: Request -> Frame)
    requires st.Valid() && ValidDate(today) && today != Date(MaxYear, 12, 31)
    requires ResolvePath(st.nodes, e, root).Some? && !IsEmpty(Fetched(e, today, fetch))
    ensures Step(st, e, today, root, fetch).nodes == st.nodes + [Upload(st.nextId, e, today, ResolvePath(st.nodes, e, root).value, fetch)]
  {
    FindOrCreateSpec(st, e.sector, root);
    var (sectorId, st1) := FindOrCreate(st, e.sector, root);
    FindOrCreateSpec(st1, e.company, sectorId);
    assert ResolveFolders(st, e, root) == (ResolvePath(st.nodes, e, root).value, st);
  }

  /**
   * Uploading never checks for an existing file: running the body twice for
   * the same non-empty instrument and date leaves two files with the same
   * name in the same folder, under different ids.
   */
  lemma StepTwiceDuplicatesFile(st: State, e: SymbolEntry, today: Date, root: Id, fetch: Request -> Frame)
    requires st.Valid() && ValidDate(today) && today != Date(MaxYear, 12, 31)
    requires !IsEmpty(Fetched(e, today, fetch))
    ensures var st1 := Step(st, e, today, root, fetch);
      var st2 := Step(st1, e, today, root, fetch);
      && |st2.nodes| == |st1.nodes| + 1
      && var a := st1.nodes[|st1.nodes| - 1];
      var b := st2.nodes[|st2.nodes| - 1];
      && !a.isFolder && !b.isFolder
      && a.name == b.name == ArtifactName(e.symbol, today)
      && a.parent == b.parent
      && a.id != b.id
  {
    var st1 := Step(st, e, today, root, fetch);
    StepSpec(st, e, today, root, fetch);
    StepWhenResolved(st1, e, today, root, fetch);
  }

  /** One pass of the loop body creates no duplicate folder: the sector and company folders are reused when they exist. */
  lemma StepNoDup(st: State, e: SymbolEntry, today: Date, root: Id, fetch: Request -> Frame)
    requires st.Valid() && NoDupFolders(st.nodes) && ValidDate(today) && today != Date(MaxYear, 12, 31)
    ensures NoDupFolders(Step(st, e, today, root, fetch).nodes)
  {
    if !IsEmpty(Fetched(e, today, fetch)) {
      var (sectorId, st1) := FindOrCreate(st, e.sector, root);
      FindOrCreateNoDup(st, e.sector, root);
      FindOrCreateGrows(st, e.sector, root);
      var (companyId, st2) := FindOrCreate(st1, e.company, sectorId);
      FindOrCreateNoDup(st1, e.company, sectorId);
      NoDupFoldersAppend(st2.nodes, Upload(st2.nextId, e, today, companyId, fetch));
    }
  }

  /** The loop after it has processed every entry of `table`, from store `st`. */
  function RunSpec(st: State, table: seq<SymbolEntry>, today: Date, root: Id, fetch: Request -> Frame): State
    requires ValidDate(today) && (table != [] ==> today != Date(MaxYear, 12, 31))
    decreases |table|
  {
    if table == [] then st
    else Step(RunSpec(st, table[..|table| - 1], today, root, fetch), table[|table| - 1], today, root, fetch)
  }

  /** How many entries of `table` get data. */
  function NonEmptyCount(table: seq<SymbolEntry>, today: Date, fetch: Request -> Frame): nat
    requires ValidDate(today) && (table != [] ==> today != Date(MaxYear, 12, 31))
    decreases |table|
  {
    if table == [] then 0
    else NonEmptyCount(table[..|table| - 1], today, fetch) + (if IsEmpty(Fetched(table[|table| - 1], today, fetch)) then 0 else 1)
  }

  /** The download for `e` returned at least one row. */
  predicate HasData(e: SymbolEntry, today: Date, fetch: Request -> Frame)
    requires ValidDate(today) && today != Date(MaxYear, 12, 31)
  {
    !IsEmpty(Fetched(e, today, fetch))
  }

  /** Every instrument of `table` that has data has its root/sector/company path resolved in `nodes`. */
  predicate AllResolved(nodes: seq<Node>, table: seq<SymbolEntry>, today: Date, root: Id, fetch: Request -> Frame)
    requires ValidDate(today) && (table != [] ==> today != Date(MaxYear, 12, 31))
  {
    forall k :: 0 <= k < |table| && HasData(table[k], today, fetch) ==> ResolvePath(nodes, table[k], root).Some?
  }

  predicate NoFolders(ns: seq<Node>) {
    forall i :: 0 <= i < |ns| ==> !ns[i].isFolder
  }

  lemma AllResolvedStable(nodes: seq<Node>, more: seq<Node>, table: seq<SymbolEntry>, today: Date, root: Id, fetch: Request -> Frame)
    requires ValidDate(today) && (table != [] ==> today != Date(MaxYear, 12, 31))
    requires AllResolved(nodes, table, today, root, fetch)
    ensures AllResolved(nodes + more, table, today, root, fetch)
  {
    forall k | 0 <= k < |table| && HasData(table[k], today, fetch)
      ensures ResolvePath(nodes + more, table[k], root).Some?
    {
      ResolvePathStable(nodes, more, table[k], root);
    }
  }

  lemma AllResolvedSplit(nodes: seq<Node>, table: seq<SymbolEntry>, today: Date, root: Id, fetch: Request -> Frame)
    requires ValidDate(today) && table != [] && today != Date(MaxYear, 12, 31)
    ensures AllResolved(nodes, table, today, root, fetch) <==>
      && AllResolved(nodes, table[..|table| - 1], today, root, fetch)
      && (HasData(table[|table| - 1], today, fetch) ==> ResolvePath(nodes, table[|table| - 1], root).Some?)
  {
    var prefix := table[..|table| - 1];
    if AllResolved(nodes, table, today, root, fetch) {
      forall k | 0 <= k < |prefix| && HasData(prefix[k], today, fetch)
        ensures ResolvePath(nodes, prefix[k], root).Some?
      {
        assert prefix[k] == table[k];
      }
    }
    if AllResolved(nodes, prefix, today, root, fetch) {
      forall k | 0 <= k < |table| - 1 && HasData(table[k], today, fetch)
        ensures ResolvePath(nodes, table[k], root).Some?
      {
        assert prefix[k] == table[k];
      }
    }
  }

  /** Node `i` of `nodes` is the file uploaded for `e` on `today`, inside the company folder `e`'s path resolves to. */
  predicate ArchivedAt(nodes: seq<Node>, i: int, e: SymbolEntry, today: Date, root: Id, fetch: Request -> Frame)
    requires ValidDate(today) && today != Date(MaxYear, 12, 31)
  {
    && 0 <= i < |nodes|
    && ResolvePath(nodes, e, root).Some?
    && nodes[i] == Upload(nodes[i].id, e, today, ResolvePath(nodes, e, root).value, fetch)
  }

  /** The file of `e` on `today` is among `nodes[lo..hi]`. */
  predicate ArchivedBetween(nodes: seq<Node>, lo: int, hi: int, e: SymbolEntry, today: Date, root: Id, fetch: Request -> Frame)
    requires ValidDate(today) && today != Date(MaxYear, 12, 31)
  {
    exists i :: lo <= i < hi && ArchivedAt(nodes, i, e, today, root, fetch)
  }

  /** Every instrument of `table` that has data has its file among `nodes[lo..hi]`. */
  predicate ArchivedIn(nodes: seq<Node>, lo: int, hi: int, table: seq<SymbolEntry>, today: Date, root: Id, fetch: Request -> Frame)
    requires ValidDate(today) && (table != [] ==> today != Date(MaxYear, 12, 31))
  {
    forall k :: 0 <= k < |table| && HasData(table[k], today, fetch) ==> ArchivedBetween(nodes, lo, hi, table[k], today, root, fetch)
  }

  /** Every node of `nodes` from position `lo` on is the file of an instrument of `table` that has data. */
  predicate OnlyArchives(nodes: seq<Node>, lo: int, table: seq<SymbolEntry>, today: Date, root: Id, fetch: Request -> Frame)
    requires ValidDate(today) && (table != [] ==> today != Date(MaxYear, 12, 31))
  {
    forall i :: lo <= i < |nodes| ==> IsArchiveOf(nodes, i, table, today, root, fetch)
  }

  /** Node `i` of `nodes` is the file of some instrument of `table` that has data. */
  predicate IsArchiveOf(nodes: seq<Node>, i: int, table: seq<SymbolEntry>, today: Date, root: Id, fetch: Request -> Frame)
    requires ValidDate(today) && (table != [] ==> today != Date(MaxYear, 12, 31))
  {
    exists k :: 0 <= k < |table| && HasData(table[k], today, fetch) && ArchivedAt(nodes, i, table[k], today, root, fetch)
  }

  lemma ArchivedAtStable(nodes: seq<Node>, more: seq<Node>, i: int, e: SymbolEntry, today: Date, root: Id, fetch: Request -> Frame)
    requires ValidDate(today) && today != Date(MaxYear, 12, 31)
    requires ArchivedAt(nodes, i, e, today, root, fetch)
    ensures ArchivedAt(nodes + more, i, e, today, root, fetch)
  {
    ResolvePathStable(nodes, more, e, root);
    assert (nodes + more)[i] == nodes[i];
  }

  lemma ArchivedInStable(nodes: seq<Node>, more: seq<Node>, lo: int, hi: int, hi': int, table: seq<SymbolEntry>, today: Date, root: Id, fetch: Request -> Frame)
    requires ValidDate(today) && (table != [] ==> today != Date(MaxYear, 12, 31))
    requires ArchivedIn(nodes, lo, hi, table, today, root, fetch) && hi <= hi'
    ensures ArchivedIn(nodes + more, lo, hi', table, today, root, fetch)
  {
    forall k | 0 <= k < |table| && HasData(table[k], today, fetch)
      ensures ArchivedBetween(nodes + more, lo, hi', table[k], today, root, fetch)
    {
      var i :| lo <= i < hi && ArchivedAt(nodes, i, table[k], today, root, fetch);
      ArchivedAtStable(nodes, more, i, table[k], today, root, fetch);
    }
  }

  lemma ArchivedInSplit(nodes: seq<Node>, lo: int, hi: int, table: seq<SymbolEntry>, today: Date, root: Id, fetch: Request -> Frame)
    requires ValidDate(today) && table != [] && today != Date(MaxYear, 12, 31)
    requires ArchivedIn(nodes, lo, hi, table[..|table| - 1], today, root, fetch)
    requires HasData(table[|table| - 1], today, fetch) ==> ArchivedBetween(nodes, lo, hi, table[|table| - 1], today, root, fetch)
    ensures ArchivedIn(nodes, lo, hi, table, today, root, fetch)
  {
    var prefix := table[..|table| - 1];
    forall k | 0 <= k < |table| - 1 && HasData(table[k], today, fetch)
      ensures ArchivedBetween(nodes, lo, hi, table[k], today, root, fetch)
    {
      assert prefix[k] == table[k];
    }
  }

  lemma IsArchiveOfExtend(nodes: seq<Node>, more: seq<Node>, i: int, table: seq<SymbolEntry>, today: Date, root: Id, fetch: Request -> Frame)
    requires ValidDate(today) && table != [] && today != Date(MaxYear, 12, 31)
    requires IsArchiveOf(nodes, i, table[..|table| - 1], today, root, fetch)
    ensures IsArchiveOf(nodes + more, i, table, today, root, fetch)
  {
    var prefix := table[..|table| - 1];
    var k :| 0 <= k < |prefix| && HasData(prefix[k], today, fetch) && ArchivedAt(nodes, i, prefix[k], today, root, fetch);
    assert prefix[k] == table[k];
    ArchivedAtStable(nodes, more, i, table[k], today, root, fetch);
  }

  /** A run only adds nodes: what was in the store before is still there, unchanged and in place. */
  lemma {:induction false} RunOnlyAppends(st: State, table: seq<SymbolEntry>, today: Date, root: Id, fetch: Request -> Frame)
    requires st.Valid() && ValidDate(today) && (table != [] ==> today != Date(MaxYear, 12, 31))
    ensures var st' := RunSpec(st, table, today, root, fetch);
      st'.Valid() && st.nodes <= st'.nodes
    decreases |table|
  {
    if table != [] {
      var prefix := table[..|table| - 1];
      RunOnlyAppends(st, prefix, today, root, fetch);
      var mid := RunSpec(st, prefix, today, root, fetch);
      StepGrows(mid, table[|table| - 1], today, root, fetch);
    }
  }

  /**
   * A run never creates a second live folder with the same name under the
   * same parent; from a store without such duplicates, every folder query the
   * job makes lists at most one id.
   */
  lemma {:induction false} RunNoDup(st: State, table: seq<SymbolEntry>, today: Date, root: Id, fetch: Request -> Frame)
    requires st.Valid() && NoDupFolders(st.nodes) && ValidDate(today) && (table != [] ==> today != Date(MaxYear, 12, 31))
    ensures NoDupFolders(RunSpec(st, table, today, root, fetch).nodes)
    decreases |table|
  {
    if table != [] {
      var prefix := table[..|table| - 1];
      RunNoDup(st, prefix, today, root, fetch);
      RunOnlyAppends(st, prefix, today, root, fetch);
      StepNoDup(RunSpec(st, prefix, today, root, fetch), table[|table| - 1], today, root, fetch);
    }
  }

  /** The instrument universe has 55 entries, one per key of the source's table. */
  lemma SymbolMapSize()
    ensures |SymbolMap| == 55
    ensures SymbolMap[0] == SymbolEntry("^NSEI", "Nifty", "Nifty 50")
  {
  }

  /** After a run, every instrument of the table that had data has its root/sector/company path resolved. */
  lemma {:induction false} RunResolvesAll(st: State, table: seq<SymbolEntry>, today: Date, root: Id, fetch: Request -> Frame)
    requires st.Valid() && ValidDate(today) && (table != [] ==> today != Date(MaxYear, 12, 31))
    ensures AllResolved(RunSpec(st, table, today, root, fetch).nodes, table, today, root, fetch)
    decreases |table|
  {
    if table != [] {
      var prefix := table[..|table| - 1];
      var last := table[|table| - 1];
      RunResolvesAll(st, prefix, today, root, fetch);
      RunOnlyAppends(st, prefix, today, root, fetch);
      var mid := RunSpec(st, prefix, today, root, fetch);
      var fin := Step(mid, last, today, root, fetch);
      StepGrows(mid, last, today, root, fetch);
      AllResolvedStable(mid.nodes, fin.nodes[|mid.nodes|..], prefix, today, root, fetch);
      AllResolvedSplit(fin.nodes, table, today, root, fetch);
    }
  }

  /** After a run, every instrument of the table that had data has its file among the appended nodes. */
  lemma {:induction false} RunArchivesAll(st: State, table: seq<SymbolEntry>, today: Date, root: Id, fetch: Request -> Frame)
    requires st.Valid() && ValidDate(today) && (table != [] ==> today != Date(MaxYear, 12, 31))
    ensures var st' := RunSpec(st, table, today, root, fetch);
      ArchivedIn(st'.nodes, |st.nodes|, |st'.nodes|, table, today, root, fetch)
    decreases |table|
  {
    if table != [] {
      var prefix := table[..|table| - 1];
      var last := table[|table| - 1];
      RunArchivesAll(st, prefix, today, root, fetch);
      RunOnlyAppends(st, prefix, today, root, fetch);
      var mid := RunSpec(st, prefix, today, root, fetch);
      var fin := Step(mid, last, today, root, fetch);
      StepSpec(mid, last, today, root, fetch);
      StepGrows(mid, last, today, root, fetch);
      ArchivedInStable(mid.nodes, fin.nodes[|mid.nodes|..], |st.nodes|, |mid.nodes|, |fin.nodes|, prefix, today, root, fetch);
      if HasData(last, today, fetch) {
        assert ArchivedAt(fin.nodes, |fin.nodes| - 1, last, today, root, fetch);
      }
      ArchivedInSplit(fin.nodes, |st.nodes|, |fin.nodes|, table, today, root, fetch);
    }
  }

  /** Starting from a store where every instrument with data is resolved, every node a run appends is the file of such an instrument. */
  lemma {:induction false} RunAppendsOnlyArchives(st: State, table: seq<SymbolEntry>, today: Date, root: Id, fetch: Request -> Frame)
    requires st.Valid() && ValidDate(today) && (table != [] ==> today != Date(MaxYear, 12, 31))
    requires AllResolved(st.nodes, table, today, root, fetch)
    ensures OnlyArchives(RunSpec(st, table, today, root, fetch).nodes, |st.nodes|, table, today, root, fetch)
    decreases |table|
  {
    if table != [] {
      var prefix := table[..|table| - 1];
      var last := table[|table| - 1];
      AllResolvedSplit(st.nodes, table, today, root, fetch);
      RunAppendsOnlyArchives(st, prefix, today, root, fetch);
      RunOnlyAppends(st, prefix, today, root, fetch);
      var mid := RunSpec(st, prefix, today, root, fetch);
      var fin := Step(mid, last, today, root, fetch);
      var more := fin.nodes[|mid.nodes|..];
      if HasData(last, today, fetch) {
        var added := mid.nodes[|st.nodes|..];
        assert mid.nodes == st.nodes + added;
        ResolvePathStable(st.nodes, added, last, root);
        StepWhenResolved(mid, last, today, root, fetch);
        assert more == [fin.nodes[|mid.nodes|]];
        ResolvePathStable(mid.nodes, more, last, root);
        assert ArchivedAt(fin.nodes, |mid.nodes|, last, today, root, fetch);
      } else {
        assert more == [];
      }
      assert fin.nodes == mid.nodes + more;
      forall i | |st.nodes| <= i < |fin.nodes|
        ensures IsArchiveOf(fin.nodes, i, table, today, root, fetch)
      {
        if i < |mid.nodes| {
          IsArchiveOfExtend(mid.nodes, more, i, table, today, root, fetch);
        } else {
          assert ArchivedAt(fin.nodes, i, table[|table| - 1], today, root, fetch);
        }
      }
    }
  }

  /** Starting from a store where every instrument with data is resolved, a run appends one node per instrument with data and no folder. */
  lemma {:induction false} RunAppendCount(st: State, table: seq<SymbolEntry>, today: Date, root: Id, fetch: Request -> Frame)
    requires st.Valid() && ValidDate(today) && (table != [] ==> today != Date(MaxYear, 12, 31))
    requires AllResolved(st.nodes, table, today, root, fetch)
    ensures var st' := RunSpec(st, table, today, root, fetch);
      && st.nodes <= st'.nodes
      && |st'.nodes| == |st.nodes| + NonEmptyCount(table, today, fetch)
      && NoFolders(st'.nodes[|st.nodes|..])
    decreases |table|
  {
    if table != [] {
      var prefix := table[..|table| - 1];
      var last := table[|table| - 1];
      AllResolvedSplit(st.nodes, table, today, root, fetch);
      RunAppendCount(st, prefix, today, root, fetch);
      RunOnlyAppends(st, prefix, today, root, fetch);
      var mid := RunSpec(st, prefix, today, root, fetch);
      if HasData(last, today, fetch) {
        var added := mid.nodes[|st.nodes|..];
        assert mid.nodes == st.nodes + added;
        ResolvePathStable(st.nodes, added, last, root);
        StepWhenResolved(mid, last, today, root, fetch);
        var file := Upload(mid.nextId, last, today, ResolvePath(mid.nodes, last, root).value, fetch);
        var fin := Step(mid, last, today, root, fetch);
        assert fin.nodes[|st.nodes|..] == added + [file];
      }
    }
  }

  /**
   * Starting from a store where every instrument with data is resolved, a run
   * appends no folder and exactly one node per instrument with data: each
   * appended node is the file of such an instrument, and each such instrument
   * has its file among them.
   */
  lemma RunWhenResolved(st: State, table: seq<SymbolEntry>, today: Date, root: Id, fetch: Request -> Frame)
    requires st.Valid() && ValidDate(today) && (table != [] ==> today != Date(MaxYear, 12, 31))
    requires AllResolved(st.nodes, table, today, root, fetch)
    ensures var st' := RunSpec(st, table, today, root, fetch);
      && st.nodes <= st'.nodes
      && |st'.nodes| == |st.nodes| + NonEmptyCount(table, today, fetch)
      && NoFolders(st'.nodes[|st.nodes|..])
      && OnlyArchives(st'.nodes, |st.nodes|, table, today, root, fetch)
      && ArchivedIn(st'.nodes, |st.nodes|, |st'.nodes|, table, today, root, fetch)
  {
    RunAppendCount(st, table, today, root, fetch);
    RunAppendsOnlyArchives(st, table, today, root, fetch);
    RunArchivesAll(st, table, today, root, fetch);
  }

  /**
   * Rerunning the job on the same date with the same data creates no folder
   * and uploads a second file for every instrument that had data: the store
   * ends up with two files of the same name, parent and rows, one from each
   * run, rather than one file per symbol and date.
   */
  lemma RerunAddsOnlyFiles(st: State, table: seq<SymbolEntry>, today: Date, root: Id, fetch: Request -> Frame)
    requires st.Valid() && ValidDate(today) && (table != [] ==> today != Date(MaxYear, 12, 31))
    ensures var first := RunSpec(st, table, today, root, fetch);
      var second := RunSpec(first, table, today, root, fetch);
      && second.Valid()
      && first.nodes <= second.nodes
      && |second.nodes| == |first.nodes| + NonEmptyCount(table, today, fetch)
      && NoFolders(second.nodes[|first.nodes|..])
      && OnlyArchives(second.nodes, |first.nodes|, table, today, root, fetch)
      && ArchivedIn(second.nodes, |st.nodes|, |first.nodes|, table, today, root, fetch)
      && ArchivedIn(second.nodes, |first.nodes|, |second.nodes|, table, today, root, fetch)
  {
    var first := RunSpec(st, table, today, root, fetch);
    var second := RunSpec(first, table, today, root, fetch);
    RunOnlyAppends(st, table, today, root, fetch);
    RunOnlyAppends(first, table, today, root, fetch);
    RunResolvesAll(st, table, today, root, fetch);
    RunArchivesAll(st, table, today, root, fetch);
    RunWhenResolved(first, table, today, root, fetch);
    assert second.nodes == first.nodes + second.nodes[|first.nodes|..];
    ArchivedInStable(first.nodes, second.nodes[|first.nodes|..], |st.nodes|, |first.nodes|, |first.nodes|, table, today, root, fetch);
  }

  /**
   * The archived example day: RELIANCE.NS on 2026-01-14 with 375 bars is
   * downloaded for [2026-01-14, 2026-01-15) and uploaded as
   * RELIANCE_NS_2026_01_14.parquet holding 375 rows, inside the folder that
   * root/Nifty/Reliance Industries resolves to. The entry and the date are
   * parameters pinned by `requires`, so that the solver meets the table literal
   * and the date as single terms.
   */
  lemma RelianceExample(st: State, e: SymbolEntry, today: Date, root: Id, fetch: Request -> Frame)
    requires st.Valid() && e == SymbolMap[1] && today == Date(2026, 1, 14)
    requires RowCount(Fetched(e, today, fetch)) == 375
    ensures e == SymbolEntry("RELIANCE.NS", "Nifty", "Reliance Industries")
    ensures FetchRequest(e.symbol, today) == Some(Request("RELIANCE.NS", "1m", "2026-01-14", "2026-01-15"))
    ensures var st' := Step(st, e, today, root, fetch);
      var file := st'.nodes[|st'.nodes| - 1];
      && |st'.nodes| > |st.nodes|
      && file.name == "RELIANCE_NS_2026_01_14.parquet"
      && !file.isFolder
      && |file.content| == 375
      && ResolvePath(st'.nodes, e, root) == Some(file.parent)
  {
    assert e == SymbolEntry("RELIANCE.NS", "Nifty", "Reliance Industries");
    FormatDateExample(today);
    StepSpec(st, e, today, root, fetch);
    ArtifactNameExample(e.symbol, today);
  }

  /**
   * `main`: fail before the loop without a root folder id; otherwise run the
   * loop body for every entry in order, skipping entries without data. Computing
   * the end date overflows only on 9999-12-31, which aborts at the first entry.
   */
  method RunDailyJob(drive: Drive, table: seq<SymbolEntry>, today: Date, root: Option<Id>, fetch: Request -> Frame)
    returns (outcome: Outcome)
    requires drive.Valid() && ValidDate(today)
    modifies drive
    ensures drive.Valid()
    ensures outcome == MissingRootFolder <==> root.None?
    ensures outcome == DateOverflow <==> root.Some? && table != [] && today == Date(MaxYear, 12, 31)
    ensures outcome != Completed ==> drive.Snapshot() == old(drive.Snapshot())
    ensures outcome == Completed ==>
      && root.Some?
      && (table != [] ==> today != Date(MaxYear, 12, 31))
      && drive.Snapshot() == RunSpec(old(drive.Snapshot()), table, today, root.value, fetch)
  {
    if root.None? {
      return MissingRootFolder;
    }
    var rootId := root.value;
    var targetDate := FormatDate(today, '-');
    ghost var start := drive.Snapshot();
    for i := 0 to |table|
      invariant drive.Valid()
      invariant i > 0 ==> today != Date(MaxYear, 12, 31)
      invariant drive.Snapshot() == RunSpec(start, table[..i], today, rootId, fetch)
    {
      var e := table[i];
      var tomorrow := NextDay(today);
      if tomorrow.None? {
        return DateOverflow;
      }
      var frame := fetch(Request(e.symbol, Interval, targetDate, FormatDate(tomorrow.value, '-')));
      assert table[..i + 1][..i] == table[..i];
      if IsEmpty(frame) {
        continue;
      }
      var rows := Normalize(frame);
      var sectorId := GetOrCreateFolder(drive, e.sector, rootId);
      var companyId := GetOrCreateFolder(drive, e.company, sectorId);
      var filename := ArtifactName(e.symbol, today);
      var _ := drive.CreateNode(filename, companyId, false, rows);
    }
    assert table[..|table|] == table;
    return Completed;
  }
}
