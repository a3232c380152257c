/**
 * The extension host side: `SymbolScanner.getAllSymbols`, which normalises
 * the host's workspace symbol result, the reveal lookups, the fixed kind
 * table, and `SymbolViewProvider`, which keeps the panel's last symbols,
 * filter and loading flag and posts them to the webview.
 *
 * Calls into the host editor are not made here: their results are inputs
 * (`HostResult`, and a `lookup` function standing for the by-name query), and
 * each `postMessage` is recorded by appending to the provider's `posted`
 * outbox.
 */
module Extension {
  import opened Wrappers
  import opened Symbols

  datatype Position = Position(line: nat, character: nat)

  datatype Range = Range(start: Position, end: Position)

  /** A symbol's location as the host reports it; the range may be missing. */
  datatype Location = Location(uri: string, range: Option<Range>)

  /** One entry of the host's workspace symbol result, before normalisation. */
  datatype RawSymbol = RawSymbol(name: string, kind: int, containerName: Option<string>, location: Option<Location>)

  /** A thrown value: its `message` (empty when missing) and its `String(e)` rendering. */
  datatype Thrown = Thrown(message: string, rendered: string)

  /** What `executeWorkspaceSymbolProvider` gave back: a list, something else, or a failure. */
  datatype HostResult = Returned(items: seq<RawSymbol>) | NotAList | Threw(error: Thrown)

  /** The result of a scan and the error notification it raised, if any. */
  datatype Scan = Scan(symbols: seq<Symbol>, errorShown: Option<string>)

  const ScanErrorPrefix: string := "Failed to scan symbols: "

  /** `e && e.message ? e.message : String(e)`. */
  function ErrorText(e: Thrown): string
  {
    if e.message != "" then e.message else e.rendered
  }

  /** One record of `all.map(...)`: name and kind copied, container defaulted, no users. */
  function Normalize(raw: RawSymbol): (s: Symbol)
    ensures s.name == raw.name && s.kind == raw.kind && s.usedBy == []
    ensures s.containerName == "" <==> raw.containerName in {None, Some("")}
    ensures raw.containerName.Some? ==> s.containerName == raw.containerName.value
  {
    Symbol(raw.name, raw.kind, OrEmpty(raw.containerName), [])
  }

  /** `all.map(...)`: one normalised record per raw entry, in the same order. */
  function NormalizeAll(raws: seq<RawSymbol>): (r: seq<Symbol>)
    ensures |r| == |raws|
    ensures forall i :: 0 <= i < |raws| ==> r[i] == Normalize(raws[i])
  {
    if raws == [] then [] else [Normalize(raws[0])] + NormalizeAll(raws[1..])
  }

  /**
   * `getAllSymbols`: the normalised list when the host returned a list, an
   * empty list otherwise, and an error notification exactly when the host
   * call failed.
   */
  function GetAllSymbols(result: HostResult): (r: Scan)
    ensures result.Returned? ==> r.symbols == NormalizeAll(result.items)
    ensures !result.Returned? ==> r.symbols == []
    ensures r.errorShown.Some? <==> result.Threw?
    ensures result.Threw? ==> r.errorShown == Some(ScanErrorPrefix + ErrorText(result.error))
  {
    match result
    case Returned(items) => Scan(NormalizeAll(items), None)
    case NotAList => Scan([], None)
    case Threw(e) => Scan([], Some(ScanErrorPrefix + ErrorText(e)))
  }

  /** A one-entry host result with an empty container normalises to one record with no users. */
  lemma ScanExample()
    ensures GetAllSymbols(Returned([RawSymbol("foo", 11, Some(""), None)])) == Scan([Symbol("foo", 11, "", [])], None)
  {
    var raws := [RawSymbol("foo", 11, Some(""), None)];
    assert NormalizeAll(raws) == [Normalize(raws[0])];
  }

  /** `xs.find(p)`, as the position of the first element satisfying `p`. */
  function FindFirst<T>(xs: seq<T>, p: T -> bool): (r: Option<nat>)
    ensures r.Some? ==> IsFirst(xs, p, r.value)
    ensures r.None? ==> forall j :: 0 <= j < |xs| ==> !p(xs[j])
  {
    if xs == [] then None
    else if p(xs[0]) then Some(0)
    else match FindFirst(xs[1..], p)
      case Some(i) => Some(i + 1)
      case None => None
  }

  /** `xs[i]` satisfies `p` and no earlier element does. */
  ghost predicate IsFirst<T>(xs: seq<T>, p: T -> bool, i: int)
  {
    0 <= i < |xs| && p(xs[i]) && forall j :: 0 <= j < i ==> !p(xs[j])
  }

  /** `s => s.name === name`. */
  function NameIs(name: string): (p: Symbol -> bool)
    ensures forall s: Symbol :: p(s) <==> s.name == name
  {
    (s: Symbol) => s.name == name
  }

  /** The host entry denotes the stored symbol: same name, kind and `containerName || ''`. */
  predicate Matches(raw: RawSymbol, symbol: Symbol)
  {
    raw.name == symbol.name && raw.kind == symbol.kind && OrEmpty(raw.containerName) == symbol.containerName
  }

  function MatchesSymbol(symbol: Symbol): RawSymbol -> bool
  {
    (raw: RawSymbol) => Matches(raw, symbol)
  }

  /** What a reveal request does to the editor. */
  datatype RevealAction = NoNavigation | Navigate(uri: string, selection: Option<Range>)

  /** Open the document of a match that has a location; select its range when it has one. */
  function NavigateTo(location: Option<Location>): (r: RevealAction)
    ensures r.Navigate? <==> location.Some?
    ensures location.Some? ==> r.uri == location.value.uri && r.selection == location.value.range
  {
    match location
    case Some(l) => Navigate(l.uri, l.range)
    case None => NoNavigation
  }

  /**
   * The `reveal` message handler. `lookup` stands for the host query by name
   * that the handler issues for the symbol it found.
   */
  function Reveal(name: Option<string>, lastSymbols: seq<Symbol>, lookup: string -> HostResult): (r: RevealAction)
    ensures r.Navigate? ==> name.Some? && name.value != ""
    ensures r.Navigate? ==> exists i :: 0 <= i < |lastSymbols| && lastSymbols[i].name == name.value
    ensures r.Navigate? ==> lookup(name.value).Returned?
    ensures r.Navigate? ==>
      exists j :: 0 <= j < |lookup(name.value).items| && lookup(name.value).items[j].location == Some(Location(r.uri, r.selection))
  {
    if name.None? || name.value == "" then NoNavigation
    else match FindFirst(lastSymbols, NameIs(name.value))
      case None => NoNavigation
      case Some(i) =>
        match lookup(lastSymbols[i].name)
        case Returned(all) =>
          (match FindFirst(all, MatchesSymbol(lastSymbols[i]))
           case Some(j) => NavigateTo(all[j].location)
           case None => NoNavigation)
        case _ => NoNavigation
  }

  /**
   * The chain of lookups a reveal follows: a truthy name, the first stored
   * symbol `i` with that name, a list from the host, and its first entry `j`
   * matching symbol `i`.
   */
  ghost predicate RevealChain(name: Option<string>, lastSymbols: seq<Symbol>, lookup: string -> HostResult, i: int, j: int)
  {
    && name.Some? && name.value != ""
    && IsFirst(lastSymbols, NameIs(name.value), i)
    && lookup(name.value).Returned?
    && IsFirst(lookup(name.value).items, MatchesSymbol(lastSymbols[i]), j)
  }

  /**
   * A reveal navigates only along its chain: to the location of the first
   * host entry matching the first stored symbol with the requested name, and
   * it does nothing when that chain breaks anywhere or the match has no
   * location.
   */
  lemma RevealSpec(name: Option<string>, lastSymbols: seq<Symbol>, lookup: string -> HostResult)
    ensures forall i, j :: RevealChain(name, lastSymbols, lookup, i, j) ==>
              Reveal(name, lastSymbols, lookup) == NavigateTo(lookup(name.value).items[j].location)
    ensures (forall i, j :: !RevealChain(name, lastSymbols, lookup, i, j)) ==>
              Reveal(name, lastSymbols, lookup) == NoNavigation
  {
    if name.Some? && name.value != "" {
      var found := FindFirst(lastSymbols, NameIs(name.value));
      if found.Some? {
        var i := found.value;
        FirstIsUnique(lastSymbols, NameIs(name.value), i);
        var answer := lookup(lastSymbols[i].name);
        if answer.Returned? {
          var m := FindFirst(answer.items, MatchesSymbol(lastSymbols[i]));
          if m.Some? {
            forall i', j' | RevealChain(name, lastSymbols, lookup, i', j')
              ensures i' == i && j' == m.value
            {
              FirstIsUnique(answer.items, MatchesSymbol(lastSymbols[i]), m.value);
            }
            assert RevealChain(name, lastSymbols, lookup, i, m.value);
          }
        }
      }
    }
  }

  /** Only one position can be the first satisfying `p`. */
  lemma FirstIsUnique<T>(xs: seq<T>, p: T -> bool, i: nat)
    requires IsFirst(xs, p, i)
    ensures forall k :: IsFirst(xs, p, k) ==> k == i
  {
  }

  /** Every normalised record matches the raw entry it came from. */
  lemma NormalizedMatchesItsSource(raw: RawSymbol)
    ensures Matches(raw, Normalize(raw))
  {
  }

  /**
   * Right after a scan, revealing a name the scan produced navigates, provided
   * the host answers the by-name query with the same list and its entries
   * carry locations.
   */
  lemma RevealAfterScan(raws: seq<RawSymbol>, lastSymbols: seq<Symbol>, k: nat, lookup: string -> HostResult)
    requires lastSymbols == GetAllSymbols(Returned(raws)).symbols
    requires k < |raws| && raws[k].name != ""
    requires lookup(raws[k].name) == Returned(raws)
    requires forall j :: 0 <= j < |raws| ==> raws[j].location.Some?
    ensures Reveal(Some(raws[k].name), lastSymbols, lookup).Navigate?
  {
    var n := raws[k].name;
    assert NameIs(n)(lastSymbols[k]);
    var i := FindFirst(lastSymbols, NameIs(n)).value;
    NormalizedMatchesItsSource(raws[i]);
    assert MatchesSymbol(lastSymbols[i])(raws[i]);
  }

  /** The number of symbol kinds the panel names. */
  const KindCount: nat := 26

  /** The display name of symbol kind `k`, for kinds 0 to 25. */
  function KindName(k: nat): (name: string)
    requires k < KindCount
    ensures |name| > 0
  {
    match k
    case 0 => "File"
    case 1 => "Module"
    case 2 => "Namespace"
    case 3 => "Package"
    case 4 => "Class"
    case 5 => "Method"
    case 6 => "Property"
    case 7 => "Field"
    case 8 => "Constructor"
    case 9 => "Enum"
    case 10 => "Interface"
    case 11 => "Function"
    case 12 => "Variable"
    case 13 => "Constant"
    case 14 => "String"
    case 15 => "Number"
    case 16 => "Boolean"
    case 17 => "Array"
    case 18 => "Object"
    case 19 => "Key"
    case 20 => "Null"
    case 21 => "EnumMember"
    case 22 => "Struct"
    case 23 => "Event"
    case 24 => "Operator"
    case _ => "TypeParameter"
  }

  /** The provider's `kindMap`: `String(k)` to the label of kind `k`. */
  function KindMap(): (m: map<string, string>)
    ensures forall k :: 0 <= k < KindCount ==> DecimalString(k) in m && m[DecimalString(k)] == KindName(k)
  {
    DecimalStringInjectiveAll();
    map k | 0 <= k < KindCount :: DecimalString(k) := KindName(k)
  }

  /** The kind table has exactly the keys `"0"` to `"25"`, each bound to its kind's name. */
  lemma KindMapEntries(k: int)
    ensures DecimalString(k) in KindMap() <==> 0 <= k < KindCount
    ensures 0 <= k < KindCount ==> KindMap()[DecimalString(k)] == KindName(k)
    ensures KindMap().Keys == set i | 0 <= i < KindCount :: DecimalString(i)
  {
    DecimalStringInjectiveAll();
  }

  /** The label shown for a kind is its name for kinds 0 to 25, and the raw number otherwise. */
  lemma KindLabels(k: int)
    ensures LabelOf(KindMap(), k) == if 0 <= k < KindCount then Named(KindName(k)) else Numeric(k)
  {
    KindMapEntries(k);
  }

  /** Messages the provider posts to the webview. */
  datatype Outgoing =
    | Data(symbols: seq<Symbol>, filter: string, kindMap: map<string, string>, version: string, loading: bool)
    | SetTheme(theme: int)

  /** Messages the webview sends to the provider. */
  datatype Incoming = GetTheme | Filter(query: Option<string>) | RevealRequest(name: Option<string>) | OtherCommand

  /** `packageJSON.version || 'dev'`, where a missing extension record also leaves `'dev'`. */
  function VersionOf(packageVersion: Option<string>): (v: string)
    ensures packageVersion.Some? && packageVersion.value != "" ==> v == packageVersion.value
    ensures packageVersion.None? || packageVersion.value == "" ==> v == "dev"
  {
    if packageVersion.Some? && packageVersion.value != "" then packageVersion.value else "dev"
  }

  /** The side panel's view provider and the state it keeps between messages. */
  class SymbolViewProvider {
    /** Whether `resolveWebviewView` has attached a view (`_view`). */
    var attached: bool
    var lastSymbols: seq<Symbol>
    var lastFilter: string
    var loading: bool
    const version: string
    /** Whether an `onFilterChange` callback was passed to the constructor. */
    const notifiesFilter: bool
    /** Every message posted to the webview, oldest first. */
    var posted: seq<Outgoing>
    /** Every value passed to `onFilterChange`, oldest first. */
    var filterNotifications: seq<string>

    constructor (packageVersion: Option<string>, notifiesFilter: bool)
      ensures !attached && lastSymbols == [] && lastFilter == "" && !loading
      ensures version == VersionOf(packageVersion) && this.notifiesFilter == notifiesFilter
      ensures posted == [] && filterNotifications == []
    {
      attached := false;
      lastSymbols, lastFilter, loading := [], "", false;
      version := VersionOf(packageVersion);
      this.notifiesFilter := notifiesFilter;
      posted, filterNotifications := [], [];
    }

    /** The payload `sendData` posts: the current fields, the kind table and the version. */
    function Snapshot(): Outgoing
      reads this
    {
      Data(lastSymbols, lastFilter, KindMap(), version, loading)
    }

    /** `resolveWebviewView`, as far as the provider's state goes: the view is remembered. */
    method ResolveView()
      modifies this
      ensures attached
      ensures lastSymbols == old(lastSymbols) && lastFilter == old(lastFilter) && loading == old(loading)
      ensures posted == old(posted) && filterNotifications == old(filterNotifications)
    {
      attached := true;
    }

    /** `sendData`: post a snapshot when a view is attached, nothing otherwise. */
    method SendData()
      modifies this
      ensures posted == old(posted) + (if attached then [Snapshot()] else [])
      ensures attached == old(attached) && lastSymbols == old(lastSymbols) && lastFilter == old(lastFilter)
      ensures loading == old(loading) && filterNotifications == old(filterNotifications)
    {
      if attached {
        posted := posted + [Snapshot()];
      }
    }

    /** `show`: replace the symbols and the filter (default `''`), keep the loading flag, send. */
    method Show(symbols: seq<Symbol>, filter: Option<string>)
      modifies this
      ensures lastSymbols == symbols && lastFilter == OrEmpty(filter) && loading == old(loading)
      ensures attached == old(attached) && filterNotifications == old(filterNotifications)
      ensures posted == old(posted) +
        (if attached then [Data(symbols, OrEmpty(filter), KindMap(), version, old(loading))] else [])
    {
      lastSymbols := symbols;
      lastFilter := OrEmpty(filter);
      SendData();
    }

    /** `setLoading`: change only the loading flag, then send. */
    method SetLoading(loading: bool)
      modifies this
      ensures this.loading == loading
      ensures lastSymbols == old(lastSymbols) && lastFilter == old(lastFilter)
      ensures attached == old(attached) && filterNotifications == old(filterNotifications)
      ensures posted == old(posted) +
        (if attached then [Data(old(lastSymbols), old(lastFilter), KindMap(), version, loading)] else [])
    {
      this.loading := loading;
      SendData();
    }

    /**
     * The webview message handler. Messages come only from an attached view.
     * `theme` is the editor's active colour theme kind.
     */
    method Receive(msg: Incoming, theme: int, lookup: string -> HostResult) returns (action: RevealAction)
      requires attached
      modifies this
      ensures attached && lastSymbols == old(lastSymbols) && loading == old(loading)
      ensures msg.GetTheme? ==> posted == old(posted) + [SetTheme(theme)]
      ensures msg.Filter? ==>
        && lastFilter == OrEmpty(msg.query)
        && filterNotifications == old(filterNotifications) + (if notifiesFilter then [lastFilter] else [])
        && posted == old(posted) + [Data(old(lastSymbols), OrEmpty(msg.query), KindMap(), version, old(loading))]
      ensures !msg.Filter? ==> lastFilter == old(lastFilter) && filterNotifications == old(filterNotifications)
      ensures msg.RevealRequest? || msg.OtherCommand? ==> posted == old(posted)
      ensures action == if msg.RevealRequest? then Reveal(msg.name, old(lastSymbols), lookup) else NoNavigation
    {
      action := NoNavigation;
      match msg {
        case GetTheme =>
          posted := posted + [SetTheme(theme)];
        case Filter(query) =>
          lastFilter := OrEmpty(query);
          if notifiesFilter {
            filterNotifications := filterNotifications + [lastFilter];
          }
          SendData();
        case RevealRequest(name) =>
          action := Reveal(name, lastSymbols, lookup);
        case OtherCommand =>
      }
    }
  }
}
