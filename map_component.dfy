/**
 * The garden map (src/components/MapComponent.jsx): the category-name
 * normaliser behind the marker icons, the search pre-filter, the geocoding
 * step that keeps the located gardens, the category filter with its
 * select-all control, and the route planner.  The backend, the geocoding
 * service, the device position and the map library are oracles: their
 * answers are parameters.
 */
module MapComponent {
  import opened Wrappers
  import Seqs
  import Text

  // ------------------------------------------------------------------
  // Records
  // ------------------------------------------------------------------

  /** A map position; the source's floating-point degrees are abstracted to integers. */
  datatype Coord = Coord(lat: int, lon: int)

  /** The category a garden refers to (`horta.tipoDeHorta`). */
  datatype TipoRef = TipoRef(nome: Option<string>)

  /**
   * A garden record as the backend delivers it.  `location` is what the
   * geocoding step adds (`latitude` / `longitude`); fetched records carry
   * no meaningful location until then.
   */
  datatype Horta = Horta(
    idHorta: int,
    nomeHorta: Option<string>,
    endereco: Option<string>,
    imagemCaminho: Option<string>,
    tipoDeHorta: Option<TipoRef>,
    location: Option<Coord>)

  /** A category option offered as a filter (`/hortas/tipo`). */
  datatype TipoDeHorta = TipoDeHorta(idTipoDeHorta: int, nome: string)

  // ------------------------------------------------------------------
  // Marker icons
  // ------------------------------------------------------------------

  const DefaultIcon: string := "DEFAULT"

  /** The keys of the icon registry. */
  const IconKeys: set<string> := {
    "DEFAULT", "HORTA_COMUNITARIA", "HORTA_INSTITUCIONAL", "HORTAS_ESCOLARES",
    "SEAU", "TERREIRO", "UNIDADE_DE_SAUDE"
  }

  /** The class `[A-Z0-9_]` the normaliser keeps. */
  predicate IsKeyChar(c: char) {
    Text.IsUpperAscii(c) || Text.IsDigit(c) || c == '_'
  }

  predicate IsKey(s: string) {
    forall i :: 0 <= i < |s| ==> IsKeyChar(s[i])
  }

  /** `s.replace(/\s+/g, '_')`: every maximal run of whitespace becomes one underscore. */
  function ReplaceWhitespaceRuns(s: string): (r: string)
    ensures |r| <= |s|
    ensures forall i :: 0 <= i < |r| ==> !Text.IsWhitespace(r[i])
    decreases |s|
  {
    if s == [] then []
    else if Text.IsWhitespace(s[0]) then "_" + ReplaceWhitespaceRuns(Text.TrimStart(s))
    else [s[0]] + ReplaceWhitespaceRuns(s[1..])
  }

  /**
   * A left-to-right scanner for the same replacement: a whitespace
   * character emits `_` unless the previous character was whitespace too.
   */
  function ScanWhitespace(s: string, inRun: bool): string
    decreases |s|
  {
    if s == [] then []
    else if Text.IsWhitespace(s[0]) then (if inRun then [] else "_") + ScanWhitespace(s[1..], true)
    else [s[0]] + ScanWhitespace(s[1..], false)
  }

  lemma {:induction false} ScanSkipsRun(s: string)
    ensures ScanWhitespace(s, true) == ScanWhitespace(Text.TrimStart(s), false)
    decreases |s|
  {
    if s != [] {
      if Text.IsWhitespace(s[0]) {
        ScanSkipsRun(s[1..]);
      }
    }
  }

  /** The run replacement agrees with the scanner on every input. */
  lemma {:induction false} ReplaceWhitespaceRunsIsScan(s: string)
    ensures ReplaceWhitespaceRuns(s) == ScanWhitespace(s, false)
    decreases |s|
  {
    if s != [] {
      if Text.IsWhitespace(s[0]) {
        var t := Text.TrimStart(s);
        assert t == Text.TrimStart(s[1..]);
        ReplaceWhitespaceRunsIsScan(t);
        ScanSkipsRun(s[1..]);
      } else {
        ReplaceWhitespaceRunsIsScan(s[1..]);
      }
    }
  }

  /** Text without whitespace is left as it is. */
  lemma {:induction false} ReplaceWhitespaceRunsIdentity(s: string)
    requires forall i :: 0 <= i < |s| ==> !Text.IsWhitespace(s[i])
    ensures ReplaceWhitespaceRuns(s) == s
    decreases |s|
  {
    if s != [] {
      ReplaceWhitespaceRunsIdentity(s[1..]);
      assert s == [s[0]] + s[1..];
    }
  }

  /**
   * `normalizeTipoNome`: "DEFAULT" for a missing or empty name, otherwise
   * upper-case, whitespace runs to `_`, everything outside `[A-Z0-9_]` dropped.
   */
  function NormalizeTipoNome(nome: Option<string>): (key: string)
    ensures nome.None? || nome == Some("") ==> key == DefaultIcon
    ensures IsKey(key)
  {
    if nome.None? || nome.value == "" then
      assert IsKey(DefaultIcon) by {
        forall i | 0 <= i < |DefaultIcon| ensures IsKeyChar(DefaultIcon[i]) {
        }
      }
      DefaultIcon
    else Seqs.Filter(ReplaceWhitespaceRuns(Text.Upper(nome.value)), IsKeyChar)
  }

  /** A non-empty name already made of `[A-Z0-9_]` is its own key. */
  lemma NormalizeFixesKeys(s: string)
    requires s != [] && IsKey(s)
    ensures NormalizeTipoNome(Some(s)) == s
  {
    Text.UpperIdentity(s);
    ReplaceWhitespaceRunsIdentity(s);
    Seqs.FilterAll(s, IsKeyChar);
  }

  /** Normalising a key again gives the same key (or "DEFAULT" for the empty key). */
  lemma NormalizeIdempotent(nome: Option<string>)
    ensures var key := NormalizeTipoNome(nome);
            NormalizeTipoNome(Some(key)) == if key == [] then DefaultIcon else key
  {
    var key := NormalizeTipoNome(nome);
    if key != [] {
      NormalizeFixesKeys(key);
    }
  }

  /** The key does not depend on how the name is cased (ASCII letters). */
  lemma NormalizeIgnoresCase(s: string)
    ensures NormalizeTipoNome(Some(Text.Lower(s))) == NormalizeTipoNome(Some(s))
    ensures NormalizeTipoNome(Some(Text.Upper(s))) == NormalizeTipoNome(Some(s))
  {
    Text.UpperIgnoresCase(s);
  }

  /** `Icons[normalizeTipoNome(nome)] || Icons.DEFAULT`. */
  function IconFor(nome: Option<string>): (key: string)
    ensures key in IconKeys
    ensures NormalizeTipoNome(nome) in IconKeys ==> key == NormalizeTipoNome(nome)
    ensures NormalizeTipoNome(nome) !in IconKeys ==> key == DefaultIcon
  {
    var k := NormalizeTipoNome(nome);
    if k in IconKeys then k else DefaultIcon
  }

  /** A category named exactly like a registry key gets that key's icon. */
  lemma IconForKey(k: string)
    requires k in IconKeys
    ensures IconFor(Some(k)) == k
  {
    assert IsKey(k) by {
      forall i | 0 <= i < |k| ensures IsKeyChar(k[i]) {
      }
    }
    NormalizeFixesKeys(k);
  }

  // ------------------------------------------------------------------
  // Popup image
  // ------------------------------------------------------------------

  const PlaceholderImage: string := "/placeholder-horta.png"
  const LegacyImageName: string := "folhin.png"
  const UploadPath: string := "/uploads/imagem/"

  /** The popup shows an image element only when the record names an image. */
  predicate ShowsImage(imagemCaminho: Option<string>) {
    imagemCaminho.Some? && imagemCaminho.value != ""
  }

  /** The popup's image URL: the uploaded file, unless missing or the legacy default. */
  function PopupImageUrl(imagemCaminho: Option<string>, backendUrl: string): (url: string)
    ensures ShowsImage(imagemCaminho) && imagemCaminho.value != LegacyImageName ==>
              url == backendUrl + UploadPath + imagemCaminho.value
    ensures !ShowsImage(imagemCaminho) || imagemCaminho.value == LegacyImageName ==>
              url == PlaceholderImage
  {
    if ShowsImage(imagemCaminho) && imagemCaminho.value != LegacyImageName
    then backendUrl + UploadPath + imagemCaminho.value
    else PlaceholderImage
  }

  /** An uploaded image's URL ends with the stored file name; otherwise the placeholder. */
  lemma PopupImageNamesFile(imagemCaminho: Option<string>, backendUrl: string)
    ensures var url := PopupImageUrl(imagemCaminho, backendUrl);
            url == PlaceholderImage ||
            (imagemCaminho.Some? && |imagemCaminho.value| <= |url| &&
             url[|url| - |imagemCaminho.value|..] == imagemCaminho.value)
  {
    var url := PopupImageUrl(imagemCaminho, backendUrl);
    if url != PlaceholderImage {
      var prefix := backendUrl + UploadPath;
      assert url == prefix + imagemCaminho.value;
      assert url[|prefix|..] == imagemCaminho.value;
    }
  }

  // ------------------------------------------------------------------
  // Search pre-filter
  // ------------------------------------------------------------------

  /** `field?.toLowerCase().includes(lowerTerm)`; a missing field does not match. */
  predicate FieldIncludes(field: Option<string>, lowerTerm: string) {
    field.Some? && Text.Contains(Text.Lower(field.value), lowerTerm)
  }

  /** The name or the address contains the term, ignoring case. */
  predicate MatchesTerm(h: Horta, term: string) {
    var lowerTerm := Text.Lower(term);
    FieldIncludes(h.nomeHorta, lowerTerm) || FieldIncludes(h.endereco, lowerTerm)
  }

  function TermMatcher(term: string): Horta -> bool {
    h => MatchesTerm(h, term)
  }

  /** The search step: an empty term keeps everything, otherwise the matches. */
  function SearchFilter(hortas: seq<Horta>, term: string): (r: seq<Horta>)
    ensures term == "" ==> r == hortas
    ensures term != "" ==> forall i :: 0 <= i < |r| ==> MatchesTerm(r[i], term)
    ensures term != "" ==> forall i :: 0 <= i < |hortas| && MatchesTerm(hortas[i], term) ==> hortas[i] in r
    ensures forall i :: 0 <= i < |r| ==> r[i] in hortas
  {
    if term == "" then hortas else Seqs.Filter(hortas, TermMatcher(term))
  }

  /** The kept records are in the input's order, and kept plus rejected records are the input. */
  lemma SearchFilterExact(hortas: seq<Horta>, term: string)
    requires term != ""
    ensures Seqs.IsSubsequence(SearchFilter(hortas, term), hortas)
    ensures multiset(SearchFilter(hortas, term)) + multiset(Seqs.Filter(hortas, Seqs.Not(TermMatcher(term))))
            == multiset(hortas)
  {
    Seqs.FilterIsSubsequence(hortas, TermMatcher(term));
    Seqs.FilterPartition(hortas, TermMatcher(term));
  }

  /** Searching for an upper- or lower-cased term gives the same records. */
  lemma SearchIgnoresCase(hortas: seq<Horta>, term: string)
    ensures SearchFilter(hortas, Text.Upper(term)) == SearchFilter(hortas, term)
    ensures SearchFilter(hortas, Text.Lower(term)) == SearchFilter(hortas, term)
  {
    Text.LowerIgnoresCase(term);
    Seqs.FilterCongruent(hortas, TermMatcher(Text.Upper(term)), TermMatcher(term));
    Seqs.FilterCongruent(hortas, TermMatcher(Text.Lower(term)), TermMatcher(term));
  }

  // ------------------------------------------------------------------
  // Geocoding and the surviving records
  // ------------------------------------------------------------------

  const CitySuffix: string := ", Recife, PE, Brasil"

  /** A template string renders a missing address as "undefined". */
  function AddressText(endereco: Option<string>): string {
    endereco.GetOr("undefined")
  }

  /** The free-text query sent to the geocoder for one record. */
  function GeocodeQuery(h: Horta): string {
    AddressText(h.endereco) + CitySuffix
  }

  function GeocodeQueries(hortas: seq<Horta>): (qs: seq<string>)
    ensures |qs| == |hortas|
    ensures forall i :: 0 <= i < |hortas| ==> qs[i] == GeocodeQuery(hortas[i])
  {
    seq(|hortas|, i requires 0 <= i < |hortas| => GeocodeQuery(hortas[i]))
  }

  /** Each record with the geocoder's answer for it; a miss leaves no location. */
  function Geocoded(hortas: seq<Horta>, lookups: seq<Option<Coord>>): (r: seq<Horta>)
    requires |lookups| == |hortas|
    ensures |r| == |hortas|
    ensures forall i :: 0 <= i < |r| ==> r[i] == hortas[i].(location := lookups[i])
  {
    seq(|hortas|, i requires 0 <= i < |hortas| => hortas[i].(location := lookups[i]))
  }

  predicate HasLocation(h: Horta) {
    h.location.Some?
  }

  predicate IsMiss(l: Option<Coord>) {
    l.None?
  }

  /** How many lookups returned no coordinates. */
  function Misses(lookups: seq<Option<Coord>>): nat {
    |Seqs.Filter(lookups, IsMiss)|
  }

  /** `results.filter(h => h !== null && ...)`: the records the geocoder located. */
  function Survivors(hortas: seq<Horta>, lookups: seq<Option<Coord>>): (r: seq<Horta>)
    requires |lookups| == |hortas|
    ensures forall i :: 0 <= i < |r| ==> r[i].location.Some?
    ensures forall i :: 0 <= i < |hortas| && lookups[i].Some? ==> hortas[i].(location := lookups[i]) in r
    ensures r == [] <==> forall i :: 0 <= i < |lookups| ==> lookups[i].None?
  {
    var g := Geocoded(hortas, lookups);
    var r := Seqs.Filter(g, HasLocation);
    assert (forall i :: 0 <= i < |lookups| ==> lookups[i].None?) ==> r == [] by {
      if r != [] {
        assert r[0] in g;
      }
    }
    assert r == [] ==> forall i :: 0 <= i < |lookups| ==> lookups[i].None? by {
      forall i | 0 <= i < |lookups| && lookups[i].Some? ensures r != [] {
        assert HasLocation(g[i]);
      }
    }
    r
  }

  lemma GeocodedTail(hortas: seq<Horta>, lookups: seq<Option<Coord>>)
    requires |lookups| == |hortas| && hortas != []
    ensures Geocoded(hortas, lookups) ==
            [hortas[0].(location := lookups[0])] + Geocoded(hortas[1..], lookups[1..])
  {
  }

  lemma {:induction false} LocatedCount(hortas: seq<Horta>, lookups: seq<Option<Coord>>)
    requires |lookups| == |hortas|
    ensures |Seqs.Filter(Geocoded(hortas, lookups), HasLocation)| + Misses(lookups) == |hortas|
    decreases |hortas|
  {
    if hortas != [] {
      var g := Geocoded(hortas, lookups);
      var gt := Geocoded(hortas[1..], lookups[1..]);
      var lt := lookups[1..];
      var hit := if lookups[0].Some? then 1 else 0;
      LocatedCount(hortas[1..], lt);
      assert |Seqs.Filter(g, HasLocation)| == |Seqs.Filter(gt, HasLocation)| + hit by {
        GeocodedTail(hortas, lookups);
        Seqs.FilterCons(g[0], gt, HasLocation);
      }
      assert Misses(lookups) == Misses(lt) + 1 - hit by {
        assert lookups == [lookups[0]] + lt;
        Seqs.FilterCons(lookups[0], lt, IsMiss);
      }
    }
  }

  /** Partial failure is not total failure: exactly the misses are lost. */
  lemma SurvivorsCount(hortas: seq<Horta>, lookups: seq<Option<Coord>>)
    requires |lookups| == |hortas|
    ensures |Survivors(hortas, lookups)| + Misses(lookups) == |hortas|
  {
    LocatedCount(hortas, lookups);
  }

  /** The survivors keep the order of the records they come from. */
  lemma SurvivorsInOrder(hortas: seq<Horta>, lookups: seq<Option<Coord>>)
    requires |lookups| == |hortas|
    ensures Seqs.IsSubsequence(Survivors(hortas, lookups), Geocoded(hortas, lookups))
  {
    Seqs.FilterIsSubsequence(Geocoded(hortas, lookups), HasLocation);
  }

  // ------------------------------------------------------------------
  // Loading: search, geocode, message and error
  // ------------------------------------------------------------------

  /** What the backend's `/hortas/public/ativas` call gave: a failure, or a body that may be null. */
  datatype FetchResponse = Unreachable | Delivered(body: Option<seq<Horta>>)

  /** The messages of the loading banner. */
  datatype Notice = LoadingList | Geocoding(count: nat) | NoSearchMatches | NoActiveGardens

  function NoticeText(n: Notice): (text: string)
    ensures text != ""
  {
    match n
    case LoadingList => "Carregando lista de hortas..."
    case Geocoding(count) => "Geocodificando " + Text.Decimal(count) + " endereços..."
    case NoSearchMatches => "Nenhuma horta encontrada para sua busca."
    case NoActiveGardens => "Nenhuma horta ativa encontrada."
  }

  /** The messages of the error banner. */
  datatype LoadError = LoadFailed | SearchNotLocated | NoneLocated

  function LoadErrorText(e: LoadError): (text: string)
    ensures text != ""
  {
    match e
    case LoadFailed => "Não foi possível carregar os dados das hortas."
    case SearchNotLocated => "Não foi possível localizar as hortas da busca."
    case NoneLocated => "Não foi possível geocodificar os endereços."
  }

  /** The informational message when there is nothing to geocode. */
  function EmptyNotice(term: string): Notice {
    if term != "" then NoSearchMatches else NoActiveGardens
  }

  /** The error when nothing could be geocoded. */
  function GeocodeError(term: string): LoadError {
    if term != "" then SearchNotLocated else NoneLocated
  }

  /**
   * The outcome of one load: the located records, the error banner, the
   * loading message in effect when the `try` block ends (the `finally`
   * clause then clears it), and the geocoding queries issued.
   */
  datatype LoadResult = LoadResult(hortas: seq<Horta>, error: Option<LoadError>, lastMessage: Notice, queries: seq<string>)

  /** The geocoder's answers line up with the records that survive the search. */
  predicate LookupsAligned(term: string, response: FetchResponse, lookups: seq<Option<Coord>>) {
    response.Delivered? && response.body.Some? ==> |lookups| == |SearchFilter(response.body.value, term)|
  }

  /** `fetchAndGeocodeHortas(term)` as a function of the oracles' answers. */
  function Load(term: string, response: FetchResponse, lookups: seq<Option<Coord>>): LoadResult
    requires LookupsAligned(term, response, lookups)
  {
    match response
    case Unreachable => LoadResult([], Some(LoadFailed), LoadingList, [])
    case Delivered(None) =>
      // A search on a null body throws inside `filter`.
      if term != "" then LoadResult([], Some(LoadFailed), LoadingList, [])
      else LoadResult([], None, EmptyNotice(term), [])
    case Delivered(Some(all)) =>
      var pending := SearchFilter(all, term);
      if pending == [] then LoadResult([], None, EmptyNotice(term), [])
      else
        var valid := Survivors(pending, lookups);
        LoadResult(valid, if valid == [] then Some(GeocodeError(term)) else None,
                   Geocoding(|pending|), GeocodeQueries(pending))
  }

  /** A failed fetch shows the load error and geocodes nothing. */
  lemma LoadUnreachable(term: string, lookups: seq<Option<Coord>>)
    ensures var r := Load(term, Unreachable, lookups);
            r.hortas == [] && r.error == Some(LoadFailed) && r.queries == []
  {
  }

  /** Nothing to geocode: an informational message, no error, no geocoding request. */
  lemma LoadEmptyNoGeocoding(term: string, all: seq<Horta>, lookups: seq<Option<Coord>>)
    requires SearchFilter(all, term) == [] && |lookups| == 0
    ensures var r := Load(term, Delivered(Some(all)), lookups);
            r.hortas == [] && r.error == None && r.queries == [] && r.lastMessage == EmptyNotice(term)
  {
  }

  /** With something to geocode, the error is set exactly when no record was located. */
  lemma LoadErrorIffNoneLocated(term: string, all: seq<Horta>, lookups: seq<Option<Coord>>)
    requires |lookups| == |SearchFilter(all, term)| && SearchFilter(all, term) != []
    ensures var r := Load(term, Delivered(Some(all)), lookups);
            && (r.error.Some? <==> r.hortas == [])
            && (r.error.Some? <==> forall i :: 0 <= i < |lookups| ==> lookups[i].None?)
            && (r.error.Some? ==> r.error == Some(GeocodeError(term)))
            && r.queries == GeocodeQueries(SearchFilter(all, term))
  {
  }

  /** N records, M misses: exactly N - M records are loaded, all of them located. */
  lemma LoadPartialTolerance(term: string, all: seq<Horta>, lookups: seq<Option<Coord>>)
    requires |lookups| == |SearchFilter(all, term)|
    ensures var r := Load(term, Delivered(Some(all)), lookups);
            && (SearchFilter(all, term) != [] ==> |r.hortas| + Misses(lookups) == |SearchFilter(all, term)|)
            && forall i :: 0 <= i < |r.hortas| ==> r.hortas[i].location.Some?
  {
    if SearchFilter(all, term) != [] {
      SurvivorsCount(SearchFilter(all, term), lookups);
    }
  }

  // ------------------------------------------------------------------
  // Category filter and visibility
  // ------------------------------------------------------------------

  /** `horta.tipoDeHorta && activeFilters.includes(horta.tipoDeHorta.nome)`. */
  predicate InFilters(h: Horta, filters: seq<string>) {
    h.tipoDeHorta.Some? && h.tipoDeHorta.value.nome.Some? && h.tipoDeHorta.value.nome.value in filters
  }

  function FilterMatcher(filters: seq<string>): Horta -> bool {
    h => InFilters(h, filters)
  }

  /** The visibility effect: no filter shows everything, otherwise the records in a chosen category. */
  function VisibleHortas(all: seq<Horta>, filters: seq<string>): (r: seq<Horta>)
    ensures filters == [] ==> r == all
    ensures filters != [] ==> forall i :: 0 <= i < |r| ==> InFilters(r[i], filters)
    ensures filters != [] ==> forall i :: 0 <= i < |all| && InFilters(all[i], filters) ==> all[i] in r
    ensures forall i :: 0 <= i < |r| ==> r[i] in all
  {
    if |filters| == 0 then all else Seqs.Filter(all, FilterMatcher(filters))
  }

  /** The visible records keep their order, and visible plus hidden records are all records. */
  lemma VisibleExact(all: seq<Horta>, filters: seq<string>)
    requires filters != []
    ensures Seqs.IsSubsequence(VisibleHortas(all, filters), all)
    ensures multiset(VisibleHortas(all, filters)) + multiset(Seqs.Filter(all, Seqs.Not(FilterMatcher(filters))))
            == multiset(all)
  {
    Seqs.FilterIsSubsequence(all, FilterMatcher(filters));
    Seqs.FilterPartition(all, FilterMatcher(filters));
  }

  /** With a filter active, a record without a category is never visible. */
  lemma UncategorisedHidden(all: seq<Horta>, filters: seq<string>, h: Horta)
    requires filters != [] && h.tipoDeHorta.None?
    ensures h !in VisibleHortas(all, filters)
  {
  }

  /** Only the set of names matters: two non-empty filters naming the same categories show the same records. */
  lemma VisibleIgnoresFilterOrder(all: seq<Horta>, f: seq<string>, g: seq<string>)
    requires f != [] && g != []
    requires forall x :: x in f <==> x in g
    ensures VisibleHortas(all, f) == VisibleHortas(all, g)
  {
    Seqs.FilterCongruent(all, FilterMatcher(f), FilterMatcher(g));
  }

  /** `prev.includes(n) ? prev.filter(f => f !== n) : [...prev, n]`. */
  function ToggleFilter(filters: seq<string>, nome: string): (r: seq<string>)
    ensures forall x :: x in r <==> (x in filters) != (x == nome)
    ensures nome !in filters ==> r == filters + [nome]
    ensures nome in filters ==> Seqs.IsSubsequence(r, filters)
    ensures nome in filters && Seqs.NoDuplicates(filters) ==> |r| == |filters| - 1
  {
    if nome in filters then
      var p := (x: string) => x != nome;
      Seqs.FilterIsSubsequence(filters, p);
      Seqs.FilterOutDistinct(filters, nome, p);
      Seqs.Filter(filters, p)
    else filters + [nome]
  }

  /** Toggling twice restores the membership of every name. */
  lemma ToggleTwiceSameMembers(filters: seq<string>, nome: string)
    ensures forall x :: x in ToggleFilter(ToggleFilter(filters, nome), nome) <==> x in filters
  {
  }

  /** Toggling an absent name twice gives back the very same list. */
  lemma ToggleTwiceRestoresAbsent(filters: seq<string>, nome: string)
    requires nome !in filters
    ensures ToggleFilter(ToggleFilter(filters, nome), nome) == filters
  {
    var p := (x: string) => x != nome;
    Seqs.FilterConcat(filters, [nome], p);
    Seqs.FilterAll(filters, p);
    assert Seqs.Filter([nome], p) == [];
    assert ToggleFilter(filters + [nome], nome) == Seqs.Filter(filters + [nome], p);
  }

  /** A duplicate-free filter list stays duplicate-free. */
  lemma ToggleKeepsNoDuplicates(filters: seq<string>, nome: string)
    requires Seqs.NoDuplicates(filters)
    ensures Seqs.NoDuplicates(ToggleFilter(filters, nome))
  {
    if nome in filters {
      var p := (x: string) => x != nome;
      Seqs.FilterIsSubsequence(filters, p);
      Seqs.SubsequenceNoDuplicates(Seqs.Filter(filters, p), filters);
    } else {
      var r := filters + [nome];
      forall i, j | 0 <= i < j < |r| ensures r[i] != r[j] {
        if j == |filters| {
          assert r[i] == filters[i];
        }
      }
    }
  }

  /** Toggling twice never changes which records are visible. */
  lemma ToggleTwiceSameVisible(all: seq<Horta>, filters: seq<string>, nome: string)
    ensures VisibleHortas(all, ToggleFilter(ToggleFilter(filters, nome), nome)) == VisibleHortas(all, filters)
  {
    var back := ToggleFilter(ToggleFilter(filters, nome), nome);
    if filters != [] {
      assert filters[0] in back;
      VisibleIgnoresFilterOrder(all, back, filters);
    } else {
      ToggleTwiceRestoresAbsent(filters, nome);
    }
  }

  // ------------------------------------------------------------------
  // Select-all
  // ------------------------------------------------------------------

  function OptionNames(options: seq<TipoDeHorta>): (names: seq<string>)
    ensures |names| == |options|
    ensures forall i :: 0 <= i < |options| ==> names[i] == options[i].nome
  {
    seq(|options|, i requires 0 <= i < |options| => options[i].nome)
  }

  /** `allFiltersActuallySelected`: a length comparison, not a comparison of names. */
  predicate AllFiltersActuallySelected(options: seq<TipoDeHorta>, filters: seq<string>) {
    |options| > 0 && |filters| == |options|
  }

  /** The "Todos os Tipos" checkbox shows checked. */
  predicate IsEffectivelyAllSelected(options: seq<TipoDeHorta>, filters: seq<string>) {
    |filters| == 0 || AllFiltersActuallySelected(options, filters)
  }

  /** The checkbox is disabled while there are no categories. */
  predicate SelectAllDisabled(options: seq<TipoDeHorta>) {
    |options| == 0
  }

  /** `onSelectAllFilters(selectAll)`. */
  function SelectAllFilters(selectAll: bool, options: seq<TipoDeHorta>): seq<string> {
    if selectAll then OptionNames(options) else []
  }

  /** A click on the checkbox: select every name unless all are already selected, then clear. */
  function SelectAllClick(options: seq<TipoDeHorta>, filters: seq<string>): (r: seq<string>)
    ensures !AllFiltersActuallySelected(options, filters) ==> r == OptionNames(options)
    ensures AllFiltersActuallySelected(options, filters) ==> r == []
    ensures IsEffectivelyAllSelected(options, r)
  {
    SelectAllFilters(!AllFiltersActuallySelected(options, filters), options)
  }

  /** Two clicks from a state that is not "all selected" end with the empty filter. */
  lemma SelectAllTwiceClears(options: seq<TipoDeHorta>, filters: seq<string>)
    requires |options| > 0 && !AllFiltersActuallySelected(options, filters)
    ensures SelectAllClick(options, SelectAllClick(options, filters)) == []
  {
  }

  /** Naming every category shows all records exactly when every record is in one of them. */
  lemma AllNamedShowsAllIff(all: seq<Horta>, options: seq<TipoDeHorta>)
    ensures VisibleHortas(all, OptionNames(options)) == VisibleHortas(all, [])
            <==> (options == [] || forall i :: 0 <= i < |all| ==> InFilters(all[i], OptionNames(options)))
  {
    if options != [] {
      Seqs.FilterKeepsAllIff(all, FilterMatcher(OptionNames(options)));
    }
  }

  /**
   * For duplicate-free filters drawn from duplicate-free category names, the
   * length test means what it is meant to: every category is selected.
   */
  lemma AllSelectedMeansEveryName(options: seq<TipoDeHorta>, filters: seq<string>)
    requires Seqs.NoDuplicates(filters) && Seqs.NoDuplicates(OptionNames(options))
    requires forall i :: 0 <= i < |filters| ==> filters[i] in OptionNames(options)
    ensures AllFiltersActuallySelected(options, filters)
            <==> |options| > 0 && forall i :: 0 <= i < |options| ==> options[i].nome in filters
  {
    var names := OptionNames(options);
    var sf := set x | x in filters;
    var sn := set x | x in names;
    Seqs.NoDuplicatesCardinality(filters);
    Seqs.NoDuplicatesCardinality(names);
    assert sf <= sn;
    if |filters| == |options| {
      assert |sn - sf| == |sn| - |sf| == 0;
      forall i | 0 <= i < |options| ensures options[i].nome in filters {
        assert names[i] in sn;
      }
    }
    if forall i :: 0 <= i < |options| ==> options[i].nome in filters {
      assert sn <= sf by {
        forall x | x in sn ensures x in sf {
          var i :| 0 <= i < |names| && names[i] == x;
        }
      }
    }
  }

  // ------------------------------------------------------------------
  // Route planning
  // ------------------------------------------------------------------

  /** A routing control on the map, with its two waypoints. */
  datatype Control = Control(start: Coord, destination: Coord)

  /** The geocoder's answer for a typed start point. */
  datatype StartAnswer = LookupThrew | LookupEmpty | LookupFound(at: Coord)

  /** Why a calculation that passed the guard produced no route. */
  datatype Failure = LocationUnavailable | StartNotFound | StartLookupError | InvalidStart | SafetyCheck

  datatype RouteResult = Rejected | Failed(why: Failure) | Routed(control: Control)

  datatype StartResolution = Resolved(at: Coord) | Unresolved(why: Failure)

  const DeviceLocationKeyword: string := "meu local"

  /** JavaScript truthiness of a coordinate: zero is falsy. */
  predicate HasRoutableCoords(dest: Option<Horta>) {
    dest.Some? && dest.value.location.Some? &&
    dest.value.location.value.lat != 0 && dest.value.location.value.lon != 0
  }

  /** The guard at the top of `handleCalculateRoute`. */
  predicate CanCalculate(mapMounted: bool, startPoint: string, dest: Option<Horta>) {
    mapMounted && startPoint != "" && HasRoutableCoords(dest)
  }

  /** `startPoint.toLowerCase() === 'meu local'`. */
  predicate IsDeviceLocation(startPoint: string) {
    Text.Lower(startPoint) == DeviceLocationKeyword
  }

  /** The start coordinate: the device's position, the geocoder's answer, or a failure. */
  function ResolveStart(startPoint: string, device: Option<Coord>, lookup: StartAnswer): StartResolution {
    if IsDeviceLocation(startPoint) then
      (if device.Some? then Resolved(device.value) else Unresolved(LocationUnavailable))
    else if Text.Trim(startPoint) != "" then
      match lookup
      case LookupThrew => Unresolved(StartLookupError)
      case LookupEmpty => Unresolved(StartNotFound)
      case LookupFound(c) => Resolved(c)
    else Unresolved(InvalidStart)
  }

  /** `handleCalculateRoute` as a function of the state it reads and the oracles' answers. */
  function RouteDecision(startPoint: string, dest: Option<Horta>, mapMounted: bool,
                         device: Option<Coord>, lookup: StartAnswer, mapAtRouting: bool): RouteResult
  {
    if !CanCalculate(mapMounted, startPoint, dest) then Rejected
    else match ResolveStart(startPoint, device, lookup)
      case Unresolved(why) => Failed(why)
      case Resolved(s) =>
        if !mapAtRouting then Failed(SafetyCheck)
        else Routed(Control(s, dest.value.location.value))
  }

  /** The decision once the guard has passed and the start is resolved. */
  lemma DecisionAfterGuard(startPoint: string, dest: Option<Horta>, mapMounted: bool,
                           device: Option<Coord>, lookup: StartAnswer, mapAtRouting: bool, start: StartResolution)
    requires CanCalculate(mapMounted, startPoint, dest)
    requires start == ResolveStart(startPoint, device, lookup)
    ensures start.Unresolved? ==>
              RouteDecision(startPoint, dest, mapMounted, device, lookup, mapAtRouting) == Failed(start.why)
    ensures start.Resolved? ==>
              RouteDecision(startPoint, dest, mapMounted, device, lookup, mapAtRouting)
                == (if mapAtRouting then Routed(Control(start.at, dest.value.location.value)) else Failed(SafetyCheck))
  {
  }

  /** The browser alerts the route planner raises. */
  datatype Alert = MissingRouteEnds | LocationDenied | StartAddressNotFound | StartLookupFailed | StartInvalid

  function AlertText(a: Alert): string {
    match a
    case MissingRouteEnds => "Por favor, defina um ponto de partida e selecione uma horta como destino."
    case LocationDenied => "Não foi possível obter sua localização atual. Verifique as permissões."
    case StartAddressNotFound => "Não foi possível encontrar o ponto de partida. Tente um endereço mais específico."
    case StartLookupFailed => "Erro ao geocodificar ponto de partida."
    case StartInvalid => "Ponto de partida inválido."
  }

  /** The alert a calculation raises; the safety check and a route raise none. */
  function AlertFor(r: RouteResult): Option<Alert> {
    match r
    case Rejected => Some(MissingRouteEnds)
    case Failed(LocationUnavailable) => Some(LocationDenied)
    case Failed(StartNotFound) => Some(StartAddressNotFound)
    case Failed(StartLookupError) => Some(StartLookupFailed)
    case Failed(InvalidStart) => Some(StartInvalid)
    case Failed(SafetyCheck) => None
    case Routed(_) => None
  }

  /** The calculation is refused exactly when the guard fails. */
  lemma RejectedIffGuardFails(startPoint: string, dest: Option<Horta>, mapMounted: bool,
                              device: Option<Coord>, lookup: StartAnswer, mapAtRouting: bool)
    ensures RouteDecision(startPoint, dest, mapMounted, device, lookup, mapAtRouting).Rejected?
            <==> !CanCalculate(mapMounted, startPoint, dest)
  {
  }

  /** A route always ends at the destination garden, and starts where the start was resolved. */
  lemma RoutedWaypoints(startPoint: string, dest: Option<Horta>, mapMounted: bool,
                        device: Option<Coord>, lookup: StartAnswer, mapAtRouting: bool)
    requires RouteDecision(startPoint, dest, mapMounted, device, lookup, mapAtRouting).Routed?
    ensures var c := RouteDecision(startPoint, dest, mapMounted, device, lookup, mapAtRouting).control;
            && dest.Some? && dest.value.location == Some(c.destination)
            && (IsDeviceLocation(startPoint) ==> device == Some(c.start))
            && (!IsDeviceLocation(startPoint) ==> lookup == LookupFound(c.start))
  {
  }

  /** "meu local" in any case takes the device path: the typed-address lookup plays no part. */
  lemma DevicePathIgnoresLookup(startPoint: string, dest: Option<Horta>, mapMounted: bool,
                                device: Option<Coord>, l1: StartAnswer, l2: StartAnswer, mapAtRouting: bool)
    requires IsDeviceLocation(startPoint)
    ensures RouteDecision(startPoint, dest, mapMounted, device, l1, mapAtRouting)
            == RouteDecision(startPoint, dest, mapMounted, device, l2, mapAtRouting)
    ensures IsDeviceLocation(Text.Upper(startPoint))
  {
    Text.LowerIgnoresCase(startPoint);
  }

  /** A typed address never consults the device position. */
  lemma AddressPathIgnoresDevice(startPoint: string, dest: Option<Horta>, mapMounted: bool,
                                 d1: Option<Coord>, d2: Option<Coord>, lookup: StartAnswer, mapAtRouting: bool)
    requires !IsDeviceLocation(startPoint)
    ensures RouteDecision(startPoint, dest, mapMounted, d1, lookup, mapAtRouting)
            == RouteDecision(startPoint, dest, mapMounted, d2, lookup, mapAtRouting)
  {
  }

  /** A start point made only of whitespace passes the guard but fails as "invalid start point". */
  lemma BlankStartIsInvalid(startPoint: string, dest: Option<Horta>, device: Option<Coord>,
                            lookup: StartAnswer, mapAtRouting: bool)
    requires startPoint != "" && Text.IsBlank(startPoint) && HasRoutableCoords(dest)
    ensures RouteDecision(startPoint, dest, true, device, lookup, mapAtRouting) == Failed(InvalidStart)
  {
    Text.TrimEmptyIffBlank(startPoint);
    assert Text.Lower(startPoint)[0] == startPoint[0];
    assert DeviceLocationKeyword[0] == 'm';
  }

  /** The address path: an empty answer and a thrown lookup are distinct failures. */
  lemma AddressPathFailures(startPoint: string, dest: Option<Horta>, device: Option<Coord>, mapAtRouting: bool)
    requires CanCalculate(true, startPoint, dest) && !IsDeviceLocation(startPoint) && !Text.IsBlank(startPoint)
    ensures RouteDecision(startPoint, dest, true, device, LookupEmpty, mapAtRouting) == Failed(StartNotFound)
    ensures RouteDecision(startPoint, dest, true, device, LookupThrew, mapAtRouting) == Failed(StartLookupError)
  {
    Text.TrimEmptyIffBlank(startPoint);
  }

  /** Every failure path is announced, except the silent safety check. */
  lemma FailuresAreAnnounced(r: RouteResult)
    requires r.Failed? && r.why != SafetyCheck
    ensures AlertFor(r).Some?
  {
  }

  /** Every control other than `c`. */
  function Other(c: Control): Control -> bool {
    x => x != c
  }

  /** Removing the only control on the map leaves none. */
  lemma RemoveOnlyControl(c: Control)
    ensures Seqs.Filter([c], Other(c)) == []
  {
    assert !Other(c)(c);
    Seqs.FilterCons(c, [], Other(c));
  }

  // ------------------------------------------------------------------
  // The device-location path as written: listeners that accumulate
  // ------------------------------------------------------------------

  /**
   * The map as repeated "meu local" calculations leave it.  Each one adds a
   * `locationfound` listener that is never removed, and every later position
   * fix runs all of them.  `listeners` holds the destination each listener's
   * closure captured, `controls` the routing controls on the map, and
   * `remembered` the `routingControl` state.
   */
  datatype LocatingMap = LocatingMap(listeners: seq<Coord>, controls: seq<Control>, remembered: Option<Control>)

  /** One control per registered listener, all starting at the position fix. */
  function ListenerControls(listeners: seq<Coord>, at: Coord): (cs: seq<Control>)
    ensures |cs| == |listeners|
    ensures forall i :: 0 <= i < |listeners| ==> cs[i] == Control(at, listeners[i])
  {
    seq(|listeners|, i requires 0 <= i < |listeners| => Control(at, listeners[i]))
  }

  /**
   * A "meu local" calculation towards `destination` answered by the fix
   * `at`, as written: the remembered control is removed, one more listener
   * is registered, and the fix runs every listener, each adding its own
   * control; the state keeps only the last one.
   */
  function DeviceRouteAsWritten(m: LocatingMap, destination: Coord, at: Coord): (r: LocatingMap)
    ensures r.listeners == m.listeners + [destination]
    ensures r.remembered == Some(Control(at, destination))
    ensures forall i :: 0 <= i < |r.listeners| ==> Control(at, r.listeners[i]) in r.controls
    ensures |r.controls| >= |r.listeners|
  {
    var kept := if m.remembered.Some? then Seqs.Filter(m.controls, Other(m.remembered.value)) else m.controls;
    var listeners := m.listeners + [destination];
    var added := ListenerControls(listeners, at);
    var controls := kept + added;
    assert forall i :: 0 <= i < |listeners| ==> controls[|kept| + i] == Control(at, listeners[i]);
    LocatingMap(listeners, controls, Some(added[|added| - 1]))
  }

  /**
   * Two "meu local" calculations, towards `a` and then `b`: the second fix
   * also runs the first listener, so the map ends with a route to `a` that
   * the state no longer remembers.  When `a != b`, clearing the route
   * removes only the route to `b`.
   */
  lemma SecondDeviceRouteLeavesStaleControl(a: Coord, b: Coord, at1: Coord, at2: Coord)
    ensures var m1 := DeviceRouteAsWritten(LocatingMap([], [], None), a, at1);
            var m2 := DeviceRouteAsWritten(m1, b, at2);
            && m2.controls == [Control(at2, a), Control(at2, b)]
            && m2.remembered == Some(Control(at2, b))
  {
    var m1 := DeviceRouteAsWritten(LocatingMap([], [], None), a, at1);
    assert m1.controls == [Control(at1, a)];
    RemoveOnlyControl(Control(at1, a));
    var m2 := DeviceRouteAsWritten(m1, b, at2);
    assert m2.controls == [] + ListenerControls([a, b], at2);
  }

  /** Every record carries the coordinates the geocoder found. */
  predicate AllLocated(hortas: seq<Horta>) {
    forall i :: 0 <= i < |hortas| ==> hortas[i].location.Some?
  }

  // ------------------------------------------------------------------
  // The component's state
  // ------------------------------------------------------------------

  class MapState {
    var allHortas: seq<Horta>
    var filteredHortas: seq<Horta>
    /** The loading banner; None stands for the empty message. */
    var loadingMessage: Option<Notice>
    var error: Option<LoadError>
    var tiposDeHortaOptions: seq<TipoDeHorta>
    var activeFilters: seq<string>
    var searchTerm: string
    var startPoint: string
    var destinationHorta: Option<Horta>
    var routingControl: Option<Control>
    var isCalculatingRoute: bool
    /** Whether `mapRef.current` is set. */
    var mapMounted: bool
    /** The routing controls currently added to the map. */
    var mapControls: seq<Control>

    /**
     * The map holds exactly the control the state remembers (so at most
     * one), a control exists only on a mounted map, and every loaded
     * record is located.
     */
    ghost predicate Valid()
      reads this
    {
      && mapControls == (if routingControl.Some? then [routingControl.value] else [])
      && (routingControl.Some? ==> mapMounted)
      && AllLocated(allHortas)
    }

    constructor ()
      ensures Valid()
      ensures allHortas == [] && filteredHortas == [] && loadingMessage == None && error == None
      ensures tiposDeHortaOptions == [] && activeFilters == [] && searchTerm == ""
      ensures startPoint == "" && destinationHorta == None && routingControl == None
      ensures !isCalculatingRoute && !mapMounted && mapControls == []
    {
      allHortas, filteredHortas := [], [];
      loadingMessage, error := None, None;
      tiposDeHortaOptions, activeFilters := [], [];
      searchTerm, startPoint := "", "";
      destinationHorta, routingControl := None, None;
      isCalculatingRoute, mapMounted := false, false;
      mapControls := [];
    }

    /** The map container has rendered and `mapRef.current` is set. */
    method AttachMap()
      requires Valid()
      modifies this`mapMounted
      ensures Valid() && mapMounted
    {
      mapMounted := true;
    }

    /** `fetchTipos`: `response.data || []` on success, nothing on failure. */
    method LoadTipos(response: Option<Option<seq<TipoDeHorta>>>)
      requires Valid()
      modifies this`tiposDeHortaOptions
      ensures Valid()
      ensures response.None? ==> tiposDeHortaOptions == old(tiposDeHortaOptions)
      ensures response.Some? ==> tiposDeHortaOptions == response.value.GetOr([])
    {
      if response.Some? {
        tiposDeHortaOptions := response.value.GetOr([]);
      }
    }

    /** The effect that recomputes the visible records. */
    method RefreshVisible()
      modifies this`filteredHortas
      ensures filteredHortas == VisibleHortas(allHortas, activeFilters)
    {
      filteredHortas := VisibleHortas(allHortas, activeFilters);
    }

    /**
     * `fetchAndGeocodeHortas(term)` followed by the visibility effect.
     * Returns the loading message the `try` block leaves (the `finally`
     * clause clears it) and the geocoding queries sent.
     */
    method FetchAndGeocodeHortas(term: string, response: FetchResponse, lookups: seq<Option<Coord>>)
      returns (lastMessage: Notice, queries: seq<string>)
      requires Valid()
      requires LookupsAligned(term, response, lookups)
      modifies this`allHortas, this`filteredHortas, this`loadingMessage, this`error
      ensures Valid()
      ensures allHortas == Load(term, response, lookups).hortas
      ensures error == Load(term, response, lookups).error
      ensures lastMessage == Load(term, response, lookups).lastMessage
      ensures queries == Load(term, response, lookups).queries
      ensures loadingMessage == None
      ensures filteredHortas == VisibleHortas(allHortas, activeFilters)
    {
      loadingMessage := Some(LoadingList);
      error := None;
      allHortas := [];
      filteredHortas := [];
      queries := [];
      match response {
        case Unreachable =>
          error := Some(LoadFailed);
        case Delivered(body) =>
          if term != "" && body.None? {
            error := Some(LoadFailed);
          } else if body.None? {
            loadingMessage := Some(EmptyNotice(term));
          } else {
            var pending := SearchFilter(body.value, term);
            if |pending| == 0 {
              loadingMessage := Some(EmptyNotice(term));
            } else {
              queries := GeocodePending(term, pending, lookups);
            }
          }
      }
      lastMessage := loadingMessage.GetOr(LoadingList);
      loadingMessage := None;
      RefreshVisible();
    }

    /**
     * The geocoding step of `fetchAndGeocodeHortas`: announce the count,
     * geocode every pending record, keep the located ones, and raise the
     * error when none is left.  Returns the queries sent.
     */
    method GeocodePending(term: string, pending: seq<Horta>, lookups: seq<Option<Coord>>)
      returns (queries: seq<string>)
      requires Valid() && |lookups| == |pending|
      modifies this`allHortas, this`loadingMessage, this`error
      ensures Valid()
      ensures loadingMessage == Some(Geocoding(|pending|))
      ensures queries == GeocodeQueries(pending)
      ensures allHortas == Survivors(pending, lookups)
      ensures error == (if allHortas == [] then Some(GeocodeError(term)) else None)
    {
      loadingMessage := Some(Geocoding(|pending|));
      queries := GeocodeQueries(pending);
      var valid := Survivors(pending, lookups);
      allHortas := valid;
      if |valid| == 0 {
        error := Some(GeocodeError(term));
      } else {
        error := None;
      }
    }

    method SetSearchTerm(value: string)
      modifies this`searchTerm
      ensures searchTerm == value
    {
      searchTerm := value;
    }

    /** `handleSearchSubmit`: reload with the typed term. */
    method HandleSearchSubmit(response: FetchResponse, lookups: seq<Option<Coord>>)
      returns (lastMessage: Notice, queries: seq<string>)
      requires Valid()
      requires LookupsAligned(searchTerm, response, lookups)
      modifies this`allHortas, this`filteredHortas, this`loadingMessage, this`error
      ensures Valid()
      ensures allHortas == Load(searchTerm, response, lookups).hortas
      ensures error == Load(searchTerm, response, lookups).error
      ensures lastMessage == Load(searchTerm, response, lookups).lastMessage
      ensures queries == Load(searchTerm, response, lookups).queries
      ensures loadingMessage == None
      ensures filteredHortas == VisibleHortas(allHortas, activeFilters)
    {
      lastMessage, queries := FetchAndGeocodeHortas(searchTerm, response, lookups);
    }

    /** `onToggleFilter(tipoNome)` followed by the visibility effect. */
    method HandleToggleFilter(tipoNome: string)
      modifies this`activeFilters, this`filteredHortas
      ensures activeFilters == ToggleFilter(old(activeFilters), tipoNome)
      ensures filteredHortas == VisibleHortas(allHortas, activeFilters)
    {
      activeFilters := ToggleFilter(activeFilters, tipoNome);
      RefreshVisible();
    }

    /** `onSelectAllFilters(selectAll)` followed by the visibility effect. */
    method HandleSelectAllFilters(selectAll: bool)
      modifies this`activeFilters, this`filteredHortas
      ensures activeFilters == SelectAllFilters(selectAll, tiposDeHortaOptions)
      ensures filteredHortas == VisibleHortas(allHortas, activeFilters)
    {
      activeFilters := SelectAllFilters(selectAll, tiposDeHortaOptions);
      RefreshVisible();
    }

    /** A click on "Todos os Tipos", which is only enabled while there are categories: the handler called with `!allFiltersActuallySelected`. */
    method ClickSelectAll()
      requires !SelectAllDisabled(tiposDeHortaOptions)
      modifies this`activeFilters, this`filteredHortas
      ensures activeFilters == SelectAllClick(tiposDeHortaOptions, old(activeFilters))
      ensures IsEffectivelyAllSelected(tiposDeHortaOptions, activeFilters)
      ensures filteredHortas == VisibleHortas(allHortas, activeFilters)
    {
      HandleSelectAllFilters(!AllFiltersActuallySelected(tiposDeHortaOptions, activeFilters));
    }

    method SetStartPoint(value: string)
      modifies this`startPoint
      ensures startPoint == value
    {
      startPoint := value;
    }

    /** `handleSetAsDestination`. */
    method SetAsDestination(horta: Horta)
      modifies this`destinationHorta
      ensures destinationHorta == Some(horta)
    {
      destinationHorta := Some(horta);
    }

    /** The map's `removeControl`. */
    method RemoveControl(c: Control)
      modifies this`mapControls
      ensures mapControls == Seqs.Filter(old(mapControls), Other(c))
    {
      mapControls := Seqs.Filter(mapControls, Other(c));
    }

    /** Removes the current routing control, if any, from the map and forgets it. */
    method DetachRoute()
      requires Valid()
      modifies this`routingControl, this`mapControls
      ensures Valid() && routingControl == None && mapControls == []
    {
      if routingControl.Some? {
        RemoveOnlyControl(routingControl.value);
        RemoveControl(routingControl.value);
        routingControl := None;
      }
    }

    /**
     * `geocodeAndRoute(startPoint)` up to the point where routing proceeds:
     * the device position for "meu local", the geocoder's first answer for a
     * non-blank address, and a failure otherwise.
     */
    method ResolveStartPoint(device: Option<Coord>, lookup: StartAnswer) returns (start: StartResolution)
      ensures start == ResolveStart(startPoint, device, lookup)
    {
      if Text.Lower(startPoint) == DeviceLocationKeyword {
        if device.None? {
          return Unresolved(LocationUnavailable);
        }
        return Resolved(device.value);
      }
      var startLatLng: Option<Coord> := None;
      if Text.Trim(startPoint) != "" {
        match lookup {
          case LookupFound(c) =>
            startLatLng := Some(c);
          case LookupEmpty =>
            return Unresolved(StartNotFound);
          case LookupThrew =>
            return Unresolved(StartLookupError);
        }
      }
      if startLatLng.None? {
        return Unresolved(InvalidStart);
      }
      return Resolved(startLatLng.value);
    }

    /** `proceedWithRouting`: the safety check, then a control from the start to the destination. */
    method ProceedWithRouting(start: Coord, mapAtRouting: bool) returns (result: RouteResult)
      requires Valid() && mapMounted && routingControl.None?
      modifies this`isCalculatingRoute, this`routingControl, this`mapControls
      ensures Valid() && !isCalculatingRoute
      ensures !mapAtRouting || !HasRoutableCoords(destinationHorta) ==>
                result == Failed(SafetyCheck) && routingControl == None
      ensures mapAtRouting && HasRoutableCoords(destinationHorta) ==>
                result == Routed(Control(start, destinationHorta.value.location.value))
                && routingControl == Some(result.control)
    {
      if !mapAtRouting || !HasRoutableCoords(destinationHorta) {
        isCalculatingRoute := false;
        return Failed(SafetyCheck);
      }
      var control := Control(start, destinationHorta.value.location.value);
      mapControls := mapControls + [control];
      routingControl := Some(control);
      isCalculatingRoute := false;
      result := Routed(control);
    }

    /** The steps of `handleCalculateRoute` after its guard has passed. */
    method PlanRoute(device: Option<Coord>, lookup: StartAnswer, mapAtRouting: bool) returns (result: RouteResult)
      requires Valid() && CanCalculate(mapMounted, startPoint, destinationHorta)
      modifies this`isCalculatingRoute, this`routingControl, this`mapControls
      ensures Valid() && !isCalculatingRoute
      ensures result == RouteDecision(startPoint, destinationHorta, mapMounted, device, lookup, mapAtRouting)
      ensures routingControl == (if result.Routed? then Some(result.control) else None)
    {
      isCalculatingRoute := true;
      DetachRoute();
      var start := ResolveStartPoint(device, lookup);
      DecisionAfterGuard(startPoint, destinationHorta, mapMounted, device, lookup, mapAtRouting, start);
      if start.Unresolved? {
        isCalculatingRoute := false;
        result := Failed(start.why);
      } else {
        result := ProceedWithRouting(start.at, mapAtRouting);
        assert HasRoutableCoords(destinationHorta);
      }
    }

    /**
     * `handleCalculateRoute` with the oracles' answers: the device position
     * (`locationfound` / `locationerror`), the geocoder's answer for a typed
     * start, and whether the map is still mounted when routing proceeds.
     */
    method CalculateRoute(device: Option<Coord>, lookup: StartAnswer, mapAtRouting: bool)
      returns (result: RouteResult, alert: Option<Alert>)
      requires Valid()
      modifies this`isCalculatingRoute, this`routingControl, this`mapControls
      ensures Valid()
      ensures result == RouteDecision(startPoint, destinationHorta, mapMounted, device, lookup, mapAtRouting)
      ensures alert == AlertFor(result)
      ensures !CanCalculate(mapMounted, startPoint, destinationHorta) ==>
                isCalculatingRoute == old(isCalculatingRoute) && routingControl == old(routingControl)
                && mapControls == old(mapControls)
      ensures CanCalculate(mapMounted, startPoint, destinationHorta) ==>
                !isCalculatingRoute && routingControl == (if result.Routed? then Some(result.control) else None)
    {
      if !mapMounted || startPoint == "" || !HasRoutableCoords(destinationHorta) {
        result := Rejected;
      } else {
        result := PlanRoute(device, lookup, mapAtRouting);
      }
      alert := AlertFor(result);
    }

    /** `handleClearRoute`: remove the control, empty the start text, forget the destination. */
    method ClearRoute()
      requires Valid()
      modifies this`routingControl, this`mapControls, this`startPoint, this`destinationHorta
      ensures Valid()
      ensures routingControl == None && mapControls == []
      ensures startPoint == "" && destinationHorta == None
    {
      if routingControl.Some? && mapMounted {
        RemoveOnlyControl(routingControl.value);
        RemoveControl(routingControl.value);
        routingControl := None;
      }
      startPoint := "";
      destinationHorta := None;
    }
  }
}
