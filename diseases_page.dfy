/** The query behind the disease list page: a free-text search over name and
    description combined with a severity filter, the severity facet buttons
    with their counts, the "Clear Filters" reset and the "Showing X of Y"
    summary. The page's React state (search term, selected severity) is
    passed in as a `DiseaseQuery`. */
module DiseasesPage {
  import opened Text
  import opened Collections
  import opened DiseaseData
  import opened DiseaseSearchText

  /** The page's filter state: the search box text and the selected severity,
      where `All` stands for the value "all". */
  datatype DiseaseQuery = DiseaseQuery(searchTerm: string, severity: Selector<Severity>)

  /** The search box matches the name or the description, ignoring case. */
  predicate MatchesSearch(d: Disease, term: string)
  {
    MatchesTerm(d.name, term) || MatchesTerm(d.description, term)
  }

  /** The test `filteredDiseases` applies to each disease. */
  predicate Matches(d: Disease, q: DiseaseQuery)
  {
    MatchesSearch(d, q.searchTerm) && q.severity.Admits(d.severity)
  }

  /** `filteredDiseases`: the diseases passing the query, in catalog order. */
  function FilteredDiseases(ds: seq<Disease>, q: DiseaseQuery): (r: seq<Disease>)
    ensures |r| <= |ds|
    ensures forall i :: 0 <= i < |r| ==> Matches(r[i], q)
  {
    Filter(ds, (d: Disease) => Matches(d, q))
  }

  /** A disease is shown exactly when it is listed and passes the query, and
      the shown diseases keep the catalog order. */
  lemma FilteredDiseasesExactly(ds: seq<Disease>, q: DiseaseQuery)
    ensures forall i :: 0 <= i < |FilteredDiseases(ds, q)| ==> FilteredDiseases(ds, q)[i] in ds
    ensures forall i :: 0 <= i < |ds| && Matches(ds[i], q) ==> ds[i] in FilteredDiseases(ds, q)
    ensures IsSubsequence(FilteredDiseases(ds, q), ds)
  {
    FilterMembers(ds, (d: Disease) => Matches(d, q));
    FilterSubsequence(ds, (d: Disease) => Matches(d, q));
  }

  /** The "Clear Filters" button: empty search, severity "all". */
  function ClearFilters(): DiseaseQuery
  {
    DiseaseQuery("", All)
  }

  /** After clearing, every disease is shown, in catalog order. */
  lemma ClearedShowsAll(ds: seq<Disease>)
    ensures FilteredDiseases(ds, ClearFilters()) == ds
  {
    forall d | d in ds
      ensures Matches(d, ClearFilters())
    {
      EmptyTermMatches(d.name);
    }
    FilterKeepsAll(ds, (d: Disease) => Matches(d, ClearFilters()));
  }

  /** Two search terms with the same lower-case form show the same diseases. */
  lemma SearchIgnoresCase(ds: seq<Disease>, q: DiseaseQuery, term: string)
    requires Lower(term) == Lower(q.searchTerm)
    ensures FilteredDiseases(ds, q.(searchTerm := term)) == FilteredDiseases(ds, q)
  {
    var q' := q.(searchTerm := term);
    forall d | d in ds
      ensures Matches(d, q') == Matches(d, q)
    {
      MatchesTermIgnoresCase(d.name, term);
      MatchesTermIgnoresCase(d.name, q.searchTerm);
      MatchesTermIgnoresCase(d.description, term);
      MatchesTermIgnoresCase(d.description, q.searchTerm);
    }
    FilterCongruent(ds, (d: Disease) => Matches(d, q'), (d: Disease) => Matches(d, q));
  }

  /** Picking one severity instead of "all" keeps a subsequence of the result. */
  lemma NarrowBySeverity(ds: seq<Disease>, term: string, severity: Severity)
    ensures IsSubsequence(FilteredDiseases(ds, DiseaseQuery(term, Only(severity))),
                          FilteredDiseases(ds, DiseaseQuery(term, All)))
  {
    FilterNarrows(ds, (d: Disease) => Matches(d, DiseaseQuery(term, All)),
                      (d: Disease) => Matches(d, DiseaseQuery(term, Only(severity))));
  }

  /** Typing more characters into the search box keeps a subsequence of the result. */
  lemma NarrowByTyping(ds: seq<Disease>, q: DiseaseQuery, more: string)
    ensures IsSubsequence(FilteredDiseases(ds, q.(searchTerm := q.searchTerm + more)),
                          FilteredDiseases(ds, q))
  {
    var longer := q.(searchTerm := q.searchTerm + more);
    forall d | d in ds && Matches(d, longer)
      ensures Matches(d, q)
    {
      if MatchesTerm(d.name, q.searchTerm + more) {
        MatchesTermExtend(d.name, q.searchTerm, more);
      } else {
        MatchesTermExtend(d.description, q.searchTerm, more);
      }
    }
    FilterNarrows(ds, (d: Disease) => Matches(d, q), (d: Disease) => Matches(d, longer));
  }

  /** Narrowing steps compose: picking a severity and then typing more keeps a
      subsequence of what the shorter term showed over all severities. */
  lemma NarrowSuccessively(ds: seq<Disease>, term: string, more: string, severity: Severity)
    ensures IsSubsequence(FilteredDiseases(ds, DiseaseQuery(term + more, Only(severity))),
                          FilteredDiseases(ds, DiseaseQuery(term, All)))
  {
    NarrowByTyping(ds, DiseaseQuery(term, Only(severity)), more);
    NarrowBySeverity(ds, term, severity);
    SubsequenceTransitive(FilteredDiseases(ds, DiseaseQuery(term + more, Only(severity))),
                          FilteredDiseases(ds, DiseaseQuery(term, Only(severity))),
                          FilteredDiseases(ds, DiseaseQuery(term, All)));
  }

  /** `severityFilters`: the four buttons, counted over the whole catalog.
      The counts take neither the search term nor the selection. */
  function SeverityFacets(ds: seq<Disease>): (r: seq<Facet<Severity>>)
    ensures |r| == 4
    ensures r[0].value == All && r[0].count == |ds|
    ensures r[1].value == Only(Healthy) && r[2].value == Only(Warning) && r[3].value == Only(Critical)
    ensures r[1].count + r[2].count + r[3].count == |ds|
  {
    SeveritiesPartition(ds);
    [ Facet(All, "All Types", |ds|),
      Facet(Only(Healthy), "Healthy", |OfSeverity(ds, Healthy)|),
      Facet(Only(Warning), "Moderate", |OfSeverity(ds, Warning)|),
      Facet(Only(Critical), "Critical", |OfSeverity(ds, Critical)|) ]
  }

  /** With an empty search box, choosing a severity lists exactly the
      diseases of that severity. */
  lemma SeverityClick(ds: seq<Disease>, severity: Severity)
    ensures FilteredDiseases(ds, DiseaseQuery("", Only(severity))) == OfSeverity(ds, severity)
  {
    var q := DiseaseQuery("", Only(severity));
    forall d | d in ds
      ensures Matches(d, q) == (d.severity == severity)
    {
      EmptyTermMatches(d.name);
    }
    FilterCongruent(ds, (d: Disease) => Matches(d, q), (d: Disease) => d.severity == severity);
  }

  /** Each badge shows how many diseases clicking its button lists while the
      search box is empty. */
  lemma FacetCountIsClickResult(ds: seq<Disease>, i: nat)
    requires i < 4
    ensures SeverityFacets(ds)[i].count == |FilteredDiseases(ds, DiseaseQuery("", SeverityFacets(ds)[i].value))|
  {
    match i
    case 0 => ClearedShowsAll(ds);
    case 1 => SeverityClick(ds, Healthy);
    case 2 => SeverityClick(ds, Warning);
    case 3 => SeverityClick(ds, Critical);
  }

  /** The "Showing X of Y diseases" line. */
  function Summary(ds: seq<Disease>, q: DiseaseQuery): (r: ResultsSummary)
    ensures r.shown == |FilteredDiseases(ds, q)|
    ensures r.shown <= r.total == |ds|
    ensures r.shown == |ds| <== q == ClearFilters()
  {
    ClearedShowsAll(ds);
    ResultsSummary(|FilteredDiseases(ds, q)|, |ds|)
  }

  /** On the catalog the badges read 5, 1, 1 and 3. */
  lemma CatalogFacetCounts()
    ensures SeverityFacets(Diseases)[0].count == 5
    ensures SeverityFacets(Diseases)[1].count == 1
    ensures SeverityFacets(Diseases)[2].count == 1
    ensures SeverityFacets(Diseases)[3].count == 3
  {
    HealthyAndWarningDiseases();
    CriticalDiseases();
  }

  /** The search keeps exactly the second, third and fifth of five diseases
      when only those match it. */
  lemma SecondThirdFifth(ds: seq<Disease>, q: DiseaseQuery)
    requires |ds| == 5
    requires !Matches(ds[0], q) && Matches(ds[1], q) && Matches(ds[2], q)
    requires !Matches(ds[3], q) && Matches(ds[4], q)
    ensures FilteredDiseases(ds, q) == [ds[1], ds[2], ds[4]]
  {
    var keep := (d: Disease) => Matches(d, q);
    assert ds == [ds[0]] + [ds[1]] + [ds[2]] + [ds[3]] + [ds[4]];
    FilterAppend([ds[0]] + [ds[1]] + [ds[2]] + [ds[3]], [ds[4]], keep);
    FilterAppend([ds[0]] + [ds[1]] + [ds[2]], [ds[3]], keep);
    FilterAppend([ds[0]] + [ds[1]], [ds[2]], keep);
    FilterAppend([ds[0]], [ds[1]], keep);
  }

  /** Which catalog entries the search for "pneumonia" matches. */
  lemma PneumoniaMatches()
    ensures !MatchesSearch(HealthyLungs, "pneumonia")
    ensures MatchesSearch(ViralPneumonia, "pneumonia")
    ensures MatchesSearch(BacterialPneumonia, "pneumonia")
    ensures !MatchesSearch(Tuberculosis, "pneumonia")
    ensures MatchesSearch(Covid19, "pneumonia")
  {
    HealthyNameNoPneumonia();
    HealthyDescriptionNoPneumonia();
    ViralNamePneumonia();
    BacterialNamePneumonia();
    TuberculosisNameNoPneumonia();
    TuberculosisDescriptionNoPneumonia();
    CovidNamePneumonia();
  }

  /** Searching "pneumonia" over all severities lists viral pneumonia,
      bacterial pneumonia and COVID-19, in that order. */
  lemma PneumoniaSearch()
    ensures FilteredDiseases(Diseases, DiseaseQuery("pneumonia", All))
      == [ViralPneumonia, BacterialPneumonia, Covid19]
  {
    PneumoniaMatches();
    SecondThirdFifth(Diseases, DiseaseQuery("pneumonia", All));
  }
}
