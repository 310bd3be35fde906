/** The home-remedies page: the `Remedy` record, the page's list of ten
    remedies, the query that combines a search over name and benefits with a
    category and an effectiveness filter, the two rows of facet buttons with
    their counts, the "Clear Filters" reset and the "Showing X of Y" summary.
    The page's React state (search term, selected category, selected
    effectiveness) is passed in as a `RemedyQuery`. */
module RemediesPage {
  import opened Text
  import opened Collections

  datatype Category = Herbs | EssentialOils | Lifestyle | Diet | Breathing

  datatype Effectiveness = High | Medium | Low

  /** One remedy card. `ingredients` is optional in the record and absent
      from five of the ten entries. */
  datatype Remedy = Remedy(
    id: string,
    name: string,
    category: Category,
    effectiveness: Effectiveness,
    preparation: string,
    benefits: seq<string>,
    precautions: seq<string>,
    duration: string,
    ingredients: Option<seq<string>>,
    instructions: seq<string>)

  const GingerTea: Remedy :=
    Remedy(
      id := "1",
      name := "Ginger Tea",
      category := Herbs,
      effectiveness := High,
      preparation := "5-10 minutes",
      benefits := [
        "Reduces inflammation in airways",
        "Boosts immune system",
        "Relieves cough and congestion",
        "Improves respiratory function"
      ],
      precautions := [
        "Avoid if you have bleeding disorders",
        "May interact with blood thinners",
        "Not recommended during pregnancy"
      ],
      duration := "2-3 times daily",
      ingredients := Some([
        "Fresh ginger root",
        "Honey",
        "Lemon",
        "Hot water"
      ]),
      instructions := [
        "Slice 1-2 inches of fresh ginger",
        "Boil in 2 cups of water for 10 minutes",
        "Add honey and lemon to taste",
        "Drink 2-3 times daily"
      ])

  const EucalyptusOil: Remedy :=
    Remedy(
      id := "2",
      name := "Eucalyptus Essential Oil",
      category := EssentialOils,
      effectiveness := High,
      preparation := "2-3 minutes",
      benefits := [
        "Clears nasal congestion",
        "Reduces inflammation",
        "Improves breathing",
        "Natural decongestant"
      ],
      precautions := [
        "Never ingest essential oils",
        "Dilute before topical use",
        "Keep away from children",
        "Avoid if you have asthma"
      ],
      duration := "2-3 times daily",
      ingredients := None,
      instructions := [
        "Add 3-5 drops to diffuser",
        "Inhale steam with 2 drops in hot water",
        "Apply diluted to chest (1 drop per teaspoon carrier oil)",
        "Use 2-3 times daily"
      ])

  const DeepBreathing: Remedy :=
    Remedy(
      id := "3",
      name := "Deep Breathing Exercises",
      category := Breathing,
      effectiveness := High,
      preparation := "5-15 minutes",
      benefits := [
        "Strengthens lung capacity",
        "Reduces stress and anxiety",
        "Improves oxygen circulation",
        "Enhances respiratory function"
      ],
      precautions := [
        "Stop if you feel dizzy",
        "Don't overexert yourself",
        "Consult doctor if you have heart conditions"
      ],
      duration := "5-10 minutes daily",
      ingredients := None,
      instructions := [
        "Sit comfortably with straight back",
        "Place hands on abdomen",
        "Inhale deeply through nose for 4 counts",
        "Hold breath for 4 counts",
        "Exhale slowly through mouth for 6 counts",
        "Repeat for 5-10 minutes"
      ])

  const TurmericMilk: Remedy :=
    Remedy(
      id := "4",
      name := "Turmeric Golden Milk",
      category := Herbs,
      effectiveness := Medium,
      preparation := "10-15 minutes",
      benefits := [
        "Anti-inflammatory properties",
        "Boosts immunity",
        "Improves respiratory health",
        "Rich in antioxidants"
      ],
      precautions := [
        "May cause stomach upset in some",
        "Avoid if you have gallbladder issues",
        "May interact with diabetes medications"
      ],
      duration := "Once daily",
      ingredients := Some([
        "Turmeric powder",
        "Milk",
        "Honey",
        "Black pepper",
        "Cinnamon"
      ]),
      instructions := [
        "Heat 1 cup of milk",
        "Add 1/2 tsp turmeric powder",
        "Add pinch of black pepper",
        "Add honey and cinnamon to taste",
        "Drink before bedtime"
      ])

  const SteamInhalation: Remedy :=
    Remedy(
      id := "5",
      name := "Steam Inhalation",
      category := Lifestyle,
      effectiveness := Medium,
      preparation := "5-10 minutes",
      benefits := [
        "Loosens mucus",
        "Relieves congestion",
        "Soothes irritated airways",
        "Improves breathing"
      ],
      precautions := [
        "Be careful with hot water",
        "Don't burn yourself",
        "Keep face at safe distance",
        "Stop if uncomfortable"
      ],
      duration := "2-3 times daily",
      ingredients := None,
      instructions := [
        "Boil water in a pot",
        "Add 2-3 drops of essential oil (optional)",
        "Place towel over head",
        "Inhale steam for 5-10 minutes",
        "Repeat 2-3 times daily"
      ])

  const HoneyLemon: Remedy :=
    Remedy(
      id := "6",
      name := "Honey and Lemon",
      category := Diet,
      effectiveness := Medium,
      preparation := "2 minutes",
      benefits := [
        "Soothes sore throat",
        "Natural cough suppressant",
        "Boosts immunity",
        "Provides antioxidants"
      ],
      precautions := [
        "Don't give honey to children under 1",
        "May raise blood sugar",
        "Use raw, unprocessed honey"
      ],
      duration := "2-3 times daily",
      ingredients := Some([
        "Raw honey",
        "Fresh lemon juice",
        "Warm water"
      ]),
      instructions := [
        "Mix 1 tbsp honey with 1 tbsp lemon juice",
        "Add to warm water",
        "Drink 2-3 times daily",
        "Can be taken directly by spoon"
      ])

  const PeppermintTea: Remedy :=
    Remedy(
      id := "7",
      name := "Peppermint Tea",
      category := Herbs,
      effectiveness := Medium,
      preparation := "5 minutes",
      benefits := [
        "Relieves congestion",
        "Soothes respiratory tract",
        "Reduces inflammation",
        "Natural decongestant"
      ],
      precautions := [
        "May cause heartburn in some",
        "Avoid if you have GERD",
        "Not recommended for infants"
      ],
      duration := "2-3 times daily",
      ingredients := Some([
        "Fresh peppermint leaves",
        "Hot water",
        "Honey (optional)"
      ]),
      instructions := [
        "Steep 1 tbsp fresh leaves in hot water",
        "Let steep for 5 minutes",
        "Strain and add honey if desired",
        "Drink 2-3 times daily"
      ])

  const SaltWaterGargle: Remedy :=
    Remedy(
      id := "8",
      name := "Salt Water Gargle",
      category := Lifestyle,
      effectiveness := Medium,
      preparation := "1 minute",
      benefits := [
        "Reduces throat inflammation",
        "Kills bacteria",
        "Relieves sore throat",
        "Loosens mucus"
      ],
      precautions := [
        "Don't swallow salt water",
        "Use warm, not hot water",
        "Stop if it causes irritation"
      ],
      duration := "3-4 times daily",
      ingredients := None,
      instructions := [
        "Mix 1/2 tsp salt in 1 cup warm water",
        "Gargle for 30 seconds",
        "Spit out (don't swallow)",
        "Repeat 3-4 times daily"
      ])

  const GarlicHoney: Remedy :=
    Remedy(
      id := "9",
      name := "Garlic and Honey",
      category := Diet,
      effectiveness := High,
      preparation := "24 hours",
      benefits := [
        "Natural antibiotic properties",
        "Boosts immune system",
        "Reduces inflammation",
        "Fights respiratory infections"
      ],
      precautions := [
        "May cause bad breath",
        "May interact with blood thinners",
        "Avoid if you have stomach ulcers"
      ],
      duration := "2-3 times daily",
      ingredients := Some([
        "Fresh garlic cloves",
        "Raw honey"
      ]),
      instructions := [
        "Crush 3-4 garlic cloves",
        "Mix with 1 tbsp honey",
        "Let sit for 24 hours",
        "Take 1 tsp 2-3 times daily"
      ])

  const LungYoga: Remedy :=
    Remedy(
      id := "10",
      name := "Yoga for Lung Health",
      category := Lifestyle,
      effectiveness := High,
      preparation := "20-30 minutes",
      benefits := [
        "Improves lung capacity",
        "Reduces stress",
        "Enhances breathing",
        "Strengthens respiratory muscles"
      ],
      precautions := [
        "Start slowly if beginner",
        "Don't overexert yourself",
        "Stop if you feel pain"
      ],
      duration := "Daily practice",
      ingredients := None,
      instructions := [
        "Practice pranayama (breathing exercises)",
        "Do gentle chest-opening poses",
        "Include relaxation poses",
        "Practice daily for best results"
      ])

  /** The page's `remedies` list, in display order. */
  const Remedies: seq<Remedy> :=
    [ GingerTea, EucalyptusOil, DeepBreathing, TurmericMilk, SteamInhalation,
      HoneyLemon, PeppermintTea, SaltWaterGargle, GarlicHoney, LungYoga ]

  /** The page's filter state: the search box text, the selected category and
      the selected effectiveness, where `All` stands for the value "all". */
  datatype RemedyQuery = RemedyQuery(
    searchTerm: string,
    category: Selector<Category>,
    effectiveness: Selector<Effectiveness>)

  /** `benefits.some(b => matches b)`. */
  predicate SomeBenefitMatches(benefits: seq<string>, term: string)
  {
    exists i :: 0 <= i < |benefits| && MatchesTerm(benefits[i], term)
  }

  /** The search box matches the name or any one of the benefits, ignoring case. */
  predicate MatchesSearch(r: Remedy, term: string)
  {
    MatchesTerm(r.name, term) || SomeBenefitMatches(r.benefits, term)
  }

  /** The test `filteredRemedies` applies to each remedy. */
  predicate Matches(r: Remedy, q: RemedyQuery)
  {
    MatchesSearch(r, q.searchTerm) && q.category.Admits(r.category) && q.effectiveness.Admits(r.effectiveness)
  }

  /** `filteredRemedies`: the remedies passing the query, in list order. */
  function FilteredRemedies(rs: seq<Remedy>, q: RemedyQuery): (r: seq<Remedy>)
    ensures |r| <= |rs|
    ensures forall i :: 0 <= i < |r| ==> Matches(r[i], q)
  {
    Filter(rs, (x: Remedy) => Matches(x, q))
  }

  /** A remedy is shown exactly when it is listed and passes the query, and
      the shown remedies keep the list order. */
  lemma FilteredRemediesExactly(rs: seq<Remedy>, q: RemedyQuery)
    ensures forall i :: 0 <= i < |FilteredRemedies(rs, q)| ==> FilteredRemedies(rs, q)[i] in rs
    ensures forall i :: 0 <= i < |rs| && Matches(rs[i], q) ==> rs[i] in FilteredRemedies(rs, q)
    ensures IsSubsequence(FilteredRemedies(rs, q), rs)
  {
    FilterMembers(rs, (x: Remedy) => Matches(x, q));
    FilterSubsequence(rs, (x: Remedy) => Matches(x, q));
  }

  /** The "Clear Filters" button: empty search, category and effectiveness "all". */
  function ClearFilters(): RemedyQuery
  {
    RemedyQuery("", All, All)
  }

  /** With an empty search box every remedy passes the search. */
  lemma EmptySearchMatches(r: Remedy)
    ensures MatchesSearch(r, "")
  {
    EmptyTermMatches(r.name);
  }

  /** After clearing, every remedy is shown, in list order. */
  lemma ClearedShowsAll(rs: seq<Remedy>)
    ensures FilteredRemedies(rs, ClearFilters()) == rs
  {
    forall x | x in rs
      ensures Matches(x, ClearFilters())
    {
      EmptySearchMatches(x);
    }
    FilterKeepsAll(rs, (x: Remedy) => Matches(x, ClearFilters()));
  }

  /** Two search terms with the same lower-case form show the same remedies. */
  lemma SearchIgnoresCase(rs: seq<Remedy>, q: RemedyQuery, term: string)
    requires Lower(term) == Lower(q.searchTerm)
    ensures FilteredRemedies(rs, q.(searchTerm := term)) == FilteredRemedies(rs, q)
  {
    var q' := q.(searchTerm := term);
    forall x | x in rs
      ensures Matches(x, q') == Matches(x, q)
    {
      MatchesTermIgnoresCase(x.name, term);
      MatchesTermIgnoresCase(x.name, q.searchTerm);
      forall i | 0 <= i < |x.benefits|
        ensures MatchesTerm(x.benefits[i], term) == MatchesTerm(x.benefits[i], q.searchTerm)
      {
        MatchesTermIgnoresCase(x.benefits[i], term);
        MatchesTermIgnoresCase(x.benefits[i], q.searchTerm);
      }
    }
    FilterCongruent(rs, (x: Remedy) => Matches(x, q'), (x: Remedy) => Matches(x, q));
  }

  /** Picking one category instead of "all" keeps a subsequence of the result. */
  lemma NarrowByCategory(rs: seq<Remedy>, q: RemedyQuery, category: Category)
    requires q.category == All
    ensures IsSubsequence(FilteredRemedies(rs, q.(category := Only(category))), FilteredRemedies(rs, q))
  {
    var q' := q.(category := Only(category));
    FilterNarrows(rs, (x: Remedy) => Matches(x, q), (x: Remedy) => Matches(x, q'));
  }

  /** Picking one effectiveness instead of "all" keeps a subsequence of the result. */
  lemma NarrowByEffectiveness(rs: seq<Remedy>, q: RemedyQuery, level: Effectiveness)
    requires q.effectiveness == All
    ensures IsSubsequence(FilteredRemedies(rs, q.(effectiveness := Only(level))), FilteredRemedies(rs, q))
  {
    var q' := q.(effectiveness := Only(level));
    FilterNarrows(rs, (x: Remedy) => Matches(x, q), (x: Remedy) => Matches(x, q'));
  }

  /** Typing more characters into the search box keeps a subsequence of the result. */
  lemma NarrowByTyping(rs: seq<Remedy>, q: RemedyQuery, more: string)
    ensures IsSubsequence(FilteredRemedies(rs, q.(searchTerm := q.searchTerm + more)),
                          FilteredRemedies(rs, q))
  {
    var longer := q.(searchTerm := q.searchTerm + more);
    forall x | x in rs && Matches(x, longer)
      ensures Matches(x, q)
    {
      if MatchesTerm(x.name, q.searchTerm + more) {
        MatchesTermExtend(x.name, q.searchTerm, more);
      } else {
        var i :| 0 <= i < |x.benefits| && MatchesTerm(x.benefits[i], q.searchTerm + more);
        MatchesTermExtend(x.benefits[i], q.searchTerm, more);
      }
    }
    FilterNarrows(rs, (x: Remedy) => Matches(x, q), (x: Remedy) => Matches(x, longer));
  }

  /** Narrowing steps compose: picking a category, then a level, then typing
      more keeps a subsequence of what the shorter term showed with both
      selectors on "all". */
  lemma NarrowSuccessively(rs: seq<Remedy>, term: string, more: string, category: Category, level: Effectiveness)
    ensures IsSubsequence(FilteredRemedies(rs, RemedyQuery(term + more, Only(category), Only(level))),
                          FilteredRemedies(rs, RemedyQuery(term, All, All)))
  {
    var loose := RemedyQuery(term, All, All);
    var byCategory := RemedyQuery(term, Only(category), All);
    var byBoth := RemedyQuery(term, Only(category), Only(level));
    var typed := RemedyQuery(term + more, Only(category), Only(level));
    NarrowByCategory(rs, loose, category);
    NarrowByEffectiveness(rs, byCategory, level);
    NarrowByTyping(rs, byBoth, more);
    SubsequenceTransitive(FilteredRemedies(rs, byBoth), FilteredRemedies(rs, byCategory), FilteredRemedies(rs, loose));
    SubsequenceTransitive(FilteredRemedies(rs, typed), FilteredRemedies(rs, byBoth), FilteredRemedies(rs, loose));
  }

  /** The category column of a list of remedies. */
  function CategoryColumn(rs: seq<Remedy>): seq<Category>
  {
    Project(rs, (x: Remedy) => x.category)
  }

  /** The effectiveness column of a list of remedies. */
  function EffectivenessColumn(rs: seq<Remedy>): seq<Effectiveness>
  {
    Project(rs, (x: Remedy) => x.effectiveness)
  }

  /** The remedies of one category, in list order; there are as many as the
      category occurs in the category column. */
  function OfCategory(rs: seq<Remedy>, category: Category): (r: seq<Remedy>)
    ensures |r| == multiset(CategoryColumn(rs))[category]
  {
    FilterCountByKey(rs, (x: Remedy) => x.category == category, (x: Remedy) => x.category, category);
    Filter(rs, (x: Remedy) => x.category == category)
  }

  /** The remedies of one effectiveness level, in list order; there are as
      many as the level occurs in the effectiveness column. */
  function OfEffectiveness(rs: seq<Remedy>, level: Effectiveness): (r: seq<Remedy>)
    ensures |r| == multiset(EffectivenessColumn(rs))[level]
  {
    FilterCountByKey(rs, (x: Remedy) => x.effectiveness == level, (x: Remedy) => x.effectiveness, level);
    Filter(rs, (x: Remedy) => x.effectiveness == level)
  }

  /** Each entry of a category column is one of the five categories. */
  lemma {:induction false} CategoryColumnPartition(column: seq<Category>)
    ensures multiset(column)[Herbs] + multiset(column)[EssentialOils] + multiset(column)[Lifestyle]
          + multiset(column)[Diet] + multiset(column)[Breathing] == |column|
  {
    if column != [] {
      CategoryColumnPartition(column[1..]);
      assert column == [column[0]] + column[1..];
      assert multiset(column) == multiset{column[0]} + multiset(column[1..]);
      match column[0]
      case Herbs =>
      case EssentialOils =>
      case Lifestyle =>
      case Diet =>
      case Breathing =>
    }
  }

  /** Each entry of an effectiveness column is one of the three levels. */
  lemma {:induction false} EffectivenessColumnPartition(column: seq<Effectiveness>)
    ensures multiset(column)[High] + multiset(column)[Medium] + multiset(column)[Low] == |column|
  {
    if column != [] {
      EffectivenessColumnPartition(column[1..]);
      assert column == [column[0]] + column[1..];
      assert multiset(column) == multiset{column[0]} + multiset(column[1..]);
      match column[0]
      case High =>
      case Medium =>
      case Low =>
    }
  }

  /** The five categories split any list of remedies between them. */
  lemma CategoriesPartition(rs: seq<Remedy>)
    ensures |OfCategory(rs, Herbs)| + |OfCategory(rs, EssentialOils)| + |OfCategory(rs, Lifestyle)|
          + |OfCategory(rs, Diet)| + |OfCategory(rs, Breathing)| == |rs|
  {
    CategoryColumnPartition(CategoryColumn(rs));
  }

  /** The three effectiveness levels split any list of remedies between them. */
  lemma EffectivenessPartition(rs: seq<Remedy>)
    ensures |OfEffectiveness(rs, High)| + |OfEffectiveness(rs, Medium)| + |OfEffectiveness(rs, Low)| == |rs|
  {
    EffectivenessColumnPartition(EffectivenessColumn(rs));
  }

  /** `categories`: the six category buttons, counted over the whole list.
      The counts take neither the search term nor the selections. */
  function CategoryFacets(rs: seq<Remedy>): (r: seq<Facet<Category>>)
    ensures |r| == 6
    ensures r[0].value == All && r[0].count == |rs|
    ensures r[1].value == Only(Herbs) && r[2].value == Only(EssentialOils) && r[3].value == Only(Lifestyle)
    ensures r[4].value == Only(Diet) && r[5].value == Only(Breathing)
    ensures r[1].count + r[2].count + r[3].count + r[4].count + r[5].count == |rs|
  {
    CategoriesPartition(rs);
    [ Facet(All, "All Categories", |rs|),
      Facet(Only(Herbs), "Herbs", |OfCategory(rs, Herbs)|),
      Facet(Only(EssentialOils), "Essential Oils", |OfCategory(rs, EssentialOils)|),
      Facet(Only(Lifestyle), "Lifestyle", |OfCategory(rs, Lifestyle)|),
      Facet(Only(Diet), "Diet", |OfCategory(rs, Diet)|),
      Facet(Only(Breathing), "Breathing", |OfCategory(rs, Breathing)|) ]
  }

  /** `effectivenessLevels`: the four effectiveness buttons, counted over the
      whole list. */
  function EffectivenessFacets(rs: seq<Remedy>): (r: seq<Facet<Effectiveness>>)
    ensures |r| == 4
    ensures r[0].value == All && r[0].count == |rs|
    ensures r[1].value == Only(High) && r[2].value == Only(Medium) && r[3].value == Only(Low)
    ensures r[1].count + r[2].count + r[3].count == |rs|
  {
    EffectivenessPartition(rs);
    [ Facet(All, "All Levels", |rs|),
      Facet(Only(High), "High Effectiveness", |OfEffectiveness(rs, High)|),
      Facet(Only(Medium), "Medium Effectiveness", |OfEffectiveness(rs, Medium)|),
      Facet(Only(Low), "Low Effectiveness", |OfEffectiveness(rs, Low)|) ]
  }

  /** With an empty search box and effectiveness "all", choosing a category
      lists exactly the remedies of that category. */
  lemma CategoryClick(rs: seq<Remedy>, category: Category)
    ensures FilteredRemedies(rs, RemedyQuery("", Only(category), All)) == OfCategory(rs, category)
  {
    var q := RemedyQuery("", Only(category), All);
    forall x | x in rs
      ensures Matches(x, q) == (x.category == category)
    {
      EmptySearchMatches(x);
    }
    FilterCongruent(rs, (x: Remedy) => Matches(x, q), (x: Remedy) => x.category == category);
  }

  /** With an empty search box and category "all", choosing a level lists
      exactly the remedies of that level. */
  lemma EffectivenessClick(rs: seq<Remedy>, level: Effectiveness)
    ensures FilteredRemedies(rs, RemedyQuery("", All, Only(level))) == OfEffectiveness(rs, level)
  {
    var q := RemedyQuery("", All, Only(level));
    forall x | x in rs
      ensures Matches(x, q) == (x.effectiveness == level)
    {
      EmptySearchMatches(x);
    }
    FilterCongruent(rs, (x: Remedy) => Matches(x, q), (x: Remedy) => x.effectiveness == level);
  }

  /** Each category badge shows how many remedies clicking it lists while the
      search box is empty and the effectiveness is "all". */
  lemma CategoryFacetIsClickResult(rs: seq<Remedy>, i: nat)
    requires i < 6
    ensures CategoryFacets(rs)[i].count ==
      |FilteredRemedies(rs, RemedyQuery("", CategoryFacets(rs)[i].value, All))|
  {
    match i
    case 0 => ClearedShowsAll(rs);
    case 1 => CategoryClick(rs, Herbs);
    case 2 => CategoryClick(rs, EssentialOils);
    case 3 => CategoryClick(rs, Lifestyle);
    case 4 => CategoryClick(rs, Diet);
    case 5 => CategoryClick(rs, Breathing);
  }

  /** Each effectiveness badge shows how many remedies clicking it lists while
      the search box is empty and the category is "all". */
  lemma EffectivenessFacetIsClickResult(rs: seq<Remedy>, i: nat)
    requires i < 4
    ensures EffectivenessFacets(rs)[i].count ==
      |FilteredRemedies(rs, RemedyQuery("", All, EffectivenessFacets(rs)[i].value))|
  {
    match i
    case 0 => ClearedShowsAll(rs);
    case 1 => EffectivenessClick(rs, High);
    case 2 => EffectivenessClick(rs, Medium);
    case 3 => EffectivenessClick(rs, Low);
  }

  /** The "Showing X of Y remedies" line. */
  function Summary(rs: seq<Remedy>, q: RemedyQuery): (r: ResultsSummary)
    ensures r.shown == |FilteredRemedies(rs, q)|
    ensures r.shown <= r.total == |rs|
    ensures r.shown == |rs| <== q == ClearFilters()
  {
    ClearedShowsAll(rs);
    ResultsSummary(|FilteredRemedies(rs, q)|, |rs|)
  }

  /** Herbs with high effectiveness: when the first remedy is the only one of
      that kind, it is all the query can show, and it is shown exactly when
      it matches the search. */
  lemma HerbsHighOnlyFirst(rs: seq<Remedy>, term: string)
    requires |rs| > 0 && rs[0].category == Herbs && rs[0].effectiveness == High
    requires forall i :: 1 <= i < |rs| ==> !(rs[i].category == Herbs && rs[i].effectiveness == High)
    ensures FilteredRemedies(rs, RemedyQuery(term, Only(Herbs), Only(High)))
      == if MatchesSearch(rs[0], term) then [rs[0]] else []
  {
    var q := RemedyQuery(term, Only(Herbs), Only(High));
    var keep := (x: Remedy) => Matches(x, q);
    assert rs == [rs[0]] + rs[1..];
    FilterAppend([rs[0]], rs[1..], keep);
    FilterNone(rs[1..], keep);
  }

  /** A level no remedy has lists nothing, whatever the search and the category. */
  lemma AbsentLevelShowsNothing(rs: seq<Remedy>, term: string, category: Selector<Category>, level: Effectiveness)
    requires multiset(EffectivenessColumn(rs))[level] == 0
    ensures FilteredRemedies(rs, RemedyQuery(term, category, Only(level))) == []
  {
    var column := EffectivenessColumn(rs);
    forall i | 0 <= i < |rs|
      ensures rs[i].effectiveness != level
    {
      assert column[i] == rs[i].effectiveness;
      assert column[i] in multiset(column);
    }
    FilterNone(rs, (x: Remedy) => Matches(x, RemedyQuery(term, category, Only(level))));
  }

  // Facts about the page's own list.

  /** The category and effectiveness columns of the list. */
  lemma CatalogColumns()
    ensures CategoryColumn(Remedies) ==
      [Herbs, EssentialOils, Breathing, Herbs, Lifestyle, Diet, Herbs, Lifestyle, Diet, Lifestyle]
    ensures EffectivenessColumn(Remedies) ==
      [High, High, High, Medium, Medium, Medium, Medium, Medium, High, High]
  {
    ProjectOfTen(Remedies, (x: Remedy) => x.category);
    ProjectOfTen(Remedies, (x: Remedy) => x.effectiveness);
  }

  /** How often each category occurs in the page's category column. */
  lemma CategoryCountsOfColumn(column: seq<Category>)
    requires column ==
      [Herbs, EssentialOils, Breathing, Herbs, Lifestyle, Diet, Herbs, Lifestyle, Diet, Lifestyle]
    ensures multiset(column)[Herbs] == 3 && multiset(column)[EssentialOils] == 1
    ensures multiset(column)[Lifestyle] == 3 && multiset(column)[Diet] == 2
    ensures multiset(column)[Breathing] == 1
  {
    assert multiset(column) ==
      multiset{Herbs, EssentialOils, Breathing, Herbs, Lifestyle, Diet, Herbs, Lifestyle, Diet, Lifestyle};
  }

  /** How often each level occurs in the page's effectiveness column. */
  lemma EffectivenessCountsOfColumn(column: seq<Effectiveness>)
    requires column == [High, High, High, Medium, Medium, Medium, Medium, Medium, High, High]
    ensures multiset(column)[High] == 5 && multiset(column)[Medium] == 5
    ensures multiset(column)[Low] == 0
  {
    assert multiset(column) == multiset{High, High, High, Medium, Medium, Medium, Medium, Medium, High, High};
  }

  /** On the list the category badges read 10, 3, 1, 3, 2 and 1. */
  lemma CatalogCategoryCounts()
    ensures CategoryFacets(Remedies)[0].count == 10
    ensures CategoryFacets(Remedies)[1].count == 3
    ensures CategoryFacets(Remedies)[2].count == 1
    ensures CategoryFacets(Remedies)[3].count == 3
    ensures CategoryFacets(Remedies)[4].count == 2
    ensures CategoryFacets(Remedies)[5].count == 1
  {
    CatalogColumns();
    CategoryCountsOfColumn(CategoryColumn(Remedies));
  }

  /** On the list the effectiveness badges read 10, 5, 5 and 0. */
  lemma CatalogEffectivenessCounts()
    ensures EffectivenessFacets(Remedies)[0].count == 10
    ensures EffectivenessFacets(Remedies)[1].count == 5
    ensures EffectivenessFacets(Remedies)[2].count == 5
    ensures EffectivenessFacets(Remedies)[3].count == 0
  {
    CatalogColumns();
    EffectivenessCountsOfColumn(EffectivenessColumn(Remedies));
  }

  /** In the page's columns the first entry is the only herb rated high. */
  lemma HerbsHighColumns(rs: seq<Remedy>)
    requires CategoryColumn(rs) ==
      [Herbs, EssentialOils, Breathing, Herbs, Lifestyle, Diet, Herbs, Lifestyle, Diet, Lifestyle]
    requires EffectivenessColumn(rs) == [High, High, High, Medium, Medium, Medium, Medium, Medium, High, High]
    ensures |rs| == 10 && rs[0].category == Herbs && rs[0].effectiveness == High
    ensures forall i :: 1 <= i < |rs| ==> !(rs[i].category == Herbs && rs[i].effectiveness == High)
  {
    forall i | 0 <= i < |rs|
      ensures rs[i].category == CategoryColumn(rs)[i] && rs[i].effectiveness == EffectivenessColumn(rs)[i]
    {
    }
  }

  /** Herbs with high effectiveness lists Ginger Tea alone, whenever it
      matches the search; with the search box empty it always does. */
  lemma HerbsHighIsGingerTea(term: string)
    ensures FilteredRemedies(Remedies, RemedyQuery(term, Only(Herbs), Only(High)))
      == if MatchesSearch(GingerTea, term) then [GingerTea] else []
    ensures FilteredRemedies(Remedies, RemedyQuery("", Only(Herbs), Only(High))) == [GingerTea]
  {
    CatalogColumns();
    HerbsHighColumns(Remedies);
    EmptySearchMatches(GingerTea);
    HerbsHighOnlyFirst(Remedies, term);
    HerbsHighOnlyFirst(Remedies, "");
  }

  /** No remedy is rated low, so choosing "low" lists nothing. */
  lemma LowShowsNothing(term: string, category: Selector<Category>)
    ensures EffectivenessFacets(Remedies)[3].count == 0
    ensures FilteredRemedies(Remedies, RemedyQuery(term, category, Only(Low))) == []
  {
    CatalogColumns();
    EffectivenessCountsOfColumn(EffectivenessColumn(Remedies));
    AbsentLevelShowsNothing(Remedies, term, category, Low);
  }
}
