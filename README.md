# Lung Vision Insights Hub: catalog queries

This project models the query engine behind two pages of the Lung Vision Insights Hub site, together with the disease catalog the Diseases page draws on. The Remedies page keeps its own list of remedies.

The **disease catalog** (`src/data/diseaseData.ts`) has five lung conditions. Each condition has an id, a name, a description, four lists of text (causes, symptoms, treatments, prevention), a severity and a display colour:
- `healthy` for healthy lungs;
- `warning` for viral pneumonia;
- `critical` for bacterial pneumonia, tuberculosis and COVID-19.

The catalog has two lookups:
- `getDiseaseById` returns the first entry carrying an id;
- `getDiseasesByType` returns the entries of one severity, in catalog order.

The **Diseases page** (`src/pages/DiseasesPage.tsx`) filters the catalog. It combines a case-insensitive search over the name and description with a severity selector. Its other parts:
- four severity buttons, whose counts are taken over the whole catalog;
- a "Showing X of Y" line;
- a "Clear Filters" button.

The **Remedies page** (`src/pages/RemediesPage.tsx`) holds a list of ten home remedies. Each remedy has a category (herbs, essential oils, lifestyle, diet, breathing) and an effectiveness (high, medium, low). The page filters the list by three things together:
- a case-insensitive search over the name and the benefits;
- a category selector;
- an effectiveness selector.

Like the Diseases page, it has facet buttons with counts, a summary line and a clear-filters reset.

The module layout:

- `Text` (text.dfy) models the search test `field.toLowerCase().includes(term.toLowerCase())`.
  - It is defined as a left-to-right scan over the positions of the field.
  - It is proved equal to substring containment of the folded strings.
  - On top of that come case-insensitivity, monotonicity in the term and splitting at separators.
- `Collections` (collections.dfy) models `Array.prototype.filter` and `find`.
  - It also has the "all or one value" selector used by every filter button, and the result type of the "Showing X of Y" line.
  - `Project` takes one field of every element as a column. It is the model's own device for stating facet counts as occurrence counts; no such step exists in the pages.
  - The lemmas relate `filter` to membership, order (subsequence), concatenation and counting.
- `DiseaseData` (disease_data.dfy) holds the `Disease` record, the five-entry catalog and the two lookups.
- `DiseaseSearchText` (disease_search_text.dfy) proves which catalog names and descriptions contain "pneumonia".
  - It imports only `Text` and states its facts about the string values themselves, so the catalog constants stay out of these character-by-character proofs.
  - Each `...Prefix` lemma adds one piece of a description to the piece before it.
  - `DiseasesPage.PneumoniaMatches` joins them to the catalog entries.
- `DiseasesPage` (diseases_page.dfy) models the Diseases page query.
- `RemediesPage` (remedies_page.dfy) holds the `Remedy` record, the ten-entry list and the Remedies page query.

Some modelling choices:
- Each page's React state is passed in as a query value (`DiseaseQuery`, `RemedyQuery`). The string `"all"` becomes the selector `All`.
- Each catalog entry is a named constant, and each list literal lists those constants in source order.
- Long descriptions are written as concatenations of short pieces. The concatenation is the same string as in the source.
- `getDiseaseById` and `getDiseasesByType` are modelled twice:
  - as `ById` and `OfSeverity` over any list of diseases, where the general properties are proved;
  - as `GetDiseaseById` and `GetDiseasesByType` on the catalog.

## Model

| member | source | states |
|---|---|---|
| Text.Lower | src/pages/DiseasesPage.tsx:15-16 | `toLowerCase` keeps the length, folds every character on its own and leaves no upper-case letter |
| Text.LowerIdempotent | src/pages/DiseasesPage.tsx:15-16 | folding an already folded string changes nothing |
| Text.LowerAppend | src/pages/RemediesPage.tsx:322-323 | folding a concatenation folds each part |
| Text.MatchesTermMeaning | src/pages/DiseasesPage.tsx:15-16 | the search scan succeeds exactly when the folded term occurs as a substring of the folded field (`includes`) |
| Text.MatchesTerm | src/pages/DiseasesPage.tsx:15-16 | the search test `field.toLowerCase().includes(term.toLowerCase())`, scanned left to right (a definition without a contract; `MatchesTermMeaning` states what it decides) |
| Text.EmptyTermMatches | src/pages/DiseasesPage.tsx:15-16 | an empty search term matches every field |
| Text.MatchesTermIgnoresCase | src/pages/RemediesPage.tsx:322-323 | the match depends only on the folded term and the folded field |
| Text.MatchesTermExtend | src/pages/RemediesPage.tsx:322-323 | a field that matches a longer term also matches every prefix of that term |
| Text.MatchesTermAcross | src/pages/DiseasesPage.tsx:15-16 | a term cannot match across a non-letter separator it does not contain, so a field matches exactly when one of its two parts does |
| Text.ContainsInPart | src/pages/DiseasesPage.tsx:15-16 | a substring of either part is a substring of the concatenation |
| Text.ContainsSplits | src/pages/DiseasesPage.tsx:15-16 | an occurrence that avoids the first character of the second part lies wholly in one part |
| Text.ContainsPrefixOfNeedle | src/pages/RemediesPage.tsx:322-323 | a string that contains `needle + more` contains `needle` |
| Collections.Filter | src/data/diseaseData.ts:210-212 | `filter` returns no more elements than it was given, and each of them passes the test |
| Collections.FilterMembers | src/data/diseaseData.ts:210-212 | an element is kept exactly when it is in the input and passes the test |
| Collections.FilterSubsequence | src/data/diseaseData.ts:210-212 | the kept elements keep their input order |
| Collections.FilterAppend | src/pages/DiseasesPage.tsx:14-19 | filtering a concatenation filters each part |
| Collections.FilterKeepsAll | src/pages/DiseasesPage.tsx:14-19 | when every element passes, `filter` returns the whole input |
| Collections.FilterNarrows | src/pages/DiseasesPage.tsx:14-19 | a stricter test keeps a subsequence of what a looser test keeps |
| Collections.FilterCongruent | src/pages/DiseasesPage.tsx:14-19 | tests that agree on every element keep the same elements |
| Collections.FilterNone | src/pages/RemediesPage.tsx:321-327 | when no element passes, `filter` returns the empty list |
| Collections.Selector.Admits | src/pages/DiseasesPage.tsx:17 | the selector test (the selection is "all", or the field equals it): `All` admits every value, `Only(v)` admits only `v` (a definition without a contract) |
| Collections.Find | src/data/diseaseData.ts:206-208 | `find` returns nothing exactly when no element passes, and otherwise the first element that passes |
| Collections.Project | src/pages/RemediesPage.tsx:305-319 | the column of one field keeps the length and holds that field of each element; the model uses it to state the facet counts |
| Collections.FilterCountByKey | src/pages/RemediesPage.tsx:305-319 | `filter(r => r.f === k).length` equals the number of occurrences of `k` in the column of `f` |
| Collections.SubsequenceBounds | src/pages/DiseasesPage.tsx:14-19 | a subsequence is no longer than the sequence it comes from and holds only its elements |
| Collections.SubsequenceTransitive | src/pages/DiseasesPage.tsx:14-19 | a subsequence of a subsequence is a subsequence |
| DiseaseData.OfSeverity | src/data/diseaseData.ts:210-212 | `getDiseasesByType` over any list returns no more entries than the list has, all of the chosen severity |
| DiseaseData.OfSeverityExactly | src/data/diseaseData.ts:210-212 | an entry is returned exactly when it is listed with the chosen severity, in list order |
| DiseaseData.SeveritiesPartition | src/data/diseaseData.ts:9 | the three severities split any list of diseases, so their counts sum to its length |
| DiseaseData.ById | src/data/diseaseData.ts:206-208 | `getDiseaseById` over any list returns nothing exactly when no entry has the id, and otherwise the first entry with that id |
| DiseaseData.ByIdOfListed | src/data/diseaseData.ts:206-208 | with distinct ids, looking up an entry's id returns that entry |
| DiseaseData.IdsDistinct | src/data/diseaseData.ts:13-204 | the five catalog ids are distinct |
| DiseaseData.GetDiseaseByIdOfListed | src/data/diseaseData.ts:206-208 | on the catalog, looking up the id of any entry returns that entry |
| DiseaseData.GetDiseaseByIdUnknown | src/data/diseaseData.ts:206-208 | any id that no catalog entry carries returns nothing |
| DiseaseData.GetDiseaseById | src/data/diseaseData.ts:206-208 | nothing exactly when no catalog entry carries the id; otherwise a catalog entry with that id |
| DiseaseData.GetDiseasesByType | src/data/diseaseData.ts:210-212 | every returned entry is a catalog entry of the chosen severity, and every catalog entry of that severity is returned |
| DiseaseData.Diseases | src/data/diseaseData.ts:13-204 | the five catalog entries in source order; the facts about them are `IdsDistinct`, `CriticalDiseases` and `HealthyAndWarningDiseases` |
| DiseaseData.ByTypeCountsSum | src/data/diseaseData.ts:210-212 | the three lookups by type together cover the catalog once |
| DiseaseData.CriticalDiseases | src/data/diseaseData.ts:210-212 | the critical diseases are bacterial pneumonia, tuberculosis and COVID-19, in that order |
| DiseaseData.HealthyAndWarningDiseases | src/data/diseaseData.ts:210-212 | healthy lungs is the one healthy entry and viral pneumonia the one warning entry |
| DiseaseSearchText.ViralNamePneumonia | src/data/diseaseData.ts:51 | the name "Viral Pneumonia" matches the search "pneumonia" |
| DiseaseSearchText.BacterialNamePneumonia | src/data/diseaseData.ts:89 | the name "Bacterial Pneumonia" matches "pneumonia" |
| DiseaseSearchText.CovidNamePneumonia | src/data/diseaseData.ts:167 | the name "COVID-19 Pneumonia" matches "pneumonia" |
| DiseaseSearchText.HealthyNameNoPneumonia | src/data/diseaseData.ts:16 | the name "Healthy Lungs" does not match "pneumonia" |
| DiseaseSearchText.TuberculosisNameNoPneumonia | src/data/diseaseData.ts:128 | the name "Tuberculosis (TB)" does not match "pneumonia" |
| DiseaseSearchText.HealthyDescriptionNoPneumonia | src/data/diseaseData.ts:17 | the healthy-lungs description does not match "pneumonia" |
| DiseaseSearchText.TuberculosisDescriptionNoPneumonia | src/data/diseaseData.ts:129 | the tuberculosis description does not match "pneumonia" |
| DiseasesPage.MatchesSearch | src/pages/DiseasesPage.tsx:15-16 | the name or the description matches the term (a definition without a contract) |
| DiseasesPage.Matches | src/pages/DiseasesPage.tsx:15-18 | the search test and the severity selector both pass (a definition without a contract) |
| DiseasesPage.ClearFilters | src/pages/DiseasesPage.tsx:123-126 | the cleared state: empty search, severity "all"; `ClearedShowsAll` states its effect |
| DiseasesPage.FilteredDiseases | src/pages/DiseasesPage.tsx:14-19 | `filteredDiseases` returns no more diseases than the catalog has, and each passes both the search and the severity test |
| DiseasesPage.FilteredDiseasesExactly | src/pages/DiseasesPage.tsx:14-19 | a disease is shown exactly when it is listed and passes the query, in catalog order |
| DiseasesPage.ClearedShowsAll | src/pages/DiseasesPage.tsx:123-126 | after "Clear Filters" every disease is shown, in catalog order |
| DiseasesPage.SearchIgnoresCase | src/pages/DiseasesPage.tsx:15-16 | two search terms with the same lower-case form show the same diseases |
| DiseasesPage.NarrowBySeverity | src/pages/DiseasesPage.tsx:17 | choosing one severity instead of "all" shows a subsequence of the previous result |
| DiseasesPage.NarrowByTyping | src/pages/DiseasesPage.tsx:15-16 | extending the search term shows a subsequence of the previous result |
| DiseasesPage.NarrowSuccessively | src/pages/DiseasesPage.tsx:14-19 | choosing a severity and then typing more shows a subsequence of what the shorter term showed over all severities |
| DiseasesPage.SeverityFacets | src/pages/DiseasesPage.tsx:21-26 | four buttons selecting all, healthy, warning and critical, in that order: "All Types" counts the whole catalog, and the three severity counts sum to it, whatever the search and selection |
| DiseasesPage.SeverityClick | src/pages/DiseasesPage.tsx:72 | with an empty search, choosing a severity shows exactly `getDiseasesByType` of it |
| DiseasesPage.FacetCountIsClickResult | src/pages/DiseasesPage.tsx:21-26 | each button's count is the number of diseases clicking it shows while the search is empty |
| DiseasesPage.Summary | src/pages/DiseasesPage.tsx:91 | "Showing X of Y": X is the number of diseases `filteredDiseases` shows, Y is the catalog size, X is at most Y, and X equals Y after clearing |
| DiseasesPage.CatalogFacetCounts | src/pages/DiseasesPage.tsx:21-26 | on the catalog the buttons read 5, 1, 1 and 3 |
| DiseasesPage.SecondThirdFifth | src/pages/DiseasesPage.tsx:14-19 | on a five-entry list where only entries 2, 3 and 5 match, the filter keeps exactly those, in order |
| DiseasesPage.PneumoniaMatches | src/pages/DiseasesPage.tsx:15-16 | "pneumonia" matches viral pneumonia, bacterial pneumonia and COVID-19, and not healthy lungs or tuberculosis |
| DiseasesPage.PneumoniaSearch | src/pages/DiseasesPage.tsx:14-19 | searching "pneumonia" over all severities shows viral pneumonia, bacterial pneumonia and COVID-19, in that order |
| RemediesPage.Remedies | src/pages/RemediesPage.tsx:41-303 | the ten remedies in source order; the facts about them are `CatalogColumns` and the lemmas built on it |
| RemediesPage.SomeBenefitMatches | src/pages/RemediesPage.tsx:323 | `benefits.some(...)`: some benefit matches the term (a definition without a contract) |
| RemediesPage.MatchesSearch | src/pages/RemediesPage.tsx:322-323 | the name or some benefit matches the term (a definition without a contract) |
| RemediesPage.Matches | src/pages/RemediesPage.tsx:322-326 | the search, category and effectiveness tests all pass (a definition without a contract) |
| RemediesPage.ClearFilters | src/pages/RemediesPage.tsx:465-469 | the cleared state: empty search, category and effectiveness "all"; `ClearedShowsAll` states its effect |
| RemediesPage.FilteredRemedies | src/pages/RemediesPage.tsx:321-327 | `filteredRemedies` returns no more remedies than the list has, and each passes the search, category and effectiveness tests |
| RemediesPage.FilteredRemediesExactly | src/pages/RemediesPage.tsx:321-327 | a remedy is shown exactly when it is listed and passes the query, in list order |
| RemediesPage.EmptySearchMatches | src/pages/RemediesPage.tsx:322 | every remedy passes an empty search |
| RemediesPage.ClearedShowsAll | src/pages/RemediesPage.tsx:465-469 | after clearing the filters every remedy is shown, in list order |
| RemediesPage.SearchIgnoresCase | src/pages/RemediesPage.tsx:322-323 | two search terms with the same lower-case form show the same remedies |
| RemediesPage.NarrowByCategory | src/pages/RemediesPage.tsx:324 | choosing one category instead of "all" shows a subsequence of the previous result |
| RemediesPage.NarrowByEffectiveness | src/pages/RemediesPage.tsx:325 | choosing one effectiveness instead of "all" shows a subsequence of the previous result |
| RemediesPage.NarrowByTyping | src/pages/RemediesPage.tsx:322-323 | extending the search term shows a subsequence of the previous result |
| RemediesPage.NarrowSuccessively | src/pages/RemediesPage.tsx:321-327 | choosing a category, then a level, then typing more shows a subsequence of what the shorter term showed with both selectors on "all" |
| RemediesPage.OfCategory | src/pages/RemediesPage.tsx:305-312 | the remedies of a category are as many as that category occurs in the category column |
| RemediesPage.OfEffectiveness | src/pages/RemediesPage.tsx:314-319 | the remedies of a level are as many as that level occurs in the effectiveness column |
| RemediesPage.CategoryColumnPartition | src/pages/RemediesPage.tsx:26 | every column entry is one of the five categories |
| RemediesPage.EffectivenessColumnPartition | src/pages/RemediesPage.tsx:27 | every column entry is one of the three levels |
| RemediesPage.CategoriesPartition | src/pages/RemediesPage.tsx:305-312 | the five category counts sum to the length of the list |
| RemediesPage.EffectivenessPartition | src/pages/RemediesPage.tsx:314-319 | the three effectiveness counts sum to the length of the list |
| RemediesPage.CategoryFacets | src/pages/RemediesPage.tsx:305-312 | six buttons selecting all, herbs, essential oils, lifestyle, diet and breathing, in that order: "All Categories" counts the whole list, and the five category counts sum to it, whatever the search and selections |
| RemediesPage.EffectivenessFacets | src/pages/RemediesPage.tsx:314-319 | four buttons selecting all, high, medium and low, in that order: "All Levels" counts the whole list, and the three level counts sum to it |
| RemediesPage.CategoryClick | src/pages/RemediesPage.tsx:400 | with an empty search and effectiveness "all", choosing a category shows exactly the remedies of that category |
| RemediesPage.EffectivenessClick | src/pages/RemediesPage.tsx:432 | with an empty search and category "all", choosing a level shows exactly the remedies of that level |
| RemediesPage.CategoryFacetIsClickResult | src/pages/RemediesPage.tsx:305-312 | while the search box is empty and the effectiveness is "all", each category button's count is the number of remedies clicking it shows; the counts ignore the search, so with a search term they can differ from what is shown |
| RemediesPage.EffectivenessFacetIsClickResult | src/pages/RemediesPage.tsx:314-319 | while the search box is empty and the category is "all", each effectiveness button's count is the number of remedies clicking it shows; the counts ignore the search, so with a search term they can differ from what is shown |
| RemediesPage.Summary | src/pages/RemediesPage.tsx:456 | "Showing X of Y": X is the number of remedies `filteredRemedies` shows, Y is the list size, X is at most Y, and X equals Y after clearing |
| RemediesPage.HerbsHighOnlyFirst | src/pages/RemediesPage.tsx:321-327 | when the first remedy is the only high-rated herb, herbs+high shows it alone exactly when it matches the search, and otherwise nothing |
| RemediesPage.AbsentLevelShowsNothing | src/pages/RemediesPage.tsx:321-327 | a level that no remedy has shows nothing, whatever the search and category |
| RemediesPage.CatalogColumns | src/pages/RemediesPage.tsx:41-303 | the category and effectiveness columns of the ten remedies, in list order; the ninth, Garlic and Honey, is diet rated high |
| RemediesPage.CategoryCountsOfColumn | src/pages/RemediesPage.tsx:305-312 | the list's category column holds herbs 3, essential oils 1, lifestyle 3, diet 2 and breathing 1 |
| RemediesPage.EffectivenessCountsOfColumn | src/pages/RemediesPage.tsx:314-319 | the list's effectiveness column holds high 5, medium 5 and low 0 |
| RemediesPage.CatalogCategoryCounts | src/pages/RemediesPage.tsx:305-312 | on the list the category buttons read 10, 3, 1, 3, 2 and 1 |
| RemediesPage.CatalogEffectivenessCounts | src/pages/RemediesPage.tsx:314-319 | on the list the effectiveness buttons read 10, 5, 5 and 0 |
| RemediesPage.HerbsHighColumns | src/pages/RemediesPage.tsx:43-46 | in the list's columns Ginger Tea (the first entry) is the only herb rated high |
| RemediesPage.HerbsHighIsGingerTea | src/pages/RemediesPage.tsx:321-327 | herbs+high shows Ginger Tea alone when it matches the search, and nothing otherwise. With an empty search it shows exactly Ginger Tea |
| RemediesPage.LowShowsNothing | src/pages/RemediesPage.tsx:318 | the "Low Effectiveness" count is 0, and choosing it shows nothing, whatever the search and category |

Two facts about the data and the search that the lemmas above rely on:
- **Garlic and Honey.** It is also rated high, but its category is `diet` (`src/pages/RemediesPage.tsx:252-256`). "Herbs" with "high" therefore lists only Ginger Tea.
- **The search fields.** The search box placeholders advertise more than the code searches, and the model follows the code.
  - The disease placeholder (`src/pages/DiseasesPage.tsx:54`) mentions symptoms and treatments, but the disease search looks only at the name and the description.
  - The remedy placeholder (`src/pages/RemediesPage.tsx:379`) mentions ingredients, but the remedy search looks only at the name and the benefits.

## Left out

- Text.Lower: folds ASCII letters only, while `toLowerCase` also folds non-ASCII letters. The catalog text is all ASCII, but the search box accepts any term, so the model's search differs from the page for some non-ASCII terms. For example, the page folds the Kelvin sign U+212A to "k" and matches it against "Kills bacteria"; the model does not.
- React state, re-rendering and event wiring are not modelled. The page state is a query parameter, and a button press is a new query value.
- The rendering is not modelled. This covers:
  - the JSX markup;
  - the previews that show only the first items of a list (`slice(0, 3)`);
  - the "matching ..." suffix of the summary line;
  - the severity and effectiveness colour and icon lookups.
- `Summary` models only the two numbers of the "Showing X of Y" line, not its text.
- The prediction page, with its image upload and simulated classifier, is not part of this model.
- The navigation bar, the home page and the about page are not part of this model. Their only logic is display and routing.
- The disease detail page is not part of this model beyond its one piece of logic. It looks up the route's id with `getDiseaseById` (modelled by `DiseaseData.GetDiseaseById`) and shows "Disease Not Found" when the lookup returns nothing; that rendering is left out.
- Some fields are carried as data, and no operation reads them:
  - of a disease: causes, symptoms, treatments, prevention and `color`;
  - of a remedy: preparation, precautions, duration, ingredients and instructions.
- `ProjectOfTen` is a helper that writes out a ten-element column. It states nothing about the site.
