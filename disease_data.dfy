/** The disease catalog: the `Disease` record, the fixed list of five
    diseases, and the two lookups over it, `getDiseaseById` (a `find`) and
    `getDiseasesByType` (a `filter`). */
module DiseaseData {
  import opened Collections

  datatype Severity = Healthy | Warning | Critical

  /** One catalog entry. `id` identifies it; `color` is a display token only. */
  datatype Disease = Disease(
    id: string,
    name: string,
    description: string,
    causes: seq<string>,
    symptoms: seq<string>,
    treatments: seq<string>,
    prevention: seq<string>,
    severity: Severity,
    color: string)

  const HealthyLungs: Disease :=
    Disease(
      id := "healthy",
      name := "Healthy Lungs",
      description :=
        "Normal, healthy lung" +
        " function with clear" +
        " airways and proper" +
        " gas exchange.",
      causes := [
        "Regular exercise and physical activity",
        "Clean air environment",
        "Non-smoking lifestyle",
        "Proper nutrition and hydration",
        "Regular medical check-ups"
      ],
      symptoms := [
        "Clear, effortless breathing",
        "No persistent cough",
        "Good exercise tolerance",
        "Clear chest X-rays",
        "Normal oxygen saturation levels"
      ],
      treatments := [
        "Continue healthy lifestyle habits",
        "Regular exercise routine",
        "Maintain clean living environment",
        "Annual health screenings",
        "Avoid exposure to pollutants"
      ],
      prevention := [
        "Avoid smoking and secondhand smoke",
        "Exercise regularly to strengthen lungs",
        "Maintain good indoor air quality",
        "Get recommended vaccinations",
        "Practice good hygiene"
      ],
      severity := Healthy,
      color := "hsl(120, 65%, 45%)")

  const ViralPneumonia: Disease :=
    Disease(
      id := "viral-pneumonia",
      name := "Viral Pneumonia",
      description :=
        "Lung infection" +
        " caused by viruses," +
        " typically less" +
        " severe than" +
        " bacterial pneumonia" +
        " but still requiring" +
        " medical attention.",
      causes := [
        "Influenza viruses (A and B)",
        "Respiratory syncytial virus (RSV)",
        "Adenovirus infection",
        "Parainfluenza viruses",
        "Human metapneumovirus"
      ],
      symptoms := [
        "Gradual onset of symptoms",
        "Dry cough that may become productive",
        "Fever and chills",
        "Shortness of breath",
        "Muscle aches and fatigue",
        "Headache"
      ],
      treatments := [
        "Rest and increased fluid intake",
        "Antiviral medications if prescribed",
        "Fever reducers and pain relievers",
        "Cough suppressants if needed",
        "Oxygen therapy in severe cases",
        "Hospitalization if complications arise"
      ],
      prevention := [
        "Annual flu vaccination",
        "Frequent hand washing",
        "Avoid close contact with sick individuals",
        "Wear masks in crowded areas during outbreaks",
        "Maintain good overall health",
        "Get adequate sleep and nutrition"
      ],
      severity := Warning,
      color := "hsl(45, 95%, 55%)")

  const BacterialPneumonia: Disease :=
    Disease(
      id := "bacterial-pneumonia",
      name := "Bacterial Pneumonia",
      description :=
        "Serious lung" +
        " infection caused by" +
        " bacteria, often" +
        " requiring immediate" +
        " antibiotic" +
        " treatment.",
      causes := [
        "Streptococcus pneumoniae (most common)",
        "Haemophilus influenzae",
        "Staphylococcus aureus",
        "Klebsiella pneumoniae",
        "Mycoplasma pneumoniae",
        "Legionella pneumophila"
      ],
      symptoms := [
        "Sudden onset of high fever",
        "Productive cough with thick, colored sputum",
        "Sharp chest pain when breathing or coughing",
        "Rapid, shallow breathing",
        "Severe fatigue and weakness",
        "Confusion (especially in elderly)"
      ],
      treatments := [
        "Antibiotics (specific to bacterial type)",
        "Hospitalization for severe cases",
        "Oxygen therapy if needed",
        "IV fluids for dehydration",
        "Pain management for chest discomfort",
        "Respiratory therapy and monitoring"
      ],
      prevention := [
        "Pneumococcal vaccination",
        "Good hygiene practices",
        "Avoid smoking and secondhand smoke",
        "Manage underlying health conditions",
        "Seek prompt treatment for respiratory infections",
        "Maintain strong immune system"
      ],
      severity := Critical,
      color := "hsl(0, 75%, 55%)")

  const Tuberculosis: Disease :=
    Disease(
      id := "tuberculosis",
      name := "Tuberculosis (TB)",
      description :=
        "Serious bacterial" +
        " infection that" +
        " primarily affects" +
        " the lungs and can" +
        " be life-threatening" +
        " if left untreated.",
      causes := [
        "Mycobacterium tuberculosis bacteria",
        "Airborne transmission from infected individuals",
        "Weakened immune system",
        "Close contact with TB patients",
        "Living in crowded conditions",
        "HIV infection or other immunocompromising conditions"
      ],
      symptoms := [
        "Persistent cough lasting 3+ weeks",
        "Coughing up blood or sputum",
        "Chest pain when breathing or coughing",
        "Unexplained weight loss",
        "Night sweats and fever",
        "Extreme fatigue and weakness"
      ],
      treatments := [
        "Long-term antibiotic therapy (6-9 months)",
        "Multiple drug combinations (DOTS therapy)",
        "Regular monitoring and follow-up",
        "Isolation until non-contagious",
        "Nutritional support",
        "Treatment of underlying conditions"
      ],
      prevention := [
        "BCG vaccination where recommended",
        "Early detection and treatment",
        "Proper ventilation in living spaces",
        "Avoid close contact with active TB cases",
        "HIV testing and treatment",
        "Maintain good nutrition and health"
      ],
      severity := Critical,
      color := "hsl(0, 75%, 55%)")

  const Covid19: Disease :=
    Disease(
      id := "covid-19",
      name := "COVID-19 Pneumonia",
      description :=
        "Viral pneumonia" +
        " caused by" +
        " SARS-CoV-2, ranging" +
        " from mild to severe" +
        " respiratory" +
        " complications.",
      causes := [
        "SARS-CoV-2 virus infection",
        "Airborne droplet transmission",
        "Contact with contaminated surfaces",
        "Close contact with infected individuals",
        "Indoor gatherings with poor ventilation",
        "Lack of protective measures"
      ],
      symptoms := [
        "Fever and chills",
        "Dry cough (may become productive)",
        "Shortness of breath",
        "Loss of taste or smell",
        "Fatigue and body aches",
        "Sore throat and headache"
      ],
      treatments := [
        "Supportive care and rest",
        "Antiviral medications if prescribed",
        "Monoclonal antibodies for high-risk patients",
        "Oxygen therapy for breathing difficulties",
        "Corticosteroids for severe inflammation",
        "Hospitalization for severe cases"
      ],
      prevention := [
        "COVID-19 vaccination and boosters",
        "Wear masks in crowded areas",
        "Maintain social distancing",
        "Frequent hand hygiene",
        "Improve indoor ventilation",
        "Avoid large gatherings when possible"
      ],
      severity := Critical,
      color := "hsl(0, 75%, 55%)")

  /** The catalog, in display order (`diseases`). */
  const Diseases: seq<Disease> :=
    [HealthyLungs, ViralPneumonia, BacterialPneumonia, Tuberculosis, Covid19]

  /** The diseases of one severity, in catalog order. */
  function OfSeverity(ds: seq<Disease>, severity: Severity): (r: seq<Disease>)
    ensures |r| <= |ds|
    ensures forall i :: 0 <= i < |r| ==> r[i].severity == severity
  {
    Filter(ds, (d: Disease) => d.severity == severity)
  }

  /** A disease is listed under its severity exactly when it is in the
      catalog, and the listing keeps catalog order. */
  lemma OfSeverityExactly(ds: seq<Disease>, severity: Severity)
    ensures forall i :: 0 <= i < |OfSeverity(ds, severity)| ==> OfSeverity(ds, severity)[i] in ds
    ensures forall i :: 0 <= i < |ds| && ds[i].severity == severity ==> ds[i] in OfSeverity(ds, severity)
    ensures IsSubsequence(OfSeverity(ds, severity), ds)
  {
    FilterMembers(ds, (d: Disease) => d.severity == severity);
    FilterSubsequence(ds, (d: Disease) => d.severity == severity);
  }

  /** Every disease has exactly one severity, so the three severities split
      any list of diseases between them. */
  lemma {:induction false} SeveritiesPartition(ds: seq<Disease>)
    ensures |OfSeverity(ds, Healthy)| + |OfSeverity(ds, Warning)| + |OfSeverity(ds, Critical)| == |ds|
  {
    if ds != [] {
      SeveritiesPartition(ds[1..]);
    }
  }

  /** The first disease of `ds` carrying `id`, or nothing when none does. */
  function ById(ds: seq<Disease>, id: string): (r: Option<Disease>)
    ensures r.None? <==> forall i :: 0 <= i < |ds| ==> ds[i].id != id
    ensures r.Some? ==>
      (exists i :: 0 <= i < |ds| && ds[i] == r.value && ds[i].id == id &&
        forall j :: 0 <= j < i ==> ds[j].id != id)
  {
    Find(ds, (d: Disease) => d.id == id)
  }

  /** No two entries of `ds` share an id. */
  predicate IdsUnique(ds: seq<Disease>)
  {
    forall i, j :: 0 <= i < j < |ds| ==> ds[i].id != ds[j].id
  }

  /** With unique ids, looking up the id of an entry gives that entry. */
  lemma ByIdOfListed(ds: seq<Disease>, i: nat)
    requires IdsUnique(ds) && i < |ds|
    ensures ById(ds, ds[i].id) == Some(ds[i])
  {
    var r := ById(ds, ds[i].id);
    var k :| 0 <= k < |ds| && ds[k] == r.value && ds[k].id == ds[i].id &&
      forall j :: 0 <= j < k ==> ds[j].id != ds[i].id;
    assert k == i;
  }

  /** `getDiseaseById`: nothing exactly when no catalog entry has the id,
      otherwise a catalog entry carrying it. */
  function GetDiseaseById(id: string): (r: Option<Disease>)
    ensures r.None? <==> forall i :: 0 <= i < |Diseases| ==> Diseases[i].id != id
    ensures r.Some? ==> r.value in Diseases && r.value.id == id
  {
    ById(Diseases, id)
  }

  /** `getDiseasesByType`: catalog entries of the chosen severity, and every
      such entry. */
  function GetDiseasesByType(severity: Severity): (r: seq<Disease>)
    ensures forall i :: 0 <= i < |r| ==> r[i] in Diseases && r[i].severity == severity
    ensures forall i :: 0 <= i < |Diseases| && Diseases[i].severity == severity ==> Diseases[i] in r
  {
    OfSeverityExactly(Diseases, severity);
    OfSeverity(Diseases, severity)
  }

  /** The catalog's ids are distinct. */
  lemma IdsDistinct()
    ensures IdsUnique(Diseases)
  {
  }

  /** Looking up the id of a listed disease gives that disease back. */
  lemma GetDiseaseByIdOfListed(i: nat)
    requires i < |Diseases|
    ensures GetDiseaseById(Diseases[i].id) == Some(Diseases[i])
  {
    IdsDistinct();
    ByIdOfListed(Diseases, i);
  }

  /** An id the catalog does not list finds nothing. */
  lemma GetDiseaseByIdUnknown(id: string)
    requires forall d | d in Diseases :: d.id != id
    ensures GetDiseaseById(id) == None
  {
  }

  /** Over the three severities, the lookups by type cover the catalog once. */
  lemma ByTypeCountsSum()
    ensures |GetDiseasesByType(Healthy)| + |GetDiseasesByType(Warning)| + |GetDiseasesByType(Critical)|
      == |Diseases|
  {
    SeveritiesPartition(Diseases);
  }

  /** The critical diseases are bacterial pneumonia, tuberculosis and COVID-19, in that order. */
  lemma CriticalDiseases()
    ensures GetDiseasesByType(Critical) == [BacterialPneumonia, Tuberculosis, Covid19]
  {
    var critical := (d: Disease) => d.severity == Critical;
    assert Filter([Covid19], critical) == [Covid19];
    assert Filter([Tuberculosis, Covid19], critical) == [Tuberculosis, Covid19];
    assert Filter([BacterialPneumonia, Tuberculosis, Covid19], critical)
      == [BacterialPneumonia, Tuberculosis, Covid19];
    assert Filter([ViralPneumonia, BacterialPneumonia, Tuberculosis, Covid19], critical)
      == [BacterialPneumonia, Tuberculosis, Covid19];
  }

  /** Healthy lungs is the one healthy entry and viral pneumonia the one warning entry. */
  lemma HealthyAndWarningDiseases()
    ensures GetDiseasesByType(Healthy) == [HealthyLungs]
    ensures GetDiseasesByType(Warning) == [ViralPneumonia]
  {
    var healthy := (d: Disease) => d.severity == Healthy;
    var warning := (d: Disease) => d.severity == Warning;
    assert Filter([Covid19], healthy) == [] && Filter([Covid19], warning) == [];
    assert Filter([Tuberculosis, Covid19], healthy) == [] && Filter([Tuberculosis, Covid19], warning) == [];
    assert Filter([BacterialPneumonia, Tuberculosis, Covid19], healthy) == [];
    assert Filter([BacterialPneumonia, Tuberculosis, Covid19], warning) == [];
    assert Filter([ViralPneumonia, BacterialPneumonia, Tuberculosis, Covid19], healthy) == [];
    assert Filter([ViralPneumonia, BacterialPneumonia, Tuberculosis, Covid19], warning) == [ViralPneumonia];
  }
}
