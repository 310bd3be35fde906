/** What the search test gives on the texts of the disease catalog for the
    term "pneumonia". A description is written as pieces split before a space;
    the term has no space, so it matches the whole description exactly when it
    matches one of the pieces (`MatchesTermAcross`). */
module DiseaseSearchText {
  import opened Text

  lemma HealthyNameNoPneumonia()
    ensures !MatchesTerm("Healthy Lungs", "pneumonia")
  {
  }

  lemma TuberculosisNameNoPneumonia()
    ensures !MatchesTerm("Tuberculosis (TB)", "pneumonia")
  {
  }

  lemma ViralNamePneumonia()
    ensures MatchesTerm("Viral Pneumonia", "pneumonia")
  {
    assert ScanFrom("Viral Pneumonia", "pneumonia", 6);
  }

  lemma BacterialNamePneumonia()
    ensures MatchesTerm("Bacterial Pneumonia", "pneumonia")
  {
    assert ScanFrom("Bacterial Pneumonia", "pneumonia", 10);
  }

  lemma CovidNamePneumonia()
    ensures MatchesTerm("COVID-19 Pneumonia", "pneumonia")
  {
    assert ScanFrom("COVID-19 Pneumonia", "pneumonia", 9);
  }

  lemma HealthyDescriptionPrefix2()
    ensures !MatchesTerm("Normal, healthy lung" + " function with clear", "pneumonia")
  {
    assert !ScanFrom("Normal, healthy lung", "pneumonia", 4);
    assert !ScanFrom(" function with clear", "pneumonia", 4);
    MatchesTermAcross("Normal, healthy lung", " function with clear", "pneumonia");
  }

  lemma HealthyDescriptionPrefix3()
    ensures !MatchesTerm("Normal, healthy lung" + " function with clear" + " airways and proper", "pneumonia")
  {
    HealthyDescriptionPrefix2();
    assert !ScanFrom(" airways and proper", "pneumonia", 4);
    MatchesTermAcross("Normal, healthy lung" + " function with clear", " airways and proper", "pneumonia");
  }

  lemma HealthyDescriptionNoPneumonia()
    ensures !MatchesTerm("Normal, healthy lung" + " function with clear" + " airways and proper" + " gas exchange.", "pneumonia")
  {
    HealthyDescriptionPrefix3();
    MatchesTermAcross("Normal, healthy lung" + " function with clear" + " airways and proper", " gas exchange.", "pneumonia");
  }

  lemma TuberculosisDescriptionPrefix2()
    ensures !MatchesTerm("Serious bacterial" + " infection that", "pneumonia")
  {
    assert !ScanFrom("Serious bacterial", "pneumonia", 4);
    MatchesTermAcross("Serious bacterial", " infection that", "pneumonia");
  }

  lemma TuberculosisDescriptionPrefix3()
    ensures !MatchesTerm("Serious bacterial" + " infection that" + " primarily affects", "pneumonia")
  {
    TuberculosisDescriptionPrefix2();
    assert !ScanFrom(" primarily affects", "pneumonia", 4);
    MatchesTermAcross("Serious bacterial" + " infection that", " primarily affects", "pneumonia");
  }

  lemma TuberculosisDescriptionPrefix4()
    ensures !MatchesTerm("Serious bacterial" + " infection that" + " primarily affects" + " the lungs and can", "pneumonia")
  {
    TuberculosisDescriptionPrefix3();
    assert !ScanFrom(" the lungs and can", "pneumonia", 4);
    assert " the lungs and can"[0] == ' ';
    MatchesTermAcross("Serious bacterial" + " infection that" + " primarily affects", " the lungs and can", "pneumonia");
  }

  lemma TuberculosisDescriptionPrefix5()
    ensures !MatchesTerm("Serious bacterial" + " infection that" + " primarily affects" + " the lungs and can" + " be life-threatening", "pneumonia")
  {
    TuberculosisDescriptionPrefix4();
    assert !ScanFrom(" be life-threatening", "pneumonia", 4);
    MatchesTermAcross("Serious bacterial" + " infection that" + " primarily affects" + " the lungs and can", " be life-threatening", "pneumonia");
  }

  lemma TuberculosisDescriptionNoPneumonia()
    ensures !MatchesTerm("Serious bacterial" + " infection that" + " primarily affects" + " the lungs and can" + " be life-threatening" + " if left untreated.", "pneumonia")
  {
    TuberculosisDescriptionPrefix5();
    assert !ScanFrom(" if left untreated.", "pneumonia", 4);
    MatchesTermAcross("Serious bacterial" + " infection that" + " primarily affects" + " the lungs and can" + " be life-threatening", " if left untreated.", "pneumonia");
  }
}
