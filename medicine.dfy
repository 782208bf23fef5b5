/** The simulated "uses and side effects" lookup of the tablet scanner: the
    identified medicine name is classified by substring into one of three
    fixed information records. */
module Medicine {
  import opened Text

  /** The names the scanner can report (app.py draws one at random). */
  const Tablets: seq<string> := ["Paracetamol (500mg)", "Ibuprofen (400mg)", "Amoxicillin (250mg)", "Cetirizine (10mg)", "Aspirin (81mg)", "Dolo 650", "Azithromycin (500mg)"]

  /** The group each scanner name belongs to, position by position. */
  const TabletKindTable: seq<Kind> := [PainAndFever, PainAndInflammation, InfectionOrAllergy,
    InfectionOrAllergy, PainAndInflammation, PainAndFever, InfectionOrAllergy]

  /** What the assistant says about a medicine. */
  datatype DrugInfo = DrugInfo(uses: string, sideEffects: string)

  /** The three kinds of record the lookup can return. */
  datatype Kind = PainAndFever | PainAndInflammation | InfectionOrAllergy

  const PainAndFeverInfo := DrugInfo(
    "Pain relief (headache, muscle ache) and fever reduction.",
    "Rarely, allergic reaction. Overdose can cause liver damage.")
  const PainAndInflammationInfo := DrugInfo(
    "Pain and inflammation relief. Used for joint pain, menstrual cramps.",
    "Stomach irritation, rarely stomach ulcers.")
  const InfectionOrAllergyInfo := DrugInfo(
    "Used to treat various bacterial infections or allergies (Cetirizine).",
    "Commonly stomach upset, diarrhea, or allergic reactions.")

  /** The three-way substring test, tried in the source's order: a name
      mentioning Paracetamol or Dolo 650 first, then Ibuprofen or Aspirin,
      and every other name (including the empty one) last. */
  function KindOf(name: string): (k: Kind)
    ensures k == PainAndFever <==> Occurs(name, "Paracetamol") || Occurs(name, "Dolo 650")
    ensures k == PainAndInflammation <==>
      !(Occurs(name, "Paracetamol") || Occurs(name, "Dolo 650")) &&
      (Occurs(name, "Ibuprofen") || Occurs(name, "Aspirin"))
    ensures k == InfectionOrAllergy <==>
      !Occurs(name, "Paracetamol") && !Occurs(name, "Dolo 650") &&
      !Occurs(name, "Ibuprofen") && !Occurs(name, "Aspirin")
  {
    ContainsIsOccurs(name, "Paracetamol");
    ContainsIsOccurs(name, "Dolo 650");
    ContainsIsOccurs(name, "Ibuprofen");
    ContainsIsOccurs(name, "Aspirin");
    if Contains(name, "Paracetamol") || Contains(name, "Dolo 650") then PainAndFever
    else if Contains(name, "Ibuprofen") || Contains(name, "Aspirin") then PainAndInflammation
    else InfectionOrAllergy
  }

  /** The uses and side effects reported for a medicine name: the first
      matching group's record, the infection-or-allergy record when no group
      keyword occurs. */
  function LookUp(name: string): (r: DrugInfo)
    ensures (Occurs(name, "Paracetamol") || Occurs(name, "Dolo 650")) ==> r == PainAndFeverInfo
    ensures (!Occurs(name, "Paracetamol") && !Occurs(name, "Dolo 650") &&
             (Occurs(name, "Ibuprofen") || Occurs(name, "Aspirin"))) ==> r == PainAndInflammationInfo
    ensures (!Occurs(name, "Paracetamol") && !Occurs(name, "Dolo 650") &&
             !Occurs(name, "Ibuprofen") && !Occurs(name, "Aspirin")) ==> r == InfectionOrAllergyInfo
  {
    match KindOf(name)
    case PainAndFever => PainAndFeverInfo
    case PainAndInflammation => PainAndInflammationInfo
    case InfectionOrAllergy => InfectionOrAllergyInfo
  }

  /** Paracetamol and Dolo 650 get the pain-and-fever record. */
  lemma PainAndFeverTablets()
    ensures KindOf("Paracetamol (500mg)") == PainAndFever
    ensures KindOf("Dolo 650") == PainAndFever
  {
    assert OccursAt("Paracetamol (500mg)", "Paracetamol", 0);
    assert OccursAt("Dolo 650", "Dolo 650", 0);
  }

  /** Ibuprofen and Aspirin get the pain-and-inflammation record. */
  lemma PainAndInflammationTablets()
    ensures KindOf("Ibuprofen (400mg)") == PainAndInflammation
    ensures KindOf("Aspirin (81mg)") == PainAndInflammation
  {
    MissingCharNotOccurs("Ibuprofen (400mg)", "Paracetamol", 'P');
    MissingCharNotOccurs("Ibuprofen (400mg)", "Dolo 650", 'D');
    assert OccursAt("Ibuprofen (400mg)", "Ibuprofen", 0);
    MissingCharNotOccurs("Aspirin (81mg)", "Paracetamol", 'P');
    MissingCharNotOccurs("Aspirin (81mg)", "Dolo 650", 'D');
    assert OccursAt("Aspirin (81mg)", "Aspirin", 0);
  }

  /** Amoxicillin, Cetirizine and Azithromycin fall through to the last
      record (the source's comment on that branch names these three). */
  lemma AmoxicillinTablet()
    ensures KindOf("Amoxicillin (250mg)") == InfectionOrAllergy
  {
    NoGroupKeyword("Amoxicillin (250mg)");
  }

  lemma CetirizineTablet()
    ensures KindOf("Cetirizine (10mg)") == InfectionOrAllergy
  {
    NoGroupKeyword("Cetirizine (10mg)");
  }

  lemma AzithromycinTablet()
    ensures KindOf("Azithromycin (500mg)") == InfectionOrAllergy
  {
    NoGroupKeyword("Azithromycin (500mg)");
  }

  /** Helper: a name without 'P', 'D', 'b' and 'p' mentions none of the four group keywords. */
  lemma NoGroupKeyword(name: string)
    requires 'P' !in name && 'D' !in name && 'b' !in name && 'p' !in name
    ensures KindOf(name) == InfectionOrAllergy
  {
    MissingCharNotOccurs(name, "Paracetamol", 'P');
    MissingCharNotOccurs(name, "Dolo 650", 'D');
    MissingCharNotOccurs(name, "Ibuprofen", 'b');
    MissingCharNotOccurs(name, "Aspirin", 'p');
  }

  /** Every name on the scanner's list gets the record the source assigns it
      (the comment on the last branch names Amoxicillin, Cetirizine and
      Azithromycin), and each of the three branches is reached by some name. */
  lemma TabletKinds(i: nat)
    requires i < |Tablets|
    ensures KindOf(Tablets[i]) == TabletKindTable[i]
  {
    if i == 0 || i == 5 {
      PainAndFeverTablets();
    } else if i == 1 || i == 4 {
      PainAndInflammationTablets();
    } else if i == 2 {
      AmoxicillinTablet();
    } else if i == 3 {
      CetirizineTablet();
    } else {
      AzithromycinTablet();
    }
  }
}
