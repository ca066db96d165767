/** The PDF summary built by `generate_pdf_report`, as the list of blocks it
    hands to the PDF library: paragraphs in one of four styles, the
    personal-information table and spacers. The two readings of the clock
    are parameters. Within each section the items follow fixed key lists,
    not the order of the answer dict. */
module Report {
  import opened Text
  import opened Store
  import opened Sequences
  import Review

  /** `TitleLine`: the title style; `Plain`: the library's Normal style;
      `Heading`: the section style; `Line`: the body style. */
  datatype Block =
    | TitleLine(text: string)
    | Plain(text: string)
    | Heading(text: string)
    | Line(text: string)
    | Table(rows: seq<(string, string)>)
    | Spacer(height: nat)

  const ClinicTitle: string := "Geriatric Clinic - Patient Intake Form"

  const SectionHeadings: seq<string> := [
    "PATIENT INFORMATION",
    "CURRENT SYMPTOMS",
    "COGNITIVE ASSESSMENT",
    "MEDICATIONS",
    "BASIC ACTIVITIES OF DAILY LIVING (ADL)",
    "INSTRUMENTAL ACTIVITIES OF DAILY LIVING (IADL)",
    "MEDICAL HISTORY"]

  /** The title, the hospital and the date the report was generated. */
  function TitleBlocks(stamp: string): seq<Block>
  {
    [TitleLine(ClinicTitle), Plain("Jewish General Hospital"), Plain("Date: " + stamp), Spacer(20)]
  }

  const Rule: string := "__________________________________________________"

  /** The rule, the completion time and the attestation. */
  function FooterBlocks(completedAt: string): seq<Block>
  {
    [Spacer(30), Line(Rule), Plain("Form completed: " + completedAt),
     Plain("This form was completed electronically by the patient.")]
  }

  /** The `<b>name:</b> value` template of the body lines. */
  function Field(name: string, value: string): string
  {
    "<b>" + name + ":</b> " + value
  }

  /** The field line of `key`, written only when its stored answer is truthy. */
  function Answered(a: Answers, key: string, name: string): seq<Block>
  {
    if Truthy(Get(a, key)) then [Line(Field(name, Shown(a, key, "")))] else []
  }

  /** The field line `name` showing `key` (or `default` when absent),
      written only when the answer to `flag` is "Yes". */
  function WhenYes(a: Answers, flag: string, name: string, key: string, default: string): seq<Block>
  {
    if Get(a, flag) == Some(Str("Yes")) then [Line(Field(name, Shown(a, key, default)))] else []
  }

  // ---- Patient information ----

  function DemographicsRows(demo: Answers): seq<(string, string)>
  {
    [("Name:", Shown(demo, "first_name", "") + " " + Shown(demo, "last_name", "")),
     ("Date of Birth:", Shown(demo, "date_of_birth", "")),
     ("Sex:", Shown(demo, "sex", "")),
     ("Phone:", Shown(demo, "phone", "")),
     ("Health Card:", Shown(demo, "health_card", "")),
     ("Emergency Contact:", Shown(demo, "emergency_name", "") + " (" + Shown(demo, "emergency_relation", "") + ")"),
     ("Emergency Phone:", Shown(demo, "emergency_phone", "")),
     ("Preferred Language:", Shown(demo, "preferred_language", ""))]
  }

  function DemographicsSection(demo: Answers): (r: seq<Block>)
    ensures |r| == 3 && r[0] == Heading("PATIENT INFORMATION") && r[2] == Spacer(15)
    ensures r[1].Table? && |r[1].rows| == 8
  {
    [Heading("PATIENT INFORMATION"), Table(DemographicsRows(demo)), Spacer(15)]
  }

  // ---- Current symptoms ----

  const SymptomNames: seq<(string, string)> := [
    ("pain", "Pain"), ("dizziness", "Dizziness"), ("fatigue", "Fatigue"),
    ("breathing", "Breathing difficulty"), ("sleep", "Sleep problems"),
    ("appetite", "Appetite changes"), ("vision", "Vision problems"),
    ("hearing", "Hearing problems"), ("balance", "Balance problems"), ("falls", "Falls")]

  /** The location and severity lines under a "Yes" to pain, each only when
      its answer is truthy, so a severity of 0 is left out. */
  function PainDetails(symptoms: Answers): seq<Block>
  {
    (if Truthy(Get(symptoms, "pain_location"))
     then [Line("  - Location: " + Shown(symptoms, "pain_location", ""))] else [])
    + (if Truthy(Get(symptoms, "pain_level"))
       then [Line("  - Severity: " + Shown(symptoms, "pain_level", "") + "/10")] else [])
  }

  /** One iteration of the symptom loop. */
  function SymptomRow(symptoms: Answers): ((string, string)) -> seq<Block>
  {
    (entry: (string, string)) =>
      if Truthy(Get(symptoms, entry.0)) then
        [Line(Field(entry.1, Shown(symptoms, entry.0, "Not answered")))]
        + (if entry.0 == "pain" && Get(symptoms, "pain") == Some(Str("Yes")) then PainDetails(symptoms) else [])
      else []
  }

  function SymptomSection(symptoms: Answers): (r: seq<Block>)
    ensures |r| >= 2 && r[0] == Heading("CURRENT SYMPTOMS")
  {
    [Heading("CURRENT SYMPTOMS")]
    + ConcatMap(SymptomNames, SymptomRow(symptoms))
    + Answered(symptoms, "other_symptoms", "Other symptoms")
    + [Spacer(15)]
  }

  // ---- Cognitive assessment ----

  const CognitiveItems: seq<(string, string)> := [
    ("forget_names", "Forgets names"), ("forget_appointments", "Forgets appointments"),
    ("lose_items", "Misplaces items"), ("repeat_questions", "Repeats questions"),
    ("difficulty_decisions", "Difficulty with decisions"), ("get_lost", "Gets lost in familiar places")]

  function CognitiveRow(cognitive: Answers): ((string, string)) -> seq<Block>
  {
    (entry: (string, string)) => Answered(cognitive, entry.0, entry.1)
  }

  function CognitiveSection(cognitive: Answers): (r: seq<Block>)
    ensures |r| >= 2 && r[0] == Heading("COGNITIVE ASSESSMENT")
  {
    [Heading("COGNITIVE ASSESSMENT")]
    + ConcatMap(CognitiveItems, CognitiveRow(cognitive))
    + Answered(cognitive, "other_concerns", "Other concerns")
    + [Spacer(15)]
  }

  // ---- Medications ----

  /** One iteration of the medication loop: the review's bullet, as a line. */
  function MedRow(e: MedEntry): seq<Block>
  {
    if e.name != "" then [Line(Review.MedLine(e))] else []
  }

  /** The list of named entries and the two follow-up answers under a "Yes"
      to taking medications, otherwise the fixed line. */
  function MedicationsTaken(meds: Answers): seq<Block>
  {
    if Get(meds, "taking_medications") == Some(Str("Yes")) then
      ConcatMap(MedList(meds), MedRow)
      + Answered(meds, "needs_help", "Needs help with medications")
      + Answered(meds, "miss_doses", "Misses doses")
    else [Line("No medications reported")]
  }

  function Allergies(meds: Answers): seq<Block>
  {
    WhenYes(meds, "has_allergies", "Drug allergies", "allergies_list", "Not specified")
  }

  function MedicationSection(meds: Answers): (r: seq<Block>)
    ensures |r| >= 2 && r[0] == Heading("MEDICATIONS")
  {
    [Heading("MEDICATIONS")] + MedicationsTaken(meds) + Allergies(meds) + [Spacer(15)]
  }

  // ---- Basic activities ----

  const AdlItems: seq<string> := ["bathing", "dressing", "toileting", "transferring", "continence", "feeding"]

  /** The basic activities are labelled with `item.title()` alone. */
  function AdlRow(adl: Answers): string -> seq<Block>
  {
    (item: string) => Answered(adl, item, Title(item))
  }

  function MobilityAids(adl: Answers): seq<Block>
  {
    if Get(adl, "uses_mobility_aids") == Some(Str("Yes"))
    then [Line(Field("Mobility aids", Join(AidList(adl), ", ")))] else []
  }

  function AdlSection(adl: Answers): (r: seq<Block>)
    ensures |r| >= 2 && r[0] == Heading("BASIC ACTIVITIES OF DAILY LIVING (ADL)")
  {
    [Heading("BASIC ACTIVITIES OF DAILY LIVING (ADL)")]
    + ConcatMap(AdlItems, AdlRow(adl))
    + MobilityAids(adl)
    + [Spacer(15)]
  }

  // ---- Instrumental activities ----

  const IadlItems: seq<string> :=
    ["telephone", "shopping", "food_prep", "housekeeping", "laundry", "transportation", "medications", "finances"]

  function IadlRow(iadl: Answers): string -> seq<Block>
  {
    (item: string) => Answered(iadl, item, Label(item))
  }

  function Caregiver(iadl: Answers): seq<Block>
  {
    WhenYes(iadl, "has_caregiver", "Caregiver", "caregiver_relation", "Yes")
  }

  function IadlSection(iadl: Answers): (r: seq<Block>)
    ensures |r| >= 2 && r[0] == Heading("INSTRUMENTAL ACTIVITIES OF DAILY LIVING (IADL)")
  {
    [Heading("INSTRUMENTAL ACTIVITIES OF DAILY LIVING (IADL)")]
    + ConcatMap(IadlItems, IadlRow(iadl))
    + Answered(iadl, "living_situation", "Living situation")
    + Caregiver(iadl)
    + [Spacer(15)]
  }

  // ---- Medical history ----

  const Conditions: seq<(string, string)> := [
    ("heart_disease", "Heart Disease"), ("high_blood_pressure", "High Blood Pressure"),
    ("diabetes", "Diabetes"), ("stroke", "Stroke/TIA"), ("cancer", "Cancer"),
    ("arthritis", "Arthritis"), ("osteoporosis", "Osteoporosis"), ("lung_disease", "Lung Disease"),
    ("kidney_disease", "Kidney Disease"), ("depression", "Depression/Anxiety"),
    ("dementia", "Memory Problems"), ("parkinsons", "Parkinson's Disease")]

  function YesCondition(history: Answers): ((string, string)) -> seq<string>
  {
    (entry: (string, string)) => if Get(history, entry.0) == Some(Str("Yes")) then [entry.1] else []
  }

  /** `positive_conditions`: the display names of the conditions answered
      "Yes", in the fixed order. */
  function PositiveConditions(history: Answers): seq<string>
  {
    ConcatMap(Conditions, YesCondition(history))
  }

  function ConditionRow(name: string): seq<Block>
  {
    [Line("- " + name)]
  }

  function ConditionLines(history: Answers): (r: seq<Block>)
    ensures |r| >= 1 && r[0].Line?
  {
    if PositiveConditions(history) != [] then
      ConcatMapFront(PositiveConditions(history), ConditionRow);
      ConcatMap(PositiveConditions(history), ConditionRow)
    else [Line("No significant medical conditions reported")]
  }

  function Surgeries(history: Answers): seq<Block>
  {
    WhenYes(history, "had_surgeries", "Past surgeries", "surgeries_list", "Not specified")
  }

  function Hospitalization(history: Answers): seq<Block>
  {
    WhenYes(history, "hospitalized_past_year", "Recent hospitalization", "hospitalization_reason", "Not specified")
  }

  /** The last section has no spacer after it. */
  function HistorySection(history: Answers): (r: seq<Block>)
    ensures |r| >= 2 && r[0] == Heading("MEDICAL HISTORY") && r[1].Line?
  {
    [Heading("MEDICAL HISTORY")]
    + ConditionLines(history)
    + Surgeries(history)
    + Hospitalization(history)
    + Answered(history, "other_conditions", "Other conditions")
  }

  // ---- The whole report ----

  /** The sections of the report, in the order it writes them. */
  const SectionOrder: seq<Section> := [Demographics, Symptoms, Cognitive, Medications, Adl, Iadl, MedicalHistory]

  function HeadingOf(s: Section): string
  {
    match s
    case Demographics => "PATIENT INFORMATION"
    case Symptoms => "CURRENT SYMPTOMS"
    case Cognitive => "COGNITIVE ASSESSMENT"
    case Medications => "MEDICATIONS"
    case Adl => "BASIC ACTIVITIES OF DAILY LIVING (ADL)"
    case Iadl => "INSTRUMENTAL ACTIVITIES OF DAILY LIVING (IADL)"
    case MedicalHistory => "MEDICAL HISTORY"
  }

  /** What the report writes for section `s`, heading included, as a
      function of that section's answers. */
  function SectionOf(s: Section): Answers -> seq<Block>
  {
    match s
    case Demographics => DemographicsSection
    case Symptoms => SymptomSection
    case Cognitive => CognitiveSection
    case Medications => MedicationSection
    case Adl => AdlSection
    case Iadl => IadlSection
    case MedicalHistory => HistorySection
  }

  lemma SectionOfEach()
    ensures SectionOf(Demographics) == DemographicsSection
    ensures SectionOf(Symptoms) == SymptomSection
    ensures SectionOf(Cognitive) == CognitiveSection
    ensures SectionOf(Medications) == MedicationSection
    ensures SectionOf(Adl) == AdlSection
    ensures SectionOf(Iadl) == IadlSection
    ensures SectionOf(MedicalHistory) == HistorySection
  {
  }

  function Headed(f: FormData): Section -> seq<Block>
  {
    (s: Section) => SectionOf(s)(f.Get(s))
  }

  /** The block list for the answers `f`, generated at `stamp` and
      completed at `completedAt`: the title blocks, each section in order,
      the footer. */
  function Report(f: FormData, stamp: string, completedAt: string): (r: seq<Block>)
    ensures |r| >= 8
    ensures r[..4] == TitleBlocks(stamp) && r[0] == TitleLine(ClinicTitle)
    ensures r[|r| - 4..] == FooterBlocks(completedAt)
  {
    TitleBlocks(stamp) + ConcatMap(SectionOrder, Headed(f)) + FooterBlocks(completedAt)
  }

  // ---- Building the list ----

  /** `generate_pdf_report`: the blocks appended one after the other, in the
      order of the source, proved to be the report of the answers. */
  method GenerateReport(f: FormData, stamp: string, completedAt: string) returns (elements: seq<Block>)
    ensures elements == Report(f, stamp, completedAt)
  {
    elements := AppendTitle([], stamp);
    ghost var title := elements;
    assert title == TitleBlocks(stamp);
    for k := 0 to |SectionOrder|
      invariant elements == title + ConcatMapUpTo(SectionOrder, Headed(f), k)
    {
      var s := SectionOrder[k];
      elements := AppendSection(elements, s, f.Get(s));
      Grown(title, SectionOrder, k, Headed(f));
    }
    elements := AppendFooter(elements, completedAt);
  }

  /** The statements of one section, chosen by `s`. */
  method AppendSection(elements: seq<Block>, s: Section, a: Answers) returns (out: seq<Block>)
    ensures out == elements + SectionOf(s)(a)
  {
    SectionOfEach();
    match s
    case Demographics => out := AppendDemographics(elements, a);
    case Symptoms => out := AppendSymptoms(elements, a);
    case Cognitive => out := AppendCognitive(elements, a);
    case Medications => out := AppendMedications(elements, a);
    case Adl => out := AppendAdl(elements, a);
    case Iadl => out := AppendIadl(elements, a);
    case MedicalHistory => out := AppendHistory(elements, a);
  }

  method AppendTitle(elements: seq<Block>, stamp: string) returns (out: seq<Block>)
    ensures out == elements + TitleBlocks(stamp)
  {
    out := elements + [TitleLine(ClinicTitle)];
    out := out + [Plain("Jewish General Hospital")];
    out := out + [Plain("Date: " + stamp)];
    out := out + [Spacer(20)];
  }

  method AppendFooter(elements: seq<Block>, completedAt: string) returns (out: seq<Block>)
    ensures out == elements + FooterBlocks(completedAt)
  {
    out := elements + [Spacer(30)];
    out := out + [Line(Rule)];
    out := out + [Plain("Form completed: " + completedAt)];
    out := out + [Plain("This form was completed electronically by the patient.")];
  }

  /** The `if a.get(key): append(...)` statement the sections share. */
  method AppendAnswered(elements: seq<Block>, a: Answers, key: string, name: string) returns (out: seq<Block>)
    ensures out == elements + Answered(a, key, name)
  {
    out := elements;
    if Truthy(Get(a, key)) {
      out := out + [Line(Field(name, Shown(a, key, "")))];
    }
  }

  /** The `if a.get(flag) == "Yes": append(...)` statement the sections share. */
  method AppendWhenYes(elements: seq<Block>, a: Answers, flag: string, name: string, key: string, default: string)
    returns (out: seq<Block>)
    ensures out == elements + WhenYes(a, flag, name, key, default)
  {
    out := elements;
    if Get(a, flag) == Some(Str("Yes")) {
      out := out + [Line(Field(name, Shown(a, key, default)))];
    }
  }

  method AppendDemographics(elements: seq<Block>, demo: Answers) returns (out: seq<Block>)
    ensures out == elements + DemographicsSection(demo)
  {
    out := elements + [Heading("PATIENT INFORMATION")];
    out := out + [Table(DemographicsRows(demo))];
    out := out + [Spacer(15)];
  }

  /** One iteration of the symptom loop. */
  method AppendSymptomRow(elements: seq<Block>, symptoms: Answers, key: string, name: string)
    returns (out: seq<Block>)
    ensures out == elements + SymptomRow(symptoms)((key, name))
  {
    out := elements;
    if Truthy(Get(symptoms, key)) {
      out := out + [Line(Field(name, Shown(symptoms, key, "Not answered")))];
      if key == "pain" && Get(symptoms, "pain") == Some(Str("Yes")) {
        if Truthy(Get(symptoms, "pain_location")) {
          out := out + [Line("  - Location: " + Shown(symptoms, "pain_location", ""))];
        }
        if Truthy(Get(symptoms, "pain_level")) {
          out := out + [Line("  - Severity: " + Shown(symptoms, "pain_level", "") + "/10")];
        }
      }
    }
  }

  /** The loop over the symptom names. */
  method AppendSymptomLines(elements: seq<Block>, symptoms: Answers) returns (out: seq<Block>)
    ensures out == elements + ConcatMap(SymptomNames, SymptomRow(symptoms))
  {
    out := elements;
    for i := 0 to |SymptomNames|
      invariant out == elements + ConcatMapUpTo(SymptomNames, SymptomRow(symptoms), i)
    {
      var (key, name) := SymptomNames[i];
      out := AppendSymptomRow(out, symptoms, key, name);
      Grown(elements, SymptomNames, i, SymptomRow(symptoms));
    }
  }

  method AppendSymptoms(elements: seq<Block>, symptoms: Answers) returns (out: seq<Block>)
    ensures out == elements + SymptomSection(symptoms)
  {
    out := elements + [Heading("CURRENT SYMPTOMS")];
    ghost var body := [Heading("CURRENT SYMPTOMS")];
    out := AppendSymptomLines(out, symptoms);
    AppendAssoc(elements, body, ConcatMap(SymptomNames, SymptomRow(symptoms)));
    body := body + ConcatMap(SymptomNames, SymptomRow(symptoms));
    out := AppendAnswered(out, symptoms, "other_symptoms", "Other symptoms");
    AppendAssoc(elements, body, Answered(symptoms, "other_symptoms", "Other symptoms"));
    body := body + Answered(symptoms, "other_symptoms", "Other symptoms");
    out := out + [Spacer(15)];
    AppendAssoc(elements, body, [Spacer(15)]);
  }

  /** The loop over the cognitive items. */
  method AppendCognitiveLines(elements: seq<Block>, cognitive: Answers) returns (out: seq<Block>)
    ensures out == elements + ConcatMap(CognitiveItems, CognitiveRow(cognitive))
  {
    out := elements;
    for i := 0 to |CognitiveItems|
      invariant out == elements + ConcatMapUpTo(CognitiveItems, CognitiveRow(cognitive), i)
    {
      var (key, name) := CognitiveItems[i];
      out := AppendAnswered(out, cognitive, key, name);
      Grown(elements, CognitiveItems, i, CognitiveRow(cognitive));
    }
  }

  method AppendCognitive(elements: seq<Block>, cognitive: Answers) returns (out: seq<Block>)
    ensures out == elements + CognitiveSection(cognitive)
  {
    out := elements + [Heading("COGNITIVE ASSESSMENT")];
    ghost var body := [Heading("COGNITIVE ASSESSMENT")];
    out := AppendCognitiveLines(out, cognitive);
    AppendAssoc(elements, body, ConcatMap(CognitiveItems, CognitiveRow(cognitive)));
    body := body + ConcatMap(CognitiveItems, CognitiveRow(cognitive));
    out := AppendAnswered(out, cognitive, "other_concerns", "Other concerns");
    AppendAssoc(elements, body, Answered(cognitive, "other_concerns", "Other concerns"));
    body := body + Answered(cognitive, "other_concerns", "Other concerns");
    out := out + [Spacer(15)];
    AppendAssoc(elements, body, [Spacer(15)]);
  }

  /** The loop over the stored medication entries: one line per named entry. */
  method AppendMedLines(elements: seq<Block>, medList: seq<MedEntry>) returns (out: seq<Block>)
    ensures out == elements + ConcatMap(medList, MedRow)
  {
    out := elements;
    for i := 0 to |medList|
      invariant out == elements + ConcatMapUpTo(medList, MedRow, i)
    {
      var m := medList[i];
      if m.name != "" {
        out := out + [Line("- " + m.name + " " + m.dose + " (" + m.frequency + ")")];
      }
      Grown(elements, medList, i, MedRow);
    }
  }

  /** The branch on `taking_medications`. */
  method AppendMedicationsTaken(elements: seq<Block>, meds: Answers) returns (out: seq<Block>)
    ensures out == elements + MedicationsTaken(meds)
  {
    if Get(meds, "taking_medications") == Some(Str("Yes")) {
      out := AppendMedLines(elements, MedList(meds));
      ghost var taken := ConcatMap(MedList(meds), MedRow);
      out := AppendAnswered(out, meds, "needs_help", "Needs help with medications");
      AppendAssoc(elements, taken, Answered(meds, "needs_help", "Needs help with medications"));
      taken := taken + Answered(meds, "needs_help", "Needs help with medications");
      out := AppendAnswered(out, meds, "miss_doses", "Misses doses");
      AppendAssoc(elements, taken, Answered(meds, "miss_doses", "Misses doses"));
    } else {
      out := elements + [Line("No medications reported")];
    }
  }

  method AppendMedications(elements: seq<Block>, meds: Answers) returns (out: seq<Block>)
    ensures out == elements + MedicationSection(meds)
  {
    out := elements + [Heading("MEDICATIONS")];
    ghost var body := [Heading("MEDICATIONS")];
    out := AppendMedicationsTaken(out, meds);
    AppendAssoc(elements, body, MedicationsTaken(meds));
    body := body + MedicationsTaken(meds);
    out := AppendWhenYes(out, meds, "has_allergies", "Drug allergies", "allergies_list", "Not specified");
    AppendAssoc(elements, body, Allergies(meds));
    body := body + Allergies(meds);
    out := out + [Spacer(15)];
    AppendAssoc(elements, body, [Spacer(15)]);
  }

  /** The loop over the basic activities. */
  method AppendAdlLines(elements: seq<Block>, adl: Answers) returns (out: seq<Block>)
    ensures out == elements + ConcatMap(AdlItems, AdlRow(adl))
  {
    out := elements;
    for i := 0 to |AdlItems|
      invariant out == elements + ConcatMapUpTo(AdlItems, AdlRow(adl), i)
    {
      var item := AdlItems[i];
      out := AppendAnswered(out, adl, item, Title(item));
      Grown(elements, AdlItems, i, AdlRow(adl));
    }
  }

  /** The mobility-aids line under a "Yes". */
  method AppendMobilityAids(elements: seq<Block>, adl: Answers) returns (out: seq<Block>)
    ensures out == elements + MobilityAids(adl)
  {
    out := elements;
    if Get(adl, "uses_mobility_aids") == Some(Str("Yes")) {
      var aids := AidList(adl);
      out := out + [Line(Field("Mobility aids", Join(aids, ", ")))];
    }
  }

  method AppendAdl(elements: seq<Block>, adl: Answers) returns (out: seq<Block>)
    ensures out == elements + AdlSection(adl)
  {
    out := elements + [Heading("BASIC ACTIVITIES OF DAILY LIVING (ADL)")];
    ghost var body := [Heading("BASIC ACTIVITIES OF DAILY LIVING (ADL)")];
    out := AppendAdlLines(out, adl);
    AppendAssoc(elements, body, ConcatMap(AdlItems, AdlRow(adl)));
    body := body + ConcatMap(AdlItems, AdlRow(adl));
    out := AppendMobilityAids(out, adl);
    AppendAssoc(elements, body, MobilityAids(adl));
    body := body + MobilityAids(adl);
    out := out + [Spacer(15)];
    AppendAssoc(elements, body, [Spacer(15)]);
  }

  /** The loop over the instrumental activities. */
  method AppendIadlLines(elements: seq<Block>, iadl: Answers) returns (out: seq<Block>)
    ensures out == elements + ConcatMap(IadlItems, IadlRow(iadl))
  {
    out := elements;
    for i := 0 to |IadlItems|
      invariant out == elements + ConcatMapUpTo(IadlItems, IadlRow(iadl), i)
    {
      var item := IadlItems[i];
      out := AppendAnswered(out, iadl, item, Label(item));
      Grown(elements, IadlItems, i, IadlRow(iadl));
    }
  }

  method AppendIadl(elements: seq<Block>, iadl: Answers) returns (out: seq<Block>)
    ensures out == elements + IadlSection(iadl)
  {
    out := elements + [Heading("INSTRUMENTAL ACTIVITIES OF DAILY LIVING (IADL)")];
    ghost var body := [Heading("INSTRUMENTAL ACTIVITIES OF DAILY LIVING (IADL)")];
    out := AppendIadlLines(out, iadl);
    AppendAssoc(elements, body, ConcatMap(IadlItems, IadlRow(iadl)));
    body := body + ConcatMap(IadlItems, IadlRow(iadl));
    out := AppendAnswered(out, iadl, "living_situation", "Living situation");
    AppendAssoc(elements, body, Answered(iadl, "living_situation", "Living situation"));
    body := body + Answered(iadl, "living_situation", "Living situation");
    out := AppendWhenYes(out, iadl, "has_caregiver", "Caregiver", "caregiver_relation", "Yes");
    AppendAssoc(elements, body, Caregiver(iadl));
    body := body + Caregiver(iadl);
    out := out + [Spacer(15)];
    AppendAssoc(elements, body, [Spacer(15)]);
  }

  /** The loop over `positive_conditions`. */
  method AppendConditionLines(elements: seq<Block>, positive: seq<string>) returns (out: seq<Block>)
    ensures out == elements + ConcatMap(positive, ConditionRow)
  {
    out := elements;
    for i := 0 to |positive|
      invariant out == elements + ConcatMapUpTo(positive, ConditionRow, i)
    {
      out := out + [Line("- " + positive[i])];
      Grown(elements, positive, i, ConditionRow);
    }
  }

  /** The branch on `positive_conditions` being empty. */
  method AppendConditions(elements: seq<Block>, history: Answers) returns (out: seq<Block>)
    ensures out == elements + ConditionLines(history)
  {
    var positive := PositiveConditions(history);
    if positive != [] {
      out := AppendConditionLines(elements, positive);
    } else {
      out := elements + [Line("No significant medical conditions reported")];
    }
  }

  method AppendHistory(elements: seq<Block>, history: Answers) returns (out: seq<Block>)
    ensures out == elements + HistorySection(history)
  {
    out := elements + [Heading("MEDICAL HISTORY")];
    ghost var body := [Heading("MEDICAL HISTORY")];
    out := AppendConditions(out, history);
    AppendAssoc(elements, body, ConditionLines(history));
    body := body + ConditionLines(history);
    out := AppendWhenYes(out, history, "had_surgeries", "Past surgeries", "surgeries_list", "Not specified");
    AppendAssoc(elements, body, Surgeries(history));
    body := body + Surgeries(history);
    out := AppendWhenYes(out, history, "hospitalized_past_year", "Recent hospitalization",
                         "hospitalization_reason", "Not specified");
    AppendAssoc(elements, body, Hospitalization(history));
    body := body + Hospitalization(history);
    out := AppendAnswered(out, history, "other_conditions", "Other conditions");
    AppendAssoc(elements, body, Answered(history, "other_conditions", "Other conditions"));
  }

  /** The loop invariant `out == start + ConcatMapUpTo(xs, f, i)` survives
      appending the contribution of `xs[i]`. */
  lemma Grown<T>(start: seq<Block>, xs: seq<T>, i: nat, f: T -> seq<Block>)
    requires i < |xs|
    ensures start + ConcatMapUpTo(xs, f, i) + f(xs[i]) == start + ConcatMapUpTo(xs, f, i + 1)
  {
    AppendAssoc(start, ConcatMapUpTo(xs, f, i), f(xs[i]));
  }

  // ---- Layout ----

  /** The texts of the section headings, in the order they occur. */
  function HeadingsOf(bs: seq<Block>): seq<string>
  {
    if bs == [] then [] else (if bs[0].Heading? then [bs[0].text] else []) + HeadingsOf(bs[1..])
  }

  lemma {:induction false} HeadingsOfAppend(xs: seq<Block>, ys: seq<Block>)
    ensures HeadingsOf(xs + ys) == HeadingsOf(xs) + HeadingsOf(ys)
    decreases |xs|
  {
    if xs == [] {
      assert xs + ys == ys;
    } else {
      assert (xs + ys)[1..] == xs[1..] + ys;
      HeadingsOfAppend(xs[1..], ys);
    }
  }

  lemma NoHeadingsIn(bs: seq<Block>)
    requires forall i :: 0 <= i < |bs| ==> !bs[i].Heading?
    ensures HeadingsOf(bs) == []
  {
    if bs != [] {
      NoHeadingsIn(bs[1..]);
    }
  }

  /** Appending blocks without headings adds no heading. */
  lemma ThenNoHeadings(bs: seq<Block>, more: seq<Block>)
    requires HeadingsOf(more) == []
    ensures HeadingsOf(bs + more) == HeadingsOf(bs)
  {
    HeadingsOfAppend(bs, more);
  }

  lemma SpacerHeadings(height: nat)
    ensures HeadingsOf([Spacer(height)]) == []
  {
    assert [Spacer(height)][1..] == [];
  }

  lemma WhenYesHeadings(a: Answers, flag: string, name: string, key: string, default: string)
    ensures HeadingsOf(WhenYes(a, flag, name, key, default)) == []
  {
    NoHeadingsIn(WhenYes(a, flag, name, key, default));
  }

  /** A heading followed by blocks without headings has that one heading. */
  lemma UnderHeading(h: string, rows: seq<Block>)
    requires HeadingsOf(rows) == []
    ensures HeadingsOf([Heading(h)] + rows) == [h]
  {
    HeadingsOfAppend([Heading(h)], rows);
    assert [Heading(h)][1..] == [];
  }

  /** A loop whose every iteration appends no heading appends no heading. */
  lemma {:induction false} RowsHaveNoHeadings<T>(xs: seq<T>, f: T -> seq<Block>, n: nat)
    requires n <= |xs|
    requires forall x :: x in xs ==> HeadingsOf(f(x)) == []
    ensures HeadingsOf(ConcatMapUpTo(xs, f, n)) == []
  {
    if n > 0 {
      RowsHaveNoHeadings(xs, f, n - 1);
      assert xs[n - 1] in xs;
      HeadingsOfAppend(ConcatMapUpTo(xs, f, n - 1), f(xs[n - 1]));
    }
  }

  /** A loop whose every iteration appends at most one line appends no heading. */
  lemma LineRows<T>(xs: seq<T>, f: T -> seq<Block>)
    requires forall x :: x in xs ==> f(x) == [] || (|f(x)| == 1 && f(x)[0].Line?)
    ensures HeadingsOf(ConcatMap(xs, f)) == []
  {
    forall x | x in xs
      ensures HeadingsOf(f(x)) == []
    {
      if f(x) != [] {
        assert f(x)[1..] == [];
      }
    }
    RowsHaveNoHeadings(xs, f, |xs|);
  }

  lemma AnsweredHeadings(a: Answers, key: string, name: string)
    ensures HeadingsOf(Answered(a, key, name)) == []
  {
    NoHeadingsIn(Answered(a, key, name));
  }

  lemma DemographicsHeadings(demo: Answers)
    ensures HeadingsOf(DemographicsSection(demo)) == ["PATIENT INFORMATION"]
  {
    var rest := [Table(DemographicsRows(demo)), Spacer(15)];
    NoHeadingsIn(rest);
    UnderHeading("PATIENT INFORMATION", rest);
    assert DemographicsSection(demo) == [Heading("PATIENT INFORMATION")] + rest;
  }

  lemma SymptomRowHeadings(symptoms: Answers, entry: (string, string))
    ensures HeadingsOf(SymptomRow(symptoms)(entry)) == []
  {
    NoHeadingsIn(SymptomRow(symptoms)(entry));
  }

  lemma SymptomHeadings(symptoms: Answers)
    ensures HeadingsOf(SymptomSection(symptoms)) == ["CURRENT SYMPTOMS"]
  {
    var head := [Heading("CURRENT SYMPTOMS")];
    var rows := ConcatMap(SymptomNames, SymptomRow(symptoms));
    var other := Answered(symptoms, "other_symptoms", "Other symptoms");
    forall x | x in SymptomNames
      ensures HeadingsOf(SymptomRow(symptoms)(x)) == []
    {
      SymptomRowHeadings(symptoms, x);
    }
    RowsHaveNoHeadings(SymptomNames, SymptomRow(symptoms), |SymptomNames|);
    UnderHeading("CURRENT SYMPTOMS", rows);
    AnsweredHeadings(symptoms, "other_symptoms", "Other symptoms");
    ThenNoHeadings(head + rows, other);
    SpacerHeadings(15);
    ThenNoHeadings(head + rows + other, [Spacer(15)]);
  }

  lemma CognitiveHeadings(cognitive: Answers)
    ensures HeadingsOf(CognitiveSection(cognitive)) == ["COGNITIVE ASSESSMENT"]
  {
    var head := [Heading("COGNITIVE ASSESSMENT")];
    var rows := ConcatMap(CognitiveItems, CognitiveRow(cognitive));
    var other := Answered(cognitive, "other_concerns", "Other concerns");
    forall x | x in CognitiveItems
      ensures HeadingsOf(CognitiveRow(cognitive)(x)) == []
    {
      AnsweredHeadings(cognitive, x.0, x.1);
    }
    RowsHaveNoHeadings(CognitiveItems, CognitiveRow(cognitive), |CognitiveItems|);
    UnderHeading("COGNITIVE ASSESSMENT", rows);
    AnsweredHeadings(cognitive, "other_concerns", "Other concerns");
    ThenNoHeadings(head + rows, other);
    SpacerHeadings(15);
    ThenNoHeadings(head + rows + other, [Spacer(15)]);
  }

  lemma MedicationHeadings(meds: Answers)
    ensures HeadingsOf(MedicationSection(meds)) == ["MEDICATIONS"]
  {
    var head := [Heading("MEDICATIONS")];
    var taken := MedicationsTaken(meds);
    if Get(meds, "taking_medications") == Some(Str("Yes")) {
      var rows := ConcatMap(MedList(meds), MedRow);
      var help := Answered(meds, "needs_help", "Needs help with medications");
      LineRows(MedList(meds), MedRow);
      AnsweredHeadings(meds, "needs_help", "Needs help with medications");
      ThenNoHeadings(rows, help);
      AnsweredHeadings(meds, "miss_doses", "Misses doses");
      ThenNoHeadings(rows + help, Answered(meds, "miss_doses", "Misses doses"));
    } else {
      NoHeadingsIn(taken);
    }
    UnderHeading("MEDICATIONS", taken);
    WhenYesHeadings(meds, "has_allergies", "Drug allergies", "allergies_list", "Not specified");
    ThenNoHeadings(head + taken, Allergies(meds));
    SpacerHeadings(15);
    ThenNoHeadings(head + taken + Allergies(meds), [Spacer(15)]);
  }

  lemma AdlHeadings(adl: Answers)
    ensures HeadingsOf(AdlSection(adl)) == ["BASIC ACTIVITIES OF DAILY LIVING (ADL)"]
  {
    var head := [Heading("BASIC ACTIVITIES OF DAILY LIVING (ADL)")];
    var rows := ConcatMap(AdlItems, AdlRow(adl));
    forall x | x in AdlItems
      ensures HeadingsOf(AdlRow(adl)(x)) == []
    {
      AnsweredHeadings(adl, x, Title(x));
    }
    RowsHaveNoHeadings(AdlItems, AdlRow(adl), |AdlItems|);
    UnderHeading("BASIC ACTIVITIES OF DAILY LIVING (ADL)", rows);
    NoHeadingsIn(MobilityAids(adl));
    ThenNoHeadings(head + rows, MobilityAids(adl));
    SpacerHeadings(15);
    ThenNoHeadings(head + rows + MobilityAids(adl), [Spacer(15)]);
  }

  lemma IadlHeadings(iadl: Answers)
    ensures HeadingsOf(IadlSection(iadl)) == ["INSTRUMENTAL ACTIVITIES OF DAILY LIVING (IADL)"]
  {
    var head := [Heading("INSTRUMENTAL ACTIVITIES OF DAILY LIVING (IADL)")];
    var rows := ConcatMap(IadlItems, IadlRow(iadl));
    var living := Answered(iadl, "living_situation", "Living situation");
    forall x | x in IadlItems
      ensures HeadingsOf(IadlRow(iadl)(x)) == []
    {
      AnsweredHeadings(iadl, x, Label(x));
    }
    RowsHaveNoHeadings(IadlItems, IadlRow(iadl), |IadlItems|);
    UnderHeading("INSTRUMENTAL ACTIVITIES OF DAILY LIVING (IADL)", rows);
    AnsweredHeadings(iadl, "living_situation", "Living situation");
    ThenNoHeadings(head + rows, living);
    WhenYesHeadings(iadl, "has_caregiver", "Caregiver", "caregiver_relation", "Yes");
    ThenNoHeadings(head + rows + living, Caregiver(iadl));
    SpacerHeadings(15);
    ThenNoHeadings(head + rows + living + Caregiver(iadl), [Spacer(15)]);
  }

  lemma HistoryHeadings(history: Answers)
    ensures HeadingsOf(HistorySection(history)) == ["MEDICAL HISTORY"]
  {
    var head := [Heading("MEDICAL HISTORY")];
    var conditions := ConditionLines(history);
    if PositiveConditions(history) != [] {
      LineRows(PositiveConditions(history), ConditionRow);
    } else {
      NoHeadingsIn(conditions);
    }
    UnderHeading("MEDICAL HISTORY", conditions);
    WhenYesHeadings(history, "had_surgeries", "Past surgeries", "surgeries_list", "Not specified");
    ThenNoHeadings(head + conditions, Surgeries(history));
    WhenYesHeadings(history, "hospitalized_past_year", "Recent hospitalization", "hospitalization_reason", "Not specified");
    ThenNoHeadings(head + conditions + Surgeries(history), Hospitalization(history));
    AnsweredHeadings(history, "other_conditions", "Other conditions");
    ThenNoHeadings(head + conditions + Surgeries(history) + Hospitalization(history),
                   Answered(history, "other_conditions", "Other conditions"));
  }

  function HeadingLine(s: Section): seq<string>
  {
    [HeadingOf(s)]
  }

  /** Each section contributes exactly its own heading. */
  lemma SectionHasOneHeading(s: Section, a: Answers)
    ensures HeadingsOf(SectionOf(s)(a)) == HeadingLine(s)
  {
    SectionOfEach();
    match s
    case Demographics => DemographicsHeadings(a);
    case Symptoms => SymptomHeadings(a);
    case Cognitive => CognitiveHeadings(a);
    case Medications => MedicationHeadings(a);
    case Adl => AdlHeadings(a);
    case Iadl => IadlHeadings(a);
    case MedicalHistory => HistoryHeadings(a);
  }

  /** The headings of a loop's output are the loop over each iteration's headings. */
  lemma {:induction false} HeadingsOfConcatMap<T>(xs: seq<T>, f: T -> seq<Block>, g: T -> seq<string>, n: nat)
    requires n <= |xs|
    requires forall x :: x in xs ==> HeadingsOf(f(x)) == g(x)
    ensures HeadingsOf(ConcatMapUpTo(xs, f, n)) == ConcatMapUpTo(xs, g, n)
  {
    if n > 0 {
      HeadingsOfConcatMap(xs, f, g, n - 1);
      assert xs[n - 1] in xs;
      HeadingsOfAppend(ConcatMapUpTo(xs, f, n - 1), f(xs[n - 1]));
    }
  }

  lemma SectionOrderHeadings()
    ensures ConcatMap(SectionOrder, HeadingLine) == SectionHeadings
  {
    for k := 0 to 7
      invariant ConcatMapUpTo(SectionOrder, HeadingLine, k) == SectionHeadings[..k]
    {
      assert SectionHeadings[..k + 1] == SectionHeadings[..k] + [SectionHeadings[k]];
    }
    assert SectionHeadings[..7] == SectionHeadings;
  }

  /** The report opens with the title blocks, closes with the footer, and
      its headings are the seven section headings in their fixed order. */
  lemma ReportLayout(f: FormData, stamp: string, completedAt: string)
    ensures |Report(f, stamp, completedAt)| >= 8
    ensures Report(f, stamp, completedAt)[..4] == TitleBlocks(stamp)
    ensures Report(f, stamp, completedAt)[|Report(f, stamp, completedAt)| - 4..] == FooterBlocks(completedAt)
    ensures HeadingsOf(Report(f, stamp, completedAt)) == SectionHeadings
  {
    var title := TitleBlocks(stamp);
    var sections := ConcatMap(SectionOrder, Headed(f));
    var footer := FooterBlocks(completedAt);
    forall s | s in SectionOrder
      ensures HeadingsOf(Headed(f)(s)) == HeadingLine(s)
    {
      SectionHasOneHeading(s, f.Get(s));
    }
    HeadingsOfConcatMap(SectionOrder, Headed(f), HeadingLine, |SectionOrder|);
    SectionOrderHeadings();
    NoHeadingsIn(title);
    NoHeadingsIn(footer);
    HeadingsOfAppend(title, sections);
    HeadingsOfAppend(title + sections, footer);
  }

  /** The seven headings are pairwise different, so each occurs once. */
  lemma SectionHeadingsDistinct()
    ensures Distinct(SectionHeadings)
  {
  }

  // ---- What the sections show ----

  /** A body line whose text starts with `c`. */
  predicate LineStartsWith(b: Block, c: char)
  {
    b.Line? && |b.text| > 0 && b.text[0] == c
  }

  /** A `<b>name:</b> value` line whose name starts with `initial`. */
  predicate FieldLine(b: Block, initial: char)
  {
    b.Line? && |b.text| > 3 && b.text[0] == '<' && b.text[3] == initial
  }

  lemma FieldChars(name: string, value: string)
    requires name != ""
    ensures FieldLine(Line(Field(name, value)), name[0])
  {
  }

  /** What holds of every block of every iteration holds of every block of the loop. */
  lemma RowsAll<T>(xs: seq<T>, f: T -> seq<Block>, p: Block -> bool)
    requires forall x, b :: x in xs && b in f(x) ==> p(b)
    ensures forall b :: b in ConcatMap(xs, f) ==> p(b)
  {
    forall b | b in ConcatMap(xs, f)
      ensures p(b)
    {
      InConcatMap(xs, f, b);
      var i :| 0 <= i < |xs| && b in f(xs[i]);
      assert xs[i] in xs;
    }
  }

  /** The blocks of the personal-information section are the heading, the
      table and the spacer; the table shows what the personal-information
      page stored, row by row. */
  lemma DemographicsTable(p: PersonalInfo)
    ensures DemographicsSection(PersonalAnswers(p))[1] == Table([
      ("Name:", p.firstName + " " + p.lastName),
      ("Date of Birth:", Show(p.dateOfBirth)),
      ("Sex:", p.sex),
      ("Phone:", p.phone),
      ("Health Card:", p.healthCard),
      ("Emergency Contact:", p.emergencyName + " (" + p.emergencyRelation + ")"),
      ("Emergency Phone:", p.emergencyPhone),
      ("Preferred Language:", p.preferredLanguage)])
  {
    PersonalAnswersFields(p);
  }

  // Pain

  /** The two pain sub-lines start with two spaces; no other line does. */
  predicate SubLine(b: Block)
  {
    LineStartsWith(b, ' ')
  }

  /** The location line is written exactly when a location was given, the
      severity line exactly when the level is truthy, so a severity of 0
      writes no severity line. */
  lemma PainDetailLines(symptoms: Answers)
    ensures Line("  - Location: " + Shown(symptoms, "pain_location", "")) in PainDetails(symptoms)
            <==> Truthy(Get(symptoms, "pain_location"))
    ensures Line("  - Severity: " + Shown(symptoms, "pain_level", "") + "/10") in PainDetails(symptoms)
            <==> Truthy(Get(symptoms, "pain_level"))
    ensures Get(symptoms, "pain_level") == Some(Int(0)) ==> |PainDetails(symptoms)| <= 1
    ensures forall b :: b in PainDetails(symptoms) ==> SubLine(b)
  {
    var location := "  - Location: " + Shown(symptoms, "pain_location", "");
    var severity := "  - Severity: " + Shown(symptoms, "pain_level", "") + "/10";
    assert location[4] == 'L' && severity[4] == 'S';
  }

  /** A symptom's iteration writes sub-lines only for pain answered "Yes". */
  lemma SymptomRowSubLines(symptoms: Answers, entry: (string, string))
    ensures forall b :: b in SymptomRow(symptoms)(entry) && SubLine(b) ==>
      entry.0 == "pain" && Get(symptoms, "pain") == Some(Str("Yes"))
  {
    if entry.1 != "" {
      FieldChars(entry.1, Shown(symptoms, entry.0, "Not answered"));
    } else {
      assert Field(entry.1, Shown(symptoms, entry.0, "Not answered"))[0] == '<';
    }
  }

  /** The pain location and severity lines appear in the symptom section
      only when pain was answered "Yes", and then all of them do. */
  lemma PainSubLinesOnlyUnderPain(symptoms: Answers)
    ensures forall b :: b in SymptomSection(symptoms) && SubLine(b) ==> Get(symptoms, "pain") == Some(Str("Yes"))
    ensures Get(symptoms, "pain") == Some(Str("Yes")) ==>
      forall b :: b in PainDetails(symptoms) ==> b in SymptomSection(symptoms)
  {
    SubLinesNeedPain(symptoms);
    if Get(symptoms, "pain") == Some(Str("Yes")) {
      PainDetailsFollowPain(symptoms);
      var s := SymptomSection(symptoms);
      forall b | b in PainDetails(symptoms) ensures b in s {
        assert b in s[2..2 + |PainDetails(symptoms)|];
      }
    }
  }

  /** The other-symptoms line is not a sub-line, so only the loop could
      write one, and it does so only under a "Yes" to pain. */
  lemma SubLinesNeedPain(symptoms: Answers)
    ensures forall b :: b in SymptomSection(symptoms) && SubLine(b) ==> Get(symptoms, "pain") == Some(Str("Yes"))
  {
    var rows := ConcatMap(SymptomNames, SymptomRow(symptoms));
    var other := Answered(symptoms, "other_symptoms", "Other symptoms");
    RowSubLinesNeedPain(symptoms);
    FieldChars("Other symptoms", Shown(symptoms, "other_symptoms", ""));
    assert forall b :: b in other ==> !SubLine(b);
    assert SymptomSection(symptoms) == [Heading("CURRENT SYMPTOMS")] + rows + other + [Spacer(15)];
  }

  /** No iteration of the symptom loop writes a sub-line unless pain was
      answered "Yes". */
  lemma RowSubLinesNeedPain(symptoms: Answers)
    ensures forall b :: b in ConcatMap(SymptomNames, SymptomRow(symptoms)) && SubLine(b) ==>
      Get(symptoms, "pain") == Some(Str("Yes"))
  {
    var yes := Get(symptoms, "pain") == Some(Str("Yes"));
    forall x | x in SymptomNames
      ensures forall b :: b in SymptomRow(symptoms)(x) && SubLine(b) ==> yes
    {
      SymptomRowSubLines(symptoms, x);
    }
    RowsAll(SymptomNames, SymptomRow(symptoms), (b: Block) => SubLine(b) ==> yes);
  }

  /** Blocks written right after a heading follow it. */
  lemma AfterHeading(head: Block, xs: seq<Block>, rest: seq<Block>)
    ensures |[head] + xs + rest| >= 1 + |xs|
    ensures ([head] + xs + rest)[1..1 + |xs|] == xs
  {
    assert ([head] + xs + rest)[1..1 + |xs|] == xs;
  }

  /** The first iteration's blocks come right after a section's heading. */
  lemma FirstRowAfterHeading<T>(head: Block, xs: seq<T>, f: T -> seq<Block>, tail: seq<Block>)
    requires xs != []
    ensures |[head] + ConcatMap(xs, f) + tail| >= 1 + |f(xs[0])|
    ensures ([head] + ConcatMap(xs, f) + tail)[1..1 + |f(xs[0])|] == f(xs[0])
  {
    ConcatMapFront(xs, f);
    assert [head] + ConcatMap(xs, f) + tail == [head] + f(xs[0]) + (ConcatMap(xs[1..], f) + tail);
  }

  /** Under a "Yes" to pain, the pain line is the first line after the
      heading and the location and severity lines come right after it. */
  lemma PainDetailsFollowPain(symptoms: Answers)
    requires Get(symptoms, "pain") == Some(Str("Yes"))
    ensures |SymptomSection(symptoms)| >= 2 + |PainDetails(symptoms)|
    ensures SymptomSection(symptoms)[1] == Line(Field("Pain", "Yes"))
    ensures SymptomSection(symptoms)[2..2 + |PainDetails(symptoms)|] == PainDetails(symptoms)
  {
    var row := SymptomRow(symptoms);
    var first := [Line(Field("Pain", "Yes"))] + PainDetails(symptoms);
    assert SymptomNames[0] == ("pain", "Pain");
    assert row(SymptomNames[0]) == first;
    var tail := Answered(symptoms, "other_symptoms", "Other symptoms") + [Spacer(15)];
    FirstRowAfterHeading(Heading("CURRENT SYMPTOMS"), SymptomNames, row, tail);
    var s := SymptomSection(symptoms);
    assert s == [Heading("CURRENT SYMPTOMS")] + ConcatMap(SymptomNames, row) + tail;
    assert s[1..1 + |first|] == first;
    assert s[1] == first[0];
    assert s[2..2 + |PainDetails(symptoms)|] == first[1..];
  }

  // Medications

  /** Each text as a body line. */
  function Lines(texts: seq<string>): (r: seq<Block>)
    ensures |r| == |texts|
  {
    seq(|texts|, i requires 0 <= i < |texts| => Line(texts[i]))
  }

  lemma LinesAppend(a: seq<string>, b: seq<string>)
    ensures Lines(a + b) == Lines(a) + Lines(b)
  {
    assert forall i :: 0 <= i < |a + b| ==> Lines(a + b)[i] == (Lines(a) + Lines(b))[i];
  }

  lemma {:induction false} MedRowsUpTo(entries: seq<MedEntry>, n: nat)
    requires n <= |entries|
    ensures ConcatMapUpTo(entries, MedRow, n) == Lines(ConcatMapUpTo(entries, Review.MedBullet, n))
  {
    if n > 0 {
      MedRowsUpTo(entries, n - 1);
      LinesAppend(ConcatMapUpTo(entries, Review.MedBullet, n - 1), Review.MedBullet(entries[n - 1]));
    }
  }

  /** The report lists the medications line for line as the review does:
      one line per named entry, in the order of the list. */
  lemma MedRowsAreBullets(entries: seq<MedEntry>)
    ensures ConcatMap(entries, MedRow) == Lines(Review.MedBullets(entries))
  {
    MedRowsUpTo(entries, |entries|);
  }

  lemma MedRowsStartWithDash(entries: seq<MedEntry>)
    ensures forall b :: b in ConcatMap(entries, MedRow) ==> LineStartsWith(b, '-')
  {
    RowsAll(entries, MedRow, (b: Block) => LineStartsWith(b, '-'));
  }

  /** "No medications reported" is in the medication section exactly when
      the patient did not answer "Yes" to taking medications, and then the
      section holds no line of the medication list. */
  lemma NoMedicationsLine(meds: Answers)
    ensures Line("No medications reported") in MedicationSection(meds)
            <==> Get(meds, "taking_medications") != Some(Str("Yes"))
    ensures Get(meds, "taking_medications") != Some(Str("Yes")) ==>
      forall b :: b in MedicationSection(meds) ==> !LineStartsWith(b, '-')
  {
    if Get(meds, "taking_medications") == Some(Str("Yes")) {
      NoFallbackUnderYes(meds);
    } else {
      var section := MedicationSection(meds);
      FallbackWithoutYes(meds);
      FieldChars("Drug allergies", Shown(meds, "allergies_list", "Not specified"));
      forall b | b in section
        ensures !LineStartsWith(b, '-')
      {
        assert b in [Heading("MEDICATIONS"), Line("No medications reported")] || b in Allergies(meds) || b == Spacer(15);
      }
    }
  }

  /** Without a "Yes", the fixed line stands in for the whole list. */
  lemma FallbackWithoutYes(meds: Answers)
    requires Get(meds, "taking_medications") != Some(Str("Yes"))
    ensures MedicationSection(meds) == [Heading("MEDICATIONS"), Line("No medications reported")] + Allergies(meds) + [Spacer(15)]
  {
    assert MedicationsTaken(meds) == [Line("No medications reported")];
  }

  /** Under a "Yes", no line of the section is the fixed line. */
  lemma NoFallbackUnderYes(meds: Answers)
    requires Get(meds, "taking_medications") == Some(Str("Yes"))
    ensures Line("No medications reported") !in MedicationSection(meds)
  {
    var rows := ConcatMap(MedList(meds), MedRow);
    MedicationParts(meds);
    MedRowsStartWithDash(MedList(meds));
    FieldChars("Needs help with medications", Shown(meds, "needs_help", ""));
    FieldChars("Misses doses", Shown(meds, "miss_doses", ""));
    FieldChars("Drug allergies", Shown(meds, "allergies_list", "Not specified"));
    assert Line("No medications reported") !in rows;
    assert Line("No medications reported") !in MedicationRest(meds);
  }

  /** The allergy line is in the medication section exactly when the
      patient answered "Yes" to having drug allergies. */
  lemma AllergyLine(meds: Answers)
    ensures Line(Field("Drug allergies", Shown(meds, "allergies_list", "Not specified"))) in MedicationSection(meds)
            <==> Get(meds, "has_allergies") == Some(Str("Yes"))
  {
    var line := Line(Field("Drug allergies", Shown(meds, "allergies_list", "Not specified")));
    var taken := MedicationsTaken(meds);
    assert MedicationSection(meds) == [Heading("MEDICATIONS")] + taken + Allergies(meds) + [Spacer(15)];
    FieldChars("Drug allergies", Shown(meds, "allergies_list", "Not specified"));
    if Get(meds, "taking_medications") == Some(Str("Yes")) {
      var rows := ConcatMap(MedList(meds), MedRow);
      var helped := Answered(meds, "needs_help", "Needs help with medications")
        + Answered(meds, "miss_doses", "Misses doses");
      MedRowsStartWithDash(MedList(meds));
      FieldChars("Needs help with medications", Shown(meds, "needs_help", ""));
      FieldChars("Misses doses", Shown(meds, "miss_doses", ""));
      assert taken == rows + helped;
      assert line !in rows && line !in helped;
    } else {
      assert taken == [Line("No medications reported")];
    }
    assert line !in taken;
  }

  /** The medication section under a "Yes": the heading, the list loop,
      then the rest. */
  lemma MedicationParts(meds: Answers)
    requires Get(meds, "taking_medications") == Some(Str("Yes"))
    ensures MedicationSection(meds) == [Heading("MEDICATIONS")] + ConcatMap(MedList(meds), MedRow) + MedicationRest(meds)
  {
    var rows := ConcatMap(MedList(meds), MedRow);
    var helped := Answered(meds, "needs_help", "Needs help with medications")
      + Answered(meds, "miss_doses", "Misses doses");
    var tail := Allergies(meds) + [Spacer(15)];
    assert MedicationsTaken(meds) == rows + helped;
    assert MedicationSection(meds) == [Heading("MEDICATIONS")] + (rows + helped) + Allergies(meds) + [Spacer(15)];
    AppendAssoc([Heading("MEDICATIONS")] + (rows + helped), Allergies(meds), [Spacer(15)]);
    AppendAssoc([Heading("MEDICATIONS")], rows + helped, tail);
    AppendAssoc(rows, helped, tail);
    AppendAssoc([Heading("MEDICATIONS")], rows, helped + tail);
    AppendAssoc(helped, Allergies(meds), [Spacer(15)]);
  }

  /** What follows the list loop in the medication section under a "Yes". */
  function MedicationRest(meds: Answers): seq<Block>
  {
    Answered(meds, "needs_help", "Needs help with medications")
    + Answered(meds, "miss_doses", "Misses doses") + Allergies(meds) + [Spacer(15)]
  }

  /** Under a "Yes" to taking medications, the lines of the list loop come
      right after the heading. */
  lemma MedRowsAfterHeading(meds: Answers)
    requires Get(meds, "taking_medications") == Some(Str("Yes"))
    ensures var rows := ConcatMap(MedList(meds), MedRow);
      1 + |rows| <= |MedicationSection(meds)| && MedicationSection(meds)[1..1 + |rows|] == rows
  {
    MedicationParts(meds);
    AfterHeading(Heading("MEDICATIONS"), ConcatMap(MedList(meds), MedRow), MedicationRest(meds));
  }

  /** Under a "Yes" to taking medications, the medication section has a
      line for every named entry, and every line of the list loop is the
      line of a named entry; the lines follow the stored list's order, the
      same bullets the review page shows, right after the heading. */
  lemma MedicationsListed(meds: Answers)
    requires Get(meds, "taking_medications") == Some(Str("Yes"))
    ensures ConcatMap(MedList(meds), MedRow) == Lines(Review.MedBullets(MedList(meds)))
    ensures var n := |Review.MedBullets(MedList(meds))|;
      1 + n <= |MedicationSection(meds)| && MedicationSection(meds)[1..1 + n] == Lines(Review.MedBullets(MedList(meds)))
    ensures forall e :: e in MedList(meds) && e.name != "" ==> Line(Review.MedLine(e)) in MedicationSection(meds)
    ensures forall b :: b in ConcatMap(MedList(meds), MedRow) ==>
      exists e :: e in MedList(meds) && e.name != "" && b == Line(Review.MedLine(e))
  {
    var entries := MedList(meds);
    var bullets := Review.MedBullets(entries);
    var section := MedicationSection(meds);
    MedRowsAreBullets(entries);
    MedRowsAfterHeading(meds);
    Review.MedBulletsContents(entries);
    forall e | e in entries && e.name != ""
      ensures Line(Review.MedLine(e)) in section
    {
      var i :| 0 <= i < |bullets| && bullets[i] == Review.MedLine(e);
      assert section[1 + i] == Lines(bullets)[i];
    }
    forall b | b in ConcatMap(entries, MedRow)
      ensures exists e :: e in entries && e.name != "" && b == Line(Review.MedLine(e))
    {
      var i :| 0 <= i < |Lines(bullets)| && Lines(bullets)[i] == b;
      assert bullets[i] in bullets;
    }
  }

  // Daily activities

  lemma AdlRowNotAids(adl: Answers, item: string)
    requires item in AdlItems
    ensures forall b :: b in AdlRow(adl)(item) ==> !FieldLine(b, 'M')
  {
    FieldChars(Title(item), Shown(adl, item, ""));
    assert Title(item)[0] != 'M';
  }

  lemma AdlRowsNotAids(adl: Answers)
    ensures forall b :: b in ConcatMap(AdlItems, AdlRow(adl)) ==> !FieldLine(b, 'M')
  {
    forall x | x in AdlItems
      ensures forall b :: b in AdlRow(adl)(x) ==> !FieldLine(b, 'M')
    {
      AdlRowNotAids(adl, x);
    }
    RowsAll(AdlItems, AdlRow(adl), (b: Block) => !FieldLine(b, 'M'));
  }

  /** The mobility-aids line, the aids joined with ", ", is in the basic
      activities section exactly when the patient answered "Yes" to using
      mobility aids. */
  lemma MobilityAidsLine(adl: Answers)
    ensures Line(Field("Mobility aids", Join(AidList(adl), ", "))) in AdlSection(adl)
            <==> Get(adl, "uses_mobility_aids") == Some(Str("Yes"))
  {
    var line := Line(Field("Mobility aids", Join(AidList(adl), ", ")));
    var rows := ConcatMap(AdlItems, AdlRow(adl));
    AdlRowsNotAids(adl);
    FieldChars("Mobility aids", Join(AidList(adl), ", "));
    assert line !in rows;
    assert AdlSection(adl) == [Heading("BASIC ACTIVITIES OF DAILY LIVING (ADL)")] + rows + MobilityAids(adl) + [Spacer(15)];
  }

  /** A line written under a "Yes" to `flag` is written exactly then, and
      shows the stored detail, or `default` when none is stored. */
  lemma WhenYesLine(a: Answers, flag: string, name: string, key: string, default: string)
    ensures WhenYes(a, flag, name, key, default) != [] <==> Get(a, flag) == Some(Str("Yes"))
    ensures Get(a, flag) == Some(Str("Yes")) && key !in Keys(a) ==>
      WhenYes(a, flag, name, key, default) == [Line(Field(name, default))]
    ensures forall v :: Get(a, flag) == Some(Str("Yes")) && Get(a, key) == Some(Str(v)) ==>
      WhenYes(a, flag, name, key, default) == [Line(Field(name, v))]
  {
  }

  // Medical history

  /** The loop over a condition list lists a display name exactly when a
      condition with that name was answered "Yes". */
  lemma YesNames(list: seq<(string, string)>, history: Answers)
    ensures forall i :: 0 <= i < |list| && Get(history, list[i].0) == Some(Str("Yes")) ==>
      list[i].1 in ConcatMap(list, YesCondition(history))
    ensures forall name :: name in ConcatMap(list, YesCondition(history)) ==>
      exists i :: 0 <= i < |list| && list[i].1 == name && Get(history, list[i].0) == Some(Str("Yes"))
  {
    forall i | 0 <= i < |list| && Get(history, list[i].0) == Some(Str("Yes"))
      ensures list[i].1 in ConcatMap(list, YesCondition(history))
    {
      InConcatMap(list, YesCondition(history), list[i].1);
    }
    forall name | name in ConcatMap(list, YesCondition(history))
      ensures exists i :: 0 <= i < |list| && list[i].1 == name && Get(history, list[i].0) == Some(Str("Yes"))
    {
      InConcatMap(list, YesCondition(history), name);
    }
  }

  /** Every other line of the history section is not a condition line. */
  lemma HistoryDetailsNotListed(history: Answers)
    ensures forall b ::
      b in (Surgeries(history) + Hospitalization(history) + Answered(history, "other_conditions", "Other conditions"))
      ==> LineStartsWith(b, '<')
  {
    FieldChars("Past surgeries", Shown(history, "surgeries_list", "Not specified"));
    FieldChars("Recent hospitalization", Shown(history, "hospitalization_reason", "Not specified"));
    FieldChars("Other conditions", Shown(history, "other_conditions", ""));
  }

  /** The loop over `positive_conditions` writes "- " and each name, and
      nothing else. */
  lemma ConditionRowsListed(positive: seq<string>)
    ensures forall b :: b in ConcatMap(positive, ConditionRow) ==> LineStartsWith(b, '-')
    ensures forall name :: Line("- " + name) in ConcatMap(positive, ConditionRow) <==> name in positive
  {
    RowsAll(positive, ConditionRow, (b: Block) => LineStartsWith(b, '-'));
    forall name
      ensures Line("- " + name) in ConcatMap(positive, ConditionRow) <==> name in positive
    {
      InConcatMap(positive, ConditionRow, Line("- " + name));
      if Line("- " + name) in ConcatMap(positive, ConditionRow) {
        var j :| 0 <= j < |positive| && Line("- " + name) in ConditionRow(positive[j]);
        assert name == ("- " + name)[2..] == ("- " + positive[j])[2..] == positive[j];
      }
    }
  }

  /** The loop over a condition list lists nothing exactly when no
      condition of the list was answered "Yes". */
  lemma NoYesNames(list: seq<(string, string)>, history: Answers)
    ensures ConcatMap(list, YesCondition(history)) == []
            <==> forall i :: 0 <= i < |list| ==> Get(history, list[i].0) != Some(Str("Yes"))
  {
    var names := ConcatMap(list, YesCondition(history));
    YesNames(list, history);
    if names != [] {
      assert names[0] in names;
    }
  }

  /** The body lines of the history section that are not field lines are
      the condition lines. */
  lemma HistoryParts(history: Answers)
    ensures forall b :: b in ConditionLines(history) ==> b in HistorySection(history)
    ensures forall b :: b in HistorySection(history) && b.Line? && !LineStartsWith(b, '<') ==> b in ConditionLines(history)
  {
    HistoryDetailsNotListed(history);
    assert HistorySection(history) == [Heading("MEDICAL HISTORY")] + ConditionLines(history)
      + (Surgeries(history) + Hospitalization(history) + Answered(history, "other_conditions", "Other conditions"));
  }

  /** The fixed line stands in for the list exactly when no condition is listed. */
  lemma ConditionLinesNone(history: Answers)
    ensures Line("No significant medical conditions reported") in ConditionLines(history)
            <==> PositiveConditions(history) == []
  {
    var positive := PositiveConditions(history);
    if positive != [] {
      ConditionRowsListed(positive);
      assert "No significant medical conditions reported"[0] == 'N';
      assert ConditionLines(history) == ConcatMap(positive, ConditionRow);
    }
  }

  lemma ConditionLinesListed(history: Answers, name: string)
    ensures Line("- " + name) in ConditionLines(history) <==> name in PositiveConditions(history)
  {
    var positive := PositiveConditions(history);
    ConditionRowsListed(positive);
    if positive == [] {
      assert ("- " + name)[0] == '-';
    }
  }

  /** "No significant medical conditions reported" is in the history section
      exactly when none of the listed conditions was answered "Yes". */
  lemma NoConditionsLine(history: Answers)
    ensures Line("No significant medical conditions reported") in HistorySection(history)
            <==> forall i :: 0 <= i < |Conditions| ==> Get(history, Conditions[i].0) != Some(Str("Yes"))
  {
    NoYesNames(Conditions, history);
    ConditionLinesNone(history);
    HistoryParts(history);
    assert "No significant medical conditions reported"[0] == 'N';
  }

  /** A condition is listed, as "- " and its display name, exactly when it
      was answered "Yes". */
  lemma ConditionListed(history: Answers)
    ensures forall i :: 0 <= i < |Conditions| && Get(history, Conditions[i].0) == Some(Str("Yes")) ==>
      Line("- " + Conditions[i].1) in HistorySection(history)
    ensures forall name :: Line("- " + name) in HistorySection(history) ==>
      exists i :: 0 <= i < |Conditions| && Conditions[i].1 == name && Get(history, Conditions[i].0) == Some(Str("Yes"))
  {
    YesNames(Conditions, history);
    HistoryParts(history);
    forall name
      ensures Line("- " + name) in HistorySection(history) <==> name in PositiveConditions(history)
    {
      ConditionLinesListed(history, name);
    }
  }

  // Fixed key lists

  lemma FieldCharAt(n: string, v: string, j: int)
    requires 0 <= j <= |n|
    ensures Field(n, v)[3 + j] == if j == |n| then ':' else n[j]
  {
  }

  /** A field line names its field: the name ends at the first colon. */
  lemma FieldNameInjective(n1: string, v1: string, n2: string, v2: string)
    requires ':' !in n1 && ':' !in n2
    requires Field(n1, v1) == Field(n2, v2)
    ensures n1 == n2
  {
    var m := if |n1| < |n2| then |n1| else |n2|;
    FieldCharAt(n1, v1, m);
    FieldCharAt(n2, v2, m);
    if |n1| != |n2| {
      assert false;
    }
    assert n1 == Field(n1, v1)[3..3 + |n1|] == n2;
  }

  /** A loop that writes the answered line of each item of a fixed list
      whose display names are distinct and colon-free writes the line of
      the `j`th item exactly when the answer to it is truthy. */
  lemma AnsweredLoopLine<T>(xs: seq<T>, a: Answers, f: T -> seq<Block>, key: T -> string, name: T -> string, j: int)
    requires 0 <= j < |xs|
    requires forall i :: 0 <= i < |xs| ==> f(xs[i]) == Answered(a, key(xs[i]), name(xs[i]))
    requires forall i :: 0 <= i < |xs| ==> ':' !in name(xs[i])
    requires forall i, k :: 0 <= i < k < |xs| ==> name(xs[i]) != name(xs[k])
    ensures Line(Field(name(xs[j]), Shown(a, key(xs[j]), ""))) in ConcatMap(xs, f) <==> Truthy(Get(a, key(xs[j])))
  {
    var x := xs[j];
    var line := Line(Field(name(x), Shown(a, key(x), "")));
    InConcatMap(xs, f, line);
    if line in ConcatMap(xs, f) {
      var i :| 0 <= i < |xs| && line in f(xs[i]);
      var y := xs[i];
      assert line == Line(Field(name(y), Shown(a, key(y), "")));
      FieldNameInjective(name(x), Shown(a, key(x), ""), name(y), Shown(a, key(y), ""));
      assert i == j;
    }
  }

  /** Each cognitive item's line is written exactly when its answer is truthy. */
  lemma CognitiveItemLine(cognitive: Answers, j: int)
    requires 0 <= j < |CognitiveItems|
    ensures var (key, name) := CognitiveItems[j];
      Line(Field(name, Shown(cognitive, key, ""))) in ConcatMap(CognitiveItems, CognitiveRow(cognitive))
      <==> Truthy(Get(cognitive, key))
  {
    assert forall i :: 0 <= i < |CognitiveItems| ==> ':' !in CognitiveItems[i].1;
    assert forall i, k :: 0 <= i < k < |CognitiveItems| ==> CognitiveItems[i].1 != CognitiveItems[k].1;
    AnsweredLoopLine(CognitiveItems, cognitive, CognitiveRow(cognitive),
      (e: (string, string)) => e.0, (e: (string, string)) => e.1, j);
  }

  /** Each basic activity's line is written exactly when its answer is truthy. */
  lemma AdlItemLine(adl: Answers, j: int)
    requires 0 <= j < |AdlItems|
    ensures Line(Field(Title(AdlItems[j]), Shown(adl, AdlItems[j], ""))) in ConcatMap(AdlItems, AdlRow(adl))
            <==> Truthy(Get(adl, AdlItems[j]))
  {
    assert forall i :: 0 <= i < |AdlItems| ==> forall k :: 0 <= k < |AdlItems[i]| ==> IsLower(AdlItems[i][k]);
    forall i | 0 <= i < |AdlItems|
      ensures SnakeKey(AdlItems[i]) && Title(AdlItems[i]) == Label(AdlItems[i]) && ':' !in Title(AdlItems[i])
    {
      TitleOfWord(AdlItems[i]);
      TitleCasing(AdlItems[i]);
      assert !IsCased(':');
    }
    forall i, k | 0 <= i < k < |AdlItems|
      ensures Title(AdlItems[i]) != Title(AdlItems[k])
    {
      LabelInjective(AdlItems[i], AdlItems[k]);
    }
    AnsweredLoopLine(AdlItems, adl, AdlRow(adl), (e: string) => e, Title, j);
  }

  /** Each instrumental activity's line is written exactly when its answer
      is truthy. */
  lemma IadlItemLine(iadl: Answers, j: int)
    requires 0 <= j < |IadlItems|
    ensures Line(Field(Label(IadlItems[j]), Shown(iadl, IadlItems[j], ""))) in ConcatMap(IadlItems, IadlRow(iadl))
            <==> Truthy(Get(iadl, IadlItems[j]))
  {
    assert forall i :: 0 <= i < |IadlItems| ==> SnakeKey(IadlItems[i]);
    forall i | 0 <= i < |IadlItems|
      ensures ':' !in Label(IadlItems[i])
    {
      LabelInjective(IadlItems[i], IadlItems[i]);
    }
    forall i, k | 0 <= i < k < |IadlItems|
      ensures Label(IadlItems[i]) != Label(IadlItems[k])
    {
      LabelInjective(IadlItems[i], IadlItems[k]);
    }
    AnsweredLoopLine(IadlItems, iadl, IadlRow(iadl), (e: string) => e, Label, j);
  }

  // Lookups, not store order

  lemma ShownSameLookups(a: Answers, b: Answers, key: string, default: string)
    requires SameLookups(a, b)
    ensures Shown(a, key, default) == Shown(b, key, default)
  {
    assert Get(a, key) == Get(b, key);
  }

  lemma AnsweredSameLookups(a: Answers, b: Answers, key: string, name: string)
    requires SameLookups(a, b)
    ensures Answered(a, key, name) == Answered(b, key, name)
  {
    assert Get(a, key) == Get(b, key);
  }

  lemma WhenYesSameLookups(a: Answers, b: Answers, flag: string, name: string, key: string, default: string)
    requires SameLookups(a, b)
    ensures WhenYes(a, flag, name, key, default) == WhenYes(b, flag, name, key, default)
  {
    assert Get(a, flag) == Get(b, flag);
    assert Get(a, key) == Get(b, key);
  }

  lemma DemographicsSectionSameLookups(a: Answers, b: Answers)
    requires SameLookups(a, b)
    ensures DemographicsSection(a) == DemographicsSection(b)
  {
    ShownSameLookups(a, b, "first_name", "");
    ShownSameLookups(a, b, "last_name", "");
    ShownSameLookups(a, b, "date_of_birth", "");
    ShownSameLookups(a, b, "sex", "");
    ShownSameLookups(a, b, "phone", "");
    ShownSameLookups(a, b, "health_card", "");
    ShownSameLookups(a, b, "emergency_name", "");
    ShownSameLookups(a, b, "emergency_relation", "");
    ShownSameLookups(a, b, "emergency_phone", "");
    ShownSameLookups(a, b, "preferred_language", "");
  }

  lemma SymptomSectionSameLookups(a: Answers, b: Answers)
    requires SameLookups(a, b)
    ensures SymptomSection(a) == SymptomSection(b)
  {
    assert PainDetails(a) == PainDetails(b) by {
      assert Get(a, "pain_location") == Get(b, "pain_location");
      assert Get(a, "pain_level") == Get(b, "pain_level");
    }
    forall x | x in SymptomNames
      ensures SymptomRow(a)(x) == SymptomRow(b)(x)
    {
      assert Get(a, x.0) == Get(b, x.0);
      assert Get(a, "pain") == Get(b, "pain");
    }
    ConcatMapCongruent(SymptomNames, SymptomRow(a), SymptomRow(b));
    AnsweredSameLookups(a, b, "other_symptoms", "Other symptoms");
  }

  lemma CognitiveSectionSameLookups(a: Answers, b: Answers)
    requires SameLookups(a, b)
    ensures CognitiveSection(a) == CognitiveSection(b)
  {
    forall x | x in CognitiveItems
      ensures CognitiveRow(a)(x) == CognitiveRow(b)(x)
    {
      AnsweredSameLookups(a, b, x.0, x.1);
    }
    ConcatMapCongruent(CognitiveItems, CognitiveRow(a), CognitiveRow(b));
    AnsweredSameLookups(a, b, "other_concerns", "Other concerns");
  }

  lemma MedicationSectionSameLookups(a: Answers, b: Answers)
    requires SameLookups(a, b)
    ensures MedicationSection(a) == MedicationSection(b)
  {
    assert Get(a, "taking_medications") == Get(b, "taking_medications");
    assert MedList(a) == MedList(b) by {
      assert Get(a, "medications_list") == Get(b, "medications_list");
    }
    AnsweredSameLookups(a, b, "needs_help", "Needs help with medications");
    AnsweredSameLookups(a, b, "miss_doses", "Misses doses");
    WhenYesSameLookups(a, b, "has_allergies", "Drug allergies", "allergies_list", "Not specified");
  }

  lemma AdlRowsSameLookups(a: Answers, b: Answers)
    requires SameLookups(a, b)
    ensures ConcatMap(AdlItems, AdlRow(a)) == ConcatMap(AdlItems, AdlRow(b))
  {
    forall x | x in AdlItems
      ensures AdlRow(a)(x) == AdlRow(b)(x)
    {
      AnsweredSameLookups(a, b, x, Title(x));
    }
    ConcatMapCongruent(AdlItems, AdlRow(a), AdlRow(b));
  }

  lemma AdlSectionSameLookups(a: Answers, b: Answers)
    requires SameLookups(a, b)
    ensures AdlSection(a) == AdlSection(b)
  {
    AdlRowsSameLookups(a, b);
    MobilityAidsSameLookups(a, b);
  }

  lemma MobilityAidsSameLookups(a: Answers, b: Answers)
    requires SameLookups(a, b)
    ensures MobilityAids(a) == MobilityAids(b)
  {
    assert Get(a, "uses_mobility_aids") == Get(b, "uses_mobility_aids");
    assert Get(a, "mobility_aids_list") == Get(b, "mobility_aids_list");
  }

  lemma IadlSectionSameLookups(a: Answers, b: Answers)
    requires SameLookups(a, b)
    ensures IadlSection(a) == IadlSection(b)
  {
    forall x | x in IadlItems
      ensures IadlRow(a)(x) == IadlRow(b)(x)
    {
      AnsweredSameLookups(a, b, x, Label(x));
    }
    ConcatMapCongruent(IadlItems, IadlRow(a), IadlRow(b));
    AnsweredSameLookups(a, b, "living_situation", "Living situation");
    WhenYesSameLookups(a, b, "has_caregiver", "Caregiver", "caregiver_relation", "Yes");
  }

  lemma HistorySectionSameLookups(a: Answers, b: Answers)
    requires SameLookups(a, b)
    ensures HistorySection(a) == HistorySection(b)
  {
    forall x | x in Conditions
      ensures YesCondition(a)(x) == YesCondition(b)(x)
    {
      assert Get(a, x.0) == Get(b, x.0);
    }
    ConcatMapCongruent(Conditions, YesCondition(a), YesCondition(b));
    WhenYesSameLookups(a, b, "had_surgeries", "Past surgeries", "surgeries_list", "Not specified");
    WhenYesSameLookups(a, b, "hospitalized_past_year", "Recent hospitalization", "hospitalization_reason", "Not specified");
    AnsweredSameLookups(a, b, "other_conditions", "Other conditions");
  }

  /** Every section depends on its answers only through `get`. */
  lemma SectionSameLookups(s: Section, a: Answers, b: Answers)
    requires SameLookups(a, b)
    ensures SectionOf(s)(a) == SectionOf(s)(b)
  {
    SectionOfEach();
    match s
    case Demographics => DemographicsSectionSameLookups(a, b);
    case Symptoms => SymptomSectionSameLookups(a, b);
    case Cognitive => CognitiveSectionSameLookups(a, b);
    case Medications => MedicationSectionSameLookups(a, b);
    case Adl => AdlSectionSameLookups(a, b);
    case Iadl => IadlSectionSameLookups(a, b);
    case MedicalHistory => HistorySectionSameLookups(a, b);
  }

  /** The report walks fixed key lists: two forms whose sections answer
      every `get` alike, in whatever order their keys were stored, give the
      same report. */
  lemma ReportSameLookups(f: FormData, g: FormData, stamp: string, completedAt: string)
    requires forall s :: SameLookups(f.Get(s), g.Get(s))
    ensures Report(f, stamp, completedAt) == Report(g, stamp, completedAt)
  {
    forall s | s in SectionOrder
      ensures Headed(f)(s) == Headed(g)(s)
    {
      SectionSameLookups(s, f.Get(s), g.Get(s));
    }
    ConcatMapCongruent(SectionOrder, Headed(f), Headed(g));
  }

  // The whole report

  /** Two reports of the same answers have the same length and differ at
      most in the generation date (the third block) and the completion time
      (the second-to-last block). */
  lemma OnlyTimestampsDiffer(f: FormData, stamp1: string, completed1: string, stamp2: string, completed2: string)
    ensures |Report(f, stamp1, completed1)| == |Report(f, stamp2, completed2)|
    ensures forall i :: 0 <= i < |Report(f, stamp1, completed1)| && i != 2 && i != |Report(f, stamp1, completed1)| - 2 ==>
      Report(f, stamp1, completed1)[i] == Report(f, stamp2, completed2)[i]
    ensures Report(f, stamp1, completed1)[2] == Plain("Date: " + stamp1)
    ensures Report(f, stamp1, completed1)[|Report(f, stamp1, completed1)| - 2] == Plain("Form completed: " + completed1)
  {
    var sections := ConcatMap(SectionOrder, Headed(f));
    var r1 := Report(f, stamp1, completed1);
    var r2 := Report(f, stamp2, completed2);
    var n := |sections|;
    forall i | 0 <= i < |r1| && i != 2 && i != |r1| - 2
      ensures r1[i] == r2[i]
    {
      if i < 4 {
        assert r1[i] == TitleBlocks(stamp1)[i];
        assert r2[i] == TitleBlocks(stamp2)[i];
      } else if i < 4 + n {
        assert r1[i] == sections[i - 4] == r2[i];
      } else {
        assert r1[i] == FooterBlocks(completed1)[i - 4 - n];
        assert r2[i] == FooterBlocks(completed2)[i - 4 - n];
      }
    }
  }
}
