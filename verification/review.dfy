/** The "Review Your Answers" page: one expander per section, each showing
    markdown lines computed from that section's answer dict. Every summary
    except the personal one is a comprehension over the dict's items, so it
    lists keys in the order they were first stored. */
module Review {
  import opened Text
  import opened Store
  import opened Sequences

  /** One expander: its title and the markdown lines written inside it. */
  datatype Panel = Panel(title: string, lines: seq<string>)

  /** How one listed key is written: `- Label`, or `- Label: value` on the
      two daily-activities panels. */
  function Bullet(a: Answers, key: string, withValue: bool): string
  {
    if withValue then "- " + Label(key) + ": " + Shown(a, key, "") else "- " + Label(key)
  }

  /** The `for` loop over the listed keys, skipping those on its own
      exclusion list. */
  function Bullets(a: Answers, keys: seq<string>, hidden: string -> bool, withValue: bool): (r: seq<string>)
    ensures |r| <= |keys|
  {
    if keys == [] then []
    else (if hidden(keys[0]) then [] else [Bullet(a, keys[0], withValue)]) + Bullets(a, keys[1..], hidden, withValue)
  }

  /** A summary: the keys `[k for k, v in d.items() if keep(k, v)]`; when
      there are any, the header and then their bullets, otherwise the `else`
      lines. */
  function Summary(a: Answers, keep: (string, Value) -> bool, hidden: string -> bool,
                   header: string, withValue: bool, otherwise: seq<string>): (r: seq<string>)
    ensures SelectKeys(a, keep) == [] ==> r == otherwise
    ensures SelectKeys(a, keep) != [] ==>
      1 <= |r| <= 1 + |SelectKeys(a, keep)| && r[0] == header
  {
    var listed := SelectKeys(a, keep);
    if listed != [] then [header] + Bullets(a, listed, hidden, withValue) else otherwise
  }

  /** Key `k` is in the dict and its answer passes the comprehension's filter. */
  predicate Qualifies(a: Answers, keep: (string, Value) -> bool, k: string)
  {
    Get(a, k).Some? && keep(k, Get(a, k).value)
  }

  /** Every key that the loop does not skip has its bullet, and every bullet
      belongs to such a key. */
  lemma {:induction false} BulletsContents(a: Answers, keys: seq<string>, hidden: string -> bool, withValue: bool)
    ensures forall k :: k in keys && !hidden(k) ==> Bullet(a, k, withValue) in Bullets(a, keys, hidden, withValue)
    ensures forall line :: line in Bullets(a, keys, hidden, withValue) ==>
      exists k :: k in keys && !hidden(k) && line == Bullet(a, k, withValue)
    decreases |keys|
  {
    if keys != [] {
      BulletsContents(a, keys[1..], hidden, withValue);
      assert forall k :: k in keys ==> k == keys[0] || k in keys[1..];
    }
  }

  /** The comprehension is empty exactly when no stored answer passes its filter. */
  lemma SummaryFallback(a: Answers, keep: (string, Value) -> bool)
    requires UniqueKeys(a)
    ensures SelectKeys(a, keep) == [] <==> forall k :: !Qualifies(a, keep, k)
  {
    if SelectKeys(a, keep) != [] {
      var k := SelectKeys(a, keep)[0];
      assert k in SelectKeys(a, keep);
      SelectKeysByGet(a, keep, k);
      assert Qualifies(a, keep, k);
    } else {
      forall k ensures !Qualifies(a, keep, k) {
        SelectKeysByGet(a, keep, k);
      }
    }
  }

  /** A stored answer that passes the filter, under a key the loop does not
      skip, brings the header and its own bullet. */
  lemma SummaryShows(a: Answers, keep: (string, Value) -> bool, hidden: string -> bool,
                     header: string, withValue: bool, otherwise: seq<string>, k: string)
    requires UniqueKeys(a) && Qualifies(a, keep, k) && !hidden(k)
    ensures |Summary(a, keep, hidden, header, withValue, otherwise)| > 1
    ensures Summary(a, keep, hidden, header, withValue, otherwise)[0] == header
    ensures Bullet(a, k, withValue) in Summary(a, keep, hidden, header, withValue, otherwise)[1..]
  {
    SelectKeysByGet(a, keep, k);
    BulletsContents(a, SelectKeys(a, keep), hidden, withValue);
  }

  /** Every line after the header is the bullet of a stored answer that
      passes the filter, under a key the loop does not skip. */
  lemma SummarySource(a: Answers, keep: (string, Value) -> bool, hidden: string -> bool,
                      header: string, withValue: bool, otherwise: seq<string>, i: int) returns (k: string)
    requires UniqueKeys(a) && SelectKeys(a, keep) != []
    requires 1 <= i < |Summary(a, keep, hidden, header, withValue, otherwise)|
    ensures Qualifies(a, keep, k) && !hidden(k)
    ensures Summary(a, keep, hidden, header, withValue, otherwise)[i] == Bullet(a, k, withValue)
  {
    var listed := SelectKeys(a, keep);
    BulletsContents(a, listed, hidden, withValue);
    assert Summary(a, keep, hidden, header, withValue, otherwise)[i] in Bullets(a, listed, hidden, withValue);
    k :| k in listed && !hidden(k) && Summary(a, keep, hidden, header, withValue, otherwise)[i] == Bullet(a, k, withValue);
    SelectKeysByGet(a, keep, k);
  }

  /** Where the bullet of a key the loop does not skip is. */
  lemma {:induction false} BulletAt(a: Answers, keys: seq<string>, hidden: string -> bool, withValue: bool, x: int)
    returns (p: int)
    requires 0 <= x < |keys| && !hidden(keys[x])
    ensures 0 <= p < |Bullets(a, keys, hidden, withValue)|
    ensures Bullets(a, keys, hidden, withValue)[p] == Bullet(a, keys[x], withValue)
    decreases |keys|
  {
    var head := if hidden(keys[0]) then [] else [Bullet(a, keys[0], withValue)];
    assert Bullets(a, keys, hidden, withValue) == head + Bullets(a, keys[1..], hidden, withValue);
    if x == 0 {
      p := 0;
    } else {
      assert keys[x] == keys[1..][x - 1];
      var p' := BulletAt(a, keys[1..], hidden, withValue, x - 1);
      p := p' + |head|;
    }
  }

  /** The loop keeps the order of the keys it is given. */
  lemma {:induction false} BulletsInOrder(a: Answers, keys: seq<string>, hidden: string -> bool, withValue: bool,
                                          x: int, y: int) returns (p: int, q: int)
    requires 0 <= x < y < |keys| && !hidden(keys[x]) && !hidden(keys[y])
    ensures 0 <= p < q < |Bullets(a, keys, hidden, withValue)|
    ensures Bullets(a, keys, hidden, withValue)[p] == Bullet(a, keys[x], withValue)
    ensures Bullets(a, keys, hidden, withValue)[q] == Bullet(a, keys[y], withValue)
    decreases |keys|
  {
    var rest := Bullets(a, keys[1..], hidden, withValue);
    var head := if hidden(keys[0]) then [] else [Bullet(a, keys[0], withValue)];
    assert Bullets(a, keys, hidden, withValue) == head + rest;
    assert keys[y] == keys[1..][y - 1];
    if x == 0 {
      var z := BulletAt(a, keys[1..], hidden, withValue, y - 1);
      p, q := 0, z + 1;
    } else {
      assert keys[x] == keys[1..][x - 1];
      var p', q' := BulletsInOrder(a, keys[1..], hidden, withValue, x - 1, y - 1);
      p, q := p' + |head|, q' + |head|;
    }
  }

  /** A summary lists its keys in store order: of two stored answers that
      pass the filter under keys the loop does not skip, the one stored
      first has the earlier bullet. */
  lemma SummaryInStoreOrder(a: Answers, keep: (string, Value) -> bool, hidden: string -> bool,
                            header: string, withValue: bool, otherwise: seq<string>, i: int, j: int)
    returns (p: int, q: int)
    requires 0 <= i < j < |a| && keep(a[i].0, a[i].1) && keep(a[j].0, a[j].1)
    requires !hidden(a[i].0) && !hidden(a[j].0)
    ensures 1 <= p < q < |Summary(a, keep, hidden, header, withValue, otherwise)|
    ensures Summary(a, keep, hidden, header, withValue, otherwise)[p] == Bullet(a, a[i].0, withValue)
    ensures Summary(a, keep, hidden, header, withValue, otherwise)[q] == Bullet(a, a[j].0, withValue)
  {
    var listed := SelectKeys(a, keep);
    var x, y := SelectKeysInOrder(a, keep, i, j);
    var p', q' := BulletsInOrder(a, listed, hidden, withValue, x, y);
    p, q := p' + 1, q' + 1;
  }

  // ---- Personal information ----

  /** The personal summary, shown only when the dict is not empty. */
  function DemographicsLines(demo: Answers): (r: seq<string>)
    ensures r == [] <==> demo == []
    ensures demo != [] ==> |r| == 6 && StartsWith(r[0], "**Name:** ")
  {
    if demo == [] then []
    else [
      "**Name:** " + Shown(demo, "first_name", "") + " " + Shown(demo, "last_name", ""),
      "**Date of Birth:** " + Shown(demo, "date_of_birth", "Not provided"),
      "**Sex:** " + Shown(demo, "sex", "Not provided"),
      "**Phone:** " + Shown(demo, "phone", "Not provided"),
      "**Health Card:** " + Shown(demo, "health_card", "Not provided"),
      "**Emergency Contact:** " + Shown(demo, "emergency_name", "Not provided")
        + " (" + Shown(demo, "emergency_relation", "") + ")"]
  }

  /** The summary of a dict saved by the personal-information page shows
      the values entered, the date of birth in ISO form. */
  lemma DemographicsOfEntry(p: PersonalInfo)
    ensures DemographicsLines(PersonalAnswers(p)) == [
      "**Name:** " + p.firstName + " " + p.lastName,
      "**Date of Birth:** " + Show(p.dateOfBirth),
      "**Sex:** " + p.sex,
      "**Phone:** " + p.phone,
      "**Health Card:** " + p.healthCard,
      "**Emergency Contact:** " + p.emergencyName + " (" + p.emergencyRelation + ")"]
  {
    PersonalAnswersFields(p);
  }

  // ---- Current symptoms ----

  /** Keys holding a symptom's follow-up answers rather than the symptom. */
  predicate FollowUpField(k: string)
  {
    EndsWith(k, "_location") || EndsWith(k, "_level") || EndsWith(k, "_count") || k == "other_symptoms"
  }

  predicate ReportedSymptom(k: string, v: Value)
  {
    v == Str("Yes") && !FollowUpField(k)
  }

  predicate NeverHidden(k: string)
  {
    false
  }

  function SymptomLines(symptoms: Answers): (r: seq<string>)
    ensures r != []
    ensures r == ["No significant symptoms reported"] || r[0] == "**Reported symptoms:**"
  {
    Summary(symptoms, ReportedSymptom, NeverHidden, "**Reported symptoms:**", false,
            ["No significant symptoms reported"])
  }

  /** The fixed line is the whole summary exactly when no symptom is
      answered "Yes". */
  lemma NoSymptomsLine(symptoms: Answers)
    requires UniqueKeys(symptoms)
    ensures SymptomLines(symptoms) == ["No significant symptoms reported"] <==>
      forall k :: Get(symptoms, k) == Some(Str("Yes")) ==> FollowUpField(k)
  {
    SummaryFallback(symptoms, ReportedSymptom);
    forall k ensures Qualifies(symptoms, ReportedSymptom, k) <==>
      Get(symptoms, k) == Some(Str("Yes")) && !FollowUpField(k) {
    }
  }

  /** Every symptom answered "Yes" is listed under its label. */
  lemma SymptomListed(symptoms: Answers, k: string)
    requires UniqueKeys(symptoms)
    requires Get(symptoms, k) == Some(Str("Yes")) && !FollowUpField(k)
    ensures "- " + Label(k) in SymptomLines(symptoms)
    ensures SymptomLines(symptoms)[0] == "**Reported symptoms:**"
  {
    SummaryShows(symptoms, ReportedSymptom, NeverHidden, "**Reported symptoms:**", false,
                 ["No significant symptoms reported"], k);
  }

  /** Every bullet is the label of a symptom answered "Yes". */
  lemma SymptomLineSource(symptoms: Answers, i: int) returns (k: string)
    requires UniqueKeys(symptoms)
    requires 1 <= i < |SymptomLines(symptoms)|
    ensures Get(symptoms, k) == Some(Str("Yes")) && !FollowUpField(k)
    ensures SymptomLines(symptoms)[i] == "- " + Label(k)
  {
    k := SummarySource(symptoms, ReportedSymptom, NeverHidden, "**Reported symptoms:**", false,
                       ["No significant symptoms reported"], i);
  }

  /** Of two symptoms answered "Yes", the one stored first is listed first;
      overwriting an answer keeps its place in the store, so its bullet does
      not move. */
  lemma SymptomsInStoreOrder(symptoms: Answers, i: int, j: int) returns (p: int, q: int)
    requires 0 <= i < j < |symptoms|
    requires ReportedSymptom(symptoms[i].0, symptoms[i].1) && ReportedSymptom(symptoms[j].0, symptoms[j].1)
    ensures 1 <= p < q < |SymptomLines(symptoms)|
    ensures SymptomLines(symptoms)[p] == "- " + Label(symptoms[i].0)
    ensures SymptomLines(symptoms)[q] == "- " + Label(symptoms[j].0)
  {
    p, q := SummaryInStoreOrder(symptoms, ReportedSymptom, NeverHidden, "**Reported symptoms:**", false,
                                ["No significant symptoms reported"], i, j);
  }

  // ---- Memory and thinking ----

  predicate Concern(k: string, v: Value)
  {
    v == Str("Yes") || v == Str("Sometimes")
  }

  /** The orientation answers and the free-text field, skipped by the loop. */
  predicate CognitiveHidden(k: string)
  {
    k in ["today_date", "day_of_week", "season", "current_year", "hospital_name", "city", "other_concerns"]
  }

  function CognitiveLines(cognitive: Answers): (r: seq<string>)
    ensures r == [] || r[0] == "**Areas of concern:**"
  {
    Summary(cognitive, Concern, CognitiveHidden, "**Areas of concern:**", false, [])
  }

  /** The panel is empty exactly when no answer is "Yes" or "Sometimes";
      the header appears for any such answer, even one the loop skips. */
  lemma NoCognitiveSummary(cognitive: Answers)
    requires UniqueKeys(cognitive)
    ensures CognitiveLines(cognitive) == [] <==>
      forall k :: Get(cognitive, k) != Some(Str("Yes")) && Get(cognitive, k) != Some(Str("Sometimes"))
    ensures CognitiveLines(cognitive) != [] ==> CognitiveLines(cognitive)[0] == "**Areas of concern:**"
  {
    SummaryFallback(cognitive, Concern);
    if SelectKeys(cognitive, Concern) == [] {
      forall k ensures Get(cognitive, k) != Some(Str("Yes")) && Get(cognitive, k) != Some(Str("Sometimes")) {
        assert !Qualifies(cognitive, Concern, k);
      }
    } else {
      var k :| Qualifies(cognitive, Concern, k);
      assert Get(cognitive, k) == Some(Str("Yes")) || Get(cognitive, k) == Some(Str("Sometimes"));
    }
  }

  /** Every concern outside the skip list is listed under its label. */
  lemma ConcernListed(cognitive: Answers, k: string)
    requires UniqueKeys(cognitive)
    requires Get(cognitive, k) == Some(Str("Yes")) || Get(cognitive, k) == Some(Str("Sometimes"))
    requires !CognitiveHidden(k)
    ensures "- " + Label(k) in CognitiveLines(cognitive)
    ensures CognitiveLines(cognitive)[0] == "**Areas of concern:**"
  {
    SummaryShows(cognitive, Concern, CognitiveHidden, "**Areas of concern:**", false, [], k);
  }

  /** Every bullet is the label of a concern outside the skip list. */
  lemma ConcernLineSource(cognitive: Answers, i: int) returns (k: string)
    requires UniqueKeys(cognitive)
    requires 1 <= i < |CognitiveLines(cognitive)|
    ensures Get(cognitive, k) == Some(Str("Yes")) || Get(cognitive, k) == Some(Str("Sometimes"))
    ensures !CognitiveHidden(k)
    ensures CognitiveLines(cognitive)[i] == "- " + Label(k)
  {
    k := SummarySource(cognitive, Concern, CognitiveHidden, "**Areas of concern:**", false, [], i);
  }

  /** An orientation answer of "Yes" alone gives the header without bullets. */
  lemma CognitiveHeaderAlone()
    ensures CognitiveLines([("season", Str("Yes"))]) == ["**Areas of concern:**"]
  {
    var stored: Answers := [("season", Str("Yes"))];
    assert SelectKeys(stored, Concern) == ["season"] by {
      assert stored[1..] == [];
    }
    assert CognitiveHidden("season");
    assert Bullets(stored, ["season"], CognitiveHidden, false) == [] by {
      assert ["season"][1..] == [];
    }
  }

  // ---- Medications ----

  /** `f"- {name} {dose} ({frequency})"`. */
  function MedLine(e: MedEntry): string
  {
    "- " + e.name + " " + e.dose + " (" + e.frequency + ")"
  }

  /** An entry is listed only when its name is not empty. */
  function MedBullet(e: MedEntry): seq<string>
  {
    if e.name != "" then [MedLine(e)] else []
  }

  function MedBullets(entries: seq<MedEntry>): seq<string>
  {
    ConcatMap(entries, MedBullet)
  }

  /** The medication summary; `if med_list:` adds nothing, since an empty
      list has no bullets anyway. */
  function MedicationLines(meds: Answers): (r: seq<string>)
    ensures Get(meds, "taking_medications") != Some(Str("Yes")) ==> r == ["No medications reported"]
    ensures Get(meds, "taking_medications") == Some(Str("Yes")) ==>
      forall i :: 0 <= i < |r| ==> StartsWith(r[i], "- ")
  {
    MedBulletsStartWithDash(MedList(meds));
    if Get(meds, "taking_medications") == Some(Str("Yes")) then MedBullets(MedList(meds))
    else ["No medications reported"]
  }

  lemma MedBulletsStartWithDash(entries: seq<MedEntry>)
    ensures forall i :: 0 <= i < |MedBullets(entries)| ==> StartsWith(MedBullets(entries)[i], "- ")
  {
    MedBulletsContents(entries);
    forall i | 0 <= i < |MedBullets(entries)|
      ensures StartsWith(MedBullets(entries)[i], "- ")
    {
      assert MedBullets(entries)[i] in MedBullets(entries);
    }
  }

  /** The bullets are exactly the lines of the named entries. */
  lemma MedBulletsContents(entries: seq<MedEntry>)
    ensures forall e :: e in entries && e.name != "" ==> MedLine(e) in MedBullets(entries)
    ensures forall line :: line in MedBullets(entries) ==>
      exists e :: e in entries && e.name != "" && line == MedLine(e)
  {
    forall e | e in entries && e.name != "" ensures MedLine(e) in MedBullets(entries) {
      var i :| 0 <= i < |entries| && entries[i] == e;
      InConcatMap(entries, MedBullet, MedLine(e));
    }
    forall line | line in MedBullets(entries)
      ensures exists e :: e in entries && e.name != "" && line == MedLine(e)
    {
      InConcatMap(entries, MedBullet, line);
      var i :| 0 <= i < |entries| && line in MedBullet(entries[i]);
      assert entries[i] in entries;
    }
  }

  /** The bullets keep the order of the list. */
  lemma MedBulletsInListOrder(first: seq<MedEntry>, second: seq<MedEntry>)
    ensures MedBullets(first + second) == MedBullets(first) + MedBullets(second)
  {
    ConcatMapAppend(first, second, MedBullet);
  }

  /** "No medications reported" is the whole summary exactly when the
      patient did not answer "Yes" to taking medications (unanswered
      included); otherwise the summary has a bullet for each named entry
      and nothing else. */
  lemma MedicationSummary(meds: Answers)
    ensures MedicationLines(meds) == ["No medications reported"] <==>
      Get(meds, "taking_medications") != Some(Str("Yes"))
    ensures Get(meds, "taking_medications") == Some(Str("Yes")) ==>
      forall line :: line in MedicationLines(meds) ==>
        exists e :: e in MedList(meds) && e.name != "" && line == MedLine(e)
    ensures Get(meds, "taking_medications") == Some(Str("Yes")) ==>
      forall e :: e in MedList(meds) && e.name != "" ==> MedLine(e) in MedicationLines(meds)
  {
    MedBulletsContents(MedList(meds));
    if Get(meds, "taking_medications") == Some(Str("Yes")) {
      forall e | e in MedList(meds) && e.name != "" ensures MedLine(e) != "No medications reported" {
        assert MedLine(e)[0] == '-';
      }
      assert "No medications reported" !in MedicationLines(meds);
    }
  }

  // ---- Daily activities ----

  predicate NeedsHelp(k: string, v: Value)
  {
    v == Str("Needs Assistance") || v == Str("Dependent")
  }

  function AdlLines(adl: Answers): (r: seq<string>)
    ensures r != []
    ensures r == ["Independent in all basic activities"] || r[0] == "**Activities requiring assistance:**"
  {
    Summary(adl, NeedsHelp, NeverHidden, "**Activities requiring assistance:**", true,
            ["Independent in all basic activities"])
  }

  /** The independence line is the whole summary exactly when no basic
      activity needs assistance or is dependent. */
  lemma IndependentLine(adl: Answers)
    requires UniqueKeys(adl)
    ensures AdlLines(adl) == ["Independent in all basic activities"] <==>
      forall k :: Get(adl, k) != Some(Str("Needs Assistance")) && Get(adl, k) != Some(Str("Dependent"))
  {
    SummaryFallback(adl, NeedsHelp);
    if SelectKeys(adl, NeedsHelp) == [] {
      forall k ensures Get(adl, k) != Some(Str("Needs Assistance")) && Get(adl, k) != Some(Str("Dependent")) {
        assert !Qualifies(adl, NeedsHelp, k);
      }
    } else {
      var k :| Qualifies(adl, NeedsHelp, k);
      assert Get(adl, k) == Some(Str("Needs Assistance")) || Get(adl, k) == Some(Str("Dependent"));
    }
  }

  /** Every basic activity needing help is listed with its answer. */
  lemma AdlListed(adl: Answers, k: string)
    requires UniqueKeys(adl)
    requires Get(adl, k) == Some(Str("Needs Assistance")) || Get(adl, k) == Some(Str("Dependent"))
    ensures "- " + Label(k) + ": " + Get(adl, k).value.s in AdlLines(adl)
    ensures AdlLines(adl)[0] == "**Activities requiring assistance:**"
  {
    SummaryShows(adl, NeedsHelp, NeverHidden, "**Activities requiring assistance:**", true,
                 ["Independent in all basic activities"], k);
  }

  /** Every bullet is a basic activity needing help, with its answer. */
  lemma AdlLineSource(adl: Answers, i: int) returns (k: string)
    requires UniqueKeys(adl)
    requires 1 <= i < |AdlLines(adl)|
    ensures Get(adl, k) == Some(Str("Needs Assistance")) || Get(adl, k) == Some(Str("Dependent"))
    ensures AdlLines(adl)[i] == "- " + Label(k) + ": " + Get(adl, k).value.s
  {
    k := SummarySource(adl, NeedsHelp, NeverHidden, "**Activities requiring assistance:**", true,
                       ["Independent in all basic activities"], i);
  }

  predicate CannotDoAlone(k: string, v: Value)
  {
    v == Str("Needs Assistance") || v == Str("Unable")
  }

  /** The living arrangements, skipped by the loop. */
  predicate IadlHidden(k: string)
  {
    k in ["living_situation", "has_caregiver", "caregiver_relation"]
  }

  function IadlLines(iadl: Answers): (r: seq<string>)
    ensures r == [] || r[0] == "**Activities requiring assistance:**"
  {
    Summary(iadl, CannotDoAlone, IadlHidden, "**Activities requiring assistance:**", true, [])
  }

  /** The panel is empty exactly when no activity needs assistance or is
      impossible; the header appears for any such answer. */
  lemma NoIadlSummary(iadl: Answers)
    requires UniqueKeys(iadl)
    ensures IadlLines(iadl) == [] <==>
      forall k :: Get(iadl, k) != Some(Str("Needs Assistance")) && Get(iadl, k) != Some(Str("Unable"))
  {
    SummaryFallback(iadl, CannotDoAlone);
    if SelectKeys(iadl, CannotDoAlone) == [] {
      forall k ensures Get(iadl, k) != Some(Str("Needs Assistance")) && Get(iadl, k) != Some(Str("Unable")) {
        assert !Qualifies(iadl, CannotDoAlone, k);
      }
    } else {
      var k :| Qualifies(iadl, CannotDoAlone, k);
      assert Get(iadl, k) == Some(Str("Needs Assistance")) || Get(iadl, k) == Some(Str("Unable"));
    }
  }

  /** Every complex activity needing help or impossible is listed with its
      answer, unless it is one of the living arrangements. */
  lemma IadlListed(iadl: Answers, k: string)
    requires UniqueKeys(iadl)
    requires Get(iadl, k) == Some(Str("Needs Assistance")) || Get(iadl, k) == Some(Str("Unable"))
    requires !IadlHidden(k)
    ensures "- " + Label(k) + ": " + Get(iadl, k).value.s in IadlLines(iadl)
    ensures IadlLines(iadl)[0] == "**Activities requiring assistance:**"
  {
    SummaryShows(iadl, CannotDoAlone, IadlHidden, "**Activities requiring assistance:**", true, [], k);
  }

  /** Every bullet is such an activity, with its answer. */
  lemma IadlLineSource(iadl: Answers, i: int) returns (k: string)
    requires UniqueKeys(iadl)
    requires 1 <= i < |IadlLines(iadl)|
    ensures Get(iadl, k) == Some(Str("Needs Assistance")) || Get(iadl, k) == Some(Str("Unable"))
    ensures !IadlHidden(k)
    ensures IadlLines(iadl)[i] == "- " + Label(k) + ": " + Get(iadl, k).value.s
  {
    k := SummarySource(iadl, CannotDoAlone, IadlHidden, "**Activities requiring assistance:**", true, [], i);
  }

  // ---- Medical history ----

  /** Keys of the surgery, hospitalisation and free-text questions. */
  predicate HistoryDetailField(k: string)
  {
    StartsWith(k, "had_") || StartsWith(k, "hospitalized")
    || k == "surgeries_list" || k == "hospitalization_reason" || k == "other_conditions"
  }

  predicate ReportedCondition(k: string, v: Value)
  {
    v == Str("Yes") && !HistoryDetailField(k)
  }

  function HistoryLines(history: Answers): (r: seq<string>)
    ensures r == [] || r[0] == "**Reported conditions:**"
  {
    Summary(history, ReportedCondition, NeverHidden, "**Reported conditions:**", false, [])
  }

  /** The panel is empty exactly when no condition is answered "Yes". */
  lemma NoHistorySummary(history: Answers)
    requires UniqueKeys(history)
    ensures HistoryLines(history) == [] <==>
      forall k :: Get(history, k) == Some(Str("Yes")) ==> HistoryDetailField(k)
  {
    SummaryFallback(history, ReportedCondition);
    forall k ensures Qualifies(history, ReportedCondition, k) <==>
      Get(history, k) == Some(Str("Yes")) && !HistoryDetailField(k) {
    }
  }

  /** Every condition answered "Yes" is listed under its label. */
  lemma ConditionListed(history: Answers, k: string)
    requires UniqueKeys(history)
    requires Get(history, k) == Some(Str("Yes")) && !HistoryDetailField(k)
    ensures "- " + Label(k) in HistoryLines(history)
    ensures HistoryLines(history)[0] == "**Reported conditions:**"
  {
    SummaryShows(history, ReportedCondition, NeverHidden, "**Reported conditions:**", false, [], k);
  }

  /** Every bullet is the label of a condition answered "Yes". */
  lemma ConditionLineSource(history: Answers, i: int) returns (k: string)
    requires UniqueKeys(history)
    requires 1 <= i < |HistoryLines(history)|
    ensures Get(history, k) == Some(Str("Yes")) && !HistoryDetailField(k)
    ensures HistoryLines(history)[i] == "- " + Label(k)
  {
    k := SummarySource(history, ReportedCondition, NeverHidden, "**Reported conditions:**", false, [], i);
  }

  // ---- The page ----

  /** The seven expanders of the review page, in page order. */
  function ReviewPanels(f: FormData): (r: seq<Panel>)
    ensures |r| == 7
    ensures r[0].lines == [] <==> f.demographics == []
  {
    [Panel("Personal Information", DemographicsLines(f.demographics)),
     Panel("Current Symptoms", SymptomLines(f.symptoms)),
     Panel("Memory and Thinking", CognitiveLines(f.cognitive)),
     Panel("Medications", MedicationLines(f.medications)),
     Panel("Daily Activities - Basic", AdlLines(f.adl)),
     Panel("Daily Activities - Complex", IadlLines(f.iadl)),
     Panel("Medical History", HistoryLines(f.medicalHistory))]
  }
}
