# Geriatric clinic intake form: a Dafny model

`streamlit_app.py` is a single-page Streamlit application. A patient fills in a
geriatric intake questionnaire on it: seven input pages (personal information,
symptoms, memory and thinking, medications, basic and instrumental activities
of daily living, medical history), then a review page, then submission. The
application keeps its whole state in `st.session_state`: the page index
`current_section`, the seven answer dictionaries of `form_data` and the flag
`form_completed`. From those dictionaries it renders a review summary, and it
builds a PDF report with the reportlab library.

This project models the logic of that program and proves properties about it:

- `text.dfy` (module `Text`): the Python string operations the program
  applies to keys and values. These are `str.title()`, `replace('_', ' ')`,
  `startswith`/`endswith`, `', '.join(...)`, and the `str()` rendering of
  integers and dates.
- `store.dfy` (module `Store`): the answer store. A Python dict is modelled as
  a sequence of (key, value) pairs in insertion order. `d[k] = v` is an upsert
  that keeps an existing key's position. `[k for k, v in d.items() if ...]` is
  an order-preserving selection. Python truthiness is the predicate `Truthy`.
- `medications.dfy` (module `MedicationList`): the medication-list
  synchroniser of the medications page. It pads the list, overwrites each row
  from its widgets, and stores the list cut to the requested count. It is
  written as a method with the source's two loops, proved against the
  function `Synced`.
- `session.dfy` (module `IntakeSession`): the session state and the
  navigation state machine. Each session key may be absent. `Step` is one run
  of `main` for one user action, and `Run` is a sequence of such runs. The
  class `Session` holds the three session keys as fields, and its methods
  update them in place.
- `review.dfy` (module `Review`): the seven panels of the review page, with
  each panel's filter, exclusion list and fixed lines.
- `report.dfy` (module `Report`): `generate_pdf_report` as the list of blocks
  it hands to reportlab. The block kinds are title paragraph, plain paragraph,
  section heading, body line, table and spacer. The two clock readings are
  parameters. The methods append blocks in the order the source does, and
  each is proved to produce the specification function `Report.Report`.
- `sequences.dfy` (module `Sequences`): `ConcatMap`, the list built by a
  `for x in xs: append...` loop, and its laws.

In these places the code behaves in ways a reader might not expect; the
model follows the code:

- The review summaries list keys in the order their answers were first
  stored, because they iterate over the dict. They do not follow the order
  in which the questions are declared.
- The symptom summary excludes every key ending in `_location`, `_level` or
  `_count`, not only the three follow-up fields the form writes.
- The memory panel writes its header whenever any answer is "Yes" or
  "Sometimes". This includes answers under keys it then skips, so the header
  can stand alone (`Review.CognitiveHeaderAlone`).
- The padding loop of the medication list appends entries whose frequency is
  the empty string, not the first frequency option.
- Only the personal-information section of the report is a table. The other
  sections are paragraphs.
- The report reads the clock twice: the title has the generation time in
  minutes, and the footer has the completion time in seconds.
- START NEW FORM deletes every session key. The next run of
  `initialize_session_state` then recreates a new visitor's state.

## Model

| member | source | states |
|---|---|---|
| `Text.Label` | streamlit_app.py:1075 | the label keeps one character per character of the key (which character is stated by `LabelIsTitleOfReplace` and `LabelOfSnakeKey`) |
| `Text.Title` | streamlit_app.py:1305 | `str.title()` keeps the length of the string (its casing is stated by `TitleCasing`) |
| `Text.TitleCasing` | streamlit_app.py:1305 | `title()` keeps each character's casedness, upper-cases exactly the cased characters that start a cased run, lower-cases the others, and leaves uncased characters alone |
| `Text.LabelIsTitleOfReplace` | streamlit_app.py:1075 | the one-pass label is `title()` applied after `replace('_', ' ')` |
| `Text.TitleIsScan` | streamlit_app.py:1305 | the character-wise `title()` agrees with Python's left-to-right scan over cased runs |
| `Text.LabelOfSnakeKey` | streamlit_app.py:1087 | for a snake_case key, each underscore becomes a space and exactly the first letter of each word is upper-cased |
| `Text.LabelInjective` | streamlit_app.py:1075 | two snake_case keys with the same label are the same key, and a label holds only spaces and letters |
| `Text.TitleOfWord` | streamlit_app.py:1305 | for a lower-case word, `item.title()` equals its label, so the basic-activity names are labels too |
| `Text.Join` | streamlit_app.py:1309 | `sep.join(items)` starts with the first item, ends with the last, and with two or more items is at least as long as first, separator and last together |
| `Text.JoinAppend` | streamlit_app.py:1309 | `sep.join` puts the separator between items only: one more item adds the separator and that item |
| `Text.NatToString` | streamlit_app.py:1247 | `str(n)` of a number is a non-empty string of decimal digits, with a leading zero only for 0 (its value is stated by `NatToStringValue`) |
| `Text.NatToStringValue` | streamlit_app.py:1247 | reading the decimal digits of `str(n)` back gives `n` |
| `Text.NatToStringLength` | streamlit_app.py:1062 | a number below `10^k` takes at most `k` digits |
| `Text.LeadingZeros` | streamlit_app.py:1062 | leading zeros do not change the value a digit string denotes |
| `Text.IntToString` | streamlit_app.py:1247 | `str(n)` of an integer is non-empty, starts with '-' exactly when `n` is negative, has only digits after its first character, and its digits read back as the magnitude of `n`, without a leading zero |
| `Text.ZeroPad` | streamlit_app.py:1062 | a zero-padded field is `n`'s digits preceded by zeros up to the width, is all digits, reads back as `n`, and is exactly the width when `n` fits in it |
| `Store.Truthy` | streamlit_app.py:1244-1249 | a missing answer, the empty string, 0 and the empty list are falsy, and a date is truthy |
| `Store.Show` | streamlit_app.py:1242 | an f-string shows a string as itself, an integer as an optional '-' followed by digits that read back as its magnitude, a date in at least ten characters and, for a four-digit year, in ISO form with its year, month and day read back from their fields, and a list in brackets |
| `Store.IsoDateFields` | streamlit_app.py:1205 | `str(date)` of a four-digit year is ten characters with dashes at 4 and 7, and its three fields read back as the year, the month and the day |
| `Store.Get` | streamlit_app.py:1241 | `d.get(k)` is absent exactly when `k` is not a key, and otherwise returns a value stored under `k` |
| `Store.Upsert` | streamlit_app.py:632 | after `d[k] = v`, `get(k)` is `v`, every other key reads as before, and a new key is appended at the end |
| `Store.UpsertKeys` | streamlit_app.py:632 | overwriting a present key keeps every key in place, and an upsert never duplicates a key |
| `Store.UpsertOverwrites` | streamlit_app.py:611-617 | the last write to a key wins, at the position of the first |
| `Store.UpsertIdempotent` | streamlit_app.py:611 | writing the same answer twice equals writing it once |
| `Store.SelectKeys` | streamlit_app.py:1071 | the comprehension holds exactly the keys whose stored value passes the filter, in store order, without repeats |
| `Store.SelectKeysInOrder` | streamlit_app.py:1071 | of two selected pairs, the one stored first is listed first |
| `Store.SelectKeysByGet` | streamlit_app.py:1071 | in a dict, a key is selected exactly when `get` finds a value for it that passes the filter |
| `Store.PersonalAnswers` | streamlit_app.py:367-378 | the personal-information page stores exactly the ten keys of its widgets, in widget order, each once |
| `Store.PersonalAnswersFields` | streamlit_app.py:367-378 | reading back each of the ten keys gives the value its widget returned |
| `Store.MedList` | streamlit_app.py:1281 | `meds.get('medications_list', [])` is the stored list or empty, and a non-empty result is the stored list itself |
| `MedicationList.Padded` | streamlit_app.py:637-639 | padding keeps the stored entries, appends empty entries and reaches the requested count |
| `MedicationList.Resized` | streamlit_app.py:637-672 | padding then slicing gives exactly `n` rows: stored rows below `n` are kept, new rows are empty, the tail is dropped |
| `MedicationList.Synced` | streamlit_app.py:641-672 | the stored list has one row per requested medication, each the entry its widgets produce from the resized row |
| `MedicationList.SyncMedications` | streamlit_app.py:635-672 | the padding loop and the editing loop store exactly `Synced`, a list whose length is the requested count |
| `MedicationList.UntouchedRow` | streamlit_app.py:646-668 | a row whose widgets are left alone keeps its stored name and dose (empty for a new row), and its frequency becomes "Once daily" |
| `MedicationList.ResizeTwice` | streamlit_app.py:637-672 | resizing to one count and then another keeps the shared rows as a direct resize does |
| `MedicationList.ShrinkToOne` | streamlit_app.py:641-672 | going from three rows to one keeps exactly the first row when its frequency is re-selected |
| `IntakeSession.Initialized` | streamlit_app.py:210-227 | after initialisation all three session keys are present |
| `IntakeSession.Retreat` | streamlit_app.py:1382-1385 | BACK lowers the page by one exactly when it is above the first page, changes nothing else and keeps a valid state valid |
| `IntakeSession.Advance` | streamlit_app.py:1388-1391 | NEXT raises the page by one exactly when it is below the review page, changes nothing else and keeps a valid state valid |
| `IntakeSession.Submitted` | streamlit_app.py:1139-1146 | a ticked confirmation sets `form_completed` to true and touches nothing else; an unticked one changes nothing |
| `IntakeSession.Answered` | streamlit_app.py:413-417 | `form_data[section][key] = value` makes `get(key)` return the value and leaves every other key, section, the page and the flag as they were |
| `IntakeSession.PersonalSaved` | streamlit_app.py:367-378 | the personal dict becomes the page's ten entered values under the ten widget keys in widget order, and the other sections, the page and the flag are unchanged |
| `IntakeSession.MedicationsSaved` | streamlit_app.py:626-672 | under "Yes" the count is stored and the stored list is the old list synchronised with the page's rows (`Synced`), that many rows long, other keys unchanged; otherwise nothing changes |
| `IntakeSession.Step` | streamlit_app.py:1413-1443 | after one run every key is present, unless START NEW FORM cleared them; once completed only START NEW FORM does anything |
| `IntakeSession.Run` | streamlit_app.py:1413-1443 | after at least one run the session is initialised or has just been cleared by START NEW FORM |
| `IntakeSession.InitializeLaws` | streamlit_app.py:210-227 | initialisation sets a missing page to 0, missing answers to the empty form and a missing flag to false, and keeps present keys: it is idempotent, it changes nothing once all keys are present, and after a reset it yields the new visitor's state |
| `IntakeSession.AnsweredKeepsValid` | streamlit_app.py:611 | storing an answer keeps every section a dict without repeated keys |
| `IntakeSession.PersonalSavedKeepsValid` | streamlit_app.py:367-378 | replacing the personal dict keeps the page index and the dicts valid |
| `IntakeSession.MedicationsSavedKeepsValid` | streamlit_app.py:626-672 | storing the count and the synchronised list keeps the dicts valid |
| `IntakeSession.StepKeepsValid` | streamlit_app.py:1413-1443 | every run keeps the page index between 0 and 7 and every answer dict free of repeated keys |
| `IntakeSession.RunKeepsValid` | streamlit_app.py:1413-1443 | that invariant holds after any sequence of user actions |
| `IntakeSession.Navigation` | streamlit_app.py:1375-1391 | BACK moves one page back except on the first page, NEXT one page forward except on the review page; nothing else changes, and the index stays between 0 and 7 |
| `IntakeSession.CompletionNeedsConfirmedSubmit` | streamlit_app.py:1134-1146 | the form becomes completed exactly by SUBMIT FORM on the review page with the confirmation ticked |
| `IntakeSession.CompletedIsFrozen` | streamlit_app.py:1421-1423 | once completed, any sequence of actions without START NEW FORM changes nothing |
| `IntakeSession.StartNewRestarts` | streamlit_app.py:1405-1410 | START NEW FORM deletes every key, and the next run behaves as for a new visitor |
| `IntakeSession.Session.constructor` | streamlit_app.py:210-227 | a new browser session has none of the three keys, and its state is valid |
| `IntakeSession.Session.Init` | streamlit_app.py:210-227 | the object's new state is `Initialized` of its old state: all three keys present, validity kept |
| `IntakeSession.Session.Back` | streamlit_app.py:1382-1385 | the new state is `Retreat` of the old one (one page back, unless on the first page), and validity is kept |
| `IntakeSession.Session.Next` | streamlit_app.py:1388-1391 | the new state is `Advance` of the old one (one page forward, unless on the review page), and validity is kept |
| `IntakeSession.Session.Submit` | streamlit_app.py:1139-1146 | the new state is `Submitted` of the old one (completed only when the confirmation is ticked), and validity is kept |
| `IntakeSession.Session.Reset` | streamlit_app.py:1407-1410 | every session key is deleted, which leaves a valid state |
| `IntakeSession.Session.SetAnswer` | streamlit_app.py:611 | the new state is `Answered` of the old one (one answer upserted, nothing else changed), and validity is kept |
| `IntakeSession.Session.SavePersonalInfo` | streamlit_app.py:367-378 | the new state is `PersonalSaved` of the old one (the personal dict replaced by the page's ten values), and validity is kept |
| `IntakeSession.Session.SaveMedications` | streamlit_app.py:626-672 | the new state is `MedicationsSaved` of the old one (under "Yes" the count and the synchronised list stored, otherwise nothing changed), and validity is kept |
| `IntakeSession.Session.HandleEvent` | streamlit_app.py:1413-1443 | one run of `main` moves the object to `Step` of its state and keeps it valid |
| `Review.BulletsContents` | streamlit_app.py:1085-1087 | every listed key the loop does not skip has its bullet, and every bullet belongs to such a key |
| `Review.Summary` | streamlit_app.py:1071-1077 | an empty comprehension writes the fallback alone; otherwise the header comes first, followed by at most one bullet per selected key |
| `Review.SummaryFallback` | streamlit_app.py:1071-1077 | a summary's comprehension is empty exactly when no stored answer passes its filter |
| `Review.SummaryShows` | streamlit_app.py:1071-1075 | an answer that passes the filter, under a key not skipped, brings the header and its own bullet |
| `Review.SummarySource` | streamlit_app.py:1071-1075 | every line after the header is the bullet of such an answer |
| `Review.SummaryInStoreOrder` | streamlit_app.py:1071-1075 | bullets follow store order: an answer stored earlier has the earlier bullet |
| `Review.DemographicsOfEntry` | streamlit_app.py:1058-1066 | the personal panel of a saved page shows the entered values, the date of birth in ISO form |
| `Review.DemographicsLines` | streamlit_app.py:1058-1066 | the personal panel is empty exactly when the dict is, and otherwise has six lines, the first the name line |
| `Review.SymptomLines` | streamlit_app.py:1069-1077 | the symptom panel is never empty: it is the fallback line alone, or it starts with its header |
| `Review.CognitiveLines` | streamlit_app.py:1080-1087 | the memory panel is empty or starts with "**Areas of concern:**" |
| `Review.MedicationLines` | streamlit_app.py:1090-1099 | without a "Yes" the panel is the fallback line alone; under a "Yes" every line is a "- " bullet |
| `Review.MedBulletsStartWithDash` | streamlit_app.py:1095-1097 | every medication bullet starts with "- " |
| `Review.AdlLines` | streamlit_app.py:1102-1110 | the basic-activity panel is never empty: the independence line, or the header first |
| `Review.IadlLines` | streamlit_app.py:1113-1120 | the complex-activity panel is empty or starts with its header |
| `Review.HistoryLines` | streamlit_app.py:1123-1129 | the history panel is empty or starts with "**Reported conditions:**" |
| `Review.ReviewPanels` | streamlit_app.py:1056-1129 | the review page has seven panels, and the personal panel is empty exactly when no personal information is stored |
| `Review.NoSymptomsLine` | streamlit_app.py:1069-1077 | "No significant symptoms reported" is the whole panel exactly when no non-follow-up key is "Yes" |
| `Review.SymptomListed` | streamlit_app.py:1071-1075 | every symptom answered "Yes" is listed under its label, after the header |
| `Review.SymptomLineSource` | streamlit_app.py:1071-1075 | every symptom bullet is the label of a symptom answered "Yes" |
| `Review.SymptomsInStoreOrder` | streamlit_app.py:1071-1075 | of two symptoms answered "Yes", the one stored first is listed first |
| `Review.NoCognitiveSummary` | streamlit_app.py:1080-1087 | the memory panel is empty exactly when no answer is "Yes" or "Sometimes", and otherwise starts with its header |
| `Review.ConcernListed` | streamlit_app.py:1082-1087 | every concern outside the orientation keys is listed under its label |
| `Review.ConcernLineSource` | streamlit_app.py:1082-1087 | every memory bullet is a concern outside the orientation keys |
| `Review.CognitiveHeaderAlone` | streamlit_app.py:1082-1087 | a "Yes" to an orientation question alone shows the header with no bullet |
| `Review.MedBulletsContents` | streamlit_app.py:1095-1097 | the medication bullets are exactly the lines of the entries with a name |
| `Review.MedBulletsInListOrder` | streamlit_app.py:1095-1097 | the bullets keep the order of the medication list |
| `Review.MedicationSummary` | streamlit_app.py:1090-1099 | "No medications reported" is the whole panel exactly when the patient did not answer "Yes"; otherwise the panel has one bullet per named entry and nothing else |
| `Review.IndependentLine` | streamlit_app.py:1102-1110 | "Independent in all basic activities" is the whole panel exactly when no activity needs assistance or is dependent |
| `Review.AdlListed` | streamlit_app.py:1104-1108 | every basic activity needing help is listed with its answer |
| `Review.AdlLineSource` | streamlit_app.py:1104-1108 | every basic-activity bullet is an activity needing help, with its answer |
| `Review.NoIadlSummary` | streamlit_app.py:1113-1120 | the complex-activities panel is empty exactly when no activity needs assistance or is impossible |
| `Review.IadlListed` | streamlit_app.py:1115-1120 | every such activity outside the living arrangements is listed with its answer |
| `Review.IadlLineSource` | streamlit_app.py:1115-1120 | every complex-activity bullet is such an activity |
| `Review.NoHistorySummary` | streamlit_app.py:1123-1129 | the history panel is empty exactly when no condition key is "Yes" |
| `Review.ConditionListed` | streamlit_app.py:1125-1129 | every condition answered "Yes" is listed under its label |
| `Review.ConditionLineSource` | streamlit_app.py:1125-1129 | every history bullet is a condition answered "Yes" |
| `Report.GenerateReport` | streamlit_app.py:1192-1368 | the blocks appended by the whole function are `Report`: the title blocks, the seven sections in order, the footer |
| `Report.Report` | streamlit_app.py:1192-1368 | the report has at least eight blocks, starts with the four title blocks, the first the clinic title, and ends with the four footer blocks |
| `Report.DemographicsSection` | streamlit_app.py:1200-1222 | the personal section is its heading, one table of eight rows and a spacer |
| `Report.SymptomSection` | streamlit_app.py:1224-1252 | the symptoms section has at least two blocks and starts with "CURRENT SYMPTOMS" |
| `Report.CognitiveSection` | streamlit_app.py:1254-1274 | the cognitive section has at least two blocks and starts with "COGNITIVE ASSESSMENT" |
| `Report.MedicationSection` | streamlit_app.py:1276-1296 | the medications section has at least two blocks and starts with "MEDICATIONS" |
| `Report.AdlSection` | streamlit_app.py:1298-1311 | the basic-activities section has at least two blocks and starts with its heading |
| `Report.IadlSection` | streamlit_app.py:1313-1327 | the instrumental-activities section has at least two blocks and starts with its heading |
| `Report.ConditionLines` | streamlit_app.py:1348-1353 | the conditions part always writes at least one body line |
| `Report.HistorySection` | streamlit_app.py:1329-1362 | the history section starts with "MEDICAL HISTORY" followed by a body line |
| `Report.AppendSection` | streamlit_app.py:1200-1362 | one section's statements append exactly that section's blocks |
| `Report.AppendTitle` | streamlit_app.py:1194-1198 | the title, the hospital, the generation date and a spacer are appended |
| `Report.AppendFooter` | streamlit_app.py:1364-1368 | the spacer, the rule, the completion time and the attestation are appended |
| `Report.AppendAnswered` | streamlit_app.py:1249-1250 | a field line is appended exactly when the answer is truthy |
| `Report.AppendWhenYes` | streamlit_app.py:1293-1294 | a field line is appended exactly when the flag is "Yes" |
| `Report.AppendDemographics` | streamlit_app.py:1200-1222 | the heading, the eight-row table and a spacer are appended |
| `Report.AppendSymptomRow` | streamlit_app.py:1240-1247 | one iteration of the symptom loop appends that symptom's row and, under a "Yes" to pain, the pain details |
| `Report.AppendSymptomLines` | streamlit_app.py:1240-1247 | the symptom loop appends each fixed symptom's row in the fixed order |
| `Report.AppendSymptoms` | streamlit_app.py:1224-1252 | the symptoms section is appended |
| `Report.AppendCognitiveLines` | streamlit_app.py:1267-1269 | the cognitive loop appends a line for each truthy item, in the fixed order |
| `Report.AppendCognitive` | streamlit_app.py:1254-1274 | the cognitive section is appended |
| `Report.AppendMedLines` | streamlit_app.py:1282-1284 | the medication loop appends one line per named entry, in list order |
| `Report.AppendMedicationsTaken` | streamlit_app.py:1280-1291 | under a "Yes" the entries and the two follow-up lines are appended, otherwise the fixed line |
| `Report.AppendMedications` | streamlit_app.py:1276-1296 | the medications section is appended |
| `Report.AppendAdlLines` | streamlit_app.py:1303-1305 | the basic-activity loop appends a line for each truthy item, in the fixed order |
| `Report.AppendMobilityAids` | streamlit_app.py:1307-1309 | the mobility-aids line is appended exactly under a "Yes" |
| `Report.AppendAdl` | streamlit_app.py:1298-1311 | the basic-activities section is appended |
| `Report.AppendIadlLines` | streamlit_app.py:1318-1320 | the instrumental-activity loop appends a line for each truthy item, in the fixed order |
| `Report.AppendIadl` | streamlit_app.py:1313-1327 | the instrumental-activities section is appended |
| `Report.AppendConditionLines` | streamlit_app.py:1349-1351 | one line per positive condition, in the fixed order |
| `Report.AppendConditions` | streamlit_app.py:1348-1353 | the condition lines, or the fixed line when there are none |
| `Report.AppendHistory` | streamlit_app.py:1329-1362 | the medical-history section is appended, with no spacer after it |
| `Report.ReportLayout` | streamlit_app.py:1192-1368 | the report has at least eight blocks, opens with the title blocks and closes with the footer, and its headings are the seven section headings in the fixed order |
| `Report.SectionHeadingsDistinct` | streamlit_app.py:1201-1330 | the seven headings differ, so each occurs exactly once |
| `Report.SectionHasOneHeading` | streamlit_app.py:1200-1362 | each section writes exactly its own heading |
| `Report.DemographicsHeadings` | streamlit_app.py:1200-1222 | the personal section has only its heading |
| `Report.SymptomHeadings` | streamlit_app.py:1224-1252 | the symptoms section has only its heading |
| `Report.CognitiveHeadings` | streamlit_app.py:1254-1274 | the cognitive section has only its heading |
| `Report.MedicationHeadings` | streamlit_app.py:1276-1296 | the medications section has only its heading |
| `Report.AdlHeadings` | streamlit_app.py:1298-1311 | the basic-activities section has only its heading |
| `Report.IadlHeadings` | streamlit_app.py:1313-1327 | the instrumental-activities section has only its heading |
| `Report.HistoryHeadings` | streamlit_app.py:1329-1362 | the history section has only its heading |
| `Report.DemographicsTable` | streamlit_app.py:1203-1221 | the table of a saved personal page shows each entered value in its row |
| `Report.PainDetailLines` | streamlit_app.py:1243-1247 | the location line exists exactly when a location is given, and the severity line exactly when the level is truthy (a level of 0 writes none); both are indented sub-lines |
| `Report.SymptomRowSubLines` | streamlit_app.py:1240-1247 | an iteration writes sub-lines only for pain answered "Yes" |
| `Report.PainSubLinesOnlyUnderPain` | streamlit_app.py:1240-1252 | the symptoms section has sub-lines only when pain is "Yes", and then it has all the pain details |
| `Report.PainDetailsFollowPain` | streamlit_app.py:1240-1247 | under a "Yes" to pain, the pain line comes right after the heading and the pain details right after it |
| `Report.MedRowsAreBullets` | streamlit_app.py:1282-1284 | the report's medication lines are the review's medication bullets, line for line |
| `Report.MedRowsStartWithDash` | streamlit_app.py:1284 | every medication line starts with "-" |
| `Report.NoMedicationsLine` | streamlit_app.py:1280-1291 | "No medications reported" is in the section exactly when the patient did not answer "Yes", and then no line of the section is a "-" entry |
| `Report.AllergyLine` | streamlit_app.py:1293-1294 | the drug-allergy line is in the section exactly when the patient answered "Yes" to allergies |
| `Report.MedicationsListed` | streamlit_app.py:1280-1284 | under a "Yes", the loop's lines are the review's bullets in list order, every named entry has its line, and every line of the loop is a named entry's line |
| `Report.MedRowsAfterHeading` | streamlit_app.py:1277-1284 | under a "Yes", the medication lines stand right after the heading, as the review's bullets in list order |
| `Report.AdlRowsNotAids` | streamlit_app.py:1303-1305 | no basic-activity line is a mobility-aids line |
| `Report.MobilityAidsLine` | streamlit_app.py:1307-1309 | the line with the aids joined by ", " is in the section exactly when the patient answered "Yes" to mobility aids |
| `Report.WhenYesLine` | streamlit_app.py:1355-1359 | a detail line is written exactly under a "Yes" and shows the stored detail, or the default when none is stored |
| `Report.YesNames` | streamlit_app.py:1348 | `positive_conditions` holds a display name exactly when a condition with that name was answered "Yes" |
| `Report.NoYesNames` | streamlit_app.py:1348-1349 | `positive_conditions` is empty exactly when no listed condition was answered "Yes" |
| `Report.HistoryDetailsNotListed` | streamlit_app.py:1355-1362 | the surgery, hospitalisation and other-conditions lines are field lines, not condition lines |
| `Report.ConditionRowsListed` | streamlit_app.py:1349-1351 | the loop writes "- " and a name exactly for the positive conditions |
| `Report.HistoryParts` | streamlit_app.py:1329-1362 | the condition lines are in the history section, and its only non-field body lines are condition lines |
| `Report.ConditionLinesNone` | streamlit_app.py:1348-1353 | the fixed line stands in for the list exactly when there is no positive condition |
| `Report.ConditionLinesListed` | streamlit_app.py:1348-1353 | a condition line is written exactly for each positive condition |
| `Report.NoConditionsLine` | streamlit_app.py:1333-1353 | "No significant medical conditions reported" is in the section exactly when none of the twelve conditions was answered "Yes" |
| `Report.ConditionListed` | streamlit_app.py:1333-1353 | a condition's line is in the section exactly when it was answered "Yes" |
| `Report.CognitiveItemLine` | streamlit_app.py:1256-1269 | each cognitive item's line is written exactly when its answer is truthy |
| `Report.AdlItemLine` | streamlit_app.py:1301-1305 | each basic activity's line is written exactly when its answer is truthy |
| `Report.IadlItemLine` | streamlit_app.py:1316-1320 | each instrumental activity's line is written exactly when its answer is truthy |
| `Report.SectionSameLookups` | streamlit_app.py:1200-1362 | a section depends only on what `get` returns for its keys, not on the order in which they were stored |
| `Report.ReportSameLookups` | streamlit_app.py:1192-1368 | two forms whose sections answer every `get` alike give the same report |
| `Report.OnlyTimestampsDiffer` | streamlit_app.py:1192-1368 | two reports of the same answers have the same length and differ only in the generation date (third block) and the completion time (second-to-last block) |

## Left out

- The page styling (the CSS block), titles, explanatory texts, column layout and help text are not modelled. They change no state.
- Each question widget of the input pages is not modelled one by one. A widget, or a Yes/No button whose handler assigns the answer inline (for example streamlit_app.py:413-417 for a symptom and 609-618 for taking medications), is the event `Answer(key, value)`, which upserts one answer of the current page. The helper `create_yes_no_question` (streamlit_app.py:230) is never called and is not modelled. The personal-information page and the medication list have their own events because they store whole values.
- Widget bounds and defaults (date ranges, the 0 to 10 pain slider and its default of 5, the number input's default) are left to the widgets. The events carry the values the widgets return, and the model requires only the medication count's 1 to 30 range.
- `render_progress_bar` is left out: it computes a display fraction and changes nothing.
- Reading the clock is left out. The generation and completion times are string parameters, already formatted, and so is the download file name.
- The reportlab page template, paragraph styles, fonts, table styling and the PDF bytes are left out. A block keeps only its kind and text. Inline `<b>` markup is kept as text.
- Streamlit's rerun mechanism and widget-state persistence are left out. Each user action is one run of `main`. A medication row widget "left alone" is one rendered afresh, which shows its stored text, or the first option for the frequency selectbox.
- `MedicationList.SyncMedications` works on a copy of the stored list. The source pads the stored list object in place first, but that cannot be observed, because the slice replaces the stored list in the same run.
- `Report.GenerateReport`: the source writes the seven sections as straight-line code. The model writes them with one loop over the fixed section order, and each iteration runs that section's own statements (`Report.AppendSection`). Both produce the same sequence of appends.
- `Store.Show`: a list is rendered as its Python repr with single quotes around every string. Python switches to double quotes for a string that contains a single quote, and that is not modelled.
- `Text.Title`: only ASCII letters are cased characters. Python's `title()` also treats other Unicode letters as cased.
- A stored medication list or mobility-aid list of the wrong type reads as empty. The source would fail on it, but the form never stores such a value.
