/** The session state of the intake page and its navigation state machine.
    `st.session_state` holds `current_section` (the page shown, 0 to 7),
    `form_data` (the seven answer dicts) and `form_completed`; each key may
    be absent, which is what `initialize_session_state` tests and what
    "START NEW FORM" produces by deleting every key. */
module IntakeSession {
  import opened Store
  import MedicationList

  /** The index of the "Review and Submit" page, the last of the eight. */
  const ReviewPage := 7

  /** The input pages in order; page `i < 7` writes into `InputSections[i]`. */
  const InputSections: seq<Section> :=
    [Demographics, Symptoms, Cognitive, Medications, Adl, Iadl, MedicalHistory]

  /** The three session keys; `None` is a key that is not in the session. */
  datatype SessionState = SessionState(
    currentSection: Option<int>,
    formData: Option<FormData>,
    formCompleted: Option<bool>)

  /** The page index is one of the eight pages and every answer dict is a dict. */
  predicate ValidState(s: SessionState)
  {
    && (s.currentSection.Some? ==> 0 <= s.currentSection.value <= ReviewPage)
    && (s.formData.Some? ==> s.formData.value.Valid())
  }

  /** All three keys are present, as they are after `initialize_session_state`. */
  predicate Ready(s: SessionState)
  {
    s.currentSection.Some? && s.formData.Some? && s.formCompleted.Some?
  }

  /** The session after every key has been deleted. */
  const Cleared := SessionState(None, None, None)

  /** The session of a new visitor once `initialize_session_state` has run. */
  const InitialState := SessionState(Some(0), Some(EmptyForm), Some(false))

  /** `initialize_session_state`: set each missing key, leave present ones. */
  function Initialized(s: SessionState): (r: SessionState)
    ensures Ready(r)
  {
    SessionState(
      if s.currentSection.None? then Some(0) else s.currentSection,
      if s.formData.None? then Some(EmptyForm) else s.formData,
      if s.formCompleted.None? then Some(false) else s.formCompleted)
  }

  /** BACK: `current_section -= 1`, offered only above the first page. */
  function Retreat(s: SessionState): (r: SessionState)
    requires s.currentSection.Some?
    ensures r.formData == s.formData && r.formCompleted == s.formCompleted
    ensures r.currentSection.Some?
    ensures s.currentSection.value - 1 <= r.currentSection.value <= s.currentSection.value
    ensures r.currentSection.value < s.currentSection.value <==> s.currentSection.value > 0
    ensures ValidState(s) ==> ValidState(r)
  {
    if s.currentSection.value > 0 then s.(currentSection := Some(s.currentSection.value - 1)) else s
  }

  /** NEXT: `current_section += 1`, offered only below the review page. */
  function Advance(s: SessionState): (r: SessionState)
    requires s.currentSection.Some?
    ensures r.formData == s.formData && r.formCompleted == s.formCompleted
    ensures r.currentSection.Some?
    ensures s.currentSection.value <= r.currentSection.value <= s.currentSection.value + 1
    ensures r.currentSection.value > s.currentSection.value <==> s.currentSection.value < ReviewPage
    ensures ValidState(s) ==> ValidState(r)
  {
    if s.currentSection.value < ReviewPage then s.(currentSection := Some(s.currentSection.value + 1)) else s
  }

  /** SUBMIT FORM: the button exists only while the confirmation box is ticked. */
  function Submitted(s: SessionState, confirmed: bool): (r: SessionState)
    ensures r.currentSection == s.currentSection && r.formData == s.formData
    ensures confirmed ==> r.formCompleted == Some(true)
    ensures !confirmed ==> r == s
    ensures ValidState(s) ==> ValidState(r)
  {
    if confirmed then s.(formCompleted := Some(true)) else s
  }

  /** `form_data[section][key] = value`. */
  function Answered(s: SessionState, section: Section, key: string, value: Value): (r: SessionState)
    requires s.formData.Some?
    ensures r.currentSection == s.currentSection && r.formCompleted == s.formCompleted
    ensures r.formData.Some?
    ensures Get(r.formData.value.Get(section), key) == Some(value)
    ensures forall k :: k != key ==> Get(r.formData.value.Get(section), k) == Get(s.formData.value.Get(section), k)
    ensures forall other :: other != section ==> r.formData.value.Get(other) == s.formData.value.Get(other)
  {
    var f := s.formData.value;
    s.(formData := Some(f.With(section, Upsert(f.Get(section), key, value))))
  }

  /** The personal-information page replaces its whole dict on every run. */
  function PersonalSaved(s: SessionState, p: PersonalInfo): (r: SessionState)
    requires s.formData.Some?
    ensures r.currentSection == s.currentSection && r.formCompleted == s.formCompleted
    ensures r.formData.Some? && Keys(r.formData.value.demographics) == PersonalKeys
    ensures r.formData.value.demographics == PersonalAnswers(p)
    ensures forall other :: other != Demographics ==> r.formData.value.Get(other) == s.formData.value.Get(other)
  {
    s.(formData := Some(s.formData.value.With(Demographics, PersonalAnswers(p))))
  }

  /** The medications page, when the patient takes medications: store the
      count, then the synchronised list. */
  function MedicationsSaved(s: SessionState, numMeds: int, inputs: seq<MedicationList.RowInput>): (r: SessionState)
    requires s.formData.Some?
    requires 1 <= numMeds <= 30 && |inputs| == numMeds
    ensures r.currentSection == s.currentSection && r.formCompleted == s.formCompleted && r.formData.Some?
    ensures Get(s.formData.value.medications, "taking_medications") != Some(Str("Yes")) ==> r == s
    ensures Get(s.formData.value.medications, "taking_medications") == Some(Str("Yes")) ==>
      var meds := r.formData.value.medications;
      && Get(meds, "num_medications") == Some(Int(numMeds))
      && |MedList(meds)| == numMeds
      && MedList(meds) == MedicationList.Synced(MedList(s.formData.value.medications), numMeds, inputs)
      && forall k :: k != "num_medications" && k != "medications_list" ==>
           Get(meds, k) == Get(s.formData.value.medications, k)
    ensures forall other :: other != Medications ==> r.formData.value.Get(other) == s.formData.value.Get(other)
  {
    var meds := s.formData.value.medications;
    if Get(meds, "taking_medications") == Some(Str("Yes")) then
      var counted := Upsert(meds, "num_medications", Int(numMeds));
      assert Get(counted, "medications_list") == Get(meds, "medications_list");
      var list := MedicationList.Synced(MedList(counted), numMeds, inputs);
      s.(formData := Some(s.formData.value.With(Medications, Upsert(counted, "medications_list", Meds(list)))))
    else s
  }

  /** One user action, each followed by a rerun of the page. */
  datatype Event =
    | BackPressed
    | NextPressed
    | SubmitPressed(confirmed: bool)
    | StartNewPressed
    | PersonalEntered(info: PersonalInfo)
    | MedicationsEntered(count: int, rows: seq<MedicationList.RowInput>)
    | Answer(key: string, value: Value)

  /** One run of `main`: initialise the session; once the form is completed
      only the completion page and its START NEW FORM button are shown;
      otherwise the current page handles its inputs and the navigation
      buttons move the page. */
  function Step(s: SessionState, e: Event): (r: SessionState)
    ensures Ready(r) || r == Cleared
    ensures r == Cleared ==> e.StartNewPressed?
    ensures Initialized(s).formCompleted == Some(true) && !e.StartNewPressed? ==> r == Initialized(s)
  {
    var t := Initialized(s);
    if t.formCompleted.value then
      (if e.StartNewPressed? then Cleared else t)
    else
      var page := t.currentSection.value;
      match e
      case BackPressed => Retreat(t)
      case NextPressed => Advance(t)
      case SubmitPressed(confirmed) => if page == ReviewPage then Submitted(t, confirmed) else t
      case StartNewPressed => t
      case PersonalEntered(p) => if page == 0 then PersonalSaved(t, p) else t
      case MedicationsEntered(n, rows) =>
        if page == 3 && 1 <= n <= 30 && |rows| == n then MedicationsSaved(t, n, rows) else t
      case Answer(k, v) => if 1 <= page < ReviewPage then Answered(t, InputSections[page], k, v) else t
  }

  /** A session's successive runs. */
  function Run(s: SessionState, events: seq<Event>): (r: SessionState)
    ensures Ready(s) ==> Ready(r) || r == Cleared
    ensures events != [] ==> Ready(r) || r == Cleared
    decreases |events|
  {
    if events == [] then s else Run(Step(s, events[0]), events[1..])
  }

  /** Initialisation sets exactly the missing keys, so running it twice is
      running it once, it changes nothing once every key is present, and
      after START NEW FORM it yields a new visitor's session. */
  lemma InitializeLaws(s: SessionState)
    ensures Initialized(Initialized(s)) == Initialized(s)
    ensures Ready(s) ==> Initialized(s) == s
    ensures Initialized(Cleared) == InitialState
    ensures ValidState(s) ==> ValidState(Initialized(s))
    ensures s.currentSection.None? ==> Initialized(s).currentSection == Some(0)
    ensures s.formData.None? ==> Initialized(s).formData == Some(EmptyForm)
    ensures s.formCompleted.None? ==> Initialized(s).formCompleted == Some(false)
    ensures s.currentSection.Some? ==> Initialized(s).currentSection == s.currentSection
    ensures s.formData.Some? ==> Initialized(s).formData == s.formData
    ensures s.formCompleted.Some? ==> Initialized(s).formCompleted == s.formCompleted
  {
    assert EmptyForm.Valid() by {
      forall sec: Section ensures UniqueKeys(EmptyForm.Get(sec)) {
        assert EmptyForm.Get(sec) == [];
      }
    }
  }

  /** Replacing one section by a dict keeps every section a dict. */
  lemma WithKeepsValid(f: FormData, section: Section, a: Answers)
    requires f.Valid() && UniqueKeys(a)
    ensures f.With(section, a).Valid()
  {
    var g := f.With(section, a);
    forall other: Section ensures UniqueKeys(g.Get(other)) {
      if other != section {
        assert g.Get(other) == f.Get(other);
      }
    }
  }

  lemma AnsweredKeepsValid(s: SessionState, section: Section, key: string, value: Value)
    requires ValidState(s) && s.formData.Some?
    ensures ValidState(Answered(s, section, key, value))
  {
    var f := s.formData.value;
    UpsertKeys(f.Get(section), key, value);
    WithKeepsValid(f, section, Upsert(f.Get(section), key, value));
  }

  lemma PersonalSavedKeepsValid(s: SessionState, p: PersonalInfo)
    requires ValidState(s) && s.formData.Some?
    ensures ValidState(PersonalSaved(s, p))
  {
    WithKeepsValid(s.formData.value, Demographics, PersonalAnswers(p));
  }

  /** Storing the count and then a list keeps the medications dict a dict. */
  lemma CountAndListKeepValid(f: FormData, numMeds: int, list: Value)
    requires f.Valid()
    ensures f.With(Medications, Upsert(Upsert(f.medications, "num_medications", Int(numMeds)), "medications_list", list)).Valid()
  {
    assert f.Get(Medications) == f.medications;
    UpsertKeys(f.medications, "num_medications", Int(numMeds));
    var counted := Upsert(f.medications, "num_medications", Int(numMeds));
    UpsertKeys(counted, "medications_list", list);
    WithKeepsValid(f, Medications, Upsert(counted, "medications_list", list));
  }

  lemma MedicationsSavedKeepsValid(s: SessionState, numMeds: int, inputs: seq<MedicationList.RowInput>)
    requires ValidState(s) && s.formData.Some?
    requires 1 <= numMeds <= 30 && |inputs| == numMeds
    ensures ValidState(MedicationsSaved(s, numMeds, inputs))
  {
    var f := s.formData.value;
    var counted := Upsert(f.medications, "num_medications", Int(numMeds));
    CountAndListKeepValid(f, numMeds, Meds(MedicationList.Synced(MedList(counted), numMeds, inputs)));
  }

  /** Every run keeps the page index among the eight pages and the answer
      dicts free of repeated keys. */
  lemma StepKeepsValid(s: SessionState, e: Event)
    requires ValidState(s)
    ensures ValidState(Step(s, e))
  {
    InitializeLaws(s);
    var t := Initialized(s);
    if !t.formCompleted.value {
      var page := t.currentSection.value;
      match e
      case PersonalEntered(p) =>
        if page == 0 { PersonalSavedKeepsValid(t, p); }
      case MedicationsEntered(n, rows) =>
        if page == 3 && 1 <= n <= 30 && |rows| == n { MedicationsSavedKeepsValid(t, n, rows); }
      case Answer(k, v) =>
        if 1 <= page < ReviewPage { AnsweredKeepsValid(t, InputSections[page], k, v); }
      case _ =>
    }
  }

  /** The invariant holds after any sequence of user actions. */
  lemma {:induction false} RunKeepsValid(s: SessionState, events: seq<Event>)
    requires ValidState(s)
    ensures ValidState(Run(s, events))
    decreases |events|
  {
    if events != [] {
      StepKeepsValid(s, events[0]);
      RunKeepsValid(Step(s, events[0]), events[1..]);
    }
  }

  /** BACK moves one page back except on the first page, NEXT one page
      forward except on the review page; neither touches anything else. */
  lemma Navigation(s: SessionState)
    requires Ready(s) && ValidState(s) && s.formCompleted == Some(false)
    ensures var i := s.currentSection.value;
      Step(s, BackPressed) == s.(currentSection := Some(if i > 0 then i - 1 else i))
    ensures var i := s.currentSection.value;
      Step(s, NextPressed) == s.(currentSection := Some(if i < ReviewPage then i + 1 else i))
    ensures 0 <= Step(s, BackPressed).currentSection.value <= ReviewPage
    ensures 0 <= Step(s, NextPressed).currentSection.value <= ReviewPage
  {
    InitializeLaws(s);
  }

  /** The form becomes completed only by SUBMIT FORM on the review page with
      the confirmation box ticked. */
  lemma CompletionNeedsConfirmedSubmit(s: SessionState, e: Event)
    requires Ready(s) && s.formCompleted == Some(false)
    ensures Step(s, e).formCompleted == Some(true) <==>
      e == SubmitPressed(true) && s.currentSection == Some(ReviewPage)
  {
    InitializeLaws(s);
  }

  /** Once the form is completed, no action other than START NEW FORM
      changes anything: not the page, not the answers. */
  lemma {:induction false} CompletedIsFrozen(s: SessionState, events: seq<Event>)
    requires Ready(s) && s.formCompleted == Some(true)
    requires forall i :: 0 <= i < |events| ==> !events[i].StartNewPressed?
    ensures Run(s, events) == s
    decreases |events|
  {
    if events != [] {
      InitializeLaws(s);
      assert Step(s, events[0]) == s;
      CompletedIsFrozen(s, events[1..]);
    }
  }

  /** START NEW FORM deletes every key, and the next run starts afresh. */
  lemma StartNewRestarts(s: SessionState, e: Event)
    requires Ready(s) && s.formCompleted == Some(true)
    ensures Step(s, StartNewPressed) == Cleared
    ensures !e.StartNewPressed? ==> Step(Step(s, StartNewPressed), e) == Step(InitialState, e)
  {
    InitializeLaws(s);
    InitializeLaws(Cleared);
  }

  /** The session object that `main` and the page functions update in place. */
  class Session {
    var currentSection: Option<int>
    var formData: Option<FormData>
    var formCompleted: Option<bool>

    function State(): SessionState
      reads this
    {
      SessionState(currentSection, formData, formCompleted)
    }

    ghost predicate Valid()
      reads this
    {
      ValidState(State())
    }

    /** A new browser session has no keys. */
    constructor ()
      ensures State() == Cleared
      ensures Valid()
    {
      currentSection, formData, formCompleted := None, None, None;
    }

    method Init()
      requires Valid()
      modifies this
      ensures State() == Initialized(old(State()))
      ensures Valid() && Ready(State())
    {
      InitializeLaws(State());
      if currentSection.None? {
        currentSection := Some(0);
      }
      if formData.None? {
        formData := Some(EmptyForm);
      }
      if formCompleted.None? {
        formCompleted := Some(false);
      }
    }

    method Back()
      requires Valid() && currentSection.Some?
      modifies this
      ensures State() == Retreat(old(State()))
      ensures Valid()
    {
      if currentSection.value > 0 {
        currentSection := Some(currentSection.value - 1);
      }
    }

    method Next()
      requires Valid() && currentSection.Some?
      modifies this
      ensures State() == Advance(old(State()))
      ensures Valid()
    {
      if currentSection.value < ReviewPage {
        currentSection := Some(currentSection.value + 1);
      }
    }

    method Submit(confirmed: bool)
      requires Valid()
      modifies this
      ensures State() == Submitted(old(State()), confirmed)
      ensures Valid()
    {
      if confirmed {
        formCompleted := Some(true);
      }
    }

    method Reset()
      requires Valid()
      modifies this
      ensures State() == Cleared
      ensures Valid()
    {
      currentSection, formData, formCompleted := None, None, None;
    }

    method SetAnswer(section: Section, key: string, value: Value)
      requires Valid() && formData.Some?
      modifies this
      ensures State() == Answered(old(State()), section, key, value)
      ensures Valid()
    {
      AnsweredKeepsValid(State(), section, key, value);
      var f := formData.value;
      formData := Some(f.With(section, Upsert(f.Get(section), key, value)));
    }

    method SavePersonalInfo(p: PersonalInfo)
      requires Valid() && formData.Some?
      modifies this
      ensures State() == PersonalSaved(old(State()), p)
      ensures Valid()
    {
      PersonalSavedKeepsValid(State(), p);
      formData := Some(formData.value.With(Demographics, PersonalAnswers(p)));
    }

    method SaveMedications(numMeds: int, inputs: seq<MedicationList.RowInput>)
      requires Valid() && formData.Some?
      requires 1 <= numMeds <= 30 && |inputs| == numMeds
      modifies this
      ensures State() == MedicationsSaved(old(State()), numMeds, inputs)
      ensures Valid()
    {
      MedicationsSavedKeepsValid(State(), numMeds, inputs);
      var meds := formData.value.medications;
      if Get(meds, "taking_medications") == Some(Str("Yes")) {
        meds := Upsert(meds, "num_medications", Int(numMeds));
        var list := MedicationList.SyncMedications(MedList(meds), numMeds, inputs);
        meds := Upsert(meds, "medications_list", Meds(list));
        formData := Some(formData.value.With(Medications, meds));
      }
    }

    /** `main` for one user action. */
    method HandleEvent(e: Event)
      requires Valid()
      modifies this
      ensures State() == Step(old(State()), e)
      ensures Valid()
    {
      StepKeepsValid(State(), e);
      Init();
      if formCompleted.value {
        if e.StartNewPressed? {
          Reset();
        }
        return;
      }
      var page := currentSection.value;
      match e
      case BackPressed => Back();
      case NextPressed => Next();
      case SubmitPressed(confirmed) =>
        if page == ReviewPage {
          Submit(confirmed);
        }
      case StartNewPressed =>
      case PersonalEntered(p) =>
        if page == 0 {
          SavePersonalInfo(p);
        }
      case MedicationsEntered(n, rows) =>
        if page == 3 && 1 <= n <= 30 && |rows| == n {
          SaveMedications(n, rows);
        }
      case Answer(k, v) =>
        if 1 <= page < ReviewPage {
          SetAnswer(InputSections[page], k, v);
        }
    }
  }
}
