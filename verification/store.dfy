/** The answer store: the seven per-section answer dictionaries kept in
    `st.session_state.form_data`. A Python dict remembers insertion order and
    an assignment to an existing key keeps that key's position, so a section
    is an ordered sequence of (key, value) pairs and `d[key] = value` is an
    upsert that keeps the position. */
module Store {
  import opened Text

  datatype Option<T> = None | Some(value: T) {
    function GetOr(default: T): T
    {
      if Some? then value else default
    }
  }

  /** One row of the medication list: `{'name': …, 'dose': …, 'frequency': …}`. */
  datatype MedEntry = MedEntry(name: string, dose: string, frequency: string)

  /** The Python values the form stores: strings (Yes/No answers, free text,
      choices), ints (pain level, fall count, year, medication count), a
      `datetime.date`, a list of strings (mobility aids) and the list of
      medication entries. */
  datatype Value =
    | Str(s: string)
    | Int(n: int)
    | Date(year: nat, month: nat, day: nat)
    | StrList(items: seq<string>)
    | Meds(entries: seq<MedEntry>)

  type Answers = seq<(string, Value)>

  /** Python truthiness of `d.get(key)`: a missing key (None), "", 0 and []
      are false. */
  predicate Truthy(o: Option<Value>)
    ensures Truthy(o) ==> o.Some?
    ensures o == Some(Str("")) || o == Some(Int(0)) || o == Some(StrList([])) ==> !Truthy(o)
    ensures o.Some? && o.value.Date? ==> Truthy(o)
  {
    match o
    case None => false
    case Some(Str(s)) => s != ""
    case Some(Int(n)) => n != 0
    case Some(Date(_, _, _)) => true
    case Some(StrList(l)) => l != []
    case Some(Meds(l)) => l != []
  }

  function Quoted(items: seq<string>): seq<string>
  {
    if items == [] then [] else ["'" + items[0] + "'"] + Quoted(items[1..])
  }

  function MedReprs(entries: seq<MedEntry>): seq<string>
  {
    if entries == [] then []
    else
      var e := entries[0];
      ["{'name': '" + e.name + "', 'dose': '" + e.dose + "', 'frequency': '" + e.frequency + "'}"]
      + MedReprs(entries[1..])
  }

  /** `str(v)` as used by f-strings and table cells. */
  function Show(v: Value): (r: string)
    ensures v.Str? ==> r == v.s
    ensures v.Int? ==> 1 <= |r| && (r[0] == '-' <==> v.n < 0)
    ensures v.Int? && v.n >= 0 ==> DigitsValue(r) == v.n
    ensures v.Int? && v.n < 0 ==> DigitsValue(r[1..]) == -v.n
    ensures v.Date? ==> |r| >= 10
    ensures v.Date? && v.year < 10000 && v.month < 100 && v.day < 100 ==>
      && |r| == 10 && r[4] == '-' && r[7] == '-'
      && DigitsValue(r[..4]) == v.year && DigitsValue(r[5..7]) == v.month && DigitsValue(r[8..]) == v.day
    ensures v.StrList? || v.Meds? ==> |r| >= 2 && r[0] == '[' && r[|r| - 1] == ']'
  {
    match v
    case Str(s) => s
    case Int(n) => IntToString(n)
    case Date(y, m, d) => IsoDateFields(y, m, d); IsoDate(y, m, d)
    case StrList(l) => "[" + Join(Quoted(l), ", ") + "]"
    case Meds(l) => "[" + Join(MedReprs(l), ", ") + "]"
  }

  /** `str(date)`: the ISO form `YYYY-MM-DD`. */
  function IsoDate(y: nat, m: nat, d: nat): string
  {
    ZeroPad(y, 4) + "-" + ZeroPad(m, 2) + "-" + ZeroPad(d, 2)
  }

  /** For a four-digit year and two-digit month and day, the ISO form is ten
      characters with dashes at 4 and 7, and its three fields read back as
      the year, the month and the day. */
  lemma IsoDateFields(y: nat, m: nat, d: nat)
    ensures |IsoDate(y, m, d)| >= 10
    ensures y < 10000 && m < 100 && d < 100 ==>
      var r := IsoDate(y, m, d);
      && |r| == 10 && r[4] == '-' && r[7] == '-'
      && DigitsValue(r[..4]) == y && DigitsValue(r[5..7]) == m && DigitsValue(r[8..]) == d
  {
    var year, month, day := ZeroPad(y, 4), ZeroPad(m, 2), ZeroPad(d, 2);
    assert |year| >= 4 && |month| >= 2 && |day| >= 2;
    assert IsoDate(y, m, d) == year + "-" + month + "-" + day;
    if y < 10000 && m < 100 && d < 100 {
      assert Pow10(2) == 100 && Pow10(4) == 10000;
      assert |year| == 4 && DigitsValue(year) == y;
      assert |month| == 2 && DigitsValue(month) == m;
      assert |day| == 2 && DigitsValue(day) == d;
      DashedFields(year, month, day);
    }
  }

  /** Slicing the fields back out of `a-b-c` for a four-character `a` and
      two-character `b` and `c`. */
  lemma DashedFields(a: string, b: string, c: string)
    requires |a| == 4 && |b| == 2 && |c| == 2
    ensures var r := a + "-" + b + "-" + c;
      && |r| == 10 && r[4] == '-' && r[7] == '-'
      && r[..4] == a && r[5..7] == b && r[8..] == c
  {
    var r := a + "-" + b + "-" + c;
    assert r[..4] == a && r[5..7] == b && r[8..] == c;
  }

  function Keys(a: Answers): (ks: seq<string>)
  {
    seq(|a|, i requires 0 <= i < |a| => a[i].0)
  }

  lemma KeysCons(a: Answers)
    requires a != []
    ensures Keys(a) == [a[0].0] + Keys(a[1..])
  {
  }

  predicate Distinct(s: seq<string>)
  {
    forall i, j :: 0 <= i < j < |s| ==> s[i] != s[j]
  }

  /** What every Python dict guarantees: no key occurs twice. */
  predicate UniqueKeys(a: Answers)
  {
    Distinct(Keys(a))
  }

  /** `d.get(key)`. */
  function Get(a: Answers, k: string): (r: Option<Value>)
    ensures r.None? <==> k !in Keys(a)
    ensures r.Some? ==> (k, r.value) in a
  {
    if a == [] then None
    else
      KeysCons(a);
      if a[0].0 == k then Some(a[0].1) else Get(a[1..], k)
  }

  /** `d.get(key, default)`. */
  function GetOr(a: Answers, k: string, default: Value): Value
  {
    Get(a, k).GetOr(default)
  }

  /** `f"{d.get(k, default)}"`: the stored answer, or the default text, as `str()` renders it. */
  function Shown(a: Answers, k: string, default: string): string
  {
    Show(GetOr(a, k, Str(default)))
  }

  /** Two dicts that answer every `get` alike. */
  ghost predicate SameLookups(a: Answers, b: Answers)
  {
    forall k :: Get(a, k) == Get(b, k)
  }

  /** The tail of a dict is a dict that does not hold the head's key. */
  lemma TailUnique(a: Answers)
    requires a != [] && UniqueKeys(a)
    ensures UniqueKeys(a[1..])
    ensures a[0].0 !in Keys(a[1..])
  {
    forall i, j | 0 <= i < j < |a| - 1 ensures Keys(a[1..])[i] != Keys(a[1..])[j] {
      assert Keys(a)[i + 1] != Keys(a)[j + 1];
    }
    forall j | 0 <= j < |a| - 1 ensures Keys(a[1..])[j] != a[0].0 {
      assert Keys(a)[0] != Keys(a)[j + 1];
    }
  }

  /** Putting a new key in front of a dict keeps the keys unique. */
  lemma ConsUnique(x: (string, Value), a: Answers)
    requires UniqueKeys(a) && x.0 !in Keys(a)
    ensures UniqueKeys([x] + a)
  {
    assert Keys([x] + a) == [x.0] + Keys(a);
  }

  /** In a dict every stored pair is what `get` returns for its key. */
  lemma {:induction false} GetStored(a: Answers, k: string, v: Value)
    requires UniqueKeys(a)
    requires (k, v) in a
    ensures Get(a, k) == Some(v)
  {
    if a[0] != (k, v) {
      TailUnique(a);
      var j :| 0 <= j < |a| && a[j] == (k, v);
      assert Keys(a)[0] != Keys(a)[j];
      assert a[1..][j - 1] == (k, v);
      GetStored(a[1..], k, v);
    }
  }

  /** `d[key] = value`: overwrite in place when the key is present, append
      at the end otherwise. */
  function Upsert(a: Answers, k: string, v: Value): (r: Answers)
    ensures Get(r, k) == Some(v)
    ensures forall k' :: k' != k ==> Get(r, k') == Get(a, k')
    ensures k !in Keys(a) ==> r == a + [(k, v)]
  {
    if a == [] then [(k, v)]
    else
      KeysCons(a);
      if a[0].0 == k then [(k, v)] + a[1..]
      else [a[0]] + Upsert(a[1..], k, v)
  }

  /** An upsert of a present key keeps every key where it was; an upsert
      keeps the keys of a dict unique. */
  lemma UpsertKeys(a: Answers, k: string, v: Value)
    ensures k in Keys(a) ==> Keys(Upsert(a, k, v)) == Keys(a)
    ensures UniqueKeys(a) ==> UniqueKeys(Upsert(a, k, v))
  {
    UpsertKeepsKeys(a, k, v);
    if UniqueKeys(a) {
      UpsertUnique(a, k, v);
    }
  }

  /** Overwriting a present key leaves the key sequence as it was. */
  lemma {:induction false} UpsertKeepsKeys(a: Answers, k: string, v: Value)
    ensures k in Keys(a) ==> Keys(Upsert(a, k, v)) == Keys(a)
  {
    if a != [] {
      var r := Upsert(a, k, v);
      KeysCons(a);
      KeysCons(r);
      if a[0].0 != k {
        UpsertKeepsKeys(a[1..], k, v);
        assert r[1..] == Upsert(a[1..], k, v);
      }
    }
  }

  /** An upsert never repeats a key. */
  lemma {:induction false} UpsertUnique(a: Answers, k: string, v: Value)
    requires UniqueKeys(a)
    ensures UniqueKeys(Upsert(a, k, v))
  {
    if a != [] {
      var r := Upsert(a, k, v);
      KeysCons(a);
      if a[0].0 == k {
        UpsertKeepsKeys(a, k, v);
      } else {
        var rest := Upsert(a[1..], k, v);
        assert r == [a[0]] + rest;
        TailUnique(a);
        UpsertUnique(a[1..], k, v);
        UpsertKeepsKeys(a[1..], k, v);
        if k !in Keys(a[1..]) {
          assert Keys(rest) == Keys(a[1..]) + [k];
        }
        assert a[0].0 !in Keys(rest);
        ConsUnique(a[0], rest);
      }
    }
  }

  /** The last write to a key wins, and its position is the first one's. */
  lemma {:induction false} UpsertOverwrites(a: Answers, k: string, v: Value, w: Value)
    ensures Upsert(Upsert(a, k, v), k, w) == Upsert(a, k, w)
  {
    if a != [] && a[0].0 != k {
      UpsertOverwrites(a[1..], k, v, w);
    }
  }

  /** Writing the same answer twice is the same as writing it once. */
  lemma UpsertIdempotent(a: Answers, k: string, v: Value)
    ensures Upsert(Upsert(a, k, v), k, v) == Upsert(a, k, v)
  {
    UpsertOverwrites(a, k, v, v);
  }

  /** `x` lists some of the elements of `y`, in `y`'s order. */
  predicate IsSubsequence(x: seq<string>, y: seq<string>)
    decreases |y|
  {
    x == [] || (y != [] && ((x[0] == y[0] && IsSubsequence(x[1..], y[1..])) || IsSubsequence(x, y[1..])))
  }

  /** The comprehension `[k for k, v in d.items() if p(k, v)]`. */
  function SelectKeys(a: Answers, p: (string, Value) -> bool): (r: seq<string>)
    ensures forall k :: k in r <==> exists v :: (k, v) in a && p(k, v)
    ensures IsSubsequence(r, Keys(a))
    ensures UniqueKeys(a) ==> Distinct(r)
    ensures |r| <= |a|
  {
    if a == [] then []
    else
      var rest := SelectKeys(a[1..], p);
      assert Keys(a)[1..] == Keys(a[1..]);
      assert forall k, v :: (k, v) in a <==> (k, v) == a[0] || (k, v) in a[1..];
      assert UniqueKeys(a) ==> Distinct(rest) && a[0].0 !in rest by {
        if UniqueKeys(a) {
          TailUnique(a);
          forall x | x in rest ensures x in Keys(a[1..]) {
            var w :| (x, w) in a[1..] && p(x, w);
            var j :| 0 <= j < |a| - 1 && a[1..][j] == (x, w);
            assert Keys(a[1..])[j] == x;
          }
        }
      }
      if p(a[0].0, a[0].1) then [a[0].0] + rest else rest
  }

  /** A pair that passes the filter has its key somewhere in the selection. */
  lemma {:induction false} SelectedAt(a: Answers, p: (string, Value) -> bool, j: int) returns (z: int)
    requires 0 <= j < |a| && p(a[j].0, a[j].1)
    ensures 0 <= z < |SelectKeys(a, p)| && SelectKeys(a, p)[z] == a[j].0
    decreases |a|
  {
    if j == 0 {
      z := 0;
    } else {
      assert a[j] == a[1..][j - 1];
      var z' := SelectedAt(a[1..], p, j - 1);
      z := if p(a[0].0, a[0].1) then z' + 1 else z';
    }
  }

  /** The comprehension keeps the store's order: of two selected items, the
      one stored first is listed first. */
  lemma {:induction false} SelectKeysInOrder(a: Answers, p: (string, Value) -> bool, i: int, j: int)
    returns (x: int, y: int)
    requires 0 <= i < j < |a| && p(a[i].0, a[i].1) && p(a[j].0, a[j].1)
    ensures 0 <= x < y < |SelectKeys(a, p)|
    ensures SelectKeys(a, p)[x] == a[i].0 && SelectKeys(a, p)[y] == a[j].0
    decreases |a|
  {
    assert a[j] == a[1..][j - 1];
    if i == 0 {
      var z := SelectedAt(a[1..], p, j - 1);
      x, y := 0, z + 1;
    } else {
      assert a[i] == a[1..][i - 1];
      var x', y' := SelectKeysInOrder(a[1..], p, i - 1, j - 1);
      if p(a[0].0, a[0].1) {
        x, y := x' + 1, y' + 1;
      } else {
        x, y := x', y';
      }
    }
  }

  /** On a dict, membership in a selection is decided by `get`. */
  lemma SelectKeysByGet(a: Answers, p: (string, Value) -> bool, k: string)
    requires UniqueKeys(a)
    ensures k in SelectKeys(a, p) <==> Get(a, k).Some? && p(k, Get(a, k).value)
  {
    if k in SelectKeys(a, p) {
      var v :| (k, v) in a && p(k, v);
      GetStored(a, k, v);
    }
  }

  /** The sections of `form_data`, in its declaration order. */
  datatype Section = Demographics | Symptoms | Cognitive | Medications | Adl | Iadl | MedicalHistory

  datatype FormData = FormData(
    demographics: Answers,
    symptoms: Answers,
    cognitive: Answers,
    medications: Answers,
    adl: Answers,
    iadl: Answers,
    medicalHistory: Answers)
  {
    function Get(s: Section): Answers
    {
      match s
      case Demographics => demographics
      case Symptoms => symptoms
      case Cognitive => cognitive
      case Medications => medications
      case Adl => adl
      case Iadl => iadl
      case MedicalHistory => medicalHistory
    }

    function With(s: Section, a: Answers): (r: FormData)
      ensures r.Get(s) == a
      ensures forall t :: t != s ==> r.Get(t) == Get(t)
    {
      match s
      case Demographics => this.(demographics := a)
      case Symptoms => this.(symptoms := a)
      case Cognitive => this.(cognitive := a)
      case Medications => this.(medications := a)
      case Adl => this.(adl := a)
      case Iadl => this.(iadl := a)
      case MedicalHistory => this.(medicalHistory := a)
    }

    predicate Valid()
    {
      forall s :: UniqueKeys(Get(s))
    }
  }

  /** The seven empty dicts `initialize_session_state` creates. */
  const EmptyForm := FormData([], [], [], [], [], [], [])

  /** `meds.get('medications_list', [])`. */
  function MedList(m: Answers): (r: seq<MedEntry>)
    ensures r != [] ==> Get(m, "medications_list") == Some(Meds(r))
    ensures Get(m, "medications_list") == Some(Meds(r)) || r == []
  {
    match Get(m, "medications_list")
    case Some(Meds(l)) => l
    case _ => []
  }

  /** `adl.get('mobility_aids_list', [])`. */
  function AidList(a: Answers): (r: seq<string>)
    ensures r != [] ==> Get(a, "mobility_aids_list") == Some(StrList(r))
    ensures Get(a, "mobility_aids_list") == Some(StrList(r)) || r == []
  {
    match Get(a, "mobility_aids_list")
    case Some(StrList(l)) => l
    case _ => []
  }

  /** The widgets of the personal-information page. */
  datatype PersonalInfo = PersonalInfo(
    firstName: string, lastName: string, dateOfBirth: Value, sex: string,
    phone: string, healthCard: string, emergencyName: string,
    emergencyRelation: string, emergencyPhone: string, preferredLanguage: string)

  const PersonalKeys: seq<string> := [
    "first_name", "last_name", "date_of_birth", "sex", "phone", "health_card",
    "emergency_name", "emergency_relation", "emergency_phone", "preferred_language"]

  /** The dict the personal-information page stores, replacing the old one. */
  function PersonalAnswers(p: PersonalInfo): (r: Answers)
    ensures Keys(r) == PersonalKeys
    ensures UniqueKeys(r)
  {
    [("first_name", Str(p.firstName)), ("last_name", Str(p.lastName)),
     ("date_of_birth", p.dateOfBirth), ("sex", Str(p.sex)), ("phone", Str(p.phone)),
     ("health_card", Str(p.healthCard)), ("emergency_name", Str(p.emergencyName)),
     ("emergency_relation", Str(p.emergencyRelation)),
     ("emergency_phone", Str(p.emergencyPhone)),
     ("preferred_language", Str(p.preferredLanguage))]
  }

  /** Reading back the stored personal-information dict gives each widget's value. */
  lemma PersonalAnswersFields(p: PersonalInfo)
    ensures var r := PersonalAnswers(p);
      && Get(r, "first_name") == Some(Str(p.firstName))
      && Get(r, "last_name") == Some(Str(p.lastName))
      && Get(r, "date_of_birth") == Some(p.dateOfBirth)
      && Get(r, "sex") == Some(Str(p.sex))
      && Get(r, "phone") == Some(Str(p.phone))
      && Get(r, "health_card") == Some(Str(p.healthCard))
      && Get(r, "emergency_name") == Some(Str(p.emergencyName))
      && Get(r, "emergency_relation") == Some(Str(p.emergencyRelation))
      && Get(r, "emergency_phone") == Some(Str(p.emergencyPhone))
      && Get(r, "preferred_language") == Some(Str(p.preferredLanguage))
  {
    var r := PersonalAnswers(p);
    GetStored(r, "first_name", Str(p.firstName));
    GetStored(r, "last_name", Str(p.lastName));
    GetStored(r, "date_of_birth", p.dateOfBirth);
    GetStored(r, "sex", Str(p.sex));
    GetStored(r, "phone", Str(p.phone));
    GetStored(r, "health_card", Str(p.healthCard));
    GetStored(r, "emergency_name", Str(p.emergencyName));
    GetStored(r, "emergency_relation", Str(p.emergencyRelation));
    GetStored(r, "emergency_phone", Str(p.emergencyPhone));
    GetStored(r, "preferred_language", Str(p.preferredLanguage));
  }
}
