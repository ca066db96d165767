/** The medication list kept under `medications_list` in the medications
    section. The number input fixes how many rows there are; the list is
    padded with empty entries, each row is overwritten with what its three
    widgets return, and the list is stored back cut to that many rows. */
module MedicationList {
  import opened Store

  /** The options of the "How often?" selectbox. */
  const FrequencyOptions: seq<string> :=
    ["Once daily", "Twice daily", "Three times daily", "As needed", "Weekly", "Other"]

  /** The entry the padding loop appends. */
  const EmptyEntry := MedEntry("", "", "")

  /** What the three widgets of one row return: `None` when the user left a
      widget as it was rendered. The name and dose inputs are rendered with
      the row's stored text; the frequency selectbox is rendered without a
      stored value and so shows its first option. */
  datatype RowInput = RowInput(name: Option<string>, dose: Option<string>, frequency: Option<string>)

  const Untouched := RowInput(None, None, None)

  /** The list after the `while len(...) < num_meds: append(...)` loop. */
  function Padded(stored: seq<MedEntry>, n: nat): (r: seq<MedEntry>)
    ensures |r| == if |stored| < n then n else |stored|
    ensures r[..|stored|] == stored
    ensures forall i :: |stored| <= i < |r| ==> r[i] == EmptyEntry
  {
    if |stored| < n then stored + seq(n - |stored|, _ => EmptyEntry) else stored
  }

  /** Padding then slicing to `n`: the list resized to exactly `n` rows. */
  function Resized(stored: seq<MedEntry>, n: nat): (r: seq<MedEntry>)
    ensures |r| == n
    ensures forall i :: 0 <= i < n && i < |stored| ==> r[i] == stored[i]
    ensures forall i :: |stored| <= i < n ==> r[i] == EmptyEntry
  {
    Padded(stored, n)[..n]
  }

  /** The entry a row's widgets produce, given the entry they were rendered from. */
  function Entered(shown: MedEntry, input: RowInput): MedEntry
  {
    MedEntry(input.name.GetOr(shown.name), input.dose.GetOr(shown.dose),
             input.frequency.GetOr(FrequencyOptions[0]))
  }

  /** The list stored back after one rendering of the medications page. */
  function Synced(stored: seq<MedEntry>, n: nat, inputs: seq<RowInput>): (r: seq<MedEntry>)
    requires |inputs| == n
    ensures |r| == n
    ensures forall i :: 0 <= i < n ==> r[i] == Entered(Resized(stored, n)[i], inputs[i])
  {
    var shown := Resized(stored, n);
    seq(n, i requires 0 <= i < n => Entered(shown[i], inputs[i]))
  }

  /** The synchronisation loop of the medications page: pad, overwrite each
      of the first `numMeds` rows with its widgets' values, store the slice. */
  method SyncMedications(stored: seq<MedEntry>, numMeds: int, inputs: seq<RowInput>)
    returns (saved: seq<MedEntry>)
    requires 1 <= numMeds <= 30
    requires |inputs| == numMeds
    ensures |saved| == numMeds
    ensures saved == Synced(stored, numMeds, inputs)
  {
    var list := stored;
    while |list| < numMeds
      invariant |stored| <= |list| <= if |stored| < numMeds then numMeds else |stored|
      invariant list[..|stored|] == stored
      invariant forall j :: |stored| <= j < |list| ==> list[j] == EmptyEntry
    {
      list := list + [EmptyEntry];
    }
    ghost var padded := list;
    assert padded == Padded(stored, numMeds);
    for i := 0 to numMeds
      invariant |list| == |padded|
      invariant forall j :: 0 <= j < i ==> list[j] == Entered(padded[j], inputs[j])
      invariant forall j :: i <= j < |list| ==> list[j] == padded[j]
    {
      var name := if inputs[i].name.Some? then inputs[i].name.value else list[i].name;
      var dose := if inputs[i].dose.Some? then inputs[i].dose.value else list[i].dose;
      var frequency := if inputs[i].frequency.Some? then inputs[i].frequency.value else FrequencyOptions[0];
      list := list[i := MedEntry(name, dose, frequency)];
    }
    saved := list[..numMeds];
  }

  /** A row whose name and dose widgets are left alone keeps its stored name
      and dose; a new row starts empty. Its frequency is whatever the
      selectbox shows, which is the first option when left alone, whatever
      was stored before. */
  lemma UntouchedRow(stored: seq<MedEntry>, n: nat, inputs: seq<RowInput>, i: nat)
    requires |inputs| == n && i < n
    requires inputs[i] == Untouched
    ensures Synced(stored, n, inputs)[i].name == (if i < |stored| then stored[i].name else "")
    ensures Synced(stored, n, inputs)[i].dose == (if i < |stored| then stored[i].dose else "")
    ensures Synced(stored, n, inputs)[i].frequency == "Once daily"
  {
  }

  /** Rows at an index both counts share are the same after resizing to one
      count and then the other as after resizing straight to the second. */
  lemma {:induction false} ResizeTwice(stored: seq<MedEntry>, n1: nat, n2: nat)
    ensures |Resized(Resized(stored, n1), n2)| == n2
    ensures forall i :: 0 <= i < n1 && i < n2 ==>
      Resized(Resized(stored, n1), n2)[i] == Resized(stored, n2)[i]
  {
  }

  /** Lowering the count from three rows to one keeps exactly the first row
      when the user re-selects its frequency and edits nothing else. */
  lemma ShrinkToOne(stored: seq<MedEntry>)
    requires |stored| == 3
    ensures Synced(stored, 1, [RowInput(None, None, Some(stored[0].frequency))]) == [stored[0]]
  {
  }
}
