/** The dashboard's summary of saved meal plans and medications: the label of a
    meal slot, the number of filled slots of a plan, the chips naming them, and
    the active medications. */
module Dashboard {

  import opened Js
  import JsText
  import Seqs

  /** One `[key, value]` pair of `Object.entries(plan)`, in property order. */
  datatype Entry = Entry(key: string, value: JsVal)

  /** The keys the dashboard treats as meal slots. */
  const MealKeys: seq<string> := ["meal1", "meal2", "meal3", "meal4", "meal5", "snacks"]

  /** `getMealLabel`: the display name of a slot; any other key is shown as it is. */
  function GetMealLabel(mealType: string): (shown: string)
    ensures mealType !in MealKeys ==> shown == mealType
    ensures mealType in MealKeys ==> shown !in MealKeys
  {
    match mealType
    case "meal1" => "Breakfast"
    case "meal2" => "Morning Snack"
    case "meal3" => "Lunch"
    case "meal4" => "Afternoon Snack"
    case "meal5" => "Dinner"
    case "snacks" => "Additional Snacks"
    case _ => mealType
  }

  /** The name a chip gives a slot; the chips call the last slot "Snacks". */
  function ChipName(key: string): string
    requires key in MealKeys
  {
    if key == "snacks" then "Snacks" else GetMealLabel(key)
  }

  /** Whether an entry is a filled meal slot: a slot key whose value is truthy
      and not blank after `trim()`. `None` when `value.trim` is not a function,
      that is for a truthy value that is not a string: the expression throws. */
  function Filled(e: Entry): Option<bool> {
    if e.key !in MealKeys || !Truthy(e.value) then Some(false)
    else if !e.value.Str? then None
    else Some(JsText.Trim(e.value.s) != [])
  }

  /** `getMealCount(plan)`; `None` when the filter callback throws. */
  function GetMealCount(entries: seq<Entry>): Option<nat>
    decreases |entries|
  {
    if entries == [] then Some(0)
    else
      match (GetMealCount(entries[..|entries| - 1]), Filled(entries[|entries| - 1]))
      case (Some(n), Some(f)) => Some(if f then n + 1 else n)
      case _ => None
  }

  /** The chip labels the meal-plan row renders, one per filled slot, in
      property order; `None` when the render callback throws. */
  function ChipLabels(entries: seq<Entry>): Option<seq<string>>
    decreases |entries|
  {
    if entries == [] then Some([])
    else
      var e := entries[|entries| - 1];
      match (ChipLabels(entries[..|entries| - 1]), Filled(e))
      case (Some(labels), Some(f)) =>
        Some(if f then labels + [ChipName(e.key) + ": " + e.value.s] else labels)
      case _ => None
  }

  /** A filled slot, stated without `trim`: a slot key holding text with a
      non-whitespace character. */
  predicate Countable(e: Entry) {
    e.key in MealKeys && e.value.Str? && !JsText.IsBlank(e.value.s)
  }

  /** Every truthy slot value is text, so neither the count nor the chips throw. */
  predicate SlotsAreText(entries: seq<Entry>) {
    forall i :: 0 <= i < |entries| && entries[i].key in MealKeys && Truthy(entries[i].value)
      ==> entries[i].value.Str?
  }

  /** The row shows exactly as many chips as the "meals" column counts, and
      both throw on the same plans. */
  lemma {:induction false} ChipsMatchCount(entries: seq<Entry>)
    ensures ChipLabels(entries).Some? <==> GetMealCount(entries).Some?
    ensures ChipLabels(entries).Some? ==> |ChipLabels(entries).value| == GetMealCount(entries).value
    decreases |entries|
  {
    if entries != [] {
      ChipsMatchCount(entries[..|entries| - 1]);
    }
  }

  /** The count throws exactly when some slot holds a truthy value that is not text. */
  lemma {:induction false} CountThrowsIff(entries: seq<Entry>)
    ensures GetMealCount(entries).Some? <==> SlotsAreText(entries)
    decreases |entries|
  {
    if entries != [] {
      var init := entries[..|entries| - 1];
      CountThrowsIff(init);
      if SlotsAreText(entries) {
        forall i | 0 <= i < |init| && init[i].key in MealKeys && Truthy(init[i].value)
          ensures init[i].value.Str?
        {
          assert init[i] == entries[i];
        }
      }
      if SlotsAreText(init) && Filled(entries[|entries| - 1]).Some? {
        forall i | 0 <= i < |entries| && entries[i].key in MealKeys && Truthy(entries[i].value)
          ensures entries[i].value.Str?
        {
          if i < |init| { assert entries[i] == init[i]; }
        }
      }
    }
  }

  /** The count is the number of slot entries holding non-blank text. */
  lemma {:induction false} CountIsFilledSlots(entries: seq<Entry>)
    requires SlotsAreText(entries)
    ensures GetMealCount(entries) == Some(|Seqs.Filter(entries, Countable)|)
    decreases |entries|
  {
    if entries != [] {
      var init := entries[..|entries| - 1];
      var e := entries[|entries| - 1];
      assert SlotsAreText(init) by {
        forall i | 0 <= i < |init| && init[i].key in MealKeys && Truthy(init[i].value)
          ensures init[i].value.Str?
        {
          assert init[i] == entries[i];
        }
      }
      CountIsFilledSlots(init);
      if e.value.Str? {
        JsText.TrimEmptyIffBlank(e.value.s);
      }
    }
  }

  /** Each chip reads "<slot name>: <slot text>", one per filled slot, in property order. */
  lemma {:induction false} ChipLabelsWording(entries: seq<Entry>)
    requires SlotsAreText(entries)
    ensures ChipLabels(entries).Some?
    ensures var filled := Seqs.Filter(entries, Countable);
      && |ChipLabels(entries).value| == |filled|
      && forall i :: 0 <= i < |filled| ==>
           Countable(filled[i]) && ChipLabels(entries).value[i] == ChipName(filled[i].key) + ": " + filled[i].value.s
    decreases |entries|
  {
    if entries != [] {
      var init := entries[..|entries| - 1];
      var e := entries[|entries| - 1];
      assert SlotsAreText(init) by {
        forall i | 0 <= i < |init| && init[i].key in MealKeys && Truthy(init[i].value)
          ensures init[i].value.Str?
        {
          assert init[i] == entries[i];
        }
      }
      ChipLabelsWording(init);
      if e.value.Str? {
        JsText.TrimEmptyIffBlank(e.value.s);
      }
      assert Filled(e) == Some(Countable(e));
    }
  }

  /** The keys of `Object.entries` are distinct. */
  predicate DistinctKeys(entries: seq<Entry>) {
    forall i, j :: 0 <= i < j < |entries| ==> entries[i].key != entries[j].key
  }

  /** The slot keys among the filled entries. */
  function FilledKeys(entries: seq<Entry>): set<string> {
    set i | 0 <= i < |entries| && Countable(entries[i]) :: entries[i].key
  }

  /** The filled keys of a list are those of its first part plus the last entry's key when it is filled. */
  lemma FilledKeysStep(entries: seq<Entry>)
    requires entries != []
    ensures var e := entries[|entries| - 1];
      FilledKeys(entries) == FilledKeys(entries[..|entries| - 1]) + (if Countable(e) then {e.key} else {})
  {
    var init := entries[..|entries| - 1];
    var e := entries[|entries| - 1];
    var extra: set<string> := if Countable(e) then {e.key} else {};
    forall k | k in FilledKeys(entries) ensures k in FilledKeys(init) + extra {
      var i :| 0 <= i < |entries| && Countable(entries[i]) && entries[i].key == k;
      if i < |init| { assert entries[i] == init[i]; }
    }
    forall k | k in FilledKeys(init) ensures k in FilledKeys(entries) {
      var i :| 0 <= i < |init| && Countable(init[i]) && init[i].key == k;
      assert entries[i] == init[i];
    }
  }

  /** With distinct keys, the filled entries and their keys are equally many. */
  lemma {:induction false} CountIsFilledKeys(entries: seq<Entry>)
    requires DistinctKeys(entries)
    ensures |Seqs.Filter(entries, Countable)| == |FilledKeys(entries)|
    decreases |entries|
  {
    if entries != [] {
      var init := entries[..|entries| - 1];
      var e := entries[|entries| - 1];
      assert DistinctKeys(init) by {
        forall i, j | 0 <= i < j < |init| ensures init[i].key != init[j].key {
          assert init[i] == entries[i] && init[j] == entries[j];
        }
      }
      CountIsFilledKeys(init);
      FilledKeysStep(entries);
      if Countable(e) {
        forall i | 0 <= i < |init| && Countable(init[i]) ensures init[i].key != e.key {
          assert init[i] == entries[i];
        }
        assert e.key !in FilledKeys(init);
      }
    }
  }

  /** A plan shows at most six meals. */
  lemma MealCountAtMostSix(entries: seq<Entry>)
    requires DistinctKeys(entries) && SlotsAreText(entries)
    ensures GetMealCount(entries).Some? && GetMealCount(entries).value <= 6
  {
    CountIsFilledSlots(entries);
    CountIsFilledKeys(entries);
    var slots := {"meal1", "meal2", "meal3", "meal4", "meal5", "snacks"};
    assert FilledKeys(entries) <= slots;
    SubsetSize(FilledKeys(entries), slots);
  }

  lemma SubsetSize(a: set<string>, b: set<string>)
    requires a <= b
    ensures |a| <= |b|
  {
    assert b == a + (b - a);
  }

  /** The medications in the dashboard's list: `medicationsData?.data || []`. */
  function MedicationsOf(response: JsVal): JsVal {
    if !Accessible(response) then Arr([]) else Or(Prop(response, "data"), Arr([]))
  }

  predicate ActiveFlag(med: JsVal) {
    Accessible(med) && Truthy(Prop(med, "active"))
  }

  /** `medications.filter(med => med.active)`: `None` when the list is not an
      array or one of its elements is `null` or `undefined` (the filter throws). */
  function ActiveMedications(medications: JsVal): Option<seq<JsVal>> {
    if !medications.Arr? then None
    else if exists i :: 0 <= i < |medications.items| && !Accessible(medications.items[i]) then None
    else Some(Seqs.Filter(medications.items, ActiveFlag))
  }

  /** The active list holds exactly the medications whose `active` is truthy. */
  lemma ActiveMedicationsMembers(response: JsVal)
    requires ActiveMedications(MedicationsOf(response)).Some?
    ensures var meds := MedicationsOf(response).items;
      var active := ActiveMedications(MedicationsOf(response)).value;
      && |active| <= |meds|
      && (forall m :: m in active ==> m in meds && Truthy(Prop(m, "active")))
      && (forall m :: m in meds && Truthy(Prop(m, "active")) ==> m in active)
  {
    var meds := MedicationsOf(response).items;
    Seqs.FilterMembers(meds, ActiveFlag);
    forall m | m in meds ensures Accessible(m) {
      var i :| 0 <= i < |meds| && meds[i] == m;
    }
  }

  /** A response without data lists no medications. */
  lemma NoDataNoMedications(response: JsVal)
    requires !Accessible(response) || !Truthy(Prop(response, "data"))
    ensures ActiveMedications(MedicationsOf(response)) == Some([])
  {
  }
}
