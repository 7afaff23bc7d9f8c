/** Medication and meal-plan documents as the client receives them from the API. */
module Schema {

  import opened Js

  /** A date field of a document: missing, present but not a valid date, or an instant. */
  datatype DateField = Absent | Unparseable | At(instant: int)

  /** A stored medication. `time` is the "HH:mm" field read as minutes since midnight,
      `None` when it does not parse as HH:mm. */
  datatype Med = Med(
    id: string,
    name: string,
    dosage: string,
    frequency: string,
    time: Option<int>,
    active: bool,
    endDate: DateField,
    expiryDate: DateField)

  /** The six meal slots of a plan, `meal1` .. `meal5` and `snacks`. */
  datatype Slot = Meal1 | Meal2 | Meal3 | Meal4 | Meal5 | Snacks

  /** The slots in the order the source lists them. */
  const Slots: seq<Slot> := [Meal1, Meal2, Meal3, Meal4, Meal5, Snacks]

  /** The document key of a slot. */
  function SlotKey(s: Slot): string {
    match s
    case Meal1 => "meal1"
    case Meal2 => "meal2"
    case Meal3 => "meal3"
    case Meal4 => "meal4"
    case Meal5 => "meal5"
    case Snacks => "snacks"
  }

  /** A stored meal plan: its date and the text of the slots that are present. */
  datatype MealPlan = MealPlan(date: DateField, meals: map<Slot, string>)

  /** The text of a slot, "" when the slot is missing. */
  function Content(p: MealPlan, s: Slot): string {
    if s in p.meals then p.meals[s] else ""
  }
}
