/** The medications page: a local list of medications, the add/edit form, the
    medication being edited and the visibility of the form dialog, with the
    operations the page's buttons and inputs trigger. */
module MedicationsPage {

  import opened Js
  import Seqs
  import QrScanner

  /** The form's fields, named after the input elements. */
  datatype Field = Name | Dosage | Frequency | Time | StartDate | EndDate
                 | ManufacturingDate | ExpiryDate | Notes | Active

  /** The form state: one value per field. */
  type Form = map<Field, JsVal>

  predicate Complete(f: Form) {
    Name in f && Dosage in f && Frequency in f && Time in f && StartDate in f && EndDate in f
    && ManufacturingDate in f && ExpiryDate in f && Notes in f && Active in f
  }

  /** `record.field`, `undefined` when the field is missing. */
  function Get(f: Form, k: Field): JsVal {
    if k in f then f[k] else Undefined
  }

  /** A medication of the page's list: the submitted form fields and an id. */
  datatype Medication = Medication(id: int, data: Form)

  /** The initial form; `today` is `new Date().toISOString().substr(0, 10)`. */
  function DefaultForm(today: string): (f: Form)
    ensures Complete(f)
  {
    map[Name := Str(""), Dosage := Str(""), Frequency := Str(""), Time := Str(""),
        StartDate := Str(today), EndDate := Str(""), ManufacturingDate := Str(""),
        ExpiryDate := Str(""), Notes := Str(""), Active := Bool(true)]
  }

  /** The record `handleSubmit` builds: the form, with an empty end date replaced by `null`, and the id. */
  function Submitted(form: Form, id: int): (r: Medication)
    ensures r.id == id
    ensures Truthy(Get(form, EndDate)) ==> Get(r.data, EndDate) == Get(form, EndDate)
    ensures !Truthy(Get(form, EndDate)) ==> Get(r.data, EndDate) == Null
    ensures forall k :: k != EndDate ==> Get(r.data, k) == Get(form, k)
    ensures Complete(form) ==> Complete(r.data)
  {
    Medication(id, form[EndDate := Or(Get(form, EndDate), Null)])
  }

  /** `list.map(med => med.id === id ? rec : med)` */
  function ReplaceById(list: seq<Medication>, id: int, rec: Medication): seq<Medication>
    decreases |list|
  {
    if list == [] then []
    else
      var last := list[|list| - 1];
      ReplaceById(list[..|list| - 1], id, rec) + [if last.id == id then rec else last]
  }

  /** `list.filter(med => med.id !== id)` */
  function RemoveById(list: seq<Medication>, id: int): seq<Medication> {
    Seqs.Filter(list, (m: Medication) => m.id != id)
  }

  predicate IsActive(m: Medication) {
    Truthy(Get(m.data, Active))
  }

  function ActiveOnes(list: seq<Medication>): seq<Medication> {
    Seqs.Filter(list, (m: Medication) => IsActive(m))
  }

  function InactiveOnes(list: seq<Medication>): seq<Medication> {
    Seqs.Filter(list, (m: Medication) => !IsActive(m))
  }

  /** The form `openEditForm` fills for `m`. `toDay(v)` is
      `new Date(v).toISOString().substr(0, 10)`, `None` when `toISOString` throws
      on an invalid date; the handler then stops before changing any state. */
  function EditForm(m: Medication, toDay: JsVal -> Option<string>): (r: Option<Form>)
    ensures r.None? <==> (
      || toDay(Get(m.data, StartDate)).None?
      || (Truthy(Get(m.data, EndDate)) && toDay(Get(m.data, EndDate)).None?)
      || (Truthy(Get(m.data, ManufacturingDate)) && toDay(Get(m.data, ManufacturingDate)).None?)
      || (Truthy(Get(m.data, ExpiryDate)) && toDay(Get(m.data, ExpiryDate)).None?))
    ensures r.Some? ==> (
      && Complete(r.value)
      && r.value[Name] == Get(m.data, Name) && r.value[Active] == Get(m.data, Active)
      && r.value[StartDate] == Str(toDay(Get(m.data, StartDate)).value)
      && (!Truthy(Get(m.data, EndDate)) ==> r.value[EndDate] == Str(""))
      && Truthy(r.value[Notes]) == Truthy(Get(m.data, Notes)))
  {
    var d := m.data;
    var start := toDay(Get(d, StartDate));
    var end := if Truthy(Get(d, EndDate)) then toDay(Get(d, EndDate)) else Some("");
    var mfg := if Truthy(Get(d, ManufacturingDate)) then toDay(Get(d, ManufacturingDate)) else Some("");
    var exp := if Truthy(Get(d, ExpiryDate)) then toDay(Get(d, ExpiryDate)) else Some("");
    if start.None? || end.None? || mfg.None? || exp.None? then None
    else Some(map[
      Name := Get(d, Name), Dosage := Get(d, Dosage), Frequency := Get(d, Frequency),
      Time := Get(d, Time), StartDate := Str(start.value), EndDate := Str(end.value),
      ManufacturingDate := Str(mfg.value), ExpiryDate := Str(exp.value),
      Notes := Or(Get(d, Notes), Str("")), Active := Get(d, Active)])
  }

  /** `formatDateForInput`: "" for a falsy value or one whose conversion throws. */
  function FormatDateForInput(v: JsVal, toDay: JsVal -> Option<string>): string {
    if !Truthy(v) then ""
    else match toDay(v)
      case None => ""
      case Some(day) => day
  }

  /** The form `handleScanComplete` builds from a scanned record. */
  function ScanForm(scan: QrScanner.ScanRecord, toDay: JsVal -> Option<string>, today: string): (r: Form)
    ensures Complete(r)
    ensures r[Active] == Bool(true)
    ensures r[Notes] == if Truthy(scan.notes) then scan.notes else Str("Imported from QR code scan")
    ensures Truthy(scan.name) ==> r[Name] == scan.name
    ensures !Truthy(scan.name) ==> r[Name] == Str("")
    ensures (!Truthy(scan.startDate) || toDay(scan.startDate) == None) ==> r[StartDate] == Str(today)
    ensures (!Truthy(scan.expiryDate) || toDay(scan.expiryDate) == None) ==> r[ExpiryDate] == Str("")
  {
    map[
      Name := Or(scan.name, Str("")),
      Dosage := Or(scan.dosage, Str("")),
      Frequency := Or(scan.frequency, Str("")),
      Time := Or(scan.time, Str("")),
      StartDate := Or(Str(FormatDateForInput(scan.startDate, toDay)), Str(today)),
      EndDate := Or(Str(FormatDateForInput(scan.endDate, toDay)), Str("")),
      ManufacturingDate := Or(Str(FormatDateForInput(scan.manufacturingDate, toDay)), Str("")),
      ExpiryDate := Or(Str(FormatDateForInput(scan.expiryDate, toDay)), Str("")),
      Notes := Or(scan.notes, Str("Imported from QR code scan")),
      Active := Bool(true)]
  }

  class Page {
    var medicationList: seq<Medication>
    var showForm: bool
    var showScanner: bool
    var editingMedication: Option<Medication>
    var formData: Form

    predicate Valid()
      reads this
    {
      Complete(formData)
    }

    constructor (today: string)
      ensures Valid()
      ensures medicationList == [] && !showForm && !showScanner && editingMedication == None
      ensures formData == DefaultForm(today)
    {
      medicationList := [];
      showForm := false;
      showScanner := false;
      editingMedication := None;
      formData := DefaultForm(today);
    }

    /** `handleChange`: only the named field changes, to `checked` for a checkbox
        and to the text otherwise. */
    method HandleChange(name: Field, value: string, isCheckbox: bool, checked: bool)
      requires Valid()
      modifies this
      ensures Valid()
      ensures formData == old(formData)[name := if isCheckbox then Bool(checked) else Str(value)]
      ensures medicationList == old(medicationList) && editingMedication == old(editingMedication)
      ensures showForm == old(showForm) && showScanner == old(showScanner)
    {
      formData := formData[name := if isCheckbox then Bool(checked) else Str(value)];
    }

    /** `resetForm`: default form, nothing being edited. */
    method ResetForm(today: string)
      modifies this
      ensures Valid()
      ensures formData == DefaultForm(today) && editingMedication == None
      ensures medicationList == old(medicationList)
      ensures showForm == old(showForm) && showScanner == old(showScanner)
    {
      formData := DefaultForm(today);
      editingMedication := None;
    }

    /** `openAddForm` */
    method OpenAddForm(today: string)
      modifies this
      ensures Valid()
      ensures formData == DefaultForm(today) && editingMedication == None && showForm
      ensures medicationList == old(medicationList) && showScanner == old(showScanner)
    {
      ResetForm(today);
      showForm := true;
    }

    /** `openEditForm`: loads `m` into the form and opens it; when a date of `m`
        cannot be converted the handler throws and nothing changes. */
    method OpenEditForm(m: Medication, toDay: JsVal -> Option<string>) returns (ok: bool)
      requires Valid()
      modifies this
      ensures Valid()
      ensures ok <==> EditForm(m, toDay).Some?
      ensures ok ==> formData == EditForm(m, toDay).value && editingMedication == Some(m) && showForm
      ensures !ok ==> formData == old(formData) && editingMedication == old(editingMedication)
                      && showForm == old(showForm)
      ensures medicationList == old(medicationList) && showScanner == old(showScanner)
    {
      var form := EditForm(m, toDay);
      ok := form.Some?;
      if ok {
        formData := form.value;
        editingMedication := Some(m);
        showForm := true;
      }
    }

    /** `handleSubmit`: replaces the medication being edited, or appends a new one
        with id `nowMs` (`Date.now()`), then hides and resets the form. */
    method HandleSubmit(nowMs: int, today: string)
      modifies this
      ensures Valid()
      ensures old(editingMedication).Some? ==>
        medicationList == ReplaceById(old(medicationList), old(editingMedication).value.id,
                                      Submitted(old(formData), old(editingMedication).value.id))
      ensures old(editingMedication).None? ==>
        medicationList == old(medicationList) + [Submitted(old(formData), nowMs)]
      ensures !showForm && formData == DefaultForm(today) && editingMedication == None
      ensures showScanner == old(showScanner)
    {
      var id := if editingMedication.Some? then editingMedication.value.id else nowMs;
      var rec := Submitted(formData, id);
      if editingMedication.Some? {
        medicationList := ReplaceById(medicationList, editingMedication.value.id, rec);
      } else {
        medicationList := medicationList + [rec];
      }
      showForm := false;
      ResetForm(today);
    }

    /** `handleDelete`: when the user confirms, drops every medication with that id. */
    method HandleDelete(id: int, confirmed: bool)
      modifies this
      ensures medicationList == if confirmed then RemoveById(old(medicationList), id) else old(medicationList)
      ensures formData == old(formData) && editingMedication == old(editingMedication)
      ensures showForm == old(showForm) && showScanner == old(showScanner)
    {
      if confirmed {
        medicationList := RemoveById(medicationList, id);
      }
    }

    /** `handleScanComplete`: the scanned record becomes the form, the scanner
        closes and the form opens. The medication being edited is left as it is. */
    method HandleScanComplete(scan: QrScanner.ScanRecord, toDay: JsVal -> Option<string>, today: string)
      modifies this
      ensures Valid()
      ensures formData == ScanForm(scan, toDay, today) && !showScanner && showForm
      ensures medicationList == old(medicationList) && editingMedication == old(editingMedication)
    {
      formData := ScanForm(scan, toDay, today);
      showScanner := false;
      showForm := true;
    }

    /** Closing the dialog (its close button, Cancel or a click outside) only hides it. */
    method CloseForm()
      modifies this
      ensures !showForm
      ensures medicationList == old(medicationList) && formData == old(formData)
      ensures editingMedication == old(editingMedication) && showScanner == old(showScanner)
    {
      showForm := false;
    }

    /** The "Scan QR Code" button. */
    method OpenScanner()
      modifies this
      ensures showScanner
      ensures medicationList == old(medicationList) && formData == old(formData)
      ensures editingMedication == old(editingMedication) && showForm == old(showForm)
    {
      showScanner := true;
    }

    /** Closing the scanner dialog. */
    method CloseScanner()
      modifies this
      ensures !showScanner
      ensures medicationList == old(medicationList) && formData == old(formData)
      ensures editingMedication == old(editingMedication) && showForm == old(showForm)
    {
      showScanner := false;
    }

    /** `handleScanComplete` as its comment intends ("for new medications"):
        the scanned record starts a new medication, so nothing is being edited. */
    method HandleScanCompleteAsNew(scan: QrScanner.ScanRecord, toDay: JsVal -> Option<string>, today: string)
      modifies this
      ensures Valid()
      ensures formData == ScanForm(scan, toDay, today) && !showScanner && showForm
      ensures editingMedication == None
      ensures medicationList == old(medicationList)
    {
      HandleScanComplete(scan, toDay, today);
      editingMedication := None;
    }

    /** `groupedMedications`: the active and the inactive medications, each in list order. */
    method GroupedMedications() returns (active: seq<Medication>, inactive: seq<Medication>)
      ensures forall m :: m in active <==> m in medicationList && IsActive(m)
      ensures forall m :: m in inactive <==> m in medicationList && !IsActive(m)
      ensures |active| + |inactive| == |medicationList|
      ensures active == ActiveOnes(medicationList) && inactive == InactiveOnes(medicationList)
    {
      active := ActiveOnes(medicationList);
      inactive := InactiveOnes(medicationList);
      Seqs.FilterMembers(medicationList, (m: Medication) => IsActive(m));
      Seqs.FilterMembers(medicationList, (m: Medication) => !IsActive(m));
      Seqs.FilterPartition(medicationList, (m: Medication) => IsActive(m), (m: Medication) => !IsActive(m));
    }
  }

  /** The grouping keeps list order: grouping a list made of two parts gives
      the groups of the first part followed by those of the second. */
  lemma GroupingKeepsOrder(a: seq<Medication>, b: seq<Medication>)
    ensures ActiveOnes(a + b) == ActiveOnes(a) + ActiveOnes(b)
    ensures InactiveOnes(a + b) == InactiveOnes(a) + InactiveOnes(b)
  {
    Seqs.FilterConcat(a, b, (m: Medication) => IsActive(m));
    Seqs.FilterConcat(a, b, (m: Medication) => !IsActive(m));
  }

  /** Replacing by id keeps the length and the order, swaps in `rec` at every
      position holding that id and leaves every other medication as it was. */
  lemma {:induction false} ReplaceByIdSpec(list: seq<Medication>, id: int, rec: Medication)
    ensures |ReplaceById(list, id, rec)| == |list|
    ensures forall i :: 0 <= i < |list| ==>
      ReplaceById(list, id, rec)[i] == if list[i].id == id then rec else list[i]
    decreases |list|
  {
    if list != [] {
      ReplaceByIdSpec(list[..|list| - 1], id, rec);
    }
  }

  /** Deleting by id keeps exactly the medications with another id, in order. */
  lemma RemoveByIdSpec(list: seq<Medication>, id: int)
    ensures forall m :: m in RemoveById(list, id) ==> m in list && m.id != id
    ensures forall m :: m in list && m.id != id ==> m in RemoveById(list, id)
    ensures |RemoveById(list, id)| <= |list|
  {
    Seqs.FilterMembers(list, (m: Medication) => m.id != id);
  }

  /** Deleting an id that no medication has leaves the list as it is. */
  lemma {:induction false} RemoveAbsentId(list: seq<Medication>, id: int)
    requires forall i :: 0 <= i < |list| ==> list[i].id != id
    ensures RemoveById(list, id) == list
    decreases |list|
  {
    if list != [] {
      RemoveAbsentId(list[..|list| - 1], id);
      assert list[..|list| - 1] + [list[|list| - 1]] == list;
    }
  }

  /** A date field as the date inputs hold it: "" or a day that converts to itself. */
  predicate InputDay(v: JsVal, toDay: JsVal -> Option<string>) {
    v.Str? && (v.s == "" || toDay(v) == Some(v.s))
  }

  /** The saved medication's dates are as the form stores them and its notes are text. */
  predicate Canonical(m: Medication, toDay: JsVal -> Option<string>) {
    && Complete(m.data)
    && InputDay(m.data[StartDate], toDay) && m.data[StartDate] != Str("")
    && (m.data[EndDate] == Null || (InputDay(m.data[EndDate], toDay) && m.data[EndDate] != Str("")))
    && InputDay(m.data[ManufacturingDate], toDay) && InputDay(m.data[ExpiryDate], toDay)
    && m.data[Notes].Str?
  }

  /** One field of a medication survives opening it for editing and saving it. */
  lemma EditSubmitField(m: Medication, toDay: JsVal -> Option<string>, k: Field)
    requires Canonical(m, toDay)
    ensures EditForm(m, toDay).Some?
    ensures k in Submitted(EditForm(m, toDay).value, m.id).data
    ensures Submitted(EditForm(m, toDay).value, m.id).data[k] == m.data[k]
  {
    var r := Submitted(EditForm(m, toDay).value, m.id);
    assert Get(r.data, k) == Get(m.data, k);
  }

  /** Opening a saved medication for editing and saving it unchanged gives back
      the same record, provided its dates are as the form stores them and its
      notes are text. */
  lemma EditSubmitRoundTrip(m: Medication, toDay: JsVal -> Option<string>)
    requires Canonical(m, toDay)
    ensures EditForm(m, toDay).Some?
    ensures Submitted(EditForm(m, toDay).value, m.id) == m
  {
    var r := Submitted(EditForm(m, toDay).value, m.id);
    forall k: Field ensures k in r.data && r.data[k] == m.data[k] {
      EditSubmitField(m, toDay, k);
    }
    assert r.data == m.data;
  }

  /** Editing a medication, dismissing the dialog, scanning a code and saving,
      with the handlers as written: the scanned medication overwrites the one
      that was being edited instead of being added, and the list keeps its length. */
  method EditDismissScanSubmit(page: Page, m: Medication, toDay: JsVal -> Option<string>,
                               scan: QrScanner.ScanRecord, nowMs: int, today: string)
    returns (edited: bool)
    requires page.Valid()
    modifies page
    ensures edited <==> EditForm(m, toDay).Some?
    ensures edited ==> (page.medicationList ==
      ReplaceById(old(page.medicationList), m.id, Submitted(ScanForm(scan, toDay, today), m.id)))
    ensures edited ==> |page.medicationList| == |old(page.medicationList)|
  {
    edited := page.OpenEditForm(m, toDay);
    page.CloseForm();
    page.HandleScanComplete(scan, toDay, today);
    page.HandleSubmit(nowMs, today);
    ReplaceByIdSpec(old(page.medicationList), m.id, Submitted(ScanForm(scan, toDay, today), m.id));
  }

  /** The same steps with the corrected scan handler: the scanned medication is
      added at the end and the edited one is kept. */
  method EditDismissScanSubmitAsNew(page: Page, m: Medication, toDay: JsVal -> Option<string>,
                                    scan: QrScanner.ScanRecord, nowMs: int, today: string)
    returns (edited: bool)
    requires page.Valid()
    modifies page
    ensures edited <==> EditForm(m, toDay).Some?
    ensures page.medicationList == old(page.medicationList) + [Submitted(ScanForm(scan, toDay, today), nowMs)]
  {
    edited := page.OpenEditForm(m, toDay);
    page.CloseForm();
    page.HandleScanCompleteAsNew(scan, toDay, today);
    page.HandleSubmit(nowMs, today);
  }
}
