/** Turning the text of a scanned QR code into a medication record, in three
    tiers: a JSON object with field aliases, a '|'-separated positional record
    of at least three parts, and otherwise the raw text as the name. */
module QrScanner {

  import opened Js
  import opened JsText

  /** The record handed to the medication form. */
  datatype ScanRecord = ScanRecord(
    name: JsVal,
    dosage: JsVal,
    frequency: JsVal,
    time: JsVal,
    startDate: JsVal,
    endDate: JsVal,
    manufacturingDate: JsVal,
    expiryDate: JsVal,
    notes: JsVal)

  /** The value of `v0 || v1 || ... || vn`: the first truthy value, or the last one when none is. */
  function FirstTruthy(vs: seq<JsVal>): JsVal
    requires vs != []
  {
    if |vs| == 1 || Truthy(vs[0]) then vs[0] else FirstTruthy(vs[1..])
  }

  /** The JSON tier. `nowIso` is `new Date().toISOString()`. */
  function FromJson(j: JsVal, nowIso: string): ScanRecord
    requires Accessible(j)
  {
    ScanRecord(
      name := Or(Or(Prop(j, "name"), Prop(j, "medicationName")), Prop(j, "medication")),
      dosage := Or(Or(Prop(j, "dosage"), Prop(j, "dose")), Str("")),
      frequency := Or(Or(Prop(j, "frequency"), Prop(j, "schedule")), Str("")),
      time := Or(Or(Prop(j, "time"), Prop(j, "timing")), Str("")),
      startDate := Or(Or(Prop(j, "startDate"), Prop(j, "start")), Str(nowIso)),
      endDate := Or(Or(Prop(j, "endDate"), Prop(j, "end")), Null),
      manufacturingDate := Or(Or(Prop(j, "manufacturingDate"), Prop(j, "mfgDate")), Null),
      expiryDate := Or(Or(Or(Prop(j, "expiryDate"), Prop(j, "expiry")), Prop(j, "expirationDate")), Null),
      notes := Or(Or(Or(Prop(j, "notes"), Prop(j, "description")), Prop(j, "additionalInfo")), Str("")))
  }

  /** `parts[i]`, where a missing part reads as `undefined`, which is falsy like "". */
  function Part(parts: seq<string>, i: nat): string {
    if i < |parts| then parts[i] else ""
  }

  function TextOr(part: string, default: string): JsVal {
    Str(if part != "" then part else default)
  }

  function TextOrNull(part: string): JsVal {
    if part != "" then Str(part) else Null
  }

  /** The positional tier, for at least three parts. */
  function FromParts(parts: seq<string>, nowIso: string): ScanRecord
    requires |parts| >= 3
  {
    ScanRecord(
      name := TextOr(Part(parts, 0), ""),
      dosage := TextOr(Part(parts, 1), ""),
      frequency := TextOr(Part(parts, 2), ""),
      time := TextOr(Part(parts, 3), ""),
      startDate := TextOr(Part(parts, 4), nowIso),
      endDate := TextOrNull(Part(parts, 5)),
      manufacturingDate := TextOrNull(Part(parts, 6)),
      expiryDate := TextOrNull(Part(parts, 7)),
      notes := TextOr(Part(parts, 8), "Imported from QR code"))
  }

  /** The last tier: the whole text is the name. */
  function FromRawText(data: string, nowIso: string): ScanRecord {
    ScanRecord(Str(data), Str(""), Str(""), Str(""), Str(nowIso), Null, Null, Null, Str("Scanned from QR code"))
  }

  /** `parseQRData(data)`. `json` is what `JSON.parse(data)` returns, `None` when it
      throws; reading a property of a parsed `null` throws as well, and either
      exception falls through to the other tiers. The function is total: every
      text yields a record. */
  function ParseQrData(data: string, json: Option<JsVal>, nowIso: string): ScanRecord {
    if json.Some? && Accessible(json.value) then FromJson(json.value, nowIso)
    else
      var parts := Split(data, '|');
      if |parts| >= 3 then FromParts(parts, nowIso) else FromRawText(data, nowIso)
  }

  /** Each JSON field takes the first truthy of its aliases, then its default;
      the name has no default and keeps the last alias's value. */
  lemma JsonAliases(j: JsVal, nowIso: string)
    requires Accessible(j)
    ensures var r := FromJson(j, nowIso);
      r.name == FirstTruthy([Prop(j, "name"), Prop(j, "medicationName"), Prop(j, "medication")])
      && r.dosage == FirstTruthy([Prop(j, "dosage"), Prop(j, "dose"), Str("")])
      && r.frequency == FirstTruthy([Prop(j, "frequency"), Prop(j, "schedule"), Str("")])
      && r.time == FirstTruthy([Prop(j, "time"), Prop(j, "timing"), Str("")])
      && r.startDate == FirstTruthy([Prop(j, "startDate"), Prop(j, "start"), Str(nowIso)])
      && r.endDate == FirstTruthy([Prop(j, "endDate"), Prop(j, "end"), Null])
      && r.manufacturingDate == FirstTruthy([Prop(j, "manufacturingDate"), Prop(j, "mfgDate"), Null])
      && r.expiryDate == FirstTruthy([Prop(j, "expiryDate"), Prop(j, "expiry"), Prop(j, "expirationDate"), Null])
      && r.notes == FirstTruthy([Prop(j, "notes"), Prop(j, "description"), Prop(j, "additionalInfo"), Str("")])
  {
    OrChain3(Prop(j, "name"), Prop(j, "medicationName"), Prop(j, "medication"));
    OrChain3(Prop(j, "dosage"), Prop(j, "dose"), Str(""));
    OrChain3(Prop(j, "frequency"), Prop(j, "schedule"), Str(""));
    OrChain3(Prop(j, "time"), Prop(j, "timing"), Str(""));
    OrChain3(Prop(j, "startDate"), Prop(j, "start"), Str(nowIso));
    OrChain3(Prop(j, "endDate"), Prop(j, "end"), Null);
    OrChain3(Prop(j, "manufacturingDate"), Prop(j, "mfgDate"), Null);
    OrChain4(Prop(j, "expiryDate"), Prop(j, "expiry"), Prop(j, "expirationDate"), Null);
    OrChain4(Prop(j, "notes"), Prop(j, "description"), Prop(j, "additionalInfo"), Str(""));
  }

  lemma OrChain3(a: JsVal, b: JsVal, c: JsVal)
    ensures Or(Or(a, b), c) == FirstTruthy([a, b, c])
  {
    assert FirstTruthy([c]) == c;
    assert [b, c][1..] == [c];
    assert FirstTruthy([b, c]) == if Truthy(b) then b else c;
    assert [a, b, c][1..] == [b, c];
    assert FirstTruthy([a, b, c]) == if Truthy(a) then a else FirstTruthy([b, c]);
  }

  lemma OrChain4(a: JsVal, b: JsVal, c: JsVal, d: JsVal)
    ensures Or(Or(Or(a, b), c), d) == FirstTruthy([a, b, c, d])
  {
    OrChain3(Or(a, b), c, d);
    assert FirstTruthy([d]) == d;
    assert [c, d][1..] == [d];
    assert FirstTruthy([c, d]) == if Truthy(c) then c else d;
    assert [b, c, d][1..] == [c, d];
    assert FirstTruthy([b, c, d]) == if Truthy(b) then b else FirstTruthy([c, d]);
    assert [a, b, c, d][1..] == [b, c, d];
    assert FirstTruthy([a, b, c, d]) == if Truthy(a) then a else FirstTruthy([b, c, d]);
  }

  /** A JSON object with none of the fields gets the defaults: "" for the texts,
      `null` for the optional dates, now for the start date, and no name at all. */
  lemma JsonDefaults(nowIso: string)
    ensures FromJson(Obj(map[]), nowIso)
      == ScanRecord(Undefined, Str(""), Str(""), Str(""), Str(nowIso), Null, Null, Null, Str(""))
  {
  }

  /** Text that JSON.parse reads as a number is not used as the name. */
  lemma NumericTextHasNoName(nowIso: string)
    ensures ParseQrData("42", Some(Num(42)), nowIso).name == Undefined
  {
  }

  /** Parsing to `null` throws on the first property read and falls through, exactly
      as a JSON syntax error does. */
  lemma NullJsonFallsThrough(data: string, nowIso: string)
    ensures ParseQrData(data, Some(Null), nowIso) == ParseQrData(data, None, nowIso)
  {
  }

  /** Non-JSON text with at least two '|' separators is read positionally, for
      any number of parts from three up: the first three parts are copied as
      they are (an empty one stays ""), and an empty or missing part from the
      fourth on takes its default: "" for the time, now for the start date,
      `null` for the three optional dates and 'Imported from QR code' for the
      notes. Parts after the ninth are ignored. */
  lemma PipeTier(fields: seq<string>, nowIso: string, json: Option<JsVal>)
    requires |fields| >= 3
    requires forall k :: 0 <= k < |fields| ==> '|' !in fields[k]
    requires !(json.Some? && Accessible(json.value))
    ensures ParseQrData(Join(fields, "|"), json, nowIso) == FromParts(fields, nowIso)
    ensures var r := ParseQrData(Join(fields, "|"), json, nowIso);
      && r.name == Str(fields[0])
      && r.dosage == Str(fields[1])
      && r.frequency == Str(fields[2])
      && r.time == Str(if |fields| > 3 then fields[3] else "")
      && r.startDate == Str(if |fields| > 4 && fields[4] != "" then fields[4] else nowIso)
      && r.endDate == (if |fields| > 5 && fields[5] != "" then Str(fields[5]) else Null)
      && r.manufacturingDate == (if |fields| > 6 && fields[6] != "" then Str(fields[6]) else Null)
      && r.expiryDate == (if |fields| > 7 && fields[7] != "" then Str(fields[7]) else Null)
      && r.notes == Str(if |fields| > 8 && fields[8] != "" then fields[8] else "Imported from QR code")
  {
    JoinSplit(fields, '|');
  }

  /** With nine or more non-empty parts, the nine fields come back exactly. */
  lemma PipeRoundTrip(fields: seq<string>, nowIso: string, json: Option<JsVal>)
    requires |fields| >= 9
    requires forall k :: 0 <= k < |fields| ==> fields[k] != "" && '|' !in fields[k]
    requires !(json.Some? && Accessible(json.value))
    ensures ParseQrData(Join(fields, "|"), json, nowIso)
      == ScanRecord(Str(fields[0]), Str(fields[1]), Str(fields[2]), Str(fields[3]), Str(fields[4]),
                    Str(fields[5]), Str(fields[6]), Str(fields[7]), Str(fields[8]))
  {
    PipeTier(fields, nowIso, json);
  }

  /** Empty positions become "" or `null`, and the notes default to 'Imported from QR code'. */
  lemma PipeEmptyPositions(nowIso: string)
    ensures ParseQrData("Aspirin||daily", None, nowIso)
      == ScanRecord(Str("Aspirin"), Str(""), Str("daily"), Str(""), Str(nowIso), Null, Null, Null,
                    Str("Imported from QR code"))
  {
    JoinSplit(["Aspirin", "", "daily"], '|');
    assert Join(["Aspirin", "", "daily"], "|") == "Aspirin||daily";
  }

  /** Non-JSON text with fewer than two '|' separators becomes the name as it is. */
  lemma RawTextTier(data: string, nowIso: string, json: Option<JsVal>)
    requires !(json.Some? && Accessible(json.value))
    requires Count(data, '|') < 2
    ensures ParseQrData(data, json, nowIso)
      == ScanRecord(Str(data), Str(""), Str(""), Str(""), Str(nowIso), Null, Null, Null, Str("Scanned from QR code"))
  {
    SplitJoin(data, '|');
  }
}
