/**
 * `contractFormSchema`: a contractor and a room, two coerced dates, two required
 * and two optional non-negative integer amounts, a status defaulting to ACTIVE, and
 * an object-level check that the contract ends after it starts.
 */
module ContractSchema {
  import opened Wrappers
  import opened Entities
  import opened Zod

  /** The validated value (`ContractFormValues`). */
  datatype Contract = Contract(
    contractorId: string, roomId: string, startDate: Instant, endDate: Instant,
    rent: int, managementFee: int, deposit: Option<int>, keyMoney: Option<int>, status: ContractStatus)

  const ContractorRequired := "契約者を選択してください。"
  const RoomRequired := "部屋を選択してください。"
  const StartDateInvalid := "有効な契約開始日を入力してください。"
  const EndDateInvalid := "有効な契約終了日を入力してください。"
  const RentInvalid := "家賃は0以上の整数で入力してください。"
  const ManagementFeeInvalid := "管理費は0以上の整数で入力してください。"
  const EndAfterStart := "契約終了日は契約開始日より後の日付にしてください。"

  /** An absent status (defaulted) or the exact name of a contract status. */
  predicate IsStatusOrAbsent(v: RawValue) {
    v.Undefined? || (v.Str? && ParseContractStatus(v.s).Some?)
  }

  /** `z.nativeEnum(ContractStatus).optional().default(ContractStatus.ACTIVE)`. */
  function StatusField(v: RawValue): (p: Parse<ContractStatus>)
    ensures p.Clean() <==> IsStatusOrAbsent(v)
    ensures p.Parsed? <==> IsStatusOrAbsent(v)
    ensures p.Parsed? ==> p.value == if v.Undefined? then ACTIVE else ParseContractStatus(v.s).value
    ensures p.Aborted? && v.Str? ==> p.issues == [InvalidEnumMessage(ContractStatusNames, v.s)]
    ensures p.Aborted? ==> |p.issues| == 1
  {
    if v.Undefined? then Parsed(ACTIVE, []) else NativeEnum(v, ParseContractStatus, ContractStatusNames, None)
  }

  /** `z.coerce.number().int().min(0, { message })`: zod's own messages for NaN and fractions. */
  function Amount(c: Coercion, v: RawValue, minMessage: string): (p: Parse<JsNumber>)
    ensures p.Clean() <==> IsNonNegativeInteger(ToNumber(c, v))
    ensures p.Parsed? <==> !ToNumber(c, v).NaN?
    ensures p.Parsed? ==> p.value == ToNumber(c, v)
    ensures p.Reported()
  {
    NonNegativeInteger(ToNumber(c, v), NotNumberMessage, NotIntegerMessage, minMessage)
  }

  /** Every field passes its own schema. */
  predicate ContractFieldsValid(raw: RawInput, c: Coercion) {
    && IsNonEmptyString(Get(raw, "contractorId"))
    && IsNonEmptyString(Get(raw, "roomId"))
    && ToDate(c, Get(raw, "startDate")).Some?
    && ToDate(c, Get(raw, "endDate")).Some?
    && IsNonNegativeInteger(ToNumber(c, Get(raw, "rent")))
    && IsNonNegativeInteger(ToNumber(c, Get(raw, "managementFee")))
    && (Get(raw, "deposit").Undefined? || IsNonNegativeInteger(ToNumber(c, Get(raw, "deposit"))))
    && (Get(raw, "keyMoney").Undefined? || IsNonNegativeInteger(ToNumber(c, Get(raw, "keyMoney"))))
    && IsStatusOrAbsent(Get(raw, "status"))
  }

  /**
   * No field aborts: each has a value of its type, though a string may be empty and
   * a number fractional or negative. Only then does the object-level check run.
   */
  predicate ContractWellTyped(raw: RawInput, c: Coercion) {
    && Get(raw, "contractorId").Str?
    && Get(raw, "roomId").Str?
    && ToDate(c, Get(raw, "startDate")).Some?
    && ToDate(c, Get(raw, "endDate")).Some?
    && !ToNumber(c, Get(raw, "rent")).NaN?
    && !ToNumber(c, Get(raw, "managementFee")).NaN?
    && (Get(raw, "deposit").Undefined? || !ToNumber(c, Get(raw, "deposit")).NaN?)
    && (Get(raw, "keyMoney").Undefined? || !ToNumber(c, Get(raw, "keyMoney")).NaN?)
    && IsStatusOrAbsent(Get(raw, "status"))
  }

  /** Both dates read and the end is strictly later than the start. */
  predicate ContractDatesOrdered(raw: RawInput, c: Coercion) {
    && ToDate(c, Get(raw, "startDate")).Some?
    && ToDate(c, Get(raw, "endDate")).Some?
    && ToDate(c, Get(raw, "endDate")).value > ToDate(c, Get(raw, "startDate")).value
  }

  function OptionalInt(n: Option<JsNumber>): Option<int>
    requires n.Some? ==> n.value.Integer?
  {
    if n.Some? then Some(n.value.i) else None
  }

  function ValidateContract(raw: RawInput, c: Coercion): (r: Result<Contract>)
    ensures r.Ok? <==> ContractFieldsValid(raw, c) && ContractDatesOrdered(raw, c)
    ensures r.Ok? ==>
      r.value == Contract(
        Get(raw, "contractorId").s, Get(raw, "roomId").s,
        ToDate(c, Get(raw, "startDate")).value, ToDate(c, Get(raw, "endDate")).value,
        ToNumber(c, Get(raw, "rent")).i, ToNumber(c, Get(raw, "managementFee")).i,
        if Get(raw, "deposit").Undefined? then None else Some(ToNumber(c, Get(raw, "deposit")).i),
        if Get(raw, "keyMoney").Undefined? then None else Some(ToNumber(c, Get(raw, "keyMoney")).i),
        if Get(raw, "status").Undefined? then ACTIVE else ParseContractStatus(Get(raw, "status").s).value)
    ensures r.Err? ==> r.errors != map[]
  {
    var contractorId := RequiredString(Get(raw, "contractorId"), ContractorRequired);
    var roomId := RequiredString(Get(raw, "roomId"), RoomRequired);
    var startDate := CoercedDate(c, Get(raw, "startDate"), StartDateInvalid);
    var endDate := CoercedDate(c, Get(raw, "endDate"), EndDateInvalid);
    var rent := Amount(c, Get(raw, "rent"), RentInvalid);
    var managementFee := Amount(c, Get(raw, "managementFee"), ManagementFeeInvalid);
    var deposit := OptionalNonNegativeInteger(c, Get(raw, "deposit"));
    var keyMoney := OptionalNonNegativeInteger(c, Get(raw, "keyMoney"));
    var status := StatusField(Get(raw, "status"));
    Combine(contractorId, roomId, startDate, endDate, rent, managementFee, deposit, keyMoney, status)
  }

  /** No field aborted, so the object-level check runs, and the end is not after the start. */
  predicate DatesCheckFails(contractorId: Parse<string>, roomId: Parse<string>, startDate: Parse<Instant>,
                   endDate: Parse<Instant>, rent: Parse<JsNumber>, managementFee: Parse<JsNumber>,
                   deposit: Parse<Option<JsNumber>>, keyMoney: Parse<Option<JsNumber>>,
                   status: Parse<ContractStatus>) {
    && contractorId.Parsed? && roomId.Parsed? && startDate.Parsed? && endDate.Parsed?
    && rent.Parsed? && managementFee.Parsed? && deposit.Parsed? && keyMoney.Parsed? && status.Parsed?
    && !(endDate.value > startDate.value)
  }

  /**
   * The object schema over its fields' results: the end-after-start check runs only
   * when no field aborted, and the contract is accepted only when nothing raised an issue.
   */
  function Combine(contractorId: Parse<string>, roomId: Parse<string>, startDate: Parse<Instant>,
                   endDate: Parse<Instant>, rent: Parse<JsNumber>, managementFee: Parse<JsNumber>,
                   deposit: Parse<Option<JsNumber>>, keyMoney: Parse<Option<JsNumber>>,
                   status: Parse<ContractStatus>): (r: Result<Contract>)
    requires contractorId.Reported() && roomId.Reported() && startDate.Reported() && endDate.Reported()
    requires rent.Reported() && managementFee.Reported() && deposit.Reported() && keyMoney.Reported()
    requires status.Reported()
    requires rent.Clean() ==> rent.value.Integer?
    requires managementFee.Clean() ==> managementFee.value.Integer?
    requires deposit.Clean() && deposit.value.Some? ==> deposit.value.value.Integer?
    requires keyMoney.Clean() && keyMoney.value.Some? ==> keyMoney.value.value.Integer?
    ensures r.Ok? <==>
      && contractorId.Clean() && roomId.Clean() && startDate.Clean() && endDate.Clean()
      && rent.Clean() && managementFee.Clean() && deposit.Clean() && keyMoney.Clean() && status.Clean()
      && endDate.value > startDate.value
    ensures r.Ok? ==>
      r.value == Contract(contractorId.value, roomId.value, startDate.value, endDate.value, rent.value.i,
                          managementFee.value.i, OptionalInt(deposit.value), OptionalInt(keyMoney.value),
                          status.value)
    ensures r.Err? ==> r.errors != map[]
  {
    var refine :=
      if DatesCheckFails(contractorId, roomId, startDate, endDate, rent, managementFee, deposit, keyMoney, status)
      then [EndAfterStart] else [];
    if && contractorId.Clean() && roomId.Clean() && startDate.Clean() && endDate.Clean()
       && rent.Clean() && managementFee.Clean() && deposit.Clean() && keyMoney.Clean() && status.Clean()
       && refine == []
    then
      Ok(Contract(contractorId.value, roomId.value, startDate.value, endDate.value, rent.value.i,
                  managementFee.value.i, OptionalInt(deposit.value), OptionalInt(keyMoney.value), status.value))
    else
      Err(Flatten(ContractIssues(contractorId.issues, roomId.issues, startDate.issues, endDate.issues, rent.issues,
                                 managementFee.issues, deposit.issues, keyMoney.issues, status.issues, refine)))
  }

  /**
   * The issues the schema raises, in order: each field's, then the object-level
   * check's, which is attached to `endDate`.
   */
  function ContractIssues(contractorId: seq<string>, roomId: seq<string>, startDate: seq<string>,
                          endDate: seq<string>, rent: seq<string>, managementFee: seq<string>,
                          deposit: seq<string>, keyMoney: seq<string>, status: seq<string>,
                          refine: seq<string>): (r: seq<Issue>)
    ensures |r| == |contractorId| + |roomId| + |startDate| + |endDate| + |rent| + |managementFee|
                   + |deposit| + |keyMoney| + |status| + |refine|
  {
    Tag("contractorId", contractorId) + Tag("roomId", roomId) + Tag("startDate", startDate)
    + Tag("endDate", endDate) + Tag("rent", rent) + Tag("managementFee", managementFee)
    + Tag("deposit", deposit) + Tag("keyMoney", keyMoney) + Tag("status", status) + Tag("endDate", refine)
  }

  /**
   * Each field's messages land under its own name, the object-level check's after
   * `endDate`'s own, and only fields that raised something appear.
   */
  lemma ContractErrorsOf(contractorId: seq<string>, roomId: seq<string>, startDate: seq<string>,
                         endDate: seq<string>, rent: seq<string>, managementFee: seq<string>,
                         deposit: seq<string>, keyMoney: seq<string>, status: seq<string>,
                         refine: seq<string>)
    ensures var errors := Flatten(ContractIssues(contractorId, roomId, startDate, endDate, rent, managementFee,
                                                 deposit, keyMoney, status, refine));
      && errors.Keys <= {"contractorId", "roomId", "startDate", "endDate", "rent", "managementFee",
                         "deposit", "keyMoney", "status"}
      && ("contractorId" in errors <==> contractorId != [])
      && ("contractorId" in errors ==> errors["contractorId"] == contractorId)
      && ("roomId" in errors <==> roomId != []) && ("roomId" in errors ==> errors["roomId"] == roomId)
      && ("startDate" in errors <==> startDate != [])
      && ("startDate" in errors ==> errors["startDate"] == startDate)
      && ("endDate" in errors <==> endDate + refine != [])
      && ("endDate" in errors ==> errors["endDate"] == endDate + refine)
      && ("rent" in errors <==> rent != []) && ("rent" in errors ==> errors["rent"] == rent)
      && ("managementFee" in errors <==> managementFee != [])
      && ("managementFee" in errors ==> errors["managementFee"] == managementFee)
      && ("deposit" in errors <==> deposit != []) && ("deposit" in errors ==> errors["deposit"] == deposit)
      && ("keyMoney" in errors <==> keyMoney != [])
      && ("keyMoney" in errors ==> errors["keyMoney"] == keyMoney)
      && ("status" in errors <==> status != []) && ("status" in errors ==> errors["status"] == status)
  {
    ContractErrorsKeys(contractorId, roomId, startDate, endDate, rent, managementFee,
                       deposit, keyMoney, status, refine);
    ContractMessagesAtFirst(contractorId, roomId, startDate, endDate, rent, managementFee,
                            deposit, keyMoney, status, refine);
    ContractMessagesAtLast(contractorId, roomId, startDate, endDate, rent, managementFee,
                           deposit, keyMoney, status, refine);
    ContractErrorsAt("contractorId", contractorId, roomId, startDate, endDate, rent, managementFee,
                     deposit, keyMoney, status, refine);
    ContractErrorsAt("roomId", contractorId, roomId, startDate, endDate, rent, managementFee,
                     deposit, keyMoney, status, refine);
    ContractErrorsAt("startDate", contractorId, roomId, startDate, endDate, rent, managementFee,
                     deposit, keyMoney, status, refine);
    ContractErrorsAt("endDate", contractorId, roomId, startDate, endDate, rent, managementFee,
                     deposit, keyMoney, status, refine);
    ContractErrorsAt("rent", contractorId, roomId, startDate, endDate, rent, managementFee,
                     deposit, keyMoney, status, refine);
    ContractErrorsAt("managementFee", contractorId, roomId, startDate, endDate, rent, managementFee,
                     deposit, keyMoney, status, refine);
    ContractErrorsAt("deposit", contractorId, roomId, startDate, endDate, rent, managementFee,
                     deposit, keyMoney, status, refine);
    ContractErrorsAt("keyMoney", contractorId, roomId, startDate, endDate, rent, managementFee,
                     deposit, keyMoney, status, refine);
    ContractErrorsAt("status", contractorId, roomId, startDate, endDate, rent, managementFee,
                     deposit, keyMoney, status, refine);
  }

  /** Only the schema's own fields appear among the errors. */
  lemma ContractErrorsKeys(contractorId: seq<string>, roomId: seq<string>, startDate: seq<string>,
                           endDate: seq<string>, rent: seq<string>, managementFee: seq<string>,
                           deposit: seq<string>, keyMoney: seq<string>, status: seq<string>,
                           refine: seq<string>)
    ensures Flatten(ContractIssues(contractorId, roomId, startDate, endDate, rent, managementFee,
                                   deposit, keyMoney, status, refine)).Keys
         <= {"contractorId", "roomId", "startDate", "endDate", "rent", "managementFee", "deposit", "keyMoney", "status"}
  {
    FlattenContractIssues(contractorId, roomId, startDate, endDate, rent, managementFee,
                          deposit, keyMoney, status, refine);
  }

  /** The messages the schema's issues put under `key`, in the order they were raised. */
  function ContractMessagesAt(key: string, contractorId: seq<string>, roomId: seq<string>, startDate: seq<string>,
                              endDate: seq<string>, rent: seq<string>, managementFee: seq<string>,
                              deposit: seq<string>, keyMoney: seq<string>, status: seq<string>,
                              refine: seq<string>): seq<string> {
    (if key == "contractorId" then contractorId else []) + (if key == "roomId" then roomId else [])
    + (if key == "startDate" then startDate else [])
    + (if key == "endDate" then endDate else [])
    + (if key == "rent" then rent else [])
    + (if key == "managementFee" then managementFee else [])
    + (if key == "deposit" then deposit else [])
    + (if key == "keyMoney" then keyMoney else [])
    + (if key == "status" then status else [])
    + (if key == "endDate" then refine else [])
  }

  /** The first four fields' keys collect their messages, and `endDate` the object-level check's too. */
  lemma ContractMessagesAtFirst(contractorId: seq<string>, roomId: seq<string>, startDate: seq<string>,
                                 endDate: seq<string>, rent: seq<string>, managementFee: seq<string>,
                                 deposit: seq<string>, keyMoney: seq<string>, status: seq<string>,
                                 refine: seq<string>)
    ensures ContractMessagesAt("contractorId", contractorId, roomId, startDate, endDate, rent, managementFee,
                                               deposit, keyMoney, status, refine) == contractorId
    ensures ContractMessagesAt("roomId", contractorId, roomId, startDate, endDate, rent, managementFee,
                                         deposit, keyMoney, status, refine) == roomId
    ensures ContractMessagesAt("startDate", contractorId, roomId, startDate, endDate, rent, managementFee,
                                            deposit, keyMoney, status, refine) == startDate
    ensures ContractMessagesAt("endDate", contractorId, roomId, startDate, endDate, rent, managementFee,
                                          deposit, keyMoney, status, refine) == endDate + refine
  {
  }

  /** The last five fields' keys collect their messages. */
  lemma ContractMessagesAtLast(contractorId: seq<string>, roomId: seq<string>, startDate: seq<string>,
                                 endDate: seq<string>, rent: seq<string>, managementFee: seq<string>,
                                 deposit: seq<string>, keyMoney: seq<string>, status: seq<string>,
                                 refine: seq<string>)
    ensures ContractMessagesAt("rent", contractorId, roomId, startDate, endDate, rent, managementFee,
                                       deposit, keyMoney, status, refine) == rent
    ensures ContractMessagesAt("managementFee", contractorId, roomId, startDate, endDate, rent, managementFee,
                                                deposit, keyMoney, status, refine) == managementFee
    ensures ContractMessagesAt("deposit", contractorId, roomId, startDate, endDate, rent, managementFee,
                                          deposit, keyMoney, status, refine) == deposit
    ensures ContractMessagesAt("keyMoney", contractorId, roomId, startDate, endDate, rent, managementFee,
                                           deposit, keyMoney, status, refine) == keyMoney
    ensures ContractMessagesAt("status", contractorId, roomId, startDate, endDate, rent, managementFee,
                                         deposit, keyMoney, status, refine) == status
  {
  }

  /** Seen from one key, the flattened errors hold exactly the messages raised on it. */
  lemma ContractErrorsAt(key: string, contractorId: seq<string>, roomId: seq<string>, startDate: seq<string>,
                         endDate: seq<string>, rent: seq<string>, managementFee: seq<string>,
                         deposit: seq<string>, keyMoney: seq<string>, status: seq<string>,
                         refine: seq<string>)
    ensures var errors := Flatten(ContractIssues(contractorId, roomId, startDate, endDate, rent, managementFee,
                                                 deposit, keyMoney, status, refine));
      && Lookup(errors, key) == ContractMessagesAt(key, contractorId, roomId, startDate, endDate, rent, managementFee,
                                                        deposit, keyMoney, status, refine)
      && (key in errors <==> Lookup(errors, key) != [])
  {
    var a := Tag("contractorId", contractorId);
    var b := a + Tag("roomId", roomId);
    var c := b + Tag("startDate", startDate);
    var d := c + Tag("endDate", endDate);
    var e := d + Tag("rent", rent);
    var f := e + Tag("managementFee", managementFee);
    var g := f + Tag("deposit", deposit);
    var h := g + Tag("keyMoney", keyMoney);
    var i := h + Tag("status", status);
    assert [] + a == a;
    FlattenTaggedAt([], "contractorId", contractorId, key);
    FlattenTaggedAt(a, "roomId", roomId, key);
    FlattenTaggedAt(b, "startDate", startDate, key);
    FlattenTaggedAt(c, "endDate", endDate, key);
    FlattenTaggedAt(d, "rent", rent, key);
    FlattenTaggedAt(e, "managementFee", managementFee, key);
    FlattenTaggedAt(f, "deposit", deposit, key);
    FlattenTaggedAt(g, "keyMoney", keyMoney, key);
    FlattenTaggedAt(h, "status", status, key);
    FlattenTaggedAt(i, "endDate", refine, key);
    assert [] + (if key == "contractorId" then contractorId else []) == (if key == "contractorId" then contractorId else []);
  }

  lemma FlattenContractIssues(contractorId: seq<string>, roomId: seq<string>, startDate: seq<string>,
                              endDate: seq<string>, rent: seq<string>, managementFee: seq<string>,
                              deposit: seq<string>, keyMoney: seq<string>, status: seq<string>,
                              refine: seq<string>)
    ensures Flatten(ContractIssues(contractorId, roomId, startDate, endDate, rent, managementFee,
                                   deposit, keyMoney, status, refine))
         == AddMessages(AddMessages(AddMessages(AddMessages(AddMessages(AddMessages(AddMessages(
              AddMessages(AddMessages(AddMessages(map[], "contractorId", contractorId), "roomId", roomId),
              "startDate", startDate), "endDate", endDate), "rent", rent), "managementFee", managementFee),
              "deposit", deposit), "keyMoney", keyMoney), "status", status), "endDate", refine)
  {
    var a := Tag("contractorId", contractorId);
    var b := a + Tag("roomId", roomId);
    var c := b + Tag("startDate", startDate);
    var d := c + Tag("endDate", endDate);
    var e := d + Tag("rent", rent);
    var f := e + Tag("managementFee", managementFee);
    var g := f + Tag("deposit", deposit);
    var h := g + Tag("keyMoney", keyMoney);
    var i := h + Tag("status", status);
    assert [] + a == a;
    FlattenTagged([], "contractorId", contractorId);
    FlattenTagged(a, "roomId", roomId);
    FlattenTagged(b, "startDate", startDate);
    FlattenTagged(c, "endDate", endDate);
    FlattenTagged(d, "rent", rent);
    FlattenTagged(e, "managementFee", managementFee);
    FlattenTagged(f, "deposit", deposit);
    FlattenTagged(g, "keyMoney", keyMoney);
    FlattenTagged(h, "status", status);
    FlattenTagged(i, "endDate", refine);
  }

  /**
   * Over the fields' results: a rejected contract lists each field that did not pass,
   * with its issues, and adds the end-after-start message to `endDate` when that check fails.
   */
  lemma CombineErrors(contractorId: Parse<string>, roomId: Parse<string>, startDate: Parse<Instant>,
                        endDate: Parse<Instant>, rent: Parse<JsNumber>, managementFee: Parse<JsNumber>,
                        deposit: Parse<Option<JsNumber>>, keyMoney: Parse<Option<JsNumber>>,
                        status: Parse<ContractStatus>)
    requires contractorId.Reported() && roomId.Reported() && startDate.Reported() && endDate.Reported()
    requires rent.Reported() && managementFee.Reported() && deposit.Reported() && keyMoney.Reported()
    requires status.Reported()
    requires rent.Clean() ==> rent.value.Integer?
    requires managementFee.Clean() ==> managementFee.value.Integer?
    requires deposit.Clean() && deposit.value.Some? ==> deposit.value.value.Integer?
    requires keyMoney.Clean() && keyMoney.value.Some? ==> keyMoney.value.value.Integer?
    requires Combine(contractorId, roomId, startDate, endDate, rent, managementFee, deposit, keyMoney, status).Err?
    ensures var errors := Combine(contractorId, roomId, startDate, endDate, rent, managementFee, deposit, keyMoney, status).errors;
      var fails := DatesCheckFails(contractorId, roomId, startDate, endDate, rent, managementFee, deposit, keyMoney, status);
      && errors.Keys <= {"contractorId", "roomId", "startDate", "endDate", "rent", "managementFee",
                         "deposit", "keyMoney", "status"}
      && ("endDate" in errors <==> !endDate.Clean() || fails)
      && ("endDate" in errors ==> errors["endDate"] == endDate.issues + if fails then [EndAfterStart] else [])
      && ("contractorId" in errors <==> !contractorId.Clean())
      && ("contractorId" in errors ==> errors["contractorId"] == contractorId.issues)
      && ("roomId" in errors <==> !roomId.Clean())
      && ("roomId" in errors ==> errors["roomId"] == roomId.issues)
      && ("startDate" in errors <==> !startDate.Clean())
      && ("startDate" in errors ==> errors["startDate"] == startDate.issues)
      && ("rent" in errors <==> !rent.Clean()) && ("rent" in errors ==> errors["rent"] == rent.issues)
      && ("managementFee" in errors <==> !managementFee.Clean())
      && ("managementFee" in errors ==> errors["managementFee"] == managementFee.issues)
      && ("deposit" in errors <==> !deposit.Clean())
      && ("deposit" in errors ==> errors["deposit"] == deposit.issues)
      && ("keyMoney" in errors <==> !keyMoney.Clean())
      && ("keyMoney" in errors ==> errors["keyMoney"] == keyMoney.issues)
      && ("status" in errors <==> !status.Clean())
      && ("status" in errors ==> errors["status"] == status.issues)
  {
    var refine :=
      if DatesCheckFails(contractorId, roomId, startDate, endDate, rent, managementFee, deposit, keyMoney, status)
      then [EndAfterStart] else [];
    ContractErrorsOf(contractorId.issues, roomId.issues, startDate.issues, endDate.issues, rent.issues,
                     managementFee.issues, deposit.issues, keyMoney.issues, status.issues, refine);
  }

  /** With every field passing, a failed date check is the one error, on `endDate`. */
  lemma CombineOnlyDates(contractorId: Parse<string>, roomId: Parse<string>, startDate: Parse<Instant>,
                         endDate: Parse<Instant>, rent: Parse<JsNumber>, managementFee: Parse<JsNumber>,
                         deposit: Parse<Option<JsNumber>>, keyMoney: Parse<Option<JsNumber>>,
                         status: Parse<ContractStatus>)
    requires && contractorId.Clean() && roomId.Clean() && startDate.Clean() && endDate.Clean()
             && rent.Clean() && managementFee.Clean() && deposit.Clean() && keyMoney.Clean() && status.Clean()
    requires rent.value.Integer? && managementFee.value.Integer?
    requires deposit.value.Some? ==> deposit.value.value.Integer?
    requires keyMoney.value.Some? ==> keyMoney.value.value.Integer?
    requires !(endDate.value > startDate.value)
    ensures Combine(contractorId, roomId, startDate, endDate, rent, managementFee, deposit, keyMoney, status)
         == Err(map["endDate" := [EndAfterStart]])
  {
    var issues := ContractIssues([], [], [], [], [], [], [], [], [], [EndAfterStart]);
    assert issues == [Issue("endDate", EndAfterStart)];
    FlattenSingle(Issue("endDate", EndAfterStart));
  }

  /**
   * A rejected contract names exactly the fields that fail on their own, with their
   * messages; `endDate` is also named when every field has a value of its type but
   * the contract does not end after it starts. When some field aborts, that check
   * does not run at all.
   */
  lemma ContractErrorsByField(raw: RawInput, c: Coercion)
    requires ValidateContract(raw, c).Err?
    ensures var errors := ValidateContract(raw, c).errors;
      && errors.Keys <= {"contractorId", "roomId", "startDate", "endDate", "rent", "managementFee",
                         "deposit", "keyMoney", "status"}
      && ("contractorId" in errors <==> !IsNonEmptyString(Get(raw, "contractorId")))
      && ("roomId" in errors <==> !IsNonEmptyString(Get(raw, "roomId")))
      && ("startDate" in errors <==> ToDate(c, Get(raw, "startDate")).None?)
      && ("endDate" in errors <==>
            ToDate(c, Get(raw, "endDate")).None? || (ContractWellTyped(raw, c) && !ContractDatesOrdered(raw, c)))
      && ("rent" in errors <==> !IsNonNegativeInteger(ToNumber(c, Get(raw, "rent"))))
      && ("managementFee" in errors <==> !IsNonNegativeInteger(ToNumber(c, Get(raw, "managementFee"))))
      && ("deposit" in errors <==>
            !(Get(raw, "deposit").Undefined? || IsNonNegativeInteger(ToNumber(c, Get(raw, "deposit")))))
      && ("keyMoney" in errors <==>
            !(Get(raw, "keyMoney").Undefined? || IsNonNegativeInteger(ToNumber(c, Get(raw, "keyMoney")))))
      && ("status" in errors <==> !IsStatusOrAbsent(Get(raw, "status")))
      && ("contractorId" in errors ==>
            errors["contractorId"] == [RequiredMessage(Get(raw, "contractorId"), ContractorRequired)])
      && ("roomId" in errors ==> errors["roomId"] == [RequiredMessage(Get(raw, "roomId"), RoomRequired)])
      && ("startDate" in errors ==> errors["startDate"] == [StartDateInvalid])
      && ("endDate" in errors ==>
            errors["endDate"] == if ToDate(c, Get(raw, "endDate")).None? then [EndDateInvalid] else [EndAfterStart])
      && ("rent" in errors ==> errors["rent"] == Amount(c, Get(raw, "rent"), RentInvalid).issues)
      && ("managementFee" in errors ==>
            errors["managementFee"] == Amount(c, Get(raw, "managementFee"), ManagementFeeInvalid).issues)
      && ("deposit" in errors ==> errors["deposit"] == OptionalNonNegativeInteger(c, Get(raw, "deposit")).issues)
      && ("keyMoney" in errors ==> errors["keyMoney"] == OptionalNonNegativeInteger(c, Get(raw, "keyMoney")).issues)
      && ("status" in errors ==> errors["status"] == StatusField(Get(raw, "status")).issues)
  {
    ContractIdentityErrors(raw, c);
    ContractEndDateErrors(raw, c);
    ContractFeeErrors(raw, c);
    ContractDepositErrors(raw, c);
    ContractStatusErrors(raw, c);
  }

  // The five lemmas below share one body: each parses the nine fields, unfolds
  // `ValidateContract` into `Combine` and applies `CombineErrors`. They are split by
  // group of fields so that each proof obligation stays small.
  lemma ContractIdentityErrors(raw: RawInput, c: Coercion)
    requires ValidateContract(raw, c).Err?
    ensures var errors := ValidateContract(raw, c).errors;
      && errors.Keys <= {"contractorId", "roomId", "startDate", "endDate", "rent", "managementFee",
                         "deposit", "keyMoney", "status"}
      && ("contractorId" in errors <==> !IsNonEmptyString(Get(raw, "contractorId")))
      && ("roomId" in errors <==> !IsNonEmptyString(Get(raw, "roomId")))
      && ("startDate" in errors <==> ToDate(c, Get(raw, "startDate")).None?)
      && ("contractorId" in errors ==>
            errors["contractorId"] == [RequiredMessage(Get(raw, "contractorId"), ContractorRequired)])
      && ("roomId" in errors ==> errors["roomId"] == [RequiredMessage(Get(raw, "roomId"), RoomRequired)])
      && ("startDate" in errors ==> errors["startDate"] == [StartDateInvalid])
  {
    var contractorId := RequiredString(Get(raw, "contractorId"), ContractorRequired);
    var roomId := RequiredString(Get(raw, "roomId"), RoomRequired);
    var startDate := CoercedDate(c, Get(raw, "startDate"), StartDateInvalid);
    var endDate := CoercedDate(c, Get(raw, "endDate"), EndDateInvalid);
    var rent := Amount(c, Get(raw, "rent"), RentInvalid);
    var managementFee := Amount(c, Get(raw, "managementFee"), ManagementFeeInvalid);
    var deposit := OptionalNonNegativeInteger(c, Get(raw, "deposit"));
    var keyMoney := OptionalNonNegativeInteger(c, Get(raw, "keyMoney"));
    var status := StatusField(Get(raw, "status"));
    assert ValidateContract(raw, c)
        == Combine(contractorId, roomId, startDate, endDate, rent, managementFee, deposit, keyMoney, status);
    CombineErrors(contractorId, roomId, startDate, endDate, rent, managementFee, deposit, keyMoney, status);
  }

  lemma ContractEndDateErrors(raw: RawInput, c: Coercion)
    requires ValidateContract(raw, c).Err?
    ensures var errors := ValidateContract(raw, c).errors;
      && ("endDate" in errors <==>
            ToDate(c, Get(raw, "endDate")).None? || (ContractWellTyped(raw, c) && !ContractDatesOrdered(raw, c)))
      && ("endDate" in errors ==>
            errors["endDate"] == if ToDate(c, Get(raw, "endDate")).None? then [EndDateInvalid] else [EndAfterStart])
  {
    var contractorId := RequiredString(Get(raw, "contractorId"), ContractorRequired);
    var roomId := RequiredString(Get(raw, "roomId"), RoomRequired);
    var startDate := CoercedDate(c, Get(raw, "startDate"), StartDateInvalid);
    var endDate := CoercedDate(c, Get(raw, "endDate"), EndDateInvalid);
    var rent := Amount(c, Get(raw, "rent"), RentInvalid);
    var managementFee := Amount(c, Get(raw, "managementFee"), ManagementFeeInvalid);
    var deposit := OptionalNonNegativeInteger(c, Get(raw, "deposit"));
    var keyMoney := OptionalNonNegativeInteger(c, Get(raw, "keyMoney"));
    var status := StatusField(Get(raw, "status"));
    assert ValidateContract(raw, c)
        == Combine(contractorId, roomId, startDate, endDate, rent, managementFee, deposit, keyMoney, status);
    CombineErrors(contractorId, roomId, startDate, endDate, rent, managementFee, deposit, keyMoney, status);
  }

  lemma ContractFeeErrors(raw: RawInput, c: Coercion)
    requires ValidateContract(raw, c).Err?
    ensures var errors := ValidateContract(raw, c).errors;
      && ("rent" in errors <==> !IsNonNegativeInteger(ToNumber(c, Get(raw, "rent"))))
      && ("managementFee" in errors <==> !IsNonNegativeInteger(ToNumber(c, Get(raw, "managementFee"))))
      && ("rent" in errors ==> errors["rent"] == Amount(c, Get(raw, "rent"), RentInvalid).issues)
      && ("managementFee" in errors ==>
            errors["managementFee"] == Amount(c, Get(raw, "managementFee"), ManagementFeeInvalid).issues)
  {
    var contractorId := RequiredString(Get(raw, "contractorId"), ContractorRequired);
    var roomId := RequiredString(Get(raw, "roomId"), RoomRequired);
    var startDate := CoercedDate(c, Get(raw, "startDate"), StartDateInvalid);
    var endDate := CoercedDate(c, Get(raw, "endDate"), EndDateInvalid);
    var rent := Amount(c, Get(raw, "rent"), RentInvalid);
    var managementFee := Amount(c, Get(raw, "managementFee"), ManagementFeeInvalid);
    var deposit := OptionalNonNegativeInteger(c, Get(raw, "deposit"));
    var keyMoney := OptionalNonNegativeInteger(c, Get(raw, "keyMoney"));
    var status := StatusField(Get(raw, "status"));
    assert ValidateContract(raw, c)
        == Combine(contractorId, roomId, startDate, endDate, rent, managementFee, deposit, keyMoney, status);
    CombineErrors(contractorId, roomId, startDate, endDate, rent, managementFee, deposit, keyMoney, status);
  }

  lemma ContractDepositErrors(raw: RawInput, c: Coercion)
    requires ValidateContract(raw, c).Err?
    ensures var errors := ValidateContract(raw, c).errors;
      && ("deposit" in errors <==>
            !(Get(raw, "deposit").Undefined? || IsNonNegativeInteger(ToNumber(c, Get(raw, "deposit")))))
      && ("keyMoney" in errors <==>
            !(Get(raw, "keyMoney").Undefined? || IsNonNegativeInteger(ToNumber(c, Get(raw, "keyMoney")))))
      && ("deposit" in errors ==> errors["deposit"] == OptionalNonNegativeInteger(c, Get(raw, "deposit")).issues)
      && ("keyMoney" in errors ==> errors["keyMoney"] == OptionalNonNegativeInteger(c, Get(raw, "keyMoney")).issues)
  {
    var contractorId := RequiredString(Get(raw, "contractorId"), ContractorRequired);
    var roomId := RequiredString(Get(raw, "roomId"), RoomRequired);
    var startDate := CoercedDate(c, Get(raw, "startDate"), StartDateInvalid);
    var endDate := CoercedDate(c, Get(raw, "endDate"), EndDateInvalid);
    var rent := Amount(c, Get(raw, "rent"), RentInvalid);
    var managementFee := Amount(c, Get(raw, "managementFee"), ManagementFeeInvalid);
    var deposit := OptionalNonNegativeInteger(c, Get(raw, "deposit"));
    var keyMoney := OptionalNonNegativeInteger(c, Get(raw, "keyMoney"));
    var status := StatusField(Get(raw, "status"));
    assert ValidateContract(raw, c)
        == Combine(contractorId, roomId, startDate, endDate, rent, managementFee, deposit, keyMoney, status);
    CombineErrors(contractorId, roomId, startDate, endDate, rent, managementFee, deposit, keyMoney, status);
  }

  lemma ContractStatusErrors(raw: RawInput, c: Coercion)
    requires ValidateContract(raw, c).Err?
    ensures var errors := ValidateContract(raw, c).errors;
      && ("status" in errors <==> !IsStatusOrAbsent(Get(raw, "status")))
      && ("status" in errors ==> errors["status"] == StatusField(Get(raw, "status")).issues)
  {
    var contractorId := RequiredString(Get(raw, "contractorId"), ContractorRequired);
    var roomId := RequiredString(Get(raw, "roomId"), RoomRequired);
    var startDate := CoercedDate(c, Get(raw, "startDate"), StartDateInvalid);
    var endDate := CoercedDate(c, Get(raw, "endDate"), EndDateInvalid);
    var rent := Amount(c, Get(raw, "rent"), RentInvalid);
    var managementFee := Amount(c, Get(raw, "managementFee"), ManagementFeeInvalid);
    var deposit := OptionalNonNegativeInteger(c, Get(raw, "deposit"));
    var keyMoney := OptionalNonNegativeInteger(c, Get(raw, "keyMoney"));
    var status := StatusField(Get(raw, "status"));
    assert ValidateContract(raw, c)
        == Combine(contractorId, roomId, startDate, endDate, rent, managementFee, deposit, keyMoney, status);
    CombineErrors(contractorId, roomId, startDate, endDate, rent, managementFee, deposit, keyMoney, status);
  }

  /**
   * When every field passes on its own but the end is not after the start, the only
   * error is the end-after-start message, on `endDate`.
   */
  lemma ContractEndNotAfterStart(raw: RawInput, c: Coercion)
    requires ContractFieldsValid(raw, c) && !ContractDatesOrdered(raw, c)
    ensures ValidateContract(raw, c) == Err(map["endDate" := [EndAfterStart]])
  {
    var contractorId := RequiredString(Get(raw, "contractorId"), ContractorRequired);
    var roomId := RequiredString(Get(raw, "roomId"), RoomRequired);
    var startDate := CoercedDate(c, Get(raw, "startDate"), StartDateInvalid);
    var endDate := CoercedDate(c, Get(raw, "endDate"), EndDateInvalid);
    var rent := Amount(c, Get(raw, "rent"), RentInvalid);
    var managementFee := Amount(c, Get(raw, "managementFee"), ManagementFeeInvalid);
    var deposit := OptionalNonNegativeInteger(c, Get(raw, "deposit"));
    var keyMoney := OptionalNonNegativeInteger(c, Get(raw, "keyMoney"));
    var status := StatusField(Get(raw, "status"));
    assert ValidateContract(raw, c)
        == Combine(contractorId, roomId, startDate, endDate, rent, managementFee, deposit, keyMoney, status);
    CombineOnlyDates(contractorId, roomId, startDate, endDate, rent, managementFee, deposit, keyMoney, status);
  }
}
