/**
 * `createContract`: dates and amounts are coerced from their strings, blank optional
 * amounts are left out, a blank status becomes ACTIVE, and success redirects to the list.
 */
module ContractActions {
  import opened Wrappers
  import opened Entities
  import opened Zod
  import opened Pipeline
  import opened ContractSchema

  const ContractsPath := "/dashboard/contracts"

  /**
   * The object handed to the schema: `deposit` and `keyMoney` as `value || undefined`,
   * `status` as `value || 'ACTIVE'`; the rest as `formData.get` returns them.
   */
  function ContractRaw(fd: FormData): (raw: RawInput)
    ensures Get(raw, "contractorId") == FormValue(fd, "contractorId")
    ensures Get(raw, "roomId") == FormValue(fd, "roomId")
    ensures Get(raw, "startDate") == FormValue(fd, "startDate")
    ensures Get(raw, "endDate") == FormValue(fd, "endDate")
    ensures Get(raw, "rent") == FormValue(fd, "rent")
    ensures Get(raw, "managementFee") == FormValue(fd, "managementFee")
    ensures Get(raw, "deposit") == if Filled(fd, "deposit") then Str(fd["deposit"]) else Undefined
    ensures Get(raw, "keyMoney") == if Filled(fd, "keyMoney") then Str(fd["keyMoney"]) else Undefined
    ensures Get(raw, "status") == if Filled(fd, "status") then Str(fd["status"]) else Str("ACTIVE")
  {
    map[
      "contractorId" := FormValue(fd, "contractorId"),
      "roomId" := FormValue(fd, "roomId"),
      "startDate" := FormValue(fd, "startDate"),
      "endDate" := FormValue(fd, "endDate"),
      "rent" := FormValue(fd, "rent"),
      "managementFee" := FormValue(fd, "managementFee"),
      "deposit" := FormValueOr(fd, "deposit", Undefined),
      "keyMoney" := FormValueOr(fd, "keyMoney", Undefined),
      "status" := FormValueOr(fd, "status", Str("ACTIVE"))
    ]
  }

  /** A blank optional amount is left out; a filled one must read as a non-negative integer. */
  predicate OptionalAmountAccepted(fd: FormData, key: string, c: Coercion) {
    !Filled(fd, key) || IsNonNegativeInteger(ToNumber(c, Str(fd[key])))
  }

  /** A blank status defaults to ACTIVE; a filled one must name a contract status. */
  predicate StatusAccepted(fd: FormData) {
    !Filled(fd, "status") || fd["status"] in ContractStatusNames
  }

  /** Every field passes on its own, read from the form. */
  predicate ContractFieldsAccepted(fd: FormData, c: Coercion) {
    && Filled(fd, "contractorId") && Filled(fd, "roomId")
    && ToDate(c, FormValue(fd, "startDate")).Some? && ToDate(c, FormValue(fd, "endDate")).Some?
    && IsNonNegativeInteger(ToNumber(c, FormValue(fd, "rent")))
    && IsNonNegativeInteger(ToNumber(c, FormValue(fd, "managementFee")))
    && OptionalAmountAccepted(fd, "deposit", c) && OptionalAmountAccepted(fd, "keyMoney", c)
    && StatusAccepted(fd)
  }

  /** The contract ends strictly after it starts, both dates read from the form. */
  predicate ContractFormDatesOrdered(fd: FormData, c: Coercion) {
    && ToDate(c, FormValue(fd, "startDate")).Some? && ToDate(c, FormValue(fd, "endDate")).Some?
    && ToDate(c, FormValue(fd, "endDate")).value > ToDate(c, FormValue(fd, "startDate")).value
  }

  /**
   * No field aborts, read from the form: the two ids are present, the dates read,
   * and every amount given reads as a number.
   */
  predicate ContractFormWellTyped(fd: FormData, c: Coercion) {
    && "contractorId" in fd && "roomId" in fd
    && ToDate(c, FormValue(fd, "startDate")).Some? && ToDate(c, FormValue(fd, "endDate")).Some?
    && !ToNumber(c, FormValue(fd, "rent")).NaN? && !ToNumber(c, FormValue(fd, "managementFee")).NaN?
    && (!Filled(fd, "deposit") || !ToNumber(c, Str(fd["deposit"])).NaN?)
    && (!Filled(fd, "keyMoney") || !ToNumber(c, Str(fd["keyMoney"])).NaN?)
    && StatusAccepted(fd)
  }

  predicate ContractFormAccepted(fd: FormData, c: Coercion) {
    ContractFieldsAccepted(fd, c) && ContractFormDatesOrdered(fd, c)
  }

  /** The schema's acceptance conditions, restated in terms of the form. */
  lemma ContractRawReadsForm(fd: FormData, c: Coercion)
    ensures var raw := ContractRaw(fd);
      && (ContractFieldsValid(raw, c) <==> ContractFieldsAccepted(fd, c))
      && (ContractDatesOrdered(raw, c) <==> ContractFormDatesOrdered(fd, c))
      && (ContractWellTyped(raw, c) <==> ContractFormWellTyped(fd, c))
  {
    var raw := ContractRaw(fd);
    assert IsStatusOrAbsent(Get(raw, "status")) <==> StatusAccepted(fd);
  }

  /** `prevState` is accepted for the form-state hook and never read. */
  function CreateContract(prevState: Option<FormState>, fd: FormData, c: Coercion, store: StoreResult)
    : (run: Run<Contract>)
    ensures WellFormedRun(run, ContractsPath)
    ensures run.effects != [] <==> ContractFormAccepted(fd, c)
    ensures run.effects != [] ==>
      run.effects[0] == Insert(Contract(
        fd["contractorId"], fd["roomId"],
        ToDate(c, FormValue(fd, "startDate")).value, ToDate(c, FormValue(fd, "endDate")).value,
        ToNumber(c, FormValue(fd, "rent")).i, ToNumber(c, FormValue(fd, "managementFee")).i,
        if Filled(fd, "deposit") then Some(ToNumber(c, Str(fd["deposit"])).i) else None,
        if Filled(fd, "keyMoney") then Some(ToNumber(c, Str(fd["keyMoney"])).i) else None,
        if Filled(fd, "status") then ParseContractStatus(fd["status"]).value else ACTIVE))
    ensures ContractFormAccepted(fd, c) ==>
      run.outcome == if store.Stored? then Redirected(ContractsPath)
                     else Returned(FormState(false, SaveFailedMessage, Some(map[])))
  {
    ContractRawReadsForm(fd, c);
    Submit(ValidateContract(ContractRaw(fd), c), (v: Contract) => v, store, ContractsPath, Some(map[]), RedirectToList)
  }

  /**
   * A rejected submission returns the input-error state and inserts nothing. Its
   * errors name only contract fields: each id exactly when it is blank or missing,
   * `startDate` exactly when it does not read as a date, and `endDate` exactly when
   * it does not read as a date or, with no field aborting, the contract does not end
   * after it starts.
   */
  lemma ContractRejected(prevState: Option<FormState>, fd: FormData, c: Coercion, store: StoreResult)
    requires !ContractFormAccepted(fd, c)
    ensures var run := CreateContract(prevState, fd, c, store);
      && run.effects == []
      && run.outcome.Returned?
      && var state := run.outcome.state;
      && !state.success && state.message == InvalidInputMessage && state.errors.Some?
      && var errors := state.errors.value;
      && errors.Keys <= {"contractorId", "roomId", "startDate", "endDate", "rent", "managementFee",
                         "deposit", "keyMoney", "status"}
      && ("contractorId" in errors <==> !Filled(fd, "contractorId"))
      && ("roomId" in errors <==> !Filled(fd, "roomId"))
      && ("startDate" in errors <==> ToDate(c, FormValue(fd, "startDate")).None?)
      && ("endDate" in errors <==>
            ToDate(c, FormValue(fd, "endDate")).None?
            || (ContractFormWellTyped(fd, c) && !ContractFormDatesOrdered(fd, c)))
      && ("endDate" in errors ==>
            errors["endDate"] == if ToDate(c, FormValue(fd, "endDate")).None? then [EndDateInvalid]
                                 else [EndAfterStart])
  {
    var raw := ContractRaw(fd);
    ContractRawReadsForm(fd, c);
    assert ValidateContract(raw, c).Err?;
    ContractIdentityErrors(raw, c);
    ContractEndDateErrors(raw, c);
  }

  /**
   * In a rejected submission, each amount is named exactly when it does not read as a
   * non-negative integer (a blank optional one never is), and the status exactly when
   * it names no contract status.
   */
  lemma ContractRejectedAmounts(prevState: Option<FormState>, fd: FormData, c: Coercion, store: StoreResult)
    requires !ContractFormAccepted(fd, c)
    ensures var run := CreateContract(prevState, fd, c, store);
      && run.outcome.Returned? && run.outcome.state.errors.Some?
      && var errors := run.outcome.state.errors.value;
      && ("rent" in errors <==> !IsNonNegativeInteger(ToNumber(c, FormValue(fd, "rent"))))
      && ("managementFee" in errors <==> !IsNonNegativeInteger(ToNumber(c, FormValue(fd, "managementFee"))))
      && ("deposit" in errors <==> !OptionalAmountAccepted(fd, "deposit", c))
      && ("keyMoney" in errors <==> !OptionalAmountAccepted(fd, "keyMoney", c))
      && ("status" in errors <==> !StatusAccepted(fd))
  {
    var raw := ContractRaw(fd);
    ContractRawReadsForm(fd, c);
    assert ValidateContract(raw, c).Err?;
    assert IsStatusOrAbsent(Get(raw, "status")) <==> StatusAccepted(fd);
    ContractFeeErrors(raw, c);
    ContractDepositErrors(raw, c);
    ContractStatusErrors(raw, c);
  }

  /**
   * The messages of a rejected submission: a blank id its own message and a missing
   * one zod's message for `null`; an unreadable start date its one message; each
   * amount the messages of its own check, on the number read from the form; and a
   * status that names no contract status zod's enum message, listing the six names.
   */
  lemma ContractRejectedMessages(prevState: Option<FormState>, fd: FormData, c: Coercion, store: StoreResult)
    requires !ContractFormAccepted(fd, c)
    ensures var run := CreateContract(prevState, fd, c, store);
      && run.outcome.Returned? && run.outcome.state.errors.Some?
      && var errors := run.outcome.state.errors.value;
      && ("contractorId" in errors ==>
            errors["contractorId"]
            == [if "contractorId" in fd then ContractorRequired else InvalidTypeMessage("string", Null)])
      && ("roomId" in errors ==>
            errors["roomId"] == [if "roomId" in fd then RoomRequired else InvalidTypeMessage("string", Null)])
      && ("startDate" in errors ==> errors["startDate"] == [StartDateInvalid])
      && ("status" in errors ==> "status" in fd && errors["status"] == [InvalidEnumMessage(ContractStatusNames, fd["status"])])
  {
    ContractRejectedAmounts(prevState, fd, c, store);
    var raw := ContractRaw(fd);
    assert ValidateContract(raw, c).Err?;
    ContractIdentityErrors(raw, c);
    ContractStatusErrors(raw, c);
  }

  /** The messages of a rejected amount: those its own check raises on the number read from the form. */
  lemma ContractRejectedAmountMessages(prevState: Option<FormState>, fd: FormData, c: Coercion,
                                       store: StoreResult)
    requires !ContractFormAccepted(fd, c)
    ensures var run := CreateContract(prevState, fd, c, store);
      && run.outcome.Returned? && run.outcome.state.errors.Some?
      && var errors := run.outcome.state.errors.value;
      && ("rent" in errors ==>
            errors["rent"]
            == NonNegativeInteger(ToNumber(c, FormValue(fd, "rent")), NotNumberMessage, NotIntegerMessage,
                                  RentInvalid).issues)
      && ("managementFee" in errors ==>
            errors["managementFee"]
            == NonNegativeInteger(ToNumber(c, FormValue(fd, "managementFee")), NotNumberMessage, NotIntegerMessage,
                                  ManagementFeeInvalid).issues)
      && ("deposit" in errors ==>
            "deposit" in fd && errors["deposit"]
            == NonNegativeInteger(ToNumber(c, Str(fd["deposit"])), NotNumberMessage, NotIntegerMessage,
                                  NegativeMessage).issues)
      && ("keyMoney" in errors ==>
            "keyMoney" in fd && errors["keyMoney"]
            == NonNegativeInteger(ToNumber(c, Str(fd["keyMoney"])), NotNumberMessage, NotIntegerMessage,
                                  NegativeMessage).issues)
  {
    ContractRejectedAmounts(prevState, fd, c, store);
    var raw := ContractRaw(fd);
    assert ValidateContract(raw, c).Err?;
    ContractFeeErrors(raw, c);
    ContractDepositErrors(raw, c);
  }

  /**
   * A contract whose fields all pass but which ends on or before its start day is
   * rejected with the end-after-start message on `endDate` and nothing else.
   */
  lemma ContractEndNotAfterStartRejected(prevState: Option<FormState>, fd: FormData, c: Coercion,
                                         store: StoreResult)
    requires ContractFieldsAccepted(fd, c) && !ContractFormDatesOrdered(fd, c)
    ensures CreateContract(prevState, fd, c, store)
         == Run([], Returned(FormState(false, InvalidInputMessage, Some(map["endDate" := [EndAfterStart]]))))
  {
    ContractRawReadsForm(fd, c);
    ContractEndNotAfterStart(ContractRaw(fd), c);
  }

  /**
   * A form without `endDate` reads its end as `new Date(null)`, the epoch, so a
   * contract starting at or after the epoch is never stored; when every field
   * passes, the one error is the end-after-start message on `endDate`.
   */
  lemma ContractMissingEndDateRejected(prevState: Option<FormState>, fd: FormData, c: Coercion,
                                       store: StoreResult)
    requires "endDate" !in fd
    requires ToDate(c, FormValue(fd, "startDate")).Some? ==> ToDate(c, FormValue(fd, "startDate")).value >= 0
    ensures CreateContract(prevState, fd, c, store).effects == []
    ensures ContractFieldsAccepted(fd, c) ==>
      CreateContract(prevState, fd, c, store)
        == Run([], Returned(FormState(false, InvalidInputMessage, Some(map["endDate" := [EndAfterStart]]))))
  {
    assert ToDate(c, FormValue(fd, "endDate")) == Some(0);
    if ContractFieldsAccepted(fd, c) {
      ContractEndNotAfterStartRejected(prevState, fd, c, store);
    }
  }

  /**
   * What blank fields become in an accepted contract: a blank rent or management fee
   * is 0, a missing start or end date is the epoch, a blank deposit or key money is
   * left out, and a blank status is ACTIVE.
   */
  lemma ContractBlankFields(prevState: Option<FormState>, fd: FormData, c: Coercion, store: StoreResult)
    requires ContractFormAccepted(fd, c)
    ensures var row := CreateContract(prevState, fd, c, store).effects[0].row;
      && (!Filled(fd, "rent") ==> row.rent == 0)
      && (!Filled(fd, "managementFee") ==> row.managementFee == 0)
      && ("startDate" !in fd ==> row.startDate == 0)
      && ("endDate" !in fd ==> row.endDate == 0)
      && (!Filled(fd, "deposit") ==> row.deposit.None?)
      && (!Filled(fd, "keyMoney") ==> row.keyMoney.None?)
      && (!Filled(fd, "status") ==> row.status == ACTIVE)
  {
  }

  /** Only the nine contract fields are read, and the previous state never matters. */
  lemma ContractReadsOnlyItsFields(prev1: Option<FormState>, prev2: Option<FormState>,
                                   fd1: FormData, fd2: FormData, c: Coercion, store: StoreResult)
    requires AgreeOn(fd1, fd2, {"contractorId", "roomId", "startDate", "endDate", "rent", "managementFee",
                                "deposit", "keyMoney", "status"})
    ensures CreateContract(prev1, fd1, c, store) == CreateContract(prev2, fd2, c, store)
  {
    assert ContractRaw(fd1) == ContractRaw(fd2);
  }
}
