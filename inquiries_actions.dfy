/**
 * `createInquiry`: the status is never taken from the form and is stored as
 * RECEIVED; a blank contractor is stored as null.
 */
module InquiryActions {
  import opened Wrappers
  import opened Entities
  import opened Zod
  import opened Pipeline
  import opened InquirySchema

  const InquiriesPath := "/dashboard/inquiries"

  /** The stored inquiry: the validated fields, a nullable contractor and the status. */
  datatype Inquiry = Inquiry(
    contactName: string, contactInfo: string, subject: string, details: string,
    contractorId: Option<string>, status: InquiryStatus)

  /** The object handed to the schema: `contractorId` as `value || undefined`, the rest as submitted. */
  function InquiryRaw(fd: FormData): (raw: RawInput)
    ensures Get(raw, "contactName") == FormValue(fd, "contactName")
    ensures Get(raw, "contactInfo") == FormValue(fd, "contactInfo")
    ensures Get(raw, "subject") == FormValue(fd, "subject")
    ensures Get(raw, "details") == FormValue(fd, "details")
    ensures Get(raw, "contractorId") == if Filled(fd, "contractorId") then Str(fd["contractorId"]) else Undefined
  {
    map[
      "contactName" := FormValue(fd, "contactName"),
      "contactInfo" := FormValue(fd, "contactInfo"),
      "subject" := FormValue(fd, "subject"),
      "details" := FormValue(fd, "details"),
      "contractorId" := FormValueOr(fd, "contractorId", Undefined)
    ]
  }

  /** The row written for a validated inquiry: status forced to RECEIVED, `contractorId || null`. */
  function InquiryRow(v: InquiryFormValues): (row: Inquiry)
    ensures row.contactName == v.contactName && row.contactInfo == v.contactInfo
    ensures row.subject == v.subject && row.details == v.details
    ensures row.contractorId.Some? <==> v.contractorId.Some? && v.contractorId.value != ""
    ensures row.contractorId.Some? ==> row.contractorId == v.contractorId
    ensures row.status == RECEIVED
  {
    Inquiry(v.contactName, v.contactInfo, v.subject, v.details, NullIfEmpty(v.contractorId), RECEIVED)
  }

  predicate InquiryFormAccepted(fd: FormData) {
    Filled(fd, "contactName") && Filled(fd, "contactInfo") && Filled(fd, "subject") && Filled(fd, "details")
  }

  function CreateInquiry(prevState: Option<FormState>, fd: FormData, store: StoreResult): (run: Run<Inquiry>)
    ensures WellFormedRun(run, InquiriesPath)
    ensures run.effects != [] <==> InquiryFormAccepted(fd)
    ensures run.effects != [] ==>
      run.effects[0] == Insert(Inquiry(fd["contactName"], fd["contactInfo"], fd["subject"], fd["details"],
                                       if Filled(fd, "contractorId") then Some(fd["contractorId"]) else None,
                                       RECEIVED))
    ensures InquiryFormAccepted(fd) ==>
      run.outcome == if store.Stored? then Redirected(InquiriesPath)
                     else Returned(FormState(false, SaveFailedMessage, Some(map[])))
  {
    Submit(ValidateInquiry(InquiryRaw(fd)), InquiryRow, store, InquiriesPath, Some(map[]), RedirectToList)
  }

  /**
   * A rejected submission returns the input-error state and inserts nothing; its
   * errors name exactly the required fields that are missing or empty.
   */
  lemma InquiryRejected(prevState: Option<FormState>, fd: FormData, store: StoreResult)
    requires !InquiryFormAccepted(fd)
    ensures var run := CreateInquiry(prevState, fd, store);
      && run.effects == []
      && run.outcome.Returned?
      && var state := run.outcome.state;
      && !state.success && state.message == InvalidInputMessage && state.errors.Some?
      && var errors := state.errors.value;
      && errors.Keys <= {"contactName", "contactInfo", "subject", "details"}
      && ("contactName" in errors <==> !Filled(fd, "contactName"))
      && ("contactInfo" in errors <==> !Filled(fd, "contactInfo"))
      && ("subject" in errors <==> !Filled(fd, "subject"))
      && ("details" in errors <==> !Filled(fd, "details"))
  {
    var raw := InquiryRaw(fd);
    assert ValidateInquiry(raw).Err?;
    InquiryErrorsByField(raw);
  }

  /**
   * A required field left empty gets its own message; one missing from the submission
   * altogether gets zod's message for a `null` where a string was expected.
   */
  lemma InquiryRejectedMessages(prevState: Option<FormState>, fd: FormData, store: StoreResult)
    requires !InquiryFormAccepted(fd)
    ensures var run := CreateInquiry(prevState, fd, store);
      && run.outcome.Returned? && run.outcome.state.errors.Some?
      && var errors := run.outcome.state.errors.value;
      && ("contactName" in errors ==>
            errors["contactName"] == [if "contactName" in fd then ContactNameRequired else InvalidTypeMessage("string", Null)])
      && ("contactInfo" in errors ==>
            errors["contactInfo"] == [if "contactInfo" in fd then ContactInfoRequired else InvalidTypeMessage("string", Null)])
      && ("subject" in errors ==>
            errors["subject"] == [if "subject" in fd then SubjectRequired else InvalidTypeMessage("string", Null)])
      && ("details" in errors ==>
            errors["details"] == [if "details" in fd then DetailsRequired else InvalidTypeMessage("string", Null)])
  {
    InquiryRejected(prevState, fd, store);
    var raw := InquiryRaw(fd);
    InquiryErrorsByField(raw);
  }

  /**
   * Only the five inquiry fields are read: a `status` in the submission, or any other
   * key, changes nothing, and neither does the previous state.
   */
  lemma InquiryReadsOnlyItsFields(prev1: Option<FormState>, prev2: Option<FormState>,
                                  fd1: FormData, fd2: FormData, store: StoreResult)
    requires AgreeOn(fd1, fd2, {"contactName", "contactInfo", "subject", "details", "contractorId"})
    ensures CreateInquiry(prev1, fd1, store) == CreateInquiry(prev2, fd2, store)
  {
    assert InquiryRaw(fd1) == InquiryRaw(fd2);
  }
}
