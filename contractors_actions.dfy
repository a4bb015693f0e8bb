/**
 * `createContractor`: the checkbox becomes a boolean, and a successful create
 * returns a success state (the page redirects on the client) instead of redirecting.
 */
module ContractorActions {
  import opened Wrappers
  import opened Zod
  import opened Pipeline
  import opened ContractorSchema

  const ContractorsPath := "/dashboard/contractors"
  const CreatedMessage := "契約者を正常に作成しました。"

  /** The checkbox posts `'on'` when ticked and nothing otherwise: `formData.get(...) === 'on'`. */
  function Checkbox(fd: FormData, key: string): (checked: bool)
    ensures checked <==> key in fd && fd[key] == "on"
  {
    FormValue(fd, key) == Str("on")
  }

  /** The object handed to the schema: the three strings as submitted, the checkbox as a boolean. */
  function ContractorRaw(fd: FormData): (raw: RawInput)
    ensures Get(raw, "name") == FormValue(fd, "name")
    ensures Get(raw, "contact") == FormValue(fd, "contact")
    ensures Get(raw, "address") == FormValue(fd, "address")
    ensures Get(raw, "isCorporation") == Bool(Checkbox(fd, "isCorporation"))
  {
    map[
      "name" := FormValue(fd, "name"),
      "contact" := FormValue(fd, "contact"),
      "address" := FormValue(fd, "address"),
      "isCorporation" := Bool(Checkbox(fd, "isCorporation"))
    ]
  }

  predicate ContractorFormAccepted(fd: FormData) {
    Filled(fd, "name") && Filled(fd, "contact") && Filled(fd, "address")
  }

  /** `prevState` is accepted for the form-state hook and never read. */
  function CreateContractor(prevState: Option<FormState>, fd: FormData, store: StoreResult): (run: Run<Contractor>)
    ensures WellFormedRun(run, ContractorsPath)
    ensures run.outcome.Returned?
    ensures run.effects != [] <==> ContractorFormAccepted(fd)
    ensures run.effects != [] ==>
      run.effects[0] == Insert(Contractor(fd["name"], fd["contact"], fd["address"], Checkbox(fd, "isCorporation")))
    ensures ContractorFormAccepted(fd) ==>
      run.outcome.state == if store.Stored? then FormState(true, CreatedMessage, Some(map[]))
                           else FormState(false, SaveFailedMessage, Some(map[]))
  {
    Submit(ValidateContractor(ContractorRaw(fd)), (c: Contractor) => c, store, ContractorsPath,
           Some(map[]), ReturnState(FormState(true, CreatedMessage, Some(map[]))))
  }

  /**
   * A rejected submission returns the input-error state and inserts nothing; its
   * errors name exactly the required fields that are missing or empty (the checkbox
   * always yields a boolean, so it is never among them).
   */
  lemma ContractorRejected(prevState: Option<FormState>, fd: FormData, store: StoreResult)
    requires !ContractorFormAccepted(fd)
    ensures var run := CreateContractor(prevState, fd, store);
      && run.effects == []
      && run.outcome.Returned?
      && var state := run.outcome.state;
      && !state.success && state.message == InvalidInputMessage && state.errors.Some?
      && var errors := state.errors.value;
      && errors.Keys <= {"name", "contact", "address"}
      && ("name" in errors <==> !Filled(fd, "name"))
      && ("contact" in errors <==> !Filled(fd, "contact"))
      && ("address" in errors <==> !Filled(fd, "address"))
  {
    var raw := ContractorRaw(fd);
    assert ValidateContractor(raw).Err?;
    ContractorErrorsByField(raw);
  }

  /**
   * A required field left empty gets its own message; one missing from the submission
   * altogether gets zod's message for a `null` where a string was expected.
   */
  lemma ContractorRejectedMessages(prevState: Option<FormState>, fd: FormData, store: StoreResult)
    requires !ContractorFormAccepted(fd)
    ensures var run := CreateContractor(prevState, fd, store);
      && run.outcome.Returned? && run.outcome.state.errors.Some?
      && var errors := run.outcome.state.errors.value;
      && ("name" in errors ==>
            errors["name"] == [if "name" in fd then NameRequired else InvalidTypeMessage("string", Null)])
      && ("contact" in errors ==>
            errors["contact"] == [if "contact" in fd then ContactRequired else InvalidTypeMessage("string", Null)])
      && ("address" in errors ==>
            errors["address"] == [if "address" in fd then AddressRequired else InvalidTypeMessage("string", Null)])
  {
    ContractorRejected(prevState, fd, store);
    var raw := ContractorRaw(fd);
    ContractorErrorsByField(raw);
  }

  /** Only the four contractor fields are read, and the previous state never matters. */
  lemma ContractorReadsOnlyItsFields(prev1: Option<FormState>, prev2: Option<FormState>,
                                     fd1: FormData, fd2: FormData, store: StoreResult)
    requires AgreeOn(fd1, fd2, {"name", "contact", "address", "isCorporation"})
    ensures CreateContractor(prev1, fd1, store) == CreateContractor(prev2, fd2, store)
  {
    assert ContractorRaw(fd1) == ContractorRaw(fd2);
  }
}
