/** `createProperty`: the one create action that takes no previous state and redirects on success. */
module PropertyActions {
  import opened Wrappers
  import opened Entities
  import opened Zod
  import opened Pipeline
  import opened PropertySchema

  const PropertiesPath := "/dashboard/properties"

  /** The object handed to the schema: the three fields, straight from the form. */
  function PropertyRaw(fd: FormData): (raw: RawInput)
    ensures Get(raw, "name") == FormValue(fd, "name")
    ensures Get(raw, "address") == FormValue(fd, "address")
    ensures Get(raw, "type") == FormValue(fd, "type")
  {
    map["name" := FormValue(fd, "name"), "address" := FormValue(fd, "address"), "type" := FormValue(fd, "type")]
  }

  /** The submission a property is created from: name and address filled, type one of the three. */
  predicate PropertyFormAccepted(fd: FormData) {
    Filled(fd, "name") && Filled(fd, "address") && "type" in fd && ParsePropertyType(fd["type"]).Some?
  }

  function CreateProperty(fd: FormData, store: StoreResult): (run: Run<Property>)
    ensures WellFormedRun(run, PropertiesPath)
    ensures run.effects != [] <==> PropertyFormAccepted(fd)
    ensures run.effects != [] ==>
      run.effects[0] == Insert(Property(fd["name"], fd["address"], ParsePropertyType(fd["type"]).value))
    ensures PropertyFormAccepted(fd) ==>
      run.outcome == if store.Stored? then Redirected(PropertiesPath)
                     else Returned(FormState(false, SaveFailedMessage, None))
  {
    Submit(ValidateProperty(PropertyRaw(fd)),
           (p: Property) => Property(p.name, p.address, p.propertyType),
           store, PropertiesPath, None, RedirectToList)
  }

  /**
   * A rejected submission returns the input-error state and inserts nothing; its
   * errors name exactly the fields that are missing, empty or not a property type.
   */
  lemma PropertyRejected(fd: FormData, store: StoreResult)
    requires !PropertyFormAccepted(fd)
    ensures var run := CreateProperty(fd, store);
      && run.effects == []
      && run.outcome.Returned?
      && var state := run.outcome.state;
      && !state.success && state.message == InvalidInputMessage && state.errors.Some?
      && var errors := state.errors.value;
      && errors.Keys <= {"name", "address", "type"}
      && ("name" in errors <==> !Filled(fd, "name"))
      && ("address" in errors <==> !Filled(fd, "address"))
      && ("type" in errors <==> !("type" in fd && ParsePropertyType(fd["type"]).Some?))
      && ("name" in errors ==>
            errors["name"] == [if "name" in fd then NameRequired else InvalidTypeMessage("string", Null)])
      && ("address" in errors ==>
            errors["address"] == [if "address" in fd then AddressRequired else InvalidTypeMessage("string", Null)])
      && ("type" in errors ==> errors["type"] == [TypeRequired])
  {
    var raw := PropertyRaw(fd);
    assert ValidateProperty(raw).Err?;
    PropertyErrorsByField(raw);
  }

  /** Only `name`, `address` and `type` are read from the submission. */
  lemma PropertyReadsOnlyItsFields(fd1: FormData, fd2: FormData, store: StoreResult)
    requires AgreeOn(fd1, fd2, {"name", "address", "type"})
    ensures CreateProperty(fd1, store) == CreateProperty(fd2, store)
  {
    assert PropertyRaw(fd1) == PropertyRaw(fd2);
  }
}
