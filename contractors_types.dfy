/** `contractorFormSchema`: three required strings and a corporation flag that defaults to false. */
module ContractorSchema {
  import opened Wrappers
  import opened Zod

  datatype Contractor = Contractor(name: string, contact: string, address: string, isCorporation: bool)

  const NameRequired := "契約者名は必須です。"
  const ContactRequired := "連絡先は必須です。"
  const AddressRequired := "住所は必須です。"

  /** `isCorporation` is a boolean or left out. */
  predicate IsOptionalBoolean(v: RawValue) {
    v.Undefined? || v.Bool?
  }

  function ValidateContractor(raw: RawInput): (r: Result<Contractor>)
    ensures r.Ok? <==>
      && IsNonEmptyString(Get(raw, "name")) && IsNonEmptyString(Get(raw, "contact"))
      && IsNonEmptyString(Get(raw, "address")) && IsOptionalBoolean(Get(raw, "isCorporation"))
    ensures r.Ok? ==>
      r.value == Contractor(Get(raw, "name").s, Get(raw, "contact").s, Get(raw, "address").s,
                            Get(raw, "isCorporation") == Bool(true))
    ensures r.Err? ==> r.errors != map[]
  {
    var name := RequiredString(Get(raw, "name"), NameRequired);
    var contact := RequiredString(Get(raw, "contact"), ContactRequired);
    var address := RequiredString(Get(raw, "address"), AddressRequired);
    var isCorporation := BooleanDefaultFalse(Get(raw, "isCorporation"));
    if name.Clean() && contact.Clean() && address.Clean() && isCorporation.Clean() then
      Ok(Contractor(name.value, contact.value, address.value, isCorporation.value))
    else
      Err(Flatten(ContractorIssues(name.issues, contact.issues, address.issues, isCorporation.issues)))
  }

  /** The issues the object schema raises, given what each field raised, in field order. */
  function ContractorIssues(name: seq<string>, contact: seq<string>, address: seq<string>,
                            isCorporation: seq<string>): seq<Issue> {
    Tag("name", name) + Tag("contact", contact) + Tag("address", address) + Tag("isCorporation", isCorporation)
  }

  /** Each field's messages land under its own name, and only fields that raised something appear. */
  lemma ContractorErrorsOf(name: seq<string>, contact: seq<string>, address: seq<string>, isCorporation: seq<string>)
    ensures var errors := Flatten(ContractorIssues(name, contact, address, isCorporation));
      && errors.Keys <= {"name", "contact", "address", "isCorporation"}
      && ("name" in errors <==> name != []) && ("name" in errors ==> errors["name"] == name)
      && ("contact" in errors <==> contact != []) && ("contact" in errors ==> errors["contact"] == contact)
      && ("address" in errors <==> address != []) && ("address" in errors ==> errors["address"] == address)
      && ("isCorporation" in errors <==> isCorporation != [])
      && ("isCorporation" in errors ==> errors["isCorporation"] == isCorporation)
  {
    FlattenContractorIssues(name, contact, address, isCorporation);
  }

  lemma FlattenContractorIssues(name: seq<string>, contact: seq<string>, address: seq<string>,
                                isCorporation: seq<string>)
    ensures Flatten(ContractorIssues(name, contact, address, isCorporation))
         == AddMessages(AddMessages(AddMessages(AddMessages(map[],
              "name", name), "contact", contact), "address", address), "isCorporation", isCorporation)
  {
    var a := Tag("name", name);
    var b := a + Tag("contact", contact);
    var c := b + Tag("address", address);
    assert [] + a == a;
    FlattenTagged([], "name", name);
    FlattenTagged(a, "contact", contact);
    FlattenTagged(b, "address", address);
    FlattenTagged(c, "isCorporation", isCorporation);
  }

  /** A rejected contractor names exactly the fields that fail on their own, with their messages. */
  lemma ContractorErrorsByField(raw: RawInput)
    requires ValidateContractor(raw).Err?
    ensures var errors := ValidateContractor(raw).errors;
      && errors.Keys <= {"name", "contact", "address", "isCorporation"}
      && ("name" in errors <==> !IsNonEmptyString(Get(raw, "name")))
      && ("contact" in errors <==> !IsNonEmptyString(Get(raw, "contact")))
      && ("address" in errors <==> !IsNonEmptyString(Get(raw, "address")))
      && ("isCorporation" in errors <==> !IsOptionalBoolean(Get(raw, "isCorporation")))
      && ("name" in errors ==> errors["name"] == [RequiredMessage(Get(raw, "name"), NameRequired)])
      && ("contact" in errors ==> errors["contact"] == [RequiredMessage(Get(raw, "contact"), ContactRequired)])
      && ("address" in errors ==> errors["address"] == [RequiredMessage(Get(raw, "address"), AddressRequired)])
      && ("isCorporation" in errors ==>
            errors["isCorporation"] == [InvalidTypeMessage("boolean", Get(raw, "isCorporation"))])
  {
    var name := RequiredString(Get(raw, "name"), NameRequired);
    var contact := RequiredString(Get(raw, "contact"), ContactRequired);
    var address := RequiredString(Get(raw, "address"), AddressRequired);
    var isCorporation := BooleanDefaultFalse(Get(raw, "isCorporation"));
    ContractorErrorsOf(name.issues, contact.issues, address.issues, isCorporation.issues);
  }
}
