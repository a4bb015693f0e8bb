/** `propertyFormSchema`: a property's name, address and type. */
module PropertySchema {
  import opened Wrappers
  import opened Entities
  import opened Zod

  /** The validated value (`PropertyFormValues`); `propertyType` is the field `type`. */
  datatype Property = Property(name: string, address: string, propertyType: PropertyType)

  const NameRequired := "物件名は必須です。"
  const AddressRequired := "住所は必須です。"
  const TypeRequired := "物件種別を選択してください。"

  /** The raw `type` names one of the three property types exactly. */
  predicate IsPropertyType(v: RawValue) {
    v.Str? && ParsePropertyType(v.s).Some?
  }

  function TypeField(v: RawValue): (p: Parse<PropertyType>)
    ensures p.Clean() <==> IsPropertyType(v)
    ensures p.Parsed? <==> IsPropertyType(v)
    ensures p.Parsed? ==> p.value == ParsePropertyType(v.s).value
    ensures p.Aborted? ==> p.issues == [TypeRequired]
  {
    NativeEnum(v, ParsePropertyType, PropertyTypeNames, Some(TypeRequired))
  }

  function ValidateProperty(raw: RawInput): (r: Result<Property>)
    ensures r.Ok? <==>
      IsNonEmptyString(Get(raw, "name")) && IsNonEmptyString(Get(raw, "address")) && IsPropertyType(Get(raw, "type"))
    ensures r.Ok? ==>
      r.value == Property(Get(raw, "name").s, Get(raw, "address").s, ParsePropertyType(Get(raw, "type").s).value)
    ensures r.Err? ==> r.errors != map[]
  {
    var name := RequiredString(Get(raw, "name"), NameRequired);
    var address := RequiredString(Get(raw, "address"), AddressRequired);
    var kind := TypeField(Get(raw, "type"));
    if name.Clean() && address.Clean() && kind.Clean() then
      Ok(Property(name.value, address.value, kind.value))
    else
      Err(Flatten(PropertyIssues(name.issues, address.issues, kind.issues)))
  }

  /** The issues the object schema raises, given what each field raised, in field order. */
  function PropertyIssues(name: seq<string>, address: seq<string>, kind: seq<string>): seq<Issue> {
    Tag("name", name) + Tag("address", address) + Tag("type", kind)
  }

  /** Each field's messages land under its own name, and only fields that raised something appear. */
  lemma PropertyErrorsOf(name: seq<string>, address: seq<string>, kind: seq<string>)
    ensures var errors := Flatten(PropertyIssues(name, address, kind));
      && errors.Keys <= {"name", "address", "type"}
      && ("name" in errors <==> name != []) && ("name" in errors ==> errors["name"] == name)
      && ("address" in errors <==> address != []) && ("address" in errors ==> errors["address"] == address)
      && ("type" in errors <==> kind != []) && ("type" in errors ==> errors["type"] == kind)
  {
    FlattenPropertyIssues(name, address, kind);
  }

  lemma FlattenPropertyIssues(name: seq<string>, address: seq<string>, kind: seq<string>)
    ensures Flatten(PropertyIssues(name, address, kind))
         == AddMessages(AddMessages(AddMessages(map[], "name", name), "address", address), "type", kind)
  {
    var a := Tag("name", name);
    var b := a + Tag("address", address);
    assert [] + a == a;
    FlattenTagged([], "name", name);
    FlattenTagged(a, "address", address);
    FlattenTagged(b, "type", kind);
  }

  /**
   * A rejected property names exactly the fields that fail on their own, with their
   * messages: an empty string gets the field's "required" message, a missing one zod's
   * type message, and anything that is not one of the three types the fixed type message.
   */
  lemma PropertyErrorsByField(raw: RawInput)
    requires ValidateProperty(raw).Err?
    ensures var errors := ValidateProperty(raw).errors;
      && errors.Keys <= {"name", "address", "type"}
      && ("name" in errors <==> !IsNonEmptyString(Get(raw, "name")))
      && ("address" in errors <==> !IsNonEmptyString(Get(raw, "address")))
      && ("type" in errors <==> !IsPropertyType(Get(raw, "type")))
      && ("name" in errors ==> errors["name"] == [RequiredMessage(Get(raw, "name"), NameRequired)])
      && ("address" in errors ==> errors["address"] == [RequiredMessage(Get(raw, "address"), AddressRequired)])
      && ("type" in errors ==> errors["type"] == [TypeRequired])
  {
    var name := RequiredString(Get(raw, "name"), NameRequired);
    var address := RequiredString(Get(raw, "address"), AddressRequired);
    var kind := TypeField(Get(raw, "type"));
    PropertyErrorsOf(name.issues, address.issues, kind.issues);
  }
}
