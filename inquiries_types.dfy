/** `inquiryFormSchema`: four required strings and an optional contractor; it has no status field. */
module InquirySchema {
  import opened Wrappers
  import opened Zod

  datatype InquiryFormValues = InquiryFormValues(
    contactName: string, contactInfo: string, subject: string, details: string, contractorId: Option<string>)

  const ContactNameRequired := "お名前は必須です。"
  const ContactInfoRequired := "連絡先は必須です。"
  const SubjectRequired := "件名は必須です。"
  const DetailsRequired := "内容は必須です。"

  function ValidateInquiry(raw: RawInput): (r: Result<InquiryFormValues>)
    ensures r.Ok? <==>
      && IsNonEmptyString(Get(raw, "contactName")) && IsNonEmptyString(Get(raw, "contactInfo"))
      && IsNonEmptyString(Get(raw, "subject")) && IsNonEmptyString(Get(raw, "details"))
      && IsOptionalString(Get(raw, "contractorId"))
    ensures r.Ok? ==>
      r.value == InquiryFormValues(Get(raw, "contactName").s, Get(raw, "contactInfo").s, Get(raw, "subject").s,
                                   Get(raw, "details").s,
                                   if Get(raw, "contractorId").Str? then Some(Get(raw, "contractorId").s) else None)
    ensures r.Err? ==> r.errors != map[]
  {
    var contactName := RequiredString(Get(raw, "contactName"), ContactNameRequired);
    var contactInfo := RequiredString(Get(raw, "contactInfo"), ContactInfoRequired);
    var subject := RequiredString(Get(raw, "subject"), SubjectRequired);
    var details := RequiredString(Get(raw, "details"), DetailsRequired);
    var contractorId := OptionalString(Get(raw, "contractorId"));
    if contactName.Clean() && contactInfo.Clean() && subject.Clean() && details.Clean() && contractorId.Clean() then
      Ok(InquiryFormValues(contactName.value, contactInfo.value, subject.value, details.value, contractorId.value))
    else
      Err(Flatten(InquiryIssues(contactName.issues, contactInfo.issues, subject.issues, details.issues,
                                contractorId.issues)))
  }

  /** The issues the object schema raises, given what each field raised, in field order. */
  function InquiryIssues(contactName: seq<string>, contactInfo: seq<string>, subject: seq<string>,
                         details: seq<string>, contractorId: seq<string>): seq<Issue> {
    Tag("contactName", contactName) + Tag("contactInfo", contactInfo) + Tag("subject", subject)
    + Tag("details", details) + Tag("contractorId", contractorId)
  }

  /** Each field's messages land under its own name, and only fields that raised something appear. */
  lemma InquiryErrorsOf(contactName: seq<string>, contactInfo: seq<string>, subject: seq<string>,
                        details: seq<string>, contractorId: seq<string>)
    ensures var errors := Flatten(InquiryIssues(contactName, contactInfo, subject, details, contractorId));
      && errors.Keys <= {"contactName", "contactInfo", "subject", "details", "contractorId"}
      && ("contactName" in errors <==> contactName != [])
      && ("contactName" in errors ==> errors["contactName"] == contactName)
      && ("contactInfo" in errors <==> contactInfo != [])
      && ("contactInfo" in errors ==> errors["contactInfo"] == contactInfo)
      && ("subject" in errors <==> subject != []) && ("subject" in errors ==> errors["subject"] == subject)
      && ("details" in errors <==> details != []) && ("details" in errors ==> errors["details"] == details)
      && ("contractorId" in errors <==> contractorId != [])
      && ("contractorId" in errors ==> errors["contractorId"] == contractorId)
  {
    FlattenInquiryIssues(contactName, contactInfo, subject, details, contractorId);
  }

  lemma FlattenInquiryIssues(contactName: seq<string>, contactInfo: seq<string>, subject: seq<string>,
                             details: seq<string>, contractorId: seq<string>)
    ensures Flatten(InquiryIssues(contactName, contactInfo, subject, details, contractorId))
         == AddMessages(AddMessages(AddMessages(AddMessages(AddMessages(map[],
              "contactName", contactName), "contactInfo", contactInfo), "subject", subject),
              "details", details), "contractorId", contractorId)
  {
    var a := Tag("contactName", contactName);
    var b := a + Tag("contactInfo", contactInfo);
    var c := b + Tag("subject", subject);
    var d := c + Tag("details", details);
    assert [] + a == a;
    FlattenTagged([], "contactName", contactName);
    FlattenTagged(a, "contactInfo", contactInfo);
    FlattenTagged(b, "subject", subject);
    FlattenTagged(c, "details", details);
    FlattenTagged(d, "contractorId", contractorId);
  }

  /** A rejected inquiry names exactly the fields that fail on their own, with their messages. */
  lemma InquiryErrorsByField(raw: RawInput)
    requires ValidateInquiry(raw).Err?
    ensures var errors := ValidateInquiry(raw).errors;
      && errors.Keys <= {"contactName", "contactInfo", "subject", "details", "contractorId"}
      && ("contactName" in errors <==> !IsNonEmptyString(Get(raw, "contactName")))
      && ("contactInfo" in errors <==> !IsNonEmptyString(Get(raw, "contactInfo")))
      && ("subject" in errors <==> !IsNonEmptyString(Get(raw, "subject")))
      && ("details" in errors <==> !IsNonEmptyString(Get(raw, "details")))
      && ("contractorId" in errors <==> !IsOptionalString(Get(raw, "contractorId")))
      && ("contactName" in errors ==>
            errors["contactName"] == [RequiredMessage(Get(raw, "contactName"), ContactNameRequired)])
      && ("contactInfo" in errors ==>
            errors["contactInfo"] == [RequiredMessage(Get(raw, "contactInfo"), ContactInfoRequired)])
      && ("subject" in errors ==> errors["subject"] == [RequiredMessage(Get(raw, "subject"), SubjectRequired)])
      && ("details" in errors ==> errors["details"] == [RequiredMessage(Get(raw, "details"), DetailsRequired)])
  {
    var contactName := RequiredString(Get(raw, "contactName"), ContactNameRequired);
    var contactInfo := RequiredString(Get(raw, "contactInfo"), ContactInfoRequired);
    var subject := RequiredString(Get(raw, "subject"), SubjectRequired);
    var details := RequiredString(Get(raw, "details"), DetailsRequired);
    var contractorId := OptionalString(Get(raw, "contractorId"));
    InquiryErrorsOf(contactName.issues, contactInfo.issues, subject.issues, details.issues, contractorId.issues);
  }

  /** The schema has no `status` key: whatever status the input carries, validation does not see it. */
  lemma InquirySchemaIgnoresStatus(raw: RawInput, status: RawValue)
    ensures ValidateInquiry(raw["status" := status]) == ValidateInquiry(raw)
  {
    var raw' := raw["status" := status];
    assert Get(raw', "contactName") == Get(raw, "contactName");
    assert Get(raw', "contactInfo") == Get(raw, "contactInfo");
    assert Get(raw', "subject") == Get(raw, "subject");
    assert Get(raw', "details") == Get(raw, "details");
    assert Get(raw', "contractorId") == Get(raw, "contractorId");
  }
}
