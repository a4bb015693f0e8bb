/**
 * `transactionFormSchema`: a coerced date, a transaction type, a coerced non-zero
 * integer amount, and an optional description and contract.
 */
module TransactionSchema {
  import opened Wrappers
  import opened Entities
  import opened Zod

  /** The validated value (`TransactionFormValues`); `transactionType` is the field `type`. */
  datatype Transaction = Transaction(
    transactionDate: Instant, transactionType: TransactionType, amount: int,
    description: Option<string>, contractId: Option<string>)

  const DateInvalid := "有効な取引日を入力してください。"
  const TypeRequired := "種別を選択してください。"
  const AmountInvalid := "有効な金額を入力してください。"
  const AmountNotInteger := "金額は整数で入力してください。"
  const AmountZero := "金額は0以外にしてください。"

  /** The raw `type` names one of the transaction types exactly. */
  predicate IsTransactionType(v: RawValue) {
    v.Str? && ParseTransactionType(v.s).Some?
  }

  function TypeField(v: RawValue): (p: Parse<TransactionType>)
    ensures p.Clean() <==> IsTransactionType(v)
    ensures p.Parsed? <==> IsTransactionType(v)
    ensures p.Parsed? ==> p.value == ParseTransactionType(v.s).value
    ensures p.Aborted? ==> p.issues == [TypeRequired]
  {
    NativeEnum(v, ParseTransactionType, TransactionTypeNames, Some(TypeRequired))
  }

  /** The messages the amount field raises for the number `Number(amount)` gives. */
  function AmountMessages(n: JsNumber): (messages: seq<string>)
    ensures messages == [] <==> IsNonZeroInteger(n)
  {
    match n
    case NaN => [AmountInvalid]
    case NonInteger(_) => [AmountNotInteger]
    case Integer(i) => if i == 0 then [AmountZero] else []
  }

  function ValidateTransaction(raw: RawInput, c: Coercion): (r: Result<Transaction>)
    ensures r.Ok? <==>
      && ToDate(c, Get(raw, "transactionDate")).Some?
      && IsTransactionType(Get(raw, "type"))
      && IsNonZeroInteger(ToNumber(c, Get(raw, "amount")))
      && IsOptionalString(Get(raw, "description"))
      && IsOptionalString(Get(raw, "contractId"))
    ensures r.Ok? ==>
      r.value == Transaction(
        ToDate(c, Get(raw, "transactionDate")).value,
        ParseTransactionType(Get(raw, "type").s).value,
        ToNumber(c, Get(raw, "amount")).i,
        if Get(raw, "description").Str? then Some(Get(raw, "description").s) else None,
        if Get(raw, "contractId").Str? then Some(Get(raw, "contractId").s) else None)
    ensures r.Err? ==> r.errors != map[]
  {
    var date := CoercedDate(c, Get(raw, "transactionDate"), DateInvalid);
    var kind := TypeField(Get(raw, "type"));
    var amount := NonZeroInteger(ToNumber(c, Get(raw, "amount")), AmountInvalid, AmountNotInteger, AmountZero);
    var description := OptionalString(Get(raw, "description"));
    var contractId := OptionalString(Get(raw, "contractId"));
    if date.Clean() && kind.Clean() && amount.Clean() && description.Clean() && contractId.Clean() then
      Ok(Transaction(date.value, kind.value, amount.value.i, description.value, contractId.value))
    else
      Err(Flatten(TransactionIssues(date.issues, kind.issues, amount.issues, description.issues,
                                    contractId.issues)))
  }

  /** The issues the object schema raises, given what each field raised, in field order. */
  function TransactionIssues(date: seq<string>, kind: seq<string>, amount: seq<string>,
                             description: seq<string>, contractId: seq<string>): seq<Issue> {
    Tag("transactionDate", date) + Tag("type", kind) + Tag("amount", amount)
    + Tag("description", description) + Tag("contractId", contractId)
  }

  /** Each field's messages land under its own name, and only fields that raised something appear. */
  lemma TransactionErrorsOf(date: seq<string>, kind: seq<string>, amount: seq<string>,
                            description: seq<string>, contractId: seq<string>)
    ensures var errors := Flatten(TransactionIssues(date, kind, amount, description, contractId));
      && errors.Keys <= {"transactionDate", "type", "amount", "description", "contractId"}
      && ("transactionDate" in errors <==> date != [])
      && ("transactionDate" in errors ==> errors["transactionDate"] == date)
      && ("type" in errors <==> kind != []) && ("type" in errors ==> errors["type"] == kind)
      && ("amount" in errors <==> amount != []) && ("amount" in errors ==> errors["amount"] == amount)
      && ("description" in errors <==> description != [])
      && ("description" in errors ==> errors["description"] == description)
      && ("contractId" in errors <==> contractId != [])
      && ("contractId" in errors ==> errors["contractId"] == contractId)
  {
    FlattenTransactionIssues(date, kind, amount, description, contractId);
  }

  lemma FlattenTransactionIssues(date: seq<string>, kind: seq<string>, amount: seq<string>,
                                 description: seq<string>, contractId: seq<string>)
    ensures Flatten(TransactionIssues(date, kind, amount, description, contractId))
         == AddMessages(AddMessages(AddMessages(AddMessages(AddMessages(map[],
              "transactionDate", date), "type", kind), "amount", amount),
              "description", description), "contractId", contractId)
  {
    var a := Tag("transactionDate", date);
    var b := a + Tag("type", kind);
    var c := b + Tag("amount", amount);
    var d := c + Tag("description", description);
    assert [] + a == a;
    FlattenTagged([], "transactionDate", date);
    FlattenTagged(a, "type", kind);
    FlattenTagged(b, "amount", amount);
    FlattenTagged(c, "description", description);
    FlattenTagged(d, "contractId", contractId);
  }

  /**
   * A rejected transaction names exactly the fields that fail on their own: an
   * unreadable date, an unknown type, and an amount that is not a number, not an
   * integer, or zero, each with its own message.
   */
  lemma TransactionErrorsByField(raw: RawInput, c: Coercion)
    requires ValidateTransaction(raw, c).Err?
    ensures var errors := ValidateTransaction(raw, c).errors;
      && errors.Keys <= {"transactionDate", "type", "amount", "description", "contractId"}
      && ("transactionDate" in errors <==> ToDate(c, Get(raw, "transactionDate")).None?)
      && ("type" in errors <==> !IsTransactionType(Get(raw, "type")))
      && ("amount" in errors <==> !IsNonZeroInteger(ToNumber(c, Get(raw, "amount"))))
      && ("description" in errors <==> !IsOptionalString(Get(raw, "description")))
      && ("contractId" in errors <==> !IsOptionalString(Get(raw, "contractId")))
      && ("transactionDate" in errors ==> errors["transactionDate"] == [DateInvalid])
      && ("type" in errors ==> errors["type"] == [TypeRequired])
      && ("amount" in errors ==> errors["amount"] == AmountMessages(ToNumber(c, Get(raw, "amount"))))
  {
    var date := CoercedDate(c, Get(raw, "transactionDate"), DateInvalid);
    var kind := TypeField(Get(raw, "type"));
    var amount := NonZeroInteger(ToNumber(c, Get(raw, "amount")), AmountInvalid, AmountNotInteger, AmountZero);
    var description := OptionalString(Get(raw, "description"));
    var contractId := OptionalString(Get(raw, "contractId"));
    TransactionErrorsOf(date.issues, kind.issues, amount.issues, description.issues, contractId.issues);
  }

  /**
   * When both optional fields are strings or absent, a rejection names only the date,
   * type and amount: the date exactly when it does not read, the type exactly when it
   * names no transaction type.
   */
  lemma TransactionErrorsOnRequired(raw: RawInput, c: Coercion)
    requires ValidateTransaction(raw, c).Err?
    requires IsOptionalString(Get(raw, "description")) && IsOptionalString(Get(raw, "contractId"))
    ensures var errors := ValidateTransaction(raw, c).errors;
      && errors.Keys <= {"transactionDate", "type", "amount"}
      && ("transactionDate" in errors <==> ToDate(c, Get(raw, "transactionDate")).None?)
      && ("type" in errors <==> !IsTransactionType(Get(raw, "type")))
  {
    TransactionErrorsByField(raw, c);
    var errors := ValidateTransaction(raw, c).errors;
    assert "description" !in errors && "contractId" !in errors;
  }
}
