/**
 * `createTransaction`: the amount and the date are coerced from their strings; a
 * blank description or contract is stored as null; success redirects to the list.
 */
module TransactionActions {
  import opened Wrappers
  import opened Entities
  import opened Zod
  import opened Pipeline
  import opened TransactionSchema

  const TransactionsPath := "/dashboard/transactions"

  /**
   * The object handed to the schema: `description` and `contractId` as
   * `value || undefined`, the rest as submitted.
   */
  function TransactionRaw(fd: FormData): (raw: RawInput)
    ensures Get(raw, "transactionDate") == FormValue(fd, "transactionDate")
    ensures Get(raw, "type") == FormValue(fd, "type")
    ensures Get(raw, "amount") == FormValue(fd, "amount")
    ensures Get(raw, "description") == (if Filled(fd, "description") then Str(fd["description"]) else Undefined)
    ensures Get(raw, "contractId") == (if Filled(fd, "contractId") then Str(fd["contractId"]) else Undefined)
  {
    map[
      "transactionDate" := FormValue(fd, "transactionDate"),
      "type" := FormValue(fd, "type"),
      "amount" := FormValue(fd, "amount"),
      "description" := FormValueOr(fd, "description", Undefined),
      "contractId" := FormValueOr(fd, "contractId", Undefined)
    ]
  }

  /** The row written for a validated transaction: `contractId || null` and `description || null`. */
  function TransactionRow(v: Transaction): (row: Transaction)
    ensures row.transactionDate == v.transactionDate && row.transactionType == v.transactionType
    ensures row.amount == v.amount
    ensures row.description.Some? <==> v.description.Some? && v.description.value != ""
    ensures row.contractId.Some? <==> v.contractId.Some? && v.contractId.value != ""
    ensures row.description.Some? ==> row.description == v.description
    ensures row.contractId.Some? ==> row.contractId == v.contractId
  {
    v.(description := NullIfEmpty(v.description), contractId := NullIfEmpty(v.contractId))
  }

  /** The submission passes the schema: a readable date, a known type and a non-zero integer amount. */
  predicate TransactionFormAccepted(fd: FormData, c: Coercion) {
    && ToDate(c, FormValue(fd, "transactionDate")).Some?
    && IsTransactionType(FormValue(fd, "type"))
    && IsNonZeroInteger(ToNumber(c, FormValue(fd, "amount")))
  }

  /** `prevState` is accepted for the form-state hook and never read. */
  function CreateTransaction(prevState: Option<FormState>, fd: FormData, c: Coercion, store: StoreResult)
    : (run: Run<Transaction>)
    ensures WellFormedRun(run, TransactionsPath)
    ensures run.effects != [] <==> TransactionFormAccepted(fd, c)
    ensures run.effects != [] ==>
      run.effects[0] == Insert(Transaction(
        ToDate(c, FormValue(fd, "transactionDate")).value,
        ParseTransactionType(fd["type"]).value,
        ToNumber(c, FormValue(fd, "amount")).i,
        if Filled(fd, "description") then Some(fd["description"]) else None,
        if Filled(fd, "contractId") then Some(fd["contractId"]) else None))
    ensures TransactionFormAccepted(fd, c) ==>
      run.outcome == if store.Stored? then Redirected(TransactionsPath)
                     else Returned(FormState(false, SaveFailedMessage, Some(map[])))
  {
    Submit(ValidateTransaction(TransactionRaw(fd), c), TransactionRow, store, TransactionsPath,
           Some(map[]), RedirectToList)
  }

  /**
   * A rejected submission returns the input-error state and inserts nothing. Its
   * errors name only the date, type and amount fields; the date exactly when it does
   * not read as a date and the type exactly when it names no transaction type.
   * `TransactionRejectedMessages` gives the messages and the amount's case.
   */
  lemma TransactionRejected(prevState: Option<FormState>, fd: FormData, c: Coercion, store: StoreResult)
    requires !TransactionFormAccepted(fd, c)
    ensures var run := CreateTransaction(prevState, fd, c, store);
      && run.effects == []
      && run.outcome.Returned?
      && var state := run.outcome.state;
      && !state.success && state.message == InvalidInputMessage && state.errors.Some?
      && var errors := state.errors.value;
      && errors.Keys <= {"transactionDate", "type", "amount"}
      && ("transactionDate" in errors <==> ToDate(c, FormValue(fd, "transactionDate")).None?)
      && ("type" in errors <==> !IsTransactionType(FormValue(fd, "type")))
  {
    var raw := TransactionRaw(fd);
    assert ValidateTransaction(raw, c).Err?;
    var errors := ValidateTransaction(raw, c).errors;
    assert CreateTransaction(prevState, fd, c, store)
        == Run([], Returned(FormState(false, InvalidInputMessage, Some(errors))));
    TransactionErrorsOnRequired(raw, c);
  }

  /**
   * The messages of a rejected submission: the date and the type each carry their
   * one message, and the amount is named exactly when it does not read as a non-zero
   * integer, with the message for NaN, for a fraction or for zero.
   */
  lemma TransactionRejectedMessages(prevState: Option<FormState>, fd: FormData, c: Coercion, store: StoreResult)
    requires !TransactionFormAccepted(fd, c)
    ensures var run := CreateTransaction(prevState, fd, c, store);
      && run.outcome.Returned? && run.outcome.state.errors.Some?
      && var errors := run.outcome.state.errors.value;
      && ("transactionDate" in errors ==> errors["transactionDate"] == [DateInvalid])
      && ("type" in errors ==> errors["type"] == [TypeRequired])
      && ("amount" in errors <==> !IsNonZeroInteger(ToNumber(c, FormValue(fd, "amount"))))
      && ("amount" in errors ==> errors["amount"] == AmountMessages(ToNumber(c, FormValue(fd, "amount"))))
  {
    var raw := TransactionRaw(fd);
    assert ValidateTransaction(raw, c).Err?;
    TransactionErrorsByField(raw, c);
  }

  /**
   * A blank or missing amount is read as `Number('')` or `Number(null)`, which is 0:
   * the submission is rejected with the "not zero" message, not the "valid amount" one.
   */
  lemma TransactionBlankAmount(prevState: Option<FormState>, fd: FormData, c: Coercion, store: StoreResult)
    requires !Filled(fd, "amount")
    ensures var run := CreateTransaction(prevState, fd, c, store);
      && run.effects == []
      && run.outcome.Returned? && run.outcome.state.errors.Some?
      && "amount" in run.outcome.state.errors.value
      && run.outcome.state.errors.value["amount"] == [AmountZero]
  {
    assert ToNumber(c, FormValue(fd, "amount")) == Integer(0);
    TransactionRejectedMessages(prevState, fd, c, store);
  }

  /** A submission without a date field is read as `new Date(null)`, the epoch, and is not rejected for it. */
  lemma TransactionMissingDateIsEpoch(prevState: Option<FormState>, fd: FormData, c: Coercion,
                                      store: StoreResult)
    requires "transactionDate" !in fd
    requires IsTransactionType(FormValue(fd, "type")) && IsNonZeroInteger(ToNumber(c, FormValue(fd, "amount")))
    ensures var run := CreateTransaction(prevState, fd, c, store);
      && run.effects != [] && run.effects[0].Insert? && run.effects[0].row.transactionDate == 0
  {
  }

  /** Only the five transaction fields are read, and the previous state never matters. */
  lemma TransactionReadsOnlyItsFields(prev1: Option<FormState>, prev2: Option<FormState>,
                                      fd1: FormData, fd2: FormData, c: Coercion, store: StoreResult)
    requires AgreeOn(fd1, fd2, {"transactionDate", "type", "amount", "description", "contractId"})
    ensures CreateTransaction(prev1, fd1, c, store) == CreateTransaction(prev2, fd2, c, store)
  {
    assert TransactionRaw(fd1) == TransactionRaw(fd2);
  }
}
