# Estate management: the create pipeline

A model of the create pipeline of a back-office application for rental real estate.
The application records five kinds of entity: properties, contractors (tenants),
lease contracts, financial transactions and inbound inquiries. Each entity has a zod
schema (`src/features/*/types.ts`) and a server action that creates one record from a
submitted form (`src/features/*/actions.ts`). Every action does the same thing:

1. read the form fields into an object, normalising blank optional fields as it goes;
2. run the schema's `safeParse` on that object;
3. if validation fails, return `{ success: false, message, errors }` with zod's
   `flatten().fieldErrors`;
4. otherwise insert one row, and turn a storage failure into a generic failure state;
5. invalidate the listing page, then redirect to it. The contractor action instead
   returns a success state.

The model is written as functions, datatypes and lemmas, following the source, which
is straight-line code with early returns.

- `wrappers.dfy`: `Option`.
- `entities.dfy`: the storage enums (`PropertyType`, `ContractStatus`, `InquiryStatus`,
  `TransactionType`). The three that a schema validates have their wire names and the
  exact-name parsers that `z.nativeEnum` amounts to; `InquiryStatus` is only ever
  stored as `RECEIVED`.
- `zod.dfy`: the part of zod v3 the schemas use, and JavaScript's `Number(v)` and
  `new Date(v)`.
  - A field parses to `Parsed(value, issues)` or `Aborted(issues)`. A type mismatch
    aborts the field. A failed `min`, `int` or `refine` only adds an issue.
  - An object schema collects the issues of every field, tagged with the field's name.
  - `Flatten` is `error.flatten().fieldErrors`: it groups the messages by field, in order.
  - Default messages are written out: "Required", "Expected string, received null",
    "Expected integer, received float", "Expected number, received nan",
    "Number must be greater than or equal to 0", "Invalid enum value. Expected …".
- `pipeline.dfy`: form data, `FormState`, and the run of an action.
  - A run is a trace of effects (`Insert(row)`, `Revalidate(path)`) plus an outcome
    (`Returned(state)` or `Redirected(path)`).
  - `WellFormedRun` is the ordering every action keeps: at most one insert, first;
    revalidation only after it; the run ends in a failure state exactly when it
    stops before revalidation, so a storage failure is never followed by it.
    `Submit` is the shared validate–insert–revalidate–finish step.
- `<entity>_types.dfy` and `<entity>_actions.dfy`: one module per source file.
  Each schema module has:
  - a `Validate…` function, stated by when it succeeds and with what value;
  - a lemma giving exactly which fields a rejection names, and with which messages.

  Each action module has:
  - the object built from the form;
  - the create function, with the row it inserts and its outcome;
  - lemmas restating a rejection in terms of the submitted form;
  - a lemma that nothing outside the entity's own fields, and never `prevState`,
    changes the run.

### Decisions worth knowing

- Missing form fields.
  - `formData.get` returns `null` for a missing field. `null` is what zod sees: a
    missing required string gets "Expected string, received null", not "Required".
  - `Number(null)` and `Number("")` are 0. So a blank or missing `rent` or
    `managementFee` is accepted as 0. A blank or missing transaction `amount` is 0
    and is rejected with the "not zero" message.
  - `new Date(null)` is the epoch. So a transaction submitted without its date
    field is accepted with date 0, and a contract without `startDate` is read as
    starting at 0. A contract without `endDate` is read as ending at 0 too, so the
    end-after-start check rejects it on `endDate` unless it starts before 0.
    `new Date("")` is an Invalid Date, so a blank date is rejected.
    `ContractBlankFields`, `ContractMissingEndDateRejected`, `TransactionBlankAmount`
    and `TransactionMissingDateIsEpoch` state these outcomes.
- The contract's end-after-start refinement runs only when no field aborted, as
  zod's object `refine` does. Its message comes after every field's messages, under
  `endDate`.
- The code does not check that a contract's `contractorId` and `roomId`, an
  inquiry's contractor or a transaction's contract refer to existing records, and
  it does not check rooms for overlapping contracts (that check is a TODO at
  `src/features/contracts/actions.ts:40`). The model checks only what the schemas
  check: the two contract ids are non-empty strings, the optional references are
  strings or absent.
- On a storage failure the properties action returns no `errors` at all (`None` in
  the model); the other four return `{}`.

## Model

| member | source | states |
|---|---|---|
| Entities.ParsePropertyType | src/features/properties/types.ts:9-11 | a string parses to a property type exactly when it is one of MANSION, APARTMENT, HOUSE, and the type parsed has that name |
| Entities.PropertyTypeRoundTrip | src/features/properties/types.ts:9 | every property type's wire name parses back to that type |
| Entities.ParseContractStatus | src/features/contracts/types.ts:18 | a string parses to a contract status exactly when it is one of the six status names, and the status parsed has that name |
| Entities.ContractStatusRoundTrip | src/features/contracts/types.ts:18 | every contract status's wire name parses back to it |
| Entities.ParseTransactionType | src/features/transactions/types.ts:9-11 | a string parses to a transaction type exactly when it is one of the ten type names, and the type parsed has that name |
| Entities.TransactionTypeRoundTrip | src/features/transactions/types.ts:9 | every transaction type's wire name parses back to it |
| Zod.ToNumber | src/features/contracts/types.ts:14-17 | `Number(null)` and `Number("")` are the integer 0; `Number(undefined)` is NaN |
| Zod.ToDate | src/features/contracts/types.ts:8-13 | `new Date(null)` is the epoch; `new Date("")` and `new Date(undefined)` are invalid |
| Zod.RequiredString | src/features/contracts/types.ts:6-7 | `z.string().min(1)` passes exactly the non-empty strings; any string parses (the empty one with the field's message); a non-string aborts with zod's type message; a failure carries exactly one message |
| Zod.OptionalString | src/features/inquiries/types.ts:10 | `z.string().optional()` passes exactly `undefined` (as no value) and strings (as themselves); anything else aborts with zod's type message |
| Zod.BooleanDefaultFalse | src/features/contractors/types.ts:8 | `z.boolean().default(false)` passes exactly booleans and `undefined`; the value is the boolean, and false when absent |
| Zod.CoercedDate | src/features/contracts/types.ts:8-13 | a coerced date passes exactly when `new Date(v)` is valid, with that time; otherwise it aborts with the error map's one message |
| Zod.NonNegativeInteger | src/features/contracts/types.ts:14-15 | `coerce.number().int().min(0)` passes exactly the non-negative integers; NaN aborts with the type message; a fraction raises the integer message, and also the bound's message when negative; a negative integer raises only the bound's message |
| Zod.NonZeroInteger | src/features/transactions/types.ts:12-14 | `coerce.number().int().refine(v => v !== 0)` passes exactly the non-zero integers; NaN aborts with the type message; a fraction raises only the integer message; 0 raises only the refinement's message |
| Zod.OptionalNonNegativeInteger | src/features/contracts/types.ts:16-17 | `undefined` passes as no value before any coercion; anything else is coerced and checked as a non-negative integer with zod's default messages |
| Zod.NativeEnum | src/features/properties/types.ts:9-11 | a native enum passes exactly the strings that name a value; anything else aborts with one message: the error map's if given, else zod's "Invalid enum value" message for a string |
| Zod.Flatten | src/features/properties/actions.ts:34 | `flatten().fieldErrors` of a non-empty issue list is non-empty |
| Zod.FlattenGroupsByPath | src/features/properties/actions.ts:34 | a field appears in `fieldErrors` exactly when some issue was raised on it, and then holds all of that field's messages in the order raised |
| Zod.FlattenTagged | src/features/properties/actions.ts:34 | flattening a field's issues after earlier ones appends exactly that field's messages under its name and changes no other field |
| Pipeline.FormValue | src/features/properties/actions.ts:23-25 | primitive, its contract is its definition: `formData.get(key)` is the submitted string, or `null` when the key is missing |
| Pipeline.FormValueOr | src/features/inquiries/actions.ts:28 | `formData.get(key) \|\| fallback` is the submitted string when it is non-empty, and the fallback when it is blank or missing |
| Pipeline.NullIfEmpty | src/features/inquiries/actions.ts:45 | primitive, its contract is its definition: `value \|\| null` keeps a non-empty string and turns an empty or absent one into null |
| Pipeline.Submit | src/features/properties/actions.ts:22-59 | the run is well formed (at most one insert, first; revalidation only after an insert; a failure state exactly when the run stops before revalidation; a redirect goes to the listing); nothing is inserted exactly when validation fails, and then the input-error state with the field errors is returned; otherwise the validated value's row is inserted; a storage failure returns the generic failure state and nothing follows; a stored row is followed by revalidation and then the redirect or the success state |
| PropertySchema.TypeField | src/features/properties/types.ts:9-11 | the `type` field passes exactly the three property type names; anything else, a missing value included, fails with the one fixed message |
| PropertySchema.ValidateProperty | src/features/properties/types.ts:5-13 | a property validates exactly when name and address are non-empty strings and type names a property type, and the value is exactly `{name, address, type}`; a rejection names at least one field |
| PropertySchema.PropertyErrorsOf | src/features/properties/types.ts:5-13 | the flattened errors name only the three fields, each exactly when it raised messages, with exactly those messages |
| PropertySchema.PropertyErrorsByField | src/features/properties/types.ts:6-11 | a rejected property names exactly the fields that fail, with the field's required message, zod's type message, or the fixed type message |
| PropertyActions.PropertyRaw | src/features/properties/actions.ts:22-26 | the schema sees name, address and type exactly as `formData.get` returns them, `null` when missing |
| PropertyActions.CreateProperty | src/features/properties/actions.ts:17-59 | a well-formed run that inserts exactly when the form is accepted, inserts exactly the submitted name, address and parsed type, redirects to `/dashboard/properties` when stored, and returns the failure state with no `errors` when storage fails |
| PropertyActions.PropertyRejected | src/features/properties/actions.ts:29-36 | a rejected form inserts nothing and returns the input-error state whose errors name exactly the blank or missing name and address and the invalid type, with their messages |
| PropertyActions.PropertyReadsOnlyItsFields | src/features/properties/actions.ts:22-26 | two submissions that agree on name, address and type give the same run |
| ContractorSchema.ValidateContractor | src/features/contractors/types.ts:4-9 | a contractor validates exactly when name, contact and address are non-empty strings and the flag is a boolean or absent; the value carries them, with the flag false when absent |
| ContractorSchema.ContractorErrorsOf | src/features/contractors/types.ts:4-9 | the flattened errors name only the four fields, each exactly when it raised messages, with exactly those messages |
| ContractorSchema.ContractorErrorsByField | src/features/contractors/types.ts:5-8 | a rejected contractor names exactly the failing fields, with the field's required message or zod's type message |
| ContractorActions.Checkbox | src/features/contractors/actions.ts:26 | primitive, its contract is its definition: the checkbox is true exactly when the field was submitted as `'on'` |
| ContractorActions.ContractorRaw | src/features/contractors/actions.ts:21-27 | the schema sees the three strings as `formData.get` returns them, and the checkbox as the boolean `=== 'on'` |
| ContractorActions.CreateContractor | src/features/contractors/actions.ts:16-58 | a well-formed run that always returns; it inserts exactly when the three strings are filled, inserts them with the checkbox flag, returns the created state with `errors: {}` when stored, and returns the failure state with `errors: {}` when storage fails |
| ContractorActions.ContractorRejected | src/features/contractors/actions.ts:29-36 | a rejected form inserts nothing and returns the input-error state naming exactly the blank or missing required fields; the checkbox is never named |
| ContractorActions.ContractorRejectedMessages | src/features/contractors/actions.ts:21-35 | a blank required field carries its own message, a missing one zod's message for `null` |
| ContractorActions.ContractorReadsOnlyItsFields | src/features/contractors/actions.ts:16-27 | the previous state and any field other than the four never change the run |
| InquirySchema.ValidateInquiry | src/features/inquiries/types.ts:5-12 | an inquiry validates exactly when the four required fields are non-empty strings and the contractor is a string or absent, and the value carries exactly those fields |
| InquirySchema.InquiryErrorsOf | src/features/inquiries/types.ts:5-12 | the flattened errors name only the five fields, each exactly when it raised messages, with exactly those messages |
| InquirySchema.InquiryErrorsByField | src/features/inquiries/types.ts:6-10 | a rejected inquiry names exactly the failing fields, with each required field's message or zod's type message |
| InquirySchema.InquirySchemaIgnoresStatus | src/features/inquiries/types.ts:5-12 | adding any `status` to the input changes nothing in validation |
| InquiryActions.InquiryRow | src/features/inquiries/actions.ts:41-47 | the four strings are stored as validated; the contractor is stored, unchanged, exactly when it is present and non-empty, so never as the empty string; the status is always RECEIVED |
| InquiryActions.InquiryRaw | src/features/inquiries/actions.ts:23-29 | the schema sees the four required fields as `formData.get` returns them, and the contractor as the submitted string when non-empty and `undefined` otherwise |
| InquiryActions.CreateInquiry | src/features/inquiries/actions.ts:19-58 | a well-formed run that inserts exactly when the four required fields are filled; the row carries them, the contractor when filled and null otherwise, and status RECEIVED; it redirects to `/dashboard/inquiries` when stored, and returns the failure state with `errors: {}` when storage fails |
| InquiryActions.InquiryRejected | src/features/inquiries/actions.ts:31-38 | a rejected form inserts nothing and returns the input-error state naming exactly the blank or missing required fields; the contractor is never named |
| InquiryActions.InquiryRejectedMessages | src/features/inquiries/actions.ts:23-36 | a blank required field carries its own message, a missing one zod's message for `null` |
| InquiryActions.InquiryReadsOnlyItsFields | src/features/inquiries/actions.ts:19-29 | the previous state, a submitted `status`, or any other field outside the five never change the run |
| TransactionSchema.TypeField | src/features/transactions/types.ts:9-11 | `type` passes exactly the ten type names; anything else fails with the one fixed message |
| TransactionSchema.AmountMessages | src/features/transactions/types.ts:12-14 | the amount raises no message exactly when it is a non-zero integer |
| TransactionSchema.ValidateTransaction | src/features/transactions/types.ts:5-17 | a transaction validates exactly when the date reads, the type is known, the amount is a non-zero integer and both optional fields are strings or absent; the value carries exactly those |
| TransactionSchema.TransactionErrorsOf | src/features/transactions/types.ts:5-17 | the flattened errors name only the five fields, each exactly when it raised messages, with exactly those messages |
| TransactionSchema.TransactionErrorsByField | src/features/transactions/types.ts:6-14 | a rejected transaction names exactly the failing fields: the date with its one message, the type with its one message, the amount with the message for NaN, for a fraction or for zero |
| TransactionSchema.TransactionErrorsOnRequired | src/features/transactions/types.ts:5-17 | when both optional fields are strings or absent, a rejection names only date, type and amount, the date exactly when it does not read and the type exactly when it is unknown |
| TransactionActions.TransactionRow | src/features/transactions/actions.ts:40-45 | the row keeps date, type and amount, and stores the description and contract only when present and non-empty (null otherwise), never as the empty string |
| TransactionActions.TransactionRaw | src/features/transactions/actions.ts:22-28 | the schema sees date, type and amount as `formData.get` returns them, and description and contract as the submitted string when non-empty and `undefined` otherwise |
| TransactionActions.CreateTransaction | src/features/transactions/actions.ts:18-57 | a well-formed run that inserts exactly when the date reads, the type is known and the amount is a non-zero integer; the row carries them, with blank optional fields as null; it redirects to `/dashboard/transactions` when stored, and returns the failure state with `errors: {}` when storage fails |
| TransactionActions.TransactionRejected | src/features/transactions/actions.ts:30-37 | a rejected form inserts nothing and returns the input-error state naming only date, type and amount; the date exactly when it does not read and the type exactly when it is unknown |
| TransactionActions.TransactionRejectedMessages | src/features/transactions/types.ts:6-14 | in a rejection, the date and the type carry their one message each, and the amount is named exactly when it is not a non-zero integer, with the message for NaN, for a fraction or for zero |
| TransactionActions.TransactionBlankAmount | src/features/transactions/actions.ts:25 | a blank or missing amount is rejected with the "not zero" message |
| TransactionActions.TransactionMissingDateIsEpoch | src/features/transactions/actions.ts:23 | a submission with no date field is not rejected for it, and is stored with the epoch as its date |
| TransactionActions.TransactionReadsOnlyItsFields | src/features/transactions/actions.ts:22-28 | the previous state and any field outside the five never change the run |
| ContractSchema.StatusField | src/features/contracts/types.ts:18 | an absent status passes as ACTIVE; a string passes exactly when it names a status; anything else aborts with one message, zod's enum message for a string |
| ContractSchema.Amount | src/features/contracts/types.ts:14-15 | rent and management fee pass exactly when `Number(v)` is a non-negative integer, and a failure always says why |
| ContractSchema.ValidateContract | src/features/contracts/types.ts:5-23 | a contract validates exactly when every field passes on its own and the end date is strictly after the start date, and the value carries the fields, ACTIVE for an absent status and no deposit or key money when absent |
| ContractSchema.Combine | src/features/contracts/types.ts:5-23 | the object schema accepts exactly when every field is clean and end > start, and a rejection names at least one field |
| ContractSchema.ContractErrorsOf | src/features/contracts/types.ts:5-23 | the flattened errors name only the nine fields, each exactly when it raised messages; `endDate` holds its own messages followed by the refinement's |
| ContractSchema.CombineErrors | src/features/contracts/types.ts:5-23 | each field is named exactly when it is not clean, and `endDate` also when the refinement ran and failed, with the field's messages and then the refinement's |
| ContractSchema.CombineOnlyDates | src/features/contracts/types.ts:20-23 | with every field clean and the end not after the start, the one error is the refinement's message on `endDate` |
| ContractSchema.ContractErrorsByField | src/features/contracts/types.ts:6-23 | a rejected contract names exactly the failing fields with their messages; `endDate` is named when it does not read, or when no field aborted and the end is not after the start |
| ContractSchema.ContractEndNotAfterStart | src/features/contracts/types.ts:20-23 | a contract whose fields all pass but which does not end after it starts is rejected with exactly `{ endDate: [refinement message] }` |
| ContractActions.ContractRaw | src/features/contracts/actions.ts:19-29 | the ids, dates, rent and fee reach the schema as `formData.get` returns them; a blank or missing deposit or key money reaches it as `undefined`, never as `""`; a blank or missing status reaches it as `'ACTIVE'` |
| ContractActions.CreateContract | src/features/contracts/actions.ts:18-62 | a well-formed run that inserts exactly when the form is accepted; the row is the validated value, nothing added; it redirects to `/dashboard/contracts` when stored, and returns the failure state with `errors: {}` when storage fails |
| ContractActions.ContractRejected | src/features/contracts/actions.ts:19-38 | a rejected form inserts nothing and returns the input-error state naming only contract fields: each id exactly when blank or missing, each date exactly when it does not read, and `endDate` also for a well-typed contract that does not end after it starts |
| ContractActions.ContractRejectedAmounts | src/features/contracts/types.ts:14-18 | in a rejection, each amount is named exactly when it is not a non-negative integer (a blank optional one never is), and the status exactly when it names no status |
| ContractActions.ContractRejectedMessages | src/features/contracts/types.ts:6-18 | in a rejection, a blank id carries its own message and a missing one zod's message for `null`, an unreadable start date its one message, and a status that names no contract status zod's enum message |
| ContractActions.ContractRejectedAmountMessages | src/features/contracts/types.ts:14-17 | in a rejection, each named amount carries exactly the messages its own check raises on the number read from the form: the field's bound message for rent and fee, zod's default messages for deposit and key money |
| ContractActions.ContractEndNotAfterStartRejected | src/features/contracts/types.ts:20-23 | a form whose fields all pass but whose end is not after its start (equal dates included) is rejected with only the `endDate` message and nothing is inserted |
| ContractActions.ContractMissingEndDateRejected | src/features/contracts/types.ts:11-23 | a form without `endDate` reads its end as the epoch, so a contract starting at or after the epoch is never stored, and when every field passes it is rejected with only the `endDate` end-after-start message |
| ContractActions.ContractBlankFields | src/features/contracts/actions.ts:19-28 | in an accepted contract a blank rent or fee is 0, a missing date the epoch, a blank deposit or key money absent, and a blank status ACTIVE |
| ContractActions.ContractReadsOnlyItsFields | src/features/contracts/actions.ts:18-29 | the previous state and any field outside the nine never change the run |

## Left out

- React and MUI components, the client-side `zodResolver`, and the pages under
  `src/app/dashboard`. They are presentation or read queries.
- Prisma, `revalidatePath` and `redirect`. The insert's outcome is an input
  (`StoreResult`), and the calls are recorded as effects. The outcome of
  `revalidatePath` itself is not modelled. `console.error` logging is left out.
- JavaScript's float and date parsing. `Number(s)` and `new Date(s)` for a non-empty
  string come from a `Coercion` parameter. The model fixes only the cases that matter
  to the code paths: `null`, `""`, `undefined` and booleans. Times are integers.
- Zod.ToNumber: a number is NaN, a non-integer (a fraction or an infinity) with its
  sign, or an integer. The exact float value is not modelled.
- `File` values that `formData.get` can return, and repeated keys. Form data is a
  map from names to single strings; with a repeated key `formData.get` returns the
  first value, which the model does not represent.
- Reference resolution, room-overlap checks and status transitions. The code has
  none of them (`src/features/contracts/actions.ts:40`,
  `src/features/inquiries/actions.ts:62-63`).
- Update and delete actions. They exist only as TODO comments.
- Enum label and colour maps. They are display-only.
- ContractSchema.StatusField: the message zod gives a non-string status (which the
  action never passes, since it always sends a string) is stated only as "one message".
  The order of the six status names in zod's enum message (`ContractStatusNames`:
  ACTIVE, UPCOMING, RENEWAL, TERMINATING, TERMINATED, EXPIRED) is assumed: the
  generated storage enum that fixes the declaration order is not part of this model.
