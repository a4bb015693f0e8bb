/**
 * The enumerations of the storage model (the generated Prisma client) that the
 * create pipeline checks against, each with its wire name and the parser that
 * `z.nativeEnum` amounts to: exact membership of a string among the wire names.
 */
module Entities {
  import opened Wrappers

  datatype PropertyType = MANSION | APARTMENT | HOUSE

  datatype ContractStatus = ACTIVE | UPCOMING | RENEWAL | TERMINATING | TERMINATED | EXPIRED

  datatype InquiryStatus = RECEIVED | IN_PROGRESS | RESOLVED | CLOSED

  datatype TransactionType =
    | RENT_INCOME | MANAGEMENT_FEE_INCOME | DEPOSIT_RECEIVED | KEY_MONEY_INCOME | RENEWAL_FEE_INCOME
    | REPAIR_EXPENSE | RESTORATION_EXPENSE | DEPOSIT_RETURNED | OTHER_INCOME | OTHER_EXPENSE

  // ---------------------------------------------------------------- PropertyType

  function PropertyTypeName(t: PropertyType): string {
    match t
    case MANSION => "MANSION"
    case APARTMENT => "APARTMENT"
    case HOUSE => "HOUSE"
  }

  /** The enum's values in declaration order, as `Object.values` lists them. */
  const PropertyTypeNames: seq<string> := ["MANSION", "APARTMENT", "HOUSE"]

  function ParsePropertyType(s: string): (r: Option<PropertyType>)
    ensures r.Some? <==> s in PropertyTypeNames
    ensures r.Some? ==> PropertyTypeName(r.value) == s
  {
    if s == "MANSION" then Some(MANSION)
    else if s == "APARTMENT" then Some(APARTMENT)
    else if s == "HOUSE" then Some(HOUSE)
    else None
  }

  lemma PropertyTypeRoundTrip(t: PropertyType)
    ensures ParsePropertyType(PropertyTypeName(t)) == Some(t)
  {
  }

  // ---------------------------------------------------------------- ContractStatus

  function ContractStatusName(s: ContractStatus): string {
    match s
    case ACTIVE => "ACTIVE"
    case UPCOMING => "UPCOMING"
    case RENEWAL => "RENEWAL"
    case TERMINATING => "TERMINATING"
    case TERMINATED => "TERMINATED"
    case EXPIRED => "EXPIRED"
  }

  const ContractStatusNames: seq<string> :=
    ["ACTIVE", "UPCOMING", "RENEWAL", "TERMINATING", "TERMINATED", "EXPIRED"]

  function ParseContractStatus(s: string): (r: Option<ContractStatus>)
    ensures r.Some? <==> s in ContractStatusNames
    ensures r.Some? ==> ContractStatusName(r.value) == s
  {
    if s == "ACTIVE" then Some(ACTIVE)
    else if s == "UPCOMING" then Some(UPCOMING)
    else if s == "RENEWAL" then Some(RENEWAL)
    else if s == "TERMINATING" then Some(TERMINATING)
    else if s == "TERMINATED" then Some(TERMINATED)
    else if s == "EXPIRED" then Some(EXPIRED)
    else None
  }

  lemma ContractStatusRoundTrip(s: ContractStatus)
    ensures ParseContractStatus(ContractStatusName(s)) == Some(s)
  {
  }

  // ---------------------------------------------------------------- TransactionType

  function TransactionTypeName(t: TransactionType): string {
    match t
    case RENT_INCOME => "RENT_INCOME"
    case MANAGEMENT_FEE_INCOME => "MANAGEMENT_FEE_INCOME"
    case DEPOSIT_RECEIVED => "DEPOSIT_RECEIVED"
    case KEY_MONEY_INCOME => "KEY_MONEY_INCOME"
    case RENEWAL_FEE_INCOME => "RENEWAL_FEE_INCOME"
    case REPAIR_EXPENSE => "REPAIR_EXPENSE"
    case RESTORATION_EXPENSE => "RESTORATION_EXPENSE"
    case DEPOSIT_RETURNED => "DEPOSIT_RETURNED"
    case OTHER_INCOME => "OTHER_INCOME"
    case OTHER_EXPENSE => "OTHER_EXPENSE"
  }

  const TransactionTypeNames: seq<string> :=
    [ "RENT_INCOME", "MANAGEMENT_FEE_INCOME", "DEPOSIT_RECEIVED", "KEY_MONEY_INCOME", "RENEWAL_FEE_INCOME",
      "REPAIR_EXPENSE", "RESTORATION_EXPENSE", "DEPOSIT_RETURNED", "OTHER_INCOME", "OTHER_EXPENSE" ]

  function ParseTransactionType(s: string): (r: Option<TransactionType>)
    ensures r.Some? <==> s in TransactionTypeNames
    ensures r.Some? ==> TransactionTypeName(r.value) == s
  {
    if s == "RENT_INCOME" then Some(RENT_INCOME)
    else if s == "MANAGEMENT_FEE_INCOME" then Some(MANAGEMENT_FEE_INCOME)
    else if s == "DEPOSIT_RECEIVED" then Some(DEPOSIT_RECEIVED)
    else if s == "KEY_MONEY_INCOME" then Some(KEY_MONEY_INCOME)
    else if s == "RENEWAL_FEE_INCOME" then Some(RENEWAL_FEE_INCOME)
    else if s == "REPAIR_EXPENSE" then Some(REPAIR_EXPENSE)
    else if s == "RESTORATION_EXPENSE" then Some(RESTORATION_EXPENSE)
    else if s == "DEPOSIT_RETURNED" then Some(DEPOSIT_RETURNED)
    else if s == "OTHER_INCOME" then Some(OTHER_INCOME)
    else if s == "OTHER_EXPENSE" then Some(OTHER_EXPENSE)
    else None
  }

  lemma TransactionTypeRoundTrip(t: TransactionType)
    ensures ParseTransactionType(TransactionTypeName(t)) == Some(t)
  {
  }
}
