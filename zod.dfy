/**
 * The part of zod (v3) and of JavaScript's coercions that the create schemas use.
 *
 * A schema field parses to `Parsed(value, issues)` or `Aborted(issues)`, as zod's
 * parse status does: a type mismatch (`invalid_type`, `invalid_date`,
 * `invalid_enum_value`) aborts the field, while a failed check (`min`, `int`) or
 * refinement only adds an issue and keeps the value ("dirty"). An object schema
 * collects every field's issues, tagged with the field name, and `safeParse`
 * succeeds exactly when no issue was raised; `error.flatten().fieldErrors`
 * groups the messages by field, in order.
 */
module Zod {
  import opened Wrappers

  /** A value handed to `safeParse`: a string, `null`, `undefined` or a boolean. */
  datatype RawValue = Str(s: string) | Null | Undefined | Bool(b: bool)

  /** The object handed to `safeParse`; a key that is not there reads as `undefined`. */
  type RawInput = map<string, RawValue>

  function Get(raw: RawInput, key: string): RawValue {
    if key in raw then raw[key] else Undefined
  }

  /** zod's name for the parsed type of a raw value. */
  function TypeName(v: RawValue): string {
    match v
    case Str(_) => "string"
    case Null => "null"
    case Undefined => "undefined"
    case Bool(_) => "boolean"
  }

  /** The message of zod's default error map for an `invalid_type` issue. */
  function InvalidTypeMessage(expected: string, v: RawValue): string {
    if v.Undefined? then "Required" else "Expected " + expected + ", received " + TypeName(v)
  }

  const NotIntegerMessage := "Expected integer, received float"
  const NotNumberMessage := "Expected number, received nan"
  const NegativeMessage := "Number must be greater than or equal to 0"

  // ---------------------------------------------------------------- JavaScript coercion

  /**
   * A JavaScript number as far as the schemas look at it: NaN, a value that is not
   * an integer (a fraction or an infinity) with its sign, or an integer.
   */
  datatype JsNumber = NaN | NonInteger(negative: bool) | Integer(i: int)

  /** A JavaScript `Date`'s time value; `None` stands for an Invalid Date. */
  type Instant = int

  /**
   * How non-empty strings are read by `Number(s)` and `new Date(s)`. These parsers
   * are parameters of the model: their float and time-zone rules are not modelled.
   */
  datatype Coercion = Coercion(number: string -> JsNumber, date: string -> Option<Instant>)

  /** `Number(v)`, as `z.coerce.number()` applies it. */
  function ToNumber(c: Coercion, v: RawValue): (n: JsNumber)
    ensures v.Null? || v == Str("") ==> n == Integer(0)
    ensures v.Undefined? ==> n.NaN?
  {
    match v
    case Str(s) => if s == "" then Integer(0) else c.number(s)
    case Null => Integer(0)
    case Undefined => NaN
    case Bool(b) => Integer(if b then 1 else 0)
  }

  /** `new Date(v)`, as `z.coerce.date()` applies it. */
  function ToDate(c: Coercion, v: RawValue): (t: Option<Instant>)
    ensures v.Null? ==> t == Some(0)
    ensures v.Undefined? || v == Str("") ==> t.None?
  {
    match v
    case Str(s) => if s == "" then None else c.date(s)
    case Null => Some(0)
    case Undefined => None
    case Bool(b) => Some(if b then 1 else 0)
  }

  predicate IsNonNegativeInteger(n: JsNumber) {
    n.Integer? && n.i >= 0
  }

  predicate IsNonZeroInteger(n: JsNumber) {
    n.Integer? && n.i != 0
  }

  predicate IsNonEmptyString(v: RawValue) {
    v.Str? && v.s != ""
  }

  /** What `z.string().optional()` accepts. */
  predicate IsOptionalString(v: RawValue) {
    v.Undefined? || v.Str?
  }

  // ---------------------------------------------------------------- field parsing

  datatype Parse<+T> = Parsed(value: T, issues: seq<string>) | Aborted(issues: seq<string>) {
    /** The field passed: it parsed and raised no issue. */
    predicate Clean() {
      Parsed? && issues == []
    }

    /** A field that does not pass says why. */
    predicate Reported() {
      Clean() || issues != []
    }
  }

  /** `z.string().min(1, { message })`. */
  function RequiredString(v: RawValue, message: string): (p: Parse<string>)
    ensures p.Clean() <==> IsNonEmptyString(v)
    ensures p.Parsed? <==> v.Str?
    ensures p.Parsed? ==> p.value == v.s
    ensures !p.Clean() ==> p.issues == [RequiredMessage(v, message)]
  {
    match v
    case Str(s) => if |s| >= 1 then Parsed(s, []) else Parsed(s, [message])
    case _ => Aborted([InvalidTypeMessage("string", v)])
  }

  /** The one message `RequiredString` raises on a value that fails it. */
  function RequiredMessage(v: RawValue, message: string): string {
    if v.Str? then message else InvalidTypeMessage("string", v)
  }

  /** `z.string().optional()`. */
  function OptionalString(v: RawValue): (p: Parse<Option<string>>)
    ensures p.Clean() <==> p.Parsed?
    ensures p.Parsed? <==> v.Undefined? || v.Str?
    ensures p.Parsed? ==> p.value == if v.Str? then Some(v.s) else None
    ensures p.Aborted? ==> p.issues == [InvalidTypeMessage("string", v)]
  {
    match v
    case Undefined => Parsed(None, [])
    case Str(s) => Parsed(Some(s), [])
    case _ => Aborted([InvalidTypeMessage("string", v)])
  }

  /** `z.boolean().default(false)`. */
  function BooleanDefaultFalse(v: RawValue): (p: Parse<bool>)
    ensures p.Clean() <==> p.Parsed?
    ensures p.Parsed? <==> v.Undefined? || v.Bool?
    ensures p.Parsed? ==> p.value == (v.Bool? && v.b)
    ensures p.Aborted? ==> p.issues == [InvalidTypeMessage("boolean", v)]
  {
    match v
    case Undefined => Parsed(false, [])
    case Bool(b) => Parsed(b, [])
    case _ => Aborted([InvalidTypeMessage("boolean", v)])
  }

  /** `z.coerce.date({ errorMap })`: every issue of the field carries the one message. */
  function CoercedDate(c: Coercion, v: RawValue, message: string): (p: Parse<Instant>)
    ensures p.Clean() <==> ToDate(c, v).Some?
    ensures p.Parsed? <==> ToDate(c, v).Some?
    ensures p.Parsed? ==> p.value == ToDate(c, v).value
    ensures p.Aborted? ==> p.issues == [message]
  {
    match ToDate(c, v)
    case Some(t) => Parsed(t, [])
    case None => Aborted([message])
  }

  /**
   * `z.coerce.number(...).int(...).min(0, ...)`: NaN aborts with `typeMessage`; the
   * integer check and the bound are both run, each adding its own message.
   */
  function NonNegativeInteger(n: JsNumber, typeMessage: string, intMessage: string, minMessage: string)
    : (p: Parse<JsNumber>)
    ensures p.Clean() <==> IsNonNegativeInteger(n)
    ensures p.Parsed? <==> !n.NaN?
    ensures p.Parsed? ==> p.value == n
    ensures n.NaN? ==> p.issues == [typeMessage]
    ensures n.NonInteger? ==> p.issues == [intMessage] + (if n.negative then [minMessage] else [])
    ensures n.Integer? ==> p.issues == if n.i < 0 then [minMessage] else []
  {
    match n
    case NaN => Aborted([typeMessage])
    case NonInteger(negative) => Parsed(n, [intMessage] + if negative then [minMessage] else [])
    case Integer(i) => Parsed(n, if i < 0 then [minMessage] else [])
  }

  /**
   * `z.coerce.number(...).int(...).refine(val => val !== 0, ...)`: the refinement
   * runs after a failed integer check too, and a non-integer is never 0.
   */
  function NonZeroInteger(n: JsNumber, typeMessage: string, intMessage: string, zeroMessage: string)
    : (p: Parse<JsNumber>)
    ensures p.Clean() <==> IsNonZeroInteger(n)
    ensures p.Parsed? <==> !n.NaN?
    ensures p.Parsed? ==> p.value == n
    ensures n.NaN? ==> p.issues == [typeMessage]
    ensures n.NonInteger? ==> p.issues == [intMessage]
    ensures n.Integer? ==> p.issues == if n.i == 0 then [zeroMessage] else []
  {
    match n
    case NaN => Aborted([typeMessage])
    case NonInteger(_) => Parsed(n, [intMessage])
    case Integer(i) => Parsed(n, if i == 0 then [zeroMessage] else [])
  }

  /**
   * `z.coerce.number().int().min(0).optional()`: `undefined` is let through before any
   * coercion; anything else is coerced and checked with zod's default messages.
   */
  function OptionalNonNegativeInteger(c: Coercion, v: RawValue): (p: Parse<Option<JsNumber>>)
    ensures p.Clean() <==> v.Undefined? || IsNonNegativeInteger(ToNumber(c, v))
    ensures p.Parsed? <==> v.Undefined? || !ToNumber(c, v).NaN?
    ensures p.Parsed? ==> p.value == if v.Undefined? then None else Some(ToNumber(c, v))
    ensures v.Undefined? ==> p.issues == []
    ensures !v.Undefined? ==>
      p.issues == NonNegativeInteger(ToNumber(c, v), NotNumberMessage, NotIntegerMessage, NegativeMessage).issues
  {
    if v.Undefined? then Parsed(None, [])
    else
      match NonNegativeInteger(ToNumber(c, v), NotNumberMessage, NotIntegerMessage, NegativeMessage)
      case Parsed(n, issues) => Parsed(Some(n), issues)
      case Aborted(issues) => Aborted(issues)
  }

  /** zod's `joinValues`: each value quoted, separated by " | ". */
  function JoinValues(names: seq<string>): string {
    if names == [] then ""
    else if |names| == 1 then "'" + names[0] + "'"
    else "'" + names[0] + "' | " + JoinValues(names[1..])
  }

  /** zod's default message for a string that names no value of the enum. */
  function InvalidEnumMessage(names: seq<string>, received: string): string {
    "Invalid enum value. Expected " + JoinValues(names) + ", received '" + received + "'"
  }

  /**
   * `z.nativeEnum(E, { errorMap })`: a string that names a value of the enum parses
   * to it; anything else aborts, with the error map's message if one is given and
   * with zod's default message otherwise.
   */
  function NativeEnum<E>(v: RawValue, parse: string -> Option<E>, names: seq<string>, errorMap: Option<string>)
    : (p: Parse<E>)
    ensures p.Clean() <==> p.Parsed?
    ensures p.Parsed? <==> v.Str? && parse(v.s).Some?
    ensures p.Parsed? ==> p.value == parse(v.s).value
    ensures p.Aborted? && errorMap.Some? ==> p.issues == [errorMap.value]
    ensures p.Aborted? && errorMap.None? && v.Str? ==> p.issues == [InvalidEnumMessage(names, v.s)]
    ensures p.Aborted? ==> |p.issues| == 1
  {
    var fallback := if v.Str? then InvalidEnumMessage(names, v.s) else InvalidTypeMessage(JoinValues(names), v);
    var message := if errorMap.Some? then errorMap.value else fallback;
    if v.Str? && parse(v.s).Some? then Parsed(parse(v.s).value, []) else Aborted([message])
  }

  // ---------------------------------------------------------------- issues and flatten

  /** An issue raised by an object schema, with the field it belongs to. */
  datatype Issue = Issue(path: string, message: string)

  /** `error.flatten().fieldErrors`: field name to its messages, in order. */
  type FieldErrors = map<string, seq<string>>

  /** What `safeParse` followed by `flatten` hands back. */
  datatype Result<+T> = Ok(value: T) | Err(errors: FieldErrors)

  /** The issues of one field, each attached to the field's name. */
  function Tag(path: string, messages: seq<string>): (r: seq<Issue>)
    ensures |r| == |messages|
  {
    seq(|messages|, i requires 0 <= i < |messages| => Issue(path, messages[i]))
  }

  /** Tagging a non-empty message list tags all but the last message, then the last one. */
  lemma TagSnoc(path: string, messages: seq<string>)
    requires messages != []
    ensures Tag(path, messages)
         == Tag(path, messages[..|messages| - 1]) + [Issue(path, messages[|messages| - 1])]
  {
  }

  /** The messages of the issues on `path`, in the order they were raised. */
  function MessagesAt(issues: seq<Issue>, path: string): seq<string> {
    if issues == [] then []
    else
      var last := issues[|issues| - 1];
      MessagesAt(issues[..|issues| - 1], path) + if last.path == path then [last.message] else []
  }

  /** zod's `flatten`: walk the issues in order and append each message under its path. */
  function Flatten(issues: seq<Issue>): (errors: FieldErrors)
    ensures issues != [] ==> errors != map[]
  {
    if issues == [] then map[]
    else
      var errors := Flatten(issues[..|issues| - 1]);
      var last := issues[|issues| - 1];
      errors[last.path := (if last.path in errors then errors[last.path] else []) + [last.message]]
  }

  /** `flatten` reports a field exactly when an issue was raised on it, with all of that field's messages. */
  lemma {:induction false} FlattenGroupsByPath(issues: seq<Issue>, path: string)
    ensures path in Flatten(issues) <==> MessagesAt(issues, path) != []
    ensures path in Flatten(issues) ==> Flatten(issues)[path] == MessagesAt(issues, path)
  {
    if issues != [] {
      FlattenGroupsByPath(issues[..|issues| - 1], path);
    }
  }

  /** What `flatten` does with further messages on one path: append them there, if there are any. */
  function AddMessages(errors: FieldErrors, path: string, messages: seq<string>): FieldErrors {
    if messages == [] then errors
    else errors[path := (if path in errors then errors[path] else []) + messages]
  }

  /** The messages `errors` holds for `path`, none if it has no entry. */
  function Lookup(errors: FieldErrors, path: string): seq<string> {
    if path in errors then errors[path] else []
  }

  /** Flattening one more field's issues appends exactly that field's messages under its name. */
  lemma {:induction false} FlattenTagged(issues: seq<Issue>, path: string, messages: seq<string>)
    ensures Flatten(issues + Tag(path, messages)) == AddMessages(Flatten(issues), path, messages)
    decreases |messages|
  {
    if messages == [] {
      assert issues + Tag(path, messages) == issues;
    } else {
      var n := |messages| - 1;
      var rest := issues + Tag(path, messages[..n]);
      TagSnoc(path, messages);
      assert issues + Tag(path, messages) == rest + [Issue(path, messages[n])];
      FlattenSnoc(rest, Issue(path, messages[n]));
      FlattenTagged(issues, path, messages[..n]);
      AddMessagesSnoc(Flatten(issues), path, messages[..n], messages[n]);
      assert messages[..n] + [messages[n]] == messages;
    }
  }

  /** Flattening one more issue appends its message under its path. */
  lemma FlattenSnoc(issues: seq<Issue>, issue: Issue)
    ensures Flatten(issues + [issue]) == AddMessages(Flatten(issues), issue.path, [issue.message])
  {
    var all := issues + [issue];
    assert all[..|all| - 1] == issues;
  }

  /** Appending messages under a path in two steps is appending them in one. */
  lemma AddMessagesSnoc(errors: FieldErrors, path: string, messages: seq<string>, message: string)
    ensures AddMessages(AddMessages(errors, path, messages), path, [message])
         == AddMessages(errors, path, messages + [message])
  {
    if messages == [] {
      assert messages + [message] == [message];
    } else {
      var prior := Lookup(errors, path);
      assert (prior + messages) + [message] == prior + (messages + [message]);
    }
  }

  /**
   * Seen from one key, flattening one more field's issues appends its messages when
   * the field is that key and changes nothing otherwise; the key keeps having an
   * entry exactly when it has messages.
   */
  lemma FlattenTaggedAt(issues: seq<Issue>, path: string, messages: seq<string>, key: string)
    requires key in Flatten(issues) <==> Lookup(Flatten(issues), key) != []
    ensures Lookup(Flatten(issues + Tag(path, messages)), key)
         == Lookup(Flatten(issues), key) + (if key == path then messages else [])
    ensures key in Flatten(issues + Tag(path, messages)) <==> Lookup(Flatten(issues + Tag(path, messages)), key) != []
  {
    FlattenTagged(issues, path, messages);
  }

  /** A single issue flattens to its message under its path. */
  lemma FlattenSingle(issue: Issue)
    ensures Flatten([issue]) == map[issue.path := [issue.message]]
  {
    assert [issue][..0] == [];
    assert [] + [issue.message] == [issue.message];
  }
}
