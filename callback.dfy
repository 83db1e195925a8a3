/**
 * The Callback validator: a field is valid when an allowed-empty value is
 * empty or when the `callback` option accepts the value; otherwise one
 * message, with `:field` replaced by the field's label, is appended to
 * the validation.
 */
module CallbackValidator {
  import opened Wrappers
  import opened Php
  import Strings

  const NOT_CALLABLE: string := "The \"callback\" option must be set to a callable function or method"

  /** The placeholder in the message that stands for the field's label. */
  const FIELD_PLACEHOLDER: string := ":field"

  /** The type given to the appended message. */
  const MESSAGE_TYPE: string := "Callback"

  /** A validator option: a closure, or any other value. */
  datatype OptionValue = Callable(fn: Value -> Value) | Plain(v: Value)

  type Options = map<string, OptionValue>

  /** A validation message: text, field and type. */
  datatype Message = Message(text: string, field: string, kind: string)

  /** The validator's decision: valid, invalid with the message to append, or the exception it throws. */
  datatype Verdict = Valid | Invalid(message: Message) | Throws(error: string)

  /** `hasOption($key)`: the option is set and not null. */
  predicate HasOption(options: Options, key: string)
  {
    key in options && options[key] != Plain(Null)
  }

  /** `getOption($key)` read as a plain value; null when missing. */
  function PlainOption(options: Options, key: string): Value
  {
    if key in options && options[key].Plain? then options[key].v else Null
  }

  /** A closure option is an object, which is truthy. */
  predicate OptionTruthy(options: Options, key: string)
  {
    key in options && (options[key].Callable? || Truthy(options[key].v))
  }

  /** The label put into the message: the `label` option when truthy, else the validation's label for the field. */
  function Label(options: Options, validationLabel: string): string
  {
    if OptionTruthy(options, "label") then ToStr(PlainOption(options, "label")) else validationLabel
  }

  /** The message text: every `:field` in the `message` option replaced by the label. */
  function MessageText(options: Options, fieldLabel: string): string
  {
    Strings.ReplaceAll(ToStr(PlainOption(options, "message")), FIELD_PLACEHOLDER, fieldLabel)
  }

  /** `validate()` as a decision on the field's value and its label. */
  function Decide(options: Options, field: string, value: Value, validationLabel: string): (v: Verdict)
    // the allowEmpty short-circuit comes before anything else
    ensures HasOption(options, "allowEmpty") && IsEmpty(value) ==> v == Valid
    ensures v.Throws? <==> !(HasOption(options, "allowEmpty") && IsEmpty(value))
                           && !("callback" in options && options["callback"].Callable?)
    ensures v.Throws? ==> v.error == NOT_CALLABLE
    ensures v.Valid? <==> (HasOption(options, "allowEmpty") && IsEmpty(value))
                          || ("callback" in options && options["callback"].Callable? && Truthy(options["callback"].fn(value)))
    ensures v.Invalid? ==> v.message == Message(MessageText(options, Label(options, validationLabel)), field, MESSAGE_TYPE)
  {
    if HasOption(options, "allowEmpty") && IsEmpty(value) then Valid
    else if !("callback" in options && options["callback"].Callable?) then Throws(NOT_CALLABLE)
    else if !Truthy(options["callback"].fn(value)) then
      Invalid(Message(MessageText(options, Label(options, validationLabel)), field, MESSAGE_TYPE))
    else Valid
  }

  /** The message text is the `message` option exploded on `:field` and imploded with the label. */
  lemma MessageIsPlaceholderJoin(options: Options, fieldLabel: string)
    ensures MessageText(options, fieldLabel)
      == Strings.Join(Strings.Split(ToStr(PlainOption(options, "message")), FIELD_PLACEHOLDER), fieldLabel)
  {
    Strings.ReplaceIsSplitJoin(ToStr(PlainOption(options, "message")), FIELD_PLACEHOLDER, fieldLabel);
  }

  /** A message without the placeholder is appended verbatim, whatever the label. */
  lemma MessageWithoutPlaceholder(options: Options, fieldLabel: string)
    requires !Strings.Contains(ToStr(PlainOption(options, "message")), FIELD_PLACEHOLDER)
    ensures MessageText(options, fieldLabel) == ToStr(PlainOption(options, "message"))
  {
    Strings.ReplaceAbsent(ToStr(PlainOption(options, "message")), FIELD_PLACEHOLDER, fieldLabel);
  }

  /** A validator with the given message, `allowEmpty`, and a callback accepting exactly "bar". */
  function FooOptions(message: string): Options
  {
    map["message" := Plain(Str(message)), "allowEmpty" := Plain(Bool(true)),
        "callback" := Callable(v => Bool(v == Str("bar")))]
  }

  /**
   * With those options and a message without a colon (such as "Please
   * enter a valid foo."), "baz" is refused with the message as given,
   * while "bar" and "" are accepted.
   */
  lemma FooMustBeBar(message: string)
    requires ':' !in message
    ensures Decide(FooOptions(message), "foo", Str("baz"), "foo") == Invalid(Message(message, "foo", MESSAGE_TYPE))
    ensures Decide(FooOptions(message), "foo", Str("bar"), "foo") == Valid
    ensures Decide(FooOptions(message), "foo", Str(""), "foo") == Valid
  {
    var options := FooOptions(message);
    assert PlainOption(options, "message") == Str(message);
    Strings.ReplaceWithoutLead(message, FIELD_PLACEHOLDER, "foo");
    assert MessageText(options, "foo") == message;
  }

  /** Without a callback option the validator throws. */
  lemma NoCallbackThrows(field: string, value: Value, validationLabel: string)
    ensures Decide(map[], field, value, validationLabel) == Throws(NOT_CALLABLE)
  {
  }

  /** The part of a validation this validator touches. */
  class Validation {
    /** The validated data (`getValue`); a missing field reads as null. */
    const data: map<string, Value>
    /** Field labels (`getLabel`); a field without one is labelled by its own name. */
    const labels: map<string, string>
    var messages: seq<Message>

    constructor (data: map<string, Value>, labels: map<string, string>)
      ensures this.data == data && this.labels == labels && messages == []
    {
      this.data := data;
      this.labels := labels;
      messages := [];
    }

    function GetValue(field: string): Value
      reads this
    {
      if field in data then data[field] else Null
    }

    function GetLabel(field: string): string
      reads this
    {
      if field in labels then labels[field] else field
    }

    method AppendMessage(m: Message)
      modifies this
      ensures messages == old(messages) + [m]
    {
      messages := messages + [m];
    }
  }

  /**
   * `Callback::validate($validation, $field)`: true or false, or the
   * validation exception; exactly one message is appended when, and only
   * when, the result is false.
   */
  method Validate(options: Options, validation: Validation, field: string) returns (r: Result<bool, string>)
    modifies validation
    ensures var v := Decide(options, field, validation.GetValue(field), validation.GetLabel(field));
      && (v.Valid? ==> r == Success(true) && validation.messages == old(validation.messages))
      && (v.Invalid? ==> r == Success(false) && validation.messages == old(validation.messages) + [v.message])
      && (v.Throws? ==> r == Failure(v.error) && validation.messages == old(validation.messages))
  {
    var value := validation.GetValue(field);
    if HasOption(options, "allowEmpty") && IsEmpty(value) {
      return Success(true);
    }
    if !("callback" in options && options["callback"].Callable?) {
      return Failure(NOT_CALLABLE);
    }
    var callback := options["callback"].fn;
    if !Truthy(callback(value)) {
      var fieldLabel := if OptionTruthy(options, "label") then ToStr(PlainOption(options, "label")) else "";
      if !OptionTruthy(options, "label") {
        fieldLabel := validation.GetLabel(field);
      }
      var text := Strings.ReplaceAll(ToStr(PlainOption(options, "message")), FIELD_PLACEHOLDER, fieldLabel);
      validation.AppendMessage(Message(text, field, MESSAGE_TYPE));
      return Success(false);
    }
    return Success(true);
  }
}
