/**
 * How the two halves fit together: the rule the server renders is what the
 * client adapter consumes, and for dates both sides place on one timeline the
 * server's decision and the client's decision coincide.
 */
module Agreement {
  import opened DateGreaterThan
  import opened CompositeFormat
  import CustomValidation

  /** `DateTime` ticks per JavaScript millisecond. */
  const TicksPerMillisecond: int := 10000

  /** The tick count of 1 January 1970, where JavaScript time starts. */
  const UnixEpochTicks: int := 621355968000000000

  /** The tick count of a JavaScript time value, both read on the same clock. */
  function TicksFromMs(ms: int): int {
    UnixEpochTicks + ms * TicksPerMillisecond
  }

  /** A JavaScript time value that a `DateTime` can also hold. */
  predicate Representable(ms: int) {
    0 <= TicksFromMs(ms) <= MaxTicks
  }

  /** The client registers the method and the adapter under the server's names. */
  lemma RegisteredUnderServerNames()
    ensures CustomValidation.MethodName == ValidationType
    ensures CustomValidation.AdapterParameter == OtherPropertyParameter
  {
  }

  /** Moving from milliseconds to ticks keeps strict order, both ways. */
  lemma TicksFromMsStrictlyMonotone(a: int, b: int)
    ensures a > b <==> TicksFromMs(a) > TicksFromMs(b)
  {
  }

  /**
   * Server and client agree: when both input texts parse and the server holds
   * the same instants as `DateTime`s, the server passes exactly when the
   * client does.
   */
  lemma ServerClientAgree(
    otherPropertyName: string, obj: map<string, Property>, displayName: string,
    parse: string -> CustomValidation.JsNumber, valueText: string, referenceText: string)
    requires parse(valueText).Number? && Representable(parse(valueText).ms)
    requires parse(referenceText).Number? && Representable(parse(referenceText).ms)
    requires otherPropertyName in obj
    requires obj[otherPropertyName] == DateTimeProperty(TicksFromMs(parse(referenceText).ms))
    ensures Validate(otherPropertyName, obj, DateVal(TicksFromMs(parse(valueText).ms)), displayName) == Success
        <==> CustomValidation.DateGreaterThan(parse, valueText, referenceText)
  {
    var value := DateVal(TicksFromMs(parse(valueText).ms));
    ValidateSuccessIff(otherPropertyName, obj, value, displayName);
    CustomValidation.DateGreaterThanIff(parse, valueText, referenceText);
    TicksFromMsStrictlyMonotone(parse(valueText).ms, parse(referenceText).ms);
  }

  /**
   * The hand-off from server to browser: the attribute's one client rule is
   * rendered, its message and parameters reach the adapter as the options,
   * and the adapter registers an id selector for the sibling and the server's
   * message, leaving the element's other rules and messages as they were. A
   * `null` metadata display name leaves the message's first part empty.
   */
  method RenderAndAdapt(attribute: DateGreaterThanAttribute, displayName: Option<string>,
                        rules: map<string, string>, messages: map<string, string>)
    returns (options: CustomValidation.AdapterOptions)
    ensures options.rules == rules[ValidationType := "#" + attribute.otherPropertyName]
    ensures options.messages
         == messages[ValidationType := ArgText(displayName) + " must be greater than " + attribute.otherPropertyName]
  {
    var clientRules := attribute.GetClientValidationRules(displayName);
    var rule := clientRules[0];
    options := new CustomValidation.AdapterOptions(rule.errorMessage, rule.validationParameters, rules, messages);
    CustomValidation.Adapt(options);
    assert ArgText(None) + " must be greater than " + attribute.otherPropertyName
        == " must be greater than " + attribute.otherPropertyName;
  }
}
