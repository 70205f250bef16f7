/**
 * The browser half of the rule: the jQuery Validate method registered as
 * "dategreaterthan" and the unobtrusive adapter that turns the rendered
 * rule into a jQuery Validate rule and message.
 */
module CustomValidation {

  /** A JavaScript number as `Date.parse` yields it: whole milliseconds, or `NaN`. */
  datatype JsNumber = Number(ms: int) | NaN

  /** The name both the method and the adapter are registered under. */
  const MethodName: string := "dategreaterthan"

  /** The parameter the adapter asks the unobtrusive layer to extract. */
  const AdapterParameter: string := "otherpropertyname"

  /** JavaScript `a > b` on numbers: any comparison with `NaN` is false. */
  function GreaterThan(a: JsNumber, b: JsNumber): (r: bool)
    ensures r ==> a != NaN && b != NaN && a.ms > b.ms
    ensures a == b ==> !r
  {
    match (a, b)
    case (Number(x), Number(y)) => x > y
    case _ => false
  }

  /**
   * The validation method: `Date.parse(value) > Date.parse(reference)`, where
   * `reference` is the text of the input the rule's selector designates.
   */
  function DateGreaterThan(parse: string -> JsNumber, value: string, reference: string): (r: bool)
    ensures r ==> parse(value) != NaN && parse(reference) != NaN
  {
    GreaterThan(parse(value), parse(reference))
  }

  /** The method passes exactly when both texts parse and the value is strictly later. */
  lemma DateGreaterThanIff(parse: string -> JsNumber, value: string, reference: string)
    ensures DateGreaterThan(parse, value, reference)
        <==> parse(value).Number? && parse(reference).Number? && parse(value).ms > parse(reference).ms
  {
  }

  /** An unparsable text on either side makes the method fail: it fails closed. */
  lemma DateGreaterThanFailsClosed(parse: string -> JsNumber, value: string, reference: string)
    requires parse(value) == NaN || parse(reference) == NaN
    ensures !DateGreaterThan(parse, value, reference)
  {
  }

  /** Two texts that parse to the same instant fail: the comparison is strict. */
  lemma DateGreaterThanEqualFails(parse: string -> JsNumber, value: string, reference: string)
    requires parse(value) == parse(reference)
    ensures !DateGreaterThan(parse, value, reference)
  {
  }

  /** The method never passes both ways round. */
  lemma DateGreaterThanAsymmetric(parse: string -> JsNumber, value: string, reference: string)
    ensures !(DateGreaterThan(parse, value, reference) && DateGreaterThan(parse, reference, value))
  {
  }

  /** JavaScript's `"#" + x` where `x` is a property of `params` that may be `undefined`. */
  function SelectorText(params: map<string, string>): (s: string)
    ensures AdapterParameter in params ==> s == params[AdapterParameter]
    ensures AdapterParameter !in params ==> s == "undefined"
  {
    if AdapterParameter in params then params[AdapterParameter] else "undefined"
  }

  /**
   * The options object the unobtrusive layer hands to the adapter; the adapter
   * fills `rules` and `messages` in place.
   */
  class AdapterOptions {
    var message: string
    var params: map<string, string>
    var rules: map<string, string>
    var messages: map<string, string>

    constructor (message: string, params: map<string, string>,
                 rules: map<string, string>, messages: map<string, string>)
      ensures this.message == message && this.params == params
      ensures this.rules == rules && this.messages == messages
    {
      this.message := message;
      this.params := params;
      this.rules := rules;
      this.messages := messages;
    }
  }

  /**
   * The adapter: the rule's parameter is an id selector for the sibling
   * input, and the rendered message is used unchanged. No other rule or
   * message is touched.
   */
  method Adapt(options: AdapterOptions)
    modifies options
    ensures options.rules == old(options.rules)[MethodName := "#" + SelectorText(old(options.params))]
    ensures options.messages == old(options.messages)[MethodName := old(options.message)]
    ensures options.message == old(options.message) && options.params == old(options.params)
  {
    options.rules := options.rules[MethodName := "#" + SelectorText(options.params)];
    options.messages := options.messages[MethodName := options.message];
  }
}
