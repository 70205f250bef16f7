# DateGreaterThan: a cross-field date rule, on the server and in the browser

This project models the one piece of logic in the DateCustomValidationExample
web application: a validation attribute, `DateGreaterThan`, placed on a date
property of a model, names a sibling date property and fails unless the
annotated date is strictly later than the sibling. The same rule is written
twice:

- on the server, `DateGreaterThanAttribute` (an ASP.NET MVC
  `ValidationAttribute` that is also `IClientValidatable`) finds the sibling
  by reflection, checks its type, compares the two `DateTime`s and formats the
  message `"{0} must be greater than {1}"`; it also renders one client rule
  (`"dategreaterthan"`, parameter `"otherpropertyname"`, the message);
- in the browser, `CustomValidation.js` registers a jQuery Validate method
  `Date.parse(value) > Date.parse(reference)` and an unobtrusive adapter that
  turns the rendered rule into a jQuery rule whose parameter is the id
  selector `"#" + otherpropertyname`, with the rendered message.

Files:

- `composite_format.dfy` (module `CompositeFormat`): the subset of .NET's
  `string.Format` the attribute uses, with its `FormatException` path.
- `date_greater_than.dfy` (module `DateGreaterThan`): the attribute as a class
  with its two fields; `IsValid` is an imperative method proved against the
  function `Validate`; `GetClientValidationRules` builds the client rule.
- `custom_validation.dfy` (module `CustomValidation`): the client method on
  JavaScript numbers (`NaN` included) and the adapter as a method that updates
  an options object in place.
- `agreement.dfy` (module `Agreement`): the server and client decide alike on
  one timeline, and the rule the server renders is what the adapter installs.
- `project_fixture.dfy` (module `ProjectFixture`): the demonstration model
  `Project` (`EndDate` must be later than `StartDate`) and its scenarios.

Modelling choices:

- A `DateTime` is its tick count (100 ns since 1 January 0001), bounded by
  `DateTime.MaxValue`; `CompareTo` compares ticks and returns -1, 0 or 1.
- Reflection over the validated object is a `map<string, Property>` from
  property name to `DateTimeProperty(ticks)` or `OtherProperty` (a declared
  type other than `DateTime`, which includes `DateTime?`). `GetProperty`
  returning `null` is a missing key.
- The `object value` being validated is `DateVal(ticks)`, `NullVal` or
  `OtherVal`; unboxing `null` throws `NullReferenceException`, unboxing another
  type throws `InvalidCastException`.
- The catch-and-rethrow block is the outcome `Thrown(exception)`.
- `DateTime.ToShortDateString` and JavaScript's `Date.parse` are function
  parameters; `Date.parse` yields `Number(ms)` or `NaN`.
- JavaScript's `"#" + options.params.otherpropertyname` gives `"#undefined"`
  when the parameter is absent; the model keeps that.

Where the source's own comment and its code differ, the model follows the
code:

- The failure message uses the sibling's raw property name, so for `Project`
  it reads "Estimated end date must be greater than StartDate", not "... Start
  date" as the comment at `DateGreaterThanAttribute.cs:29` says.

Further facts about the code that the model keeps:

- `DateGreaterThanAttribute.cs:54-57` returns an ordinary `ValidationResult`
  with a fixed text when the sibling is not a `DateTime`.
- `DateGreaterThanAttribute.cs:43` unboxes the value, so a `null` value throws
  `NullReferenceException` once the sibling is a `DateTime`.
- `DateGreaterThanAttribute.cs:79` formats the metadata's display name, which
  is `null` for a property without a display name; `string.Format` prints it
  as the empty string, so the browser's message then starts with " must be".

## Model

| member | source | states |
|---|---|---|
| CompositeFormat.Format | DateCustomValidationExample/Models/DateGreaterThanAttribute.cs:30 | `string.Format` on the modelled subset; no contract of its own: FormatNoBraces, FormatLiteralPrefix, FormatItem, FormatIndexOutOfRange and FormatLoneClosingBrace state its behaviour |
| CompositeFormat.ArgText | DateCustomValidationExample/Models/DateGreaterThanAttribute.cs:79 | a null argument prints as the empty string, any other argument as itself |
| CompositeFormat.FormatNoBraces | DateCustomValidationExample/Models/DateGreaterThanAttribute.cs:30 | a template without braces formats to itself |
| CompositeFormat.FormatLiteralPrefix | DateCustomValidationExample/Models/DateGreaterThanAttribute.cs:30 | text without braces is copied unchanged in front of the formatted rest, and a failing rest still fails |
| CompositeFormat.FormatItem | DateCustomValidationExample/Models/DateGreaterThanAttribute.cs:30 | a format item `{i}` with an index in range is replaced by the i-th argument |
| CompositeFormat.FormatIndexOutOfRange | DateCustomValidationExample/Models/DateGreaterThanAttribute.cs:30 | a fact about `string.Format` itself, not reached with the attribute's template: a format item whose index has no argument makes formatting throw |
| CompositeFormat.FormatLoneClosingBrace | DateCustomValidationExample/Models/DateGreaterThanAttribute.cs:30 | a fact about `string.Format` itself, not reached with the attribute's template: an unescaped `}` makes formatting throw |
| DateGreaterThan.FormatErrorMessageTemplate | DateCustomValidationExample/Models/DateGreaterThanAttribute.cs:17 | the constructor's template never throws with two arguments and yields `name + " must be greater than " + other` |
| DateGreaterThan.FormatErrorMessage | DateCustomValidationExample/Models/DateGreaterThanAttribute.cs:27-31 | the message is the display name, then " must be greater than ", then the sibling's raw property name |
| DateGreaterThan.CompareTo | DateCustomValidationExample/Models/DateGreaterThanAttribute.cs:48 | the result is -1, 0 or 1, negative exactly when earlier and zero exactly when equal |
| DateGreaterThan.CompareToAntisymmetric | DateCustomValidationExample/Models/DateGreaterThanAttribute.cs:48 | a fact about `DateTime.CompareTo` itself: swapping the two dates negates the comparison |
| DateGreaterThan.Validate | DateCustomValidationExample/Models/DateGreaterThanAttribute.cs:33-67 | the outcome of `IsValid`: it throws exactly when the sibling is missing or is a DateTime while the value is not, and succeeds only when both are DateTimes; ValidateSuccessIff and the lemmas below state the rest |
| DateGreaterThan.ValidateSuccessIff | DateCustomValidationExample/Models/DateGreaterThanAttribute.cs:33-67 | validation succeeds if and only if the sibling exists and is a DateTime, the value is a DateTime, and the value is strictly later |
| DateGreaterThan.ValidateNotLaterFails | DateCustomValidationExample/Models/DateGreaterThanAttribute.cs:48-52 | a DateTime value not strictly later than the DateTime sibling fails with exactly the formatted message |
| DateGreaterThan.ValidateEqualDatesFail | DateCustomValidationExample/Models/DateGreaterThanAttribute.cs:48 | equal dates fail |
| DateGreaterThan.ValidateSiblingNotDateTime | DateCustomValidationExample/Models/DateGreaterThanAttribute.cs:54-57 | a sibling of another type fails with the fixed "not of type DateTime" text, whatever the value, without comparing |
| DateGreaterThan.ValidateMissingSiblingThrows | DateCustomValidationExample/Models/DateGreaterThanAttribute.cs:39-41 | a sibling name that is not a property makes validation throw a null reference exception, never succeed |
| DateGreaterThan.ValidateValueNotDateTimeThrows | DateCustomValidationExample/Models/DateGreaterThanAttribute.cs:43 | with a DateTime sibling, a null value throws a null reference exception and a value of another type an invalid cast |
| DateGreaterThan.DateGreaterThanAttribute.constructor | DateCustomValidationExample/Models/DateGreaterThanAttribute.cs:16-20 | the sibling name is stored and the short-date field starts out null |
| DateGreaterThan.DateGreaterThanAttribute.IsValid | DateCustomValidationExample/Models/DateGreaterThanAttribute.cs:33-67 | the outcome is `Validate` of the inputs; the short-date field is set to the reference's short date exactly when both sides are DateTime and is otherwise unchanged; the sibling name and the validated object are unchanged |
| DateGreaterThan.DateGreaterThanAttribute.GetClientValidationRules | DateCustomValidationExample/Models/DateGreaterThanAttribute.cs:77-89 | exactly one rule, of type "dategreaterthan", whose only parameter maps "otherpropertyname" to the sibling name, and whose message is the server's message for that display name; a null metadata display name gives " must be greater than " + sibling name |
| CustomValidation.GreaterThan | DateCustomValidationExample/Scripts/Custom/CustomValidation.js:5 | JavaScript `>`: true only for two numbers, neither NaN, the left strictly greater; false for equal operands, NaN included |
| CustomValidation.DateGreaterThan | DateCustomValidationExample/Scripts/Custom/CustomValidation.js:4-6 | the `addMethod` callback; it passes only when neither text parses to NaN; DateGreaterThanIff states the converse |
| CustomValidation.DateGreaterThanIff | DateCustomValidationExample/Scripts/Custom/CustomValidation.js:4-6 | the client method passes if and only if both texts parse and the value's time is strictly greater |
| CustomValidation.DateGreaterThanFailsClosed | DateCustomValidationExample/Scripts/Custom/CustomValidation.js:5 | an unparsable text on either side (NaN) makes the method fail |
| CustomValidation.DateGreaterThanEqualFails | DateCustomValidationExample/Scripts/Custom/CustomValidation.js:5 | texts that parse to the same time fail |
| CustomValidation.DateGreaterThanAsymmetric | DateCustomValidationExample/Scripts/Custom/CustomValidation.js:5 | the method never passes for both orders of the same two texts |
| CustomValidation.SelectorText | DateCustomValidationExample/Scripts/Custom/CustomValidation.js:38 | `options.params.otherpropertyname` as `+` prints it: the parameter when present, "undefined" when absent |
| CustomValidation.AdapterOptions.constructor | DateCustomValidationExample/Scripts/Custom/CustomValidation.js:37 | the options object holds the rendered message, the extracted parameters and the element's current rules and messages |
| CustomValidation.Adapt | DateCustomValidationExample/Scripts/Custom/CustomValidation.js:37-40 | rules["dategreaterthan"] becomes "#" followed by the parameter (or "undefined"), messages["dategreaterthan"] becomes the rendered message unchanged, and every other rule, message and the options' inputs are unchanged |
| Agreement.RegisteredUnderServerNames | DateCustomValidationExample/Scripts/Custom/CustomValidation.js:37 | the client's method name and adapter parameter are the server's validation type and parameter name |
| Agreement.TicksFromMsStrictlyMonotone | DateCustomValidationExample/Scripts/Custom/CustomValidation.js:5 | placing JavaScript times on the DateTime tick line keeps strict order in both directions |
| Agreement.ServerClientAgree | DateCustomValidationExample/Models/DateGreaterThanAttribute.cs:48 | for texts that parse to times a DateTime can hold, server success holds if and only if the client method passes |
| Agreement.RenderAndAdapt | DateCustomValidationExample/Models/DateGreaterThanAttribute.cs:77-89 | passing the rendered rule through the adapter installs the selector "#" + sibling name and the server's failure message (with an empty first part for a null display name), and keeps the element's other rules and messages |
| ProjectFixture.EndDateRule | DateCustomValidationExample/Models/Project.cs:21-24 | a project's end date passes exactly when later than its start date, otherwise "Estimated end date must be greater than StartDate" |
| ProjectFixture.EndDateDayScenarios | DateCustomValidationExample/Models/Project.cs:17-24 | one day after the start passes; the same day fails with the message; the day before fails |
| ProjectFixture.January2020Scenarios | DateCustomValidationExample/Models/Project.cs:17-24 | starting 10 January 2020, ending on the 11th passes and ending on the 10th or the 9th fails |
| ProjectFixture.MisspeltSiblingThrows | DateCustomValidationExample/Models/Project.cs:23 | naming "StartDateTypo" as the sibling throws instead of passing |
| ProjectFixture.StringSiblingRejected | DateCustomValidationExample/Models/Project.cs:13 | naming the string property "Name" as the sibling yields the fixed type-error text |

## Left out

- Reflection itself (`GetProperty`, `PropertyType`, `GetValue`): replaced by a lookup in a map of properties; ambiguous-match and indexed properties are not modelled.
- `DateTime.ToShortDateString` and JavaScript's `Date.parse`: culture- and browser-dependent parsing and printing are function parameters, not modelled.
- Time zones and `DateTime.Kind`: `ServerClientAgree` assumes both sides place the dates on one clock (JavaScript milliseconds since 1970 map to ticks by a fixed offset).
- The DOM lookup `$(params).val()`: the reference input's text is a parameter of the client method, so a selector that matches no element (which would give `NaN`) is not modelled.
- jQuery Validate and jQuery Unobtrusive registration, and the rendering of the client rule into `data-val` attributes: `RenderAndAdapt` passes the rule's message and parameters straight to the adapter.
- The `ErrorMessage` property a user of the attribute could set to replace the template: the model uses the constructor's template.
- Composite formatting beyond what the template needs: only single-digit indices, without alignment or format strings; the template uses neither.
- The logging in the catch block and exception identity and stack traces: a thrown exception is the outcome `Thrown(kind)`.
- `HomeController`: it only returns views. The `DisplayFormat` attributes and the views are presentation.
- DateGreaterThan.DateGreaterThanAttribute.IsValid: the sibling name is never null in the model, so `GetProperty(null)` throwing `ArgumentNullException` (and `FormatErrorMessage` printing a null sibling name as "") is not modelled; the validation context's display name is never null either, as .NET refuses a null one.
- The short-date field `otherPropertyValue` is written but never read by the source; the model records the write.
