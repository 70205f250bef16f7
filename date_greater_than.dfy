/**
 * The server half of the rule: the `DateGreaterThan` validation attribute.
 * It is attached to a date property and names a sibling date property; the
 * value under validation passes only when it is strictly later than the
 * sibling's value. Reflection over the validated object is a lookup in a map
 * from property name to the property's declared type and current value.
 */
module DateGreaterThan {
  import opened CompositeFormat

  /** The largest tick count a `DateTime` holds (23:59:59.9999999, 31 December 9999). */
  const MaxTicks: int := 3155378975999999999

  /** A `DateTime`, as its count of 100-nanosecond ticks since 1 January 0001. */
  type Ticks = t: int | 0 <= t <= MaxTicks

  /** The message template the constructor hands to the base attribute. */
  const ErrorMessageTemplate: string := "{0} must be greater than {1}"

  /** The fixed failure text when the sibling property is not a `DateTime`. */
  const NotDateTimeMessage: string :=
    "An error occurred while validating the property. OtherProperty is not of type DateTime"

  /** The rule name the client validator is registered under. */
  const ValidationType: string := "dategreaterthan"

  /** The one client parameter; it must be lower case. */
  const OtherPropertyParameter: string := "otherpropertyname"

  /** A property found by reflection: its declared type is `DateTime`, or it is not. */
  datatype Property = DateTimeProperty(ticks: Ticks) | OtherProperty

  /**
   * The `object value` handed to `IsValid`: a boxed `DateTime`, `null`, or a
   * value of some other type.
   */
  datatype Value = DateVal(ticks: Ticks) | NullVal | OtherVal

  /** The exceptions `IsValid` lets through to its caller. */
  datatype Exception = NullReference | InvalidCast

  /** `ValidationResult.Success`, a `ValidationResult` carrying a message, or a thrown exception. */
  datatype ValidationResult = Success | Failure(message: string) | Thrown(exception: Exception)

  /** A `ModelClientValidationRule`: what the browser receives. */
  datatype ClientRule = ClientRule(
    errorMessage: string,
    validationType: string,
    validationParameters: map<string, string>)

  /** `DateTime.CompareTo`: -1, 0 or 1 by comparing tick counts. */
  function CompareTo(a: Ticks, b: Ticks): (r: int)
    ensures -1 <= r <= 1
    ensures r < 0 <==> a < b
    ensures r == 0 <==> a == b
  {
    if a < b then -1 else if a > b then 1 else 0
  }

  /** `CompareTo` is antisymmetric: swapping the operands negates the answer. */
  lemma CompareToAntisymmetric(a: Ticks, b: Ticks)
    ensures CompareTo(a, b) == -CompareTo(b, a)
  {
  }

  /** The template always formats: its two items are `{0}` and `{1}`. */
  lemma FormatErrorMessageTemplate(name: string, otherPropertyName: string)
    ensures Format(ErrorMessageTemplate, [name, otherPropertyName])
         == Some(name + " must be greater than " + otherPropertyName)
  {
    var args := [name, otherPropertyName];
    var middle := " must be greater than ";
    var item0, item1 := ['{', '0', '}'], ['{', '1', '}'];
    assert ErrorMessageTemplate == item0 + (middle + item1);
    assert Format(item1, args) == Some(otherPropertyName) by {
      FormatItem('1', [], args);
      assert item1 + [] == item1;
      assert otherPropertyName + [] == otherPropertyName;
    }
    assert Format(middle + item1, args) == Some(middle + otherPropertyName) by {
      assert NoBraces(middle);
      FormatLiteralPrefix(middle, item1, args);
    }
    calc {
      Format(ErrorMessageTemplate, args);
      Format(item0 + (middle + item1), args);
      { FormatItem('0', middle + item1, args); }
      Prepend(name, Format(middle + item1, args));
      Some(name + (middle + otherPropertyName));
      { assert name + (middle + otherPropertyName) == name + middle + otherPropertyName; }
      Some(name + middle + otherPropertyName);
    }
  }

  /**
   * `FormatErrorMessage(name)`: the template filled with the validated
   * property's display name and the sibling's raw property name.
   */
  function FormatErrorMessage(name: string, otherPropertyName: string): (r: string)
    ensures r == name + " must be greater than " + otherPropertyName
  {
    FormatErrorMessageTemplate(name, otherPropertyName);
    Format(ErrorMessageTemplate, [name, otherPropertyName]).value
  }

  /** The outcome `IsValid` produces, as a function of its inputs. */
  function Validate(otherPropertyName: string, obj: map<string, Property>, value: Value, displayName: string)
    : (r: ValidationResult)
    ensures r.Thrown? <==> otherPropertyName !in obj
                           || (obj[otherPropertyName].DateTimeProperty? && !value.DateVal?)
    ensures r.Success? ==> ReachesComparison(otherPropertyName, obj, value)
  {
    if otherPropertyName !in obj then
      Thrown(NullReference)
    else
      match obj[otherPropertyName]
      case OtherProperty => Failure(NotDateTimeMessage)
      case DateTimeProperty(reference) =>
        match value
        case NullVal => Thrown(NullReference)
        case OtherVal => Thrown(InvalidCast)
        case DateVal(toValidate) =>
          if CompareTo(toValidate, reference) < 1 then
            Failure(FormatErrorMessage(displayName, otherPropertyName))
          else
            Success
  }

  /** True when `IsValid` reaches the comparison: both sides are `DateTime`. */
  predicate ReachesComparison(otherPropertyName: string, obj: map<string, Property>, value: Value) {
    otherPropertyName in obj && obj[otherPropertyName].DateTimeProperty? && value.DateVal?
  }

  /** Validation passes exactly when both are dates and the value is strictly later. */
  lemma ValidateSuccessIff(otherPropertyName: string, obj: map<string, Property>, value: Value, displayName: string)
    ensures Validate(otherPropertyName, obj, value, displayName) == Success
        <==> ReachesComparison(otherPropertyName, obj, value)
             && value.ticks > obj[otherPropertyName].ticks
  {
  }

  /** A value that is not strictly later fails with the formatted message. */
  lemma ValidateNotLaterFails(otherPropertyName: string, obj: map<string, Property>, value: Value, displayName: string)
    requires ReachesComparison(otherPropertyName, obj, value)
    requires value.ticks <= obj[otherPropertyName].ticks
    ensures Validate(otherPropertyName, obj, value, displayName)
         == Failure(displayName + " must be greater than " + otherPropertyName)
  {
  }

  /** Equal dates fail: the comparison is strict. */
  lemma ValidateEqualDatesFail(otherPropertyName: string, obj: map<string, Property>, t: Ticks, displayName: string)
    requires otherPropertyName in obj && obj[otherPropertyName] == DateTimeProperty(t)
    ensures Validate(otherPropertyName, obj, DateVal(t), displayName).Failure?
  {
  }

  /** A sibling of another type fails with the fixed text, whatever the value is. */
  lemma ValidateSiblingNotDateTime(otherPropertyName: string, obj: map<string, Property>, value: Value, displayName: string)
    requires otherPropertyName in obj && obj[otherPropertyName] == OtherProperty
    ensures Validate(otherPropertyName, obj, value, displayName) == Failure(NotDateTimeMessage)
  {
  }

  /** A sibling that does not exist makes `IsValid` throw; it never passes. */
  lemma ValidateMissingSiblingThrows(otherPropertyName: string, obj: map<string, Property>, value: Value, displayName: string)
    requires otherPropertyName !in obj
    ensures Validate(otherPropertyName, obj, value, displayName) == Thrown(NullReference)
  {
  }

  /** A value that is not a `DateTime` cannot be cast once the sibling is one. */
  lemma ValidateValueNotDateTimeThrows(otherPropertyName: string, obj: map<string, Property>, value: Value, displayName: string)
    requires otherPropertyName in obj && obj[otherPropertyName].DateTimeProperty?
    requires !value.DateVal?
    ensures Validate(otherPropertyName, obj, value, displayName)
         == Thrown(if value.NullVal? then NullReference else InvalidCast)
  {
  }

  /**
   * The attribute instance: the sibling's name, fixed at construction, and
   * the short-date text of the last reference date it compared against.
   */
  class DateGreaterThanAttribute {
    var otherPropertyName: string
    /** `None` is the field's initial `null`. */
    var otherPropertyValue: Option<string>

    constructor (otherPropertyName: string)
      ensures this.otherPropertyName == otherPropertyName
      ensures otherPropertyValue == None
    {
      this.otherPropertyName := otherPropertyName;
      otherPropertyValue := None;
    }

    /**
     * `IsValid(value, validationContext)`. `obj` is the validated object,
     * `displayName` the context's display name and `shortDate` is
     * `DateTime.ToShortDateString`.
     */
    method IsValid(value: Value, obj: map<string, Property>, displayName: string, shortDate: Ticks -> string)
      returns (validationResult: ValidationResult)
      modifies this`otherPropertyValue
      ensures validationResult == Validate(otherPropertyName, obj, value, displayName)
      ensures otherPropertyName == old(otherPropertyName)
      ensures otherPropertyValue
           == if ReachesComparison(otherPropertyName, obj, value)
              then Some(shortDate(obj[otherPropertyName].ticks))
              else old(otherPropertyValue)
    {
      validationResult := Success;
      if otherPropertyName !in obj {
        // GetProperty returned null; reading its PropertyType throws.
        return Thrown(NullReference);
      }
      var otherProperty := obj[otherPropertyName];
      if otherProperty.DateTimeProperty? {
        var toValidate: Ticks;
        match value {
          case NullVal => return Thrown(NullReference);
          case OtherVal => return Thrown(InvalidCast);
          case DateVal(t) => toValidate := t;
        }
        var referenceProperty := otherProperty.ticks;
        otherPropertyValue := Some(shortDate(referenceProperty));
        if CompareTo(toValidate, referenceProperty) < 1 {
          var message := FormatErrorMessage(displayName, otherPropertyName);
          validationResult := Failure(message);
        }
      } else {
        validationResult := Failure(NotDateTimeMessage);
      }
    }

    /**
     * `GetClientValidationRules(metadata, context)`: exactly one rule, named
     * for the client adapter, with the sibling's name as its only parameter
     * and the same message the server reports for that display name.
     * `displayName` is the metadata's display name, which is `null` (`None`)
     * for a property without a display name attribute.
     */
    method GetClientValidationRules(displayName: Option<string>) returns (rules: seq<ClientRule>)
      ensures |rules| == 1
      ensures rules[0].validationType == ValidationType
      ensures rules[0].validationParameters == map[OtherPropertyParameter := otherPropertyName]
      ensures displayName.Some? ==>
                rules[0].errorMessage == displayName.value + " must be greater than " + otherPropertyName
      ensures displayName.None? ==> rules[0].errorMessage == " must be greater than " + otherPropertyName
    {
      var errorMessage := FormatErrorMessage(ArgText(displayName), otherPropertyName);
      var validationParameters: map<string, string> := map[];
      validationParameters := validationParameters[OtherPropertyParameter := otherPropertyName];
      var dateGreaterThanRule := ClientRule(errorMessage, ValidationType, validationParameters);
      rules := [dateGreaterThanRule];
    }
  }
}
