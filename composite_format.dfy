/**
 * The part of .NET's composite formatting (`string.Format`) that the
 * validation attribute relies on: a template whose format items are `{i}`
 * with a single-digit argument index, and `{{` / `}}` as escaped braces.
 * `None` stands for a template outside that subset or malformed, or an
 * index past the last argument; within the subset it is exactly the
 * `FormatException` case. A `null` argument formats as the empty string.
 */
module CompositeFormat {

  datatype Option<+T> = None | Some(value: T)

  predicate IsDigit(c: char) {
    '0' <= c <= '9'
  }

  /** True when `s` holds no brace, so formatting copies it unchanged. */
  predicate NoBraces(s: string) {
    forall i :: 0 <= i < |s| ==> s[i] != '{' && s[i] != '}'
  }

  /** Puts `prefix` in front of a formatted rest, keeping a failure a failure. */
  function Prepend(prefix: string, rest: Option<string>): Option<string> {
    match rest
    case Some(u) => Some(prefix + u)
    case None => None
  }

  /** How `string.Format` prints an argument: `null` (here `None`) prints as nothing. */
  function ArgText(arg: Option<string>): (s: string)
    ensures arg.Some? ==> s == arg.value
    ensures arg.None? ==> s == []
  {
    if arg.Some? then arg.value else []
  }

  /**
   * `string.Format(template, args)` on arguments already printed; `None` is a
   * thrown FormatException (or a template outside the modelled subset).
   */
  function Format(template: string, args: seq<string>): Option<string>
    decreases |template|
  {
    if template == [] then Some([])
    else if template[0] == '{' then
      if |template| >= 2 && template[1] == '{' then
        Prepend("{", Format(template[2..], args))
      else if |template| >= 3 && IsDigit(template[1]) && template[2] == '}'
              && (template[1] as int - '0' as int) < |args| then
        Prepend(args[template[1] as int - '0' as int], Format(template[3..], args))
      else
        None
    else if template[0] == '}' then
      if |template| >= 2 && template[1] == '}' then
        Prepend("}", Format(template[2..], args))
      else
        None
    else
      Prepend([template[0]], Format(template[1..], args))
  }

  /** Text without braces is copied verbatim in front of whatever follows it. */
  lemma {:induction false} FormatLiteralPrefix(s: string, t: string, args: seq<string>)
    requires NoBraces(s)
    ensures Format(s + t, args) == Prepend(s, Format(t, args))
  {
    if s != [] {
      var st := s + t;
      assert st[0] == s[0] && s[0] != '{' && s[0] != '}';
      assert st[1..] == s[1..] + t;
      assert NoBraces(s[1..]);
      FormatLiteralPrefix(s[1..], t, args);
      assert Format(st, args) == Prepend([s[0]], Format(s[1..] + t, args));
      match Format(t, args)
      case Some(u) =>
        assert [s[0]] + (s[1..] + u) == s + u;
      case None =>
    } else {
      assert s + t == t;
      match Format(t, args)
      case Some(u) =>
        assert s + u == u;
      case None =>
    }
  }

  /** A template without braces formats to itself. */
  lemma FormatNoBraces(s: string, args: seq<string>)
    requires NoBraces(s)
    ensures Format(s, args) == Some(s)
  {
    FormatLiteralPrefix(s, [], args);
    assert s + [] == s;
  }

  /** A format item `{i}` with `i` in range is replaced by the i-th argument. */
  lemma FormatItem(d: char, t: string, args: seq<string>)
    requires IsDigit(d) && (d as int - '0' as int) < |args|
    ensures Format(['{', d, '}'] + t, args) == Prepend(args[d as int - '0' as int], Format(t, args))
  {
    assert (['{', d, '}'] + t)[3..] == t;
  }

  /** A format item whose index is past the last argument makes the whole call throw. */
  lemma {:induction false} FormatIndexOutOfRange(s: string, d: char, t: string, args: seq<string>)
    requires NoBraces(s)
    requires IsDigit(d) && (d as int - '0' as int) >= |args|
    ensures Format(s + ['{', d, '}'] + t, args) == None
  {
    assert s + ['{', d, '}'] + t == s + (['{', d, '}'] + t);
    FormatLiteralPrefix(s, ['{', d, '}'] + t, args);
  }

  /** A lone closing brace is malformed: the call throws. */
  lemma {:induction false} FormatLoneClosingBrace(s: string, t: string, args: seq<string>)
    requires NoBraces(s)
    requires t == [] || t[0] != '}'
    ensures Format(s + ['}'] + t, args) == None
  {
    assert s + ['}'] + t == s + (['}'] + t);
    FormatLiteralPrefix(s, ['}'] + t, args);
  }
}
