/** The few pieces of PHP's runtime semantics that the e-mail plugin relies on:
    `isset` on an array entry, `empty` on a string-or-null, and `sprintf`
    with `%s` directives. */
module Php {

  /** A value that may be absent: None stands for PHP's null or a missing array key. */
  datatype Option<+T> = None | Some(value: T)

  /** A scalar PHP value as it can stand in a plugin option read from the build's YAML file. */
  datatype Scalar = Null | Bool(b: bool) | Int(n: int) | Str(s: string)

  /** `isset($array[$key])`: the key is present and its value is not null.
      None stands for a key that is not present. */
  predicate Isset(entry: Option<Scalar>) {
    entry.Some? && entry.value != Null
  }

  /** `empty($s)` for a value that is a string or null: null, "" and "0" are empty. */
  predicate IsEmptyString(s: Option<string>) {
    s.None? || s.value == "" || s.value == "0"
  }

  /** Puts `prefix` in front of a formatted string, keeping a formatting error. */
  function Prepend(prefix: string, r: Option<string>): Option<string> {
    if r.Some? then Some(prefix + r.value) else None
  }

  /** `sprintf(format, args...)` for string arguments. `%s` takes the next argument
      verbatim (it is not scanned again), `%%` yields one `%`, any other character is
      copied. A missing argument or a trailing `%` is an error (PHP raises one);
      every other conversion specification (`%d`, `%5s`, `%1$s`, ...) is not
      modelled and also gives None. Surplus arguments are ignored. */
  function Sprintf(format: string, args: seq<string>): Option<string>
    decreases |format|
  {
    if format == [] then Some("")
    else if format[0] != '%' then Prepend([format[0]], Sprintf(format[1..], args))
    else if |format| >= 2 && format[1] == '%' then Prepend("%", Sprintf(format[2..], args))
    else if |format| >= 2 && format[1] == 's' && args != [] then Prepend(args[0], Sprintf(format[2..], args[1..]))
    else None
  }

  /** A format without any `%` comes back verbatim, whatever the arguments. */
  lemma {:induction false} SprintfNoDirectives(format: string, args: seq<string>)
    requires '%' !in format
    ensures Sprintf(format, args) == Some(format)
  {
    if format != [] {
      assert format[0] != '%';
      SprintfNoDirectives(format[1..], args);
      assert [format[0]] + format[1..] == format;
    }
  }

  /** A run of ordinary characters at the head of the format is copied unchanged. */
  lemma {:induction false} SprintfLiteralPrefix(literal: string, rest: string, args: seq<string>)
    requires '%' !in literal
    ensures Sprintf(literal + rest, args) == Prepend(literal, Sprintf(rest, args))
  {
    var tail := Sprintf(rest, args);
    if literal == [] {
      assert literal + rest == rest;
      assert tail.Some? ==> literal + tail.value == tail.value;
    } else {
      var format := literal + rest;
      assert format[0] == literal[0] != '%';
      assert format[1..] == literal[1..] + rest;
      SprintfLiteralPrefix(literal[1..], rest, args);
      assert Sprintf(format, args) == Prepend([literal[0]], Sprintf(literal[1..] + rest, args));
      assert [literal[0]] + literal[1..] == literal;
      assert tail.Some? ==> [literal[0]] + (literal[1..] + tail.value) == literal + tail.value;
    }
  }

  /** A `%s` directive consumes exactly the next argument and inserts it unchanged,
      whatever characters the argument holds. */
  lemma SprintfStringDirective(arg: string, rest: string, args: seq<string>)
    ensures Sprintf("%s" + rest, [arg] + args) == Prepend(arg, Sprintf(rest, args))
  {
    var format := "%s" + rest;
    assert format[0] == '%' && format[1] == 's';
    assert format[2..] == rest;
    assert ([arg] + args)[1..] == args;
  }

  /** A `%s` with no argument left is an error. */
  lemma SprintfTooFewArguments(rest: string)
    ensures Sprintf("%s" + rest, []) == None
  {
    var format := "%s" + rest;
    assert format[0] == '%' && format[1] == 's';
  }

  /** A format with one `%s` between two literal runs. */
  lemma SprintfOneDirective(before: string, arg: string, after: string)
    requires '%' !in before && '%' !in after
    ensures Sprintf(before + "%s" + after, [arg]) == Some(before + arg + after)
  {
    SprintfNoDirectives(after, []);
    SprintfStringDirective(arg, after, []);
    assert [arg] + [] == [arg];
    assert before + "%s" + after == before + ("%s" + after);
    SprintfLiteralPrefix(before, "%s" + after, [arg]);
    assert before + (arg + after) == before + arg + after;
  }

  /** A format that starts with `%s` and holds one more `%s` between literal runs. */
  lemma SprintfLeadingDirectives(first: string, middle: string, second: string, after: string)
    requires '%' !in middle && '%' !in after
    ensures Sprintf("%s" + middle + "%s" + after, [first, second]) == Some(first + middle + second + after)
  {
    var tail := middle + "%s" + after;
    assert "%s" + middle + "%s" + after == "%s" + tail;
    SprintfOneDirective(middle, second, after);
    assert [first, second] == [first] + [second];
    SprintfStringDirective(first, tail, [second]);
    assert first + (middle + second + after) == first + middle + second + after;
  }

  /** A format with two `%s` directives separated by literal runs; the arguments go in order. */
  lemma SprintfTwoDirectives(before: string, first: string, middle: string, second: string, after: string)
    requires '%' !in before && '%' !in middle && '%' !in after
    ensures Sprintf(before + "%s" + middle + "%s" + after, [first, second])
              == Some(before + first + middle + second + after)
  {
    SprintfLeadingDirectives(first, middle, second, after);
    var rest := "%s" + middle + "%s" + after;
    assert before + "%s" + middle + "%s" + after == before + rest;
    SprintfLiteralPrefix(before, rest, [first, second]);
    assert before + (first + middle + second + after) == before + first + middle + second + after;
  }
}
