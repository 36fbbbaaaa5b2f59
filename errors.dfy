/** Error values (error.go): GenericError, WithArgs, DetailedError, and the single-verb
    subset of `fmt.Sprintf` that DetailedError.Error uses. */
module Errors {
  import opened Options

  /** A format string used as an error (`type GenericError string`). */
  datatype GenericError = GenericError(text: string) {
    /** `GenericError.Error`: the underlying string. */
    function Error(): string {
      text
    }
  }

  /** A value passed to `WithArgs`: a nil interface, an error (represented by its
      message, which `%v` and `%s` print), or a plain string. */
  datatype Arg = NilArg | ErrArg(msg: string) | StrArg(s: string)

  /** `DetailedError`: the generic error it wraps and the arguments to substitute. */
  datatype DetailedError = DetailedError(err: GenericError, v: seq<Arg>) {
    /** `DetailedError.Error`: the wrapped format with the arguments substituted. */
    function Error(): string {
      Format(err.Error(), v)
    }

    /** `DetailedError.Unwrap`: the original GenericError. */
    function Unwrap(): (g: GenericError)
      ensures g.Error() == err.Error()
    {
      err
    }
  }

  /** Every error value the core produces: a bare GenericError, a DetailedError, or a
      `fmt.Errorf` value, which is its message. */
  datatype Error = Generic(g: GenericError) | Detailed(d: DetailedError) | Errorf(msg: string) {
    /** The `Error()` string of the value. */
    function Message(): string {
      match this
      case Generic(g) => g.Error()
      case Detailed(d) => d.Error()
      case Errorf(msg) => msg
    }
  }

  predicate HasNil(v: seq<Arg>) {
    exists i :: 0 <= i < |v| && v[i].NilArg?
  }

  predicate HasError(v: seq<Arg>) {
    exists i :: 0 <= i < |v| && v[i].ErrArg?
  }

  /** What `WithArgs` returns: nil when some argument is nil and none is an error,
      otherwise the detailed error over exactly the given arguments. */
  function DetailedOrNil(e: GenericError, v: seq<Arg>): Option<DetailedError> {
    if HasNil(v) && !HasError(v) then None else Some(DetailedError(e, v))
  }

  /** error.go: `GenericError.WithArgs`, one pass over the arguments setting two flags. */
  method WithArgs(e: GenericError, v: seq<Arg>) returns (r: Option<DetailedError>)
    ensures r == DetailedOrNil(e, v)
    ensures r.None? <==> HasNil(v) && !HasError(v)
    ensures r.Some? ==> r.value.Unwrap() == e && r.value.v == v
  {
    var hasErr, hasNil := false, false;
    var i := 0;
    while i < |v|
      invariant 0 <= i <= |v|
      invariant hasErr <==> exists j :: 0 <= j < i && v[j].ErrArg?
      invariant hasNil <==> exists j :: 0 <= j < i && v[j].NilArg?
    {
      match v[i] {
        case ErrArg(_) => hasErr := true;
        case NilArg => hasNil := true;
        case StrArg(_) =>
      }
      i := i + 1;
    }
    if hasNil && !hasErr {
      return None;
    }
    return Some(DetailedError(e, v));
  }

  /** The text `%v` or `%s` prints for one argument. */
  function ArgText(a: Arg, verb: char): string {
    match a
    case StrArg(s) => s
    case ErrArg(msg) => msg
    case NilArg => if verb == 'v' then "<nil>" else "%!" + [verb] + "(<nil>)"
  }

  /** `fmt.Sprintf(f, v...)` for formats whose verbs are `%v`, `%s` and `%%`: each verb takes
      the next argument, a verb without an argument prints `%!v(MISSING)`, and a trailing `%`
      prints `%!(NOVERB)`. */
  function Format(f: string, v: seq<Arg>): string
    decreases |f|
  {
    if f == [] then []
    else if f[0] != '%' then [f[0]] + Format(f[1..], v)
    else if |f| == 1 then "%!(NOVERB)"
    else if f[1] == '%' then "%" + Format(f[2..], v)
    else if f[1] == 'v' || f[1] == 's' then
      if v == [] then "%!" + [f[1]] + "(MISSING)" + Format(f[2..], v)
      else ArgText(v[0], f[1]) + Format(f[2..], v[1..])
    // A placeholder for every other verb, not Go's behaviour: fmt would print a `%!` form with
    // the argument's type and consume that argument; the error formats here never use one.
    else [f[0], f[1]] + Format(f[2..], v)
  }

  predicate NoPercent(s: string) {
    forall i :: 0 <= i < |s| ==> s[i] != '%'
  }

  /** Text without a `%` is printed unchanged whatever the arguments; `suffix` continues it. */
  lemma {:induction false} FormatPlainPrefix(prefix: string, suffix: string, v: seq<Arg>)
    requires NoPercent(prefix)
    ensures Format(prefix + suffix, v) == prefix + Format(suffix, v)
    decreases |prefix|
  {
    if prefix != [] {
      var f := prefix + suffix;
      assert f[0] == prefix[0] != '%';
      assert f[1..] == prefix[1..] + suffix;
      assert NoPercent(prefix[1..]) by {
        forall i | 0 <= i < |prefix[1..]| ensures prefix[1..][i] != '%' {
          assert prefix[1..][i] == prefix[i + 1];
        }
      }
      FormatPlainPrefix(prefix[1..], suffix, v);
      calc {
        Format(f, v);
        [prefix[0]] + Format(prefix[1..] + suffix, v);
        [prefix[0]] + (prefix[1..] + Format(suffix, v));
        { assert [prefix[0]] + prefix[1..] == prefix; }
        prefix + Format(suffix, v);
      }
    } else {
      assert prefix + suffix == suffix;
    }
  }

  /** A format without verbs is its own output. */
  lemma FormatWithoutVerbs(f: string, v: seq<Arg>)
    requires NoPercent(f)
    ensures Format(f, v) == f
  {
    FormatPlainPrefix(f, [], v);
    assert f + [] == f;
  }

  /** A format ending in one `%v` or `%s`, given one string or error argument, is the text
      followed by that argument. */
  lemma FormatOneArg(prefix: string, verb: char, a: Arg)
    requires NoPercent(prefix) && (verb == 'v' || verb == 's') && !a.NilArg?
    ensures Format(prefix + ['%', verb], [a]) == prefix + (if a.StrArg? then a.s else a.msg)
  {
    FormatPlainPrefix(prefix, ['%', verb], [a]);
  }

  /** A generic error whose format is some text followed by one `%v` or `%s`, given one string
      or error argument, yields a DetailedError that prints the text followed by the argument. */
  lemma WithOneArgMessage(e: GenericError, prefix: string, verb: char, a: Arg)
    requires NoPercent(prefix) && (verb == 'v' || verb == 's') && !a.NilArg?
    requires e.text == prefix + ['%', verb]
    ensures DetailedOrNil(e, [a]) == Some(DetailedError(e, [a]))
    ensures DetailedOrNil(e, [a]).value.Error() == prefix + (if a.StrArg? then a.s else a.msg)
  {
    FormatOneArg(prefix, verb, a);
  }

  /** A GenericError prints its own text, and so does the DetailedError `WithArgs()` makes of
      it without arguments when the text has no verbs (error_test.go). */
  lemma GenericErrorPrintsItsText(g: GenericError)
    ensures Generic(g).Message() == g.text
    ensures NoPercent(g.text) ==> DetailedOrNil(g, []).Some? && DetailedOrNil(g, []).value.Error() == g.text
  {
    if NoPercent(g.text) {
      FormatWithoutVerbs(g.text, []);
    }
  }

  /** A DetailedError prints its format with the arguments substituted (error_test.go). */
  lemma DetailedErrorExample()
    ensures DetailedError(GenericError("this is detailed error: %v"), [StrArg("foo")]).Error()
      == "this is detailed error: foo"
  {
    var prefix := "this is detailed error: ";
    assert NoPercent(prefix);
    assert prefix + ['%', 'v'] == "this is detailed error: %v";
    FormatOneArg(prefix, 'v', StrArg("foo"));
  }

  /** WithArgs over only strings and errors never returns nil, and the error it returns
      prints the format with those arguments. */
  lemma DetailedOrNilWithoutNil(e: GenericError, v: seq<Arg>)
    requires forall i :: 0 <= i < |v| ==> !v[i].NilArg?
    ensures DetailedOrNil(e, v).Some?
    ensures DetailedOrNil(e, v).value.Error() == Format(e.text, v)
  {
  }

  /** A nil argument with no error beside it makes WithArgs return nil (error_test.go). */
  lemma NilArgumentIsDropped(e: GenericError)
    ensures DetailedOrNil(e, [NilArg]) == None
  {
    assert [NilArg][0].NilArg?;
  }
}
