/** The plugin's workflow status enumeration (status.go) and its String method. */
module Status {
  import opened Options

  /** Go's `type PluginWorkflowStatus int`: a 64-bit signed integer. */
  newtype PluginWorkflowStatus = x: int | -0x8000_0000_0000_0000 <= x < 0x8000_0000_0000_0000

  const UNKNOWN: PluginWorkflowStatus := 0
  const SUCCESS: PluginWorkflowStatus := 1
  const RUNNING: PluginWorkflowStatus := 2
  const ERROR: PluginWorkflowStatus := 3

  /** The prefix `String` uses for every value without a name of its own. */
  const NumberedPrefix := "PluginWorkflowStatus("

  predicate IsDigit(c: char) {
    '0' <= c <= '9'
  }

  predicate AllDigits(s: string) {
    forall i :: 0 <= i < |s| ==> IsDigit(s[i])
  }

  function DigitChar(d: int): (c: char)
    requires 0 <= d < 10
    ensures IsDigit(c) && c as int - '0' as int == d
  {
    (d + '0' as int) as char
  }

  /** Decimal digits of a natural number, most significant first, as `%d` prints them. */
  function DecimalDigits(n: nat): (s: string)
    ensures |s| >= 1 && AllDigits(s)
    ensures s[0] == '0' ==> n == 0
    decreases n
  {
    if n < 10 then [DigitChar(n)] else DecimalDigits(n / 10) + [DigitChar(n % 10)]
  }

  /** `%d` of a signed integer. */
  function Decimal(i: int): string {
    if i < 0 then "-" + DecimalDigits(-i) else DecimalDigits(i)
  }

  /** The value a string of decimal digits denotes. */
  function DigitsValue(s: string): nat
    requires AllDigits(s)
    decreases |s|
  {
    if s == [] then 0 else DigitsValue(s[..|s| - 1]) * 10 + (s[|s| - 1] as int - '0' as int)
  }

  /** Reads back what `Decimal` prints. */
  function ParseDecimal(s: string): Option<int> {
    if |s| >= 2 && s[0] == '-' && AllDigits(s[1..]) then Some(-(DigitsValue(s[1..]) as int))
    else if |s| >= 1 && AllDigits(s) then Some(DigitsValue(s))
    else None
  }

  /** status.go: the `String` method of PluginWorkflowStatus. */
  function String(m: PluginWorkflowStatus): string {
    if m == SUCCESS then "success"
    else if m == RUNNING then "running"
    else if m == ERROR then "error"
    else NumberedPrefix + Decimal(m as int) + ")"
  }

  /** The inverse of `String`: recovers the status a description was printed from. */
  function ParseStatusString(s: string): Option<PluginWorkflowStatus> {
    if s == "success" then Some(SUCCESS)
    else if s == "running" then Some(RUNNING)
    else if s == "error" then Some(ERROR)
    else if |s| > |NumberedPrefix| + 1 && s[..|NumberedPrefix|] == NumberedPrefix && s[|s| - 1] == ')' then
      match ParseDecimal(s[|NumberedPrefix|..|s| - 1])
      case Some(i) =>
        if -0x8000_0000_0000_0000 <= i < 0x8000_0000_0000_0000 then Some(i as PluginWorkflowStatus) else None
      case None => None
    else None
  }

  lemma {:induction false} DigitsValueOfDecimal(n: nat)
    ensures DigitsValue(DecimalDigits(n)) == n
    decreases n
  {
    if n >= 10 {
      var hi := DecimalDigits(n / 10);
      var s := hi + [DigitChar(n % 10)];
      assert s[..|s| - 1] == hi;
      DigitsValueOfDecimal(n / 10);
    }
  }

  /** `ParseDecimal` undoes `Decimal`. */
  lemma DecimalRoundTrip(i: int)
    ensures ParseDecimal(Decimal(i)) == Some(i)
  {
    if i < 0 {
      var s := "-" + DecimalDigits(-i);
      assert s[1..] == DecimalDigits(-i);
      DigitsValueOfDecimal(-i);
    } else {
      DigitsValueOfDecimal(i);
    }
  }

  /** Every status, named or numbered, is recovered from its description, so `String` is injective. */
  lemma StringRoundTrip(m: PluginWorkflowStatus)
    ensures ParseStatusString(String(m)) == Some(m)
  {
    if m != SUCCESS && m != RUNNING && m != ERROR {
      var d := Decimal(m as int);
      var s := NumberedPrefix + d + ")";
      assert s[0] == 'P';
      assert s[..|NumberedPrefix|] == NumberedPrefix;
      assert s[|NumberedPrefix|..|s| - 1] == d;
      DecimalRoundTrip(m as int);
    }
  }

  /** The three named descriptions are distinct and never look like a numbered one. */
  lemma NamedStringsAreDistinct()
    ensures String(SUCCESS) == "success" && String(RUNNING) == "running" && String(ERROR) == "error"
    ensures forall m: PluginWorkflowStatus :: m != SUCCESS && m != RUNNING && m != ERROR ==>
      String(m)[..|NumberedPrefix|] == NumberedPrefix
    ensures forall m: PluginWorkflowStatus :: m == SUCCESS || m == RUNNING || m == ERROR ==>
      |String(m)| < |NumberedPrefix|
  {
  }

  /** UNKNOWN, the zero value, is printed by number. */
  lemma UnknownIsNumbered()
    ensures String(UNKNOWN) == "PluginWorkflowStatus(0)"
  {
    assert DecimalDigits(0) == "0";
  }
}
