/**
 * The "Make a transfer" form: the amount field's character filter, the
 * decimal-prefix reading that `parseFloat` performs on such a filtered amount,
 * the four-step validation chain, and the form's state around one POST.
 */
module TransactionForm {
  import opened Api
  import opened Decimal

  const FillInFields := "Please fill in all fields correctly."
  const SameAccounts := "From and To accounts cannot be the same."
  const InvalidNumber := "Please enter a valid number for amount."
  const NotPositive := "Amount must be greater than zero."
  const CreateFailed := "Failed to create transaction."

  predicate IsAmountChar(c: char) {
    IsDigit(c) || c == '.'
  }

  /** Every character is a digit or a dot: what the amount field may hold. */
  predicate IsClean(s: string) {
    forall i :: 0 <= i < |s| ==> IsAmountChar(s[i])
  }

  predicate HasDigit(s: string) {
    exists i :: 0 <= i < |s| && IsDigit(s[i])
  }

  // ---------------------------------------------------------------------------
  // The amount filter

  /**
   * The amount field's change filter: keeps every digit and dot of the typed
   * text, in order, and drops everything else.
   */
  function Sanitise(s: string): (r: string)
    ensures IsClean(r)
    ensures forall c :: multiset(r)[c] == if IsAmountChar(c) then multiset(s)[c] else 0
  {
    if s == [] then []
    else
      assert s == [s[0]] + s[1..];
      (if IsAmountChar(s[0]) then [s[0]] else []) + Sanitise(s[1..])
  }

  /** Filtering works character by character, so it keeps the order of what it keeps. */
  lemma {:induction false} SanitiseAppend(a: string, b: string)
    ensures Sanitise(a + b) == Sanitise(a) + Sanitise(b)
  {
    if a == [] {
      assert a + b == b;
    } else {
      assert (a + b)[0] == a[0];
      assert (a + b)[1..] == a[1..] + b;
      SanitiseAppend(a[1..], b);
    }
  }

  /** Text that is already clean passes the filter untouched. */
  lemma {:induction false} SanitiseKeepsClean(s: string)
    requires IsClean(s)
    ensures Sanitise(s) == s
  {
    if s != [] {
      SanitiseKeepsClean(s[1..]);
    }
  }

  lemma SanitiseIdempotent(s: string)
    ensures Sanitise(Sanitise(s)) == Sanitise(s)
  {
    SanitiseKeepsClean(Sanitise(s));
  }

  // ---------------------------------------------------------------------------
  // parseFloat on a clean amount

  /** The length of the run of digits that starts `s`. */
  function DigitRun(s: string): (k: nat)
    ensures k <= |s| && AllDigits(s[..k])
    ensures k < |s| ==> !IsDigit(s[k])
  {
    if s == [] || !IsDigit(s[0]) then 0
    else
      var k' := DigitRun(s[1..]);
      assert s[..1 + k'] == [s[0]] + s[1..][..k'];
      1 + k'
  }

  /** The shape `digits* ('.' digits*)?` that parseFloat reads from a clean string. */
  predicate IsNumeral(p: string) {
    AllDigits(p) || exists k :: 0 <= k < |p| && p[k] == '.' && AllDigits(p[..k]) && AllDigits(p[k + 1..])
  }

  /** The digits after the first dot, up to the next non-digit; empty when there is no dot. */
  function FractionDigits(s: string): (f: string)
    ensures AllDigits(f)
  {
    var k := DigitRun(s);
    if k < |s| && s[k] == '.' then s[k + 1..][..DigitRun(s[k + 1..])] else []
  }

  /**
   * The part of `s` that parseFloat reads: the leading digits, then the dot and
   * the fraction digits if a dot follows them.
   */
  function NumericPrefix(s: string): string {
    var k := DigitRun(s);
    if k < |s| && s[k] == '.' then s[..k] + ['.'] + FractionDigits(s) else s[..k]
  }

  /** What `parseFloat` gives: not-a-number, or a value (exact, not rounded to a double). */
  datatype Number = NaN | Num(value: real)

  function ParseFloat(s: string): (r: Number)
    requires IsClean(s)
  {
    var whole := s[..DigitRun(s)];
    var frac := FractionDigits(s);
    if whole == [] && frac == [] then NaN
    else Num(Value(whole) as real + Value(frac) as real / Pow10(|frac|) as real)
  }

  /** In a numeral, a character that is not a digit is a dot. */
  lemma NumeralNonDigit(p: string, i: nat)
    requires IsNumeral(p) && i < |p| && !IsDigit(p[i])
    ensures p[i] == '.'
  {
    if !AllDigits(p) {
      var k :| 0 <= k < |p| && p[k] == '.' && AllDigits(p[..k]) && AllDigits(p[k + 1..]);
    }
  }

  /** A numeral holds at most one character that is not a digit. */
  lemma NumeralOneNonDigit(p: string, i: nat, j: nat)
    requires IsNumeral(p) && i < |p| && j < |p| && i != j && !IsDigit(p[i])
    ensures IsDigit(p[j])
  {
    var k :| 0 <= k < |p| && p[k] == '.' && AllDigits(p[..k]) && AllDigits(p[k + 1..]);
    forall m | 0 <= m < |p| && m != k
      ensures IsDigit(p[m])
    {
      if m < k {
        assert p[..k][m] == p[m];
      } else {
        assert p[k + 1..][m - k - 1] == p[m];
      }
    }
  }

  /** The numeric prefix is a prefix of `s`, has numeral shape, and no longer prefix has. */
  lemma NumericPrefixIsLongest(s: string)
    ensures var p := NumericPrefix(s); |p| <= |s| && p == s[..|p|] && IsNumeral(p)
    ensures forall j :: |NumericPrefix(s)| < j <= |s| ==> !IsNumeral(s[..j])
  {
    var k := DigitRun(s);
    var p := NumericPrefix(s);
    if k < |s| && s[k] == '.' {
      var m := DigitRun(s[k + 1..]);
      assert s[k + 1..][..m] == s[k + 1..k + 1 + m];
      assert p == s[..k + 1 + m];
      assert p[..k] == s[..k];
      assert p[k + 1..] == s[k + 1..][..m];
      assert IsNumeral(p);
      forall j | |p| < j <= |s|
        ensures !IsNumeral(s[..j])
      {
        var q := s[..j];
        var e := k + 1 + m;
        assert q[e] == s[k + 1..][m];
        if IsNumeral(q) {
          NumeralNonDigit(q, e);
          NumeralOneNonDigit(q, e, k);
        }
      }
    } else {
      forall j | |p| < j <= |s|
        ensures !IsNumeral(s[..j])
      {
        var q := s[..j];
        if IsNumeral(q) {
          NumeralNonDigit(q, k);
        }
      }
    }
  }

  lemma HasDigitSplit(a: string, b: string)
    ensures HasDigit(a + b) <==> HasDigit(a) || HasDigit(b)
    ensures HasNonZeroDigit(a + b) <==> HasNonZeroDigit(a) || HasNonZeroDigit(b)
  {
    if HasDigit(a + b) {
      var i :| 0 <= i < |a + b| && IsDigit((a + b)[i]);
      if i >= |a| { assert b[i - |a|] == (a + b)[i]; }
    }
    if HasNonZeroDigit(a + b) {
      var i :| 0 <= i < |a + b| && IsDigit((a + b)[i]) && (a + b)[i] != '0';
      if i >= |a| { assert b[i - |a|] == (a + b)[i]; }
    }
    if HasDigit(a) {
      var i :| 0 <= i < |a| && IsDigit(a[i]);
      assert (a + b)[i] == a[i];
    }
    if HasNonZeroDigit(a) {
      var i :| 0 <= i < |a| && IsDigit(a[i]) && a[i] != '0';
      assert (a + b)[i] == a[i];
    }
    if HasDigit(b) {
      var i :| 0 <= i < |b| && IsDigit(b[i]);
      assert (a + b)[|a| + i] == b[i];
    }
    if HasNonZeroDigit(b) {
      var i :| 0 <= i < |b| && IsDigit(b[i]) && b[i] != '0';
      assert (a + b)[|a| + i] == b[i];
    }
  }

  /** parseFloat gives NaN exactly when the prefix it reads holds no digit. */
  lemma ParseFloatNaNIff(s: string)
    requires IsClean(s)
    ensures ParseFloat(s).NaN? <==> !HasDigit(NumericPrefix(s))
  {
    var k := DigitRun(s);
    var whole, frac := s[..k], FractionDigits(s);
    if k < |s| && s[k] == '.' {
      HasDigitSplit(whole + ['.'], frac);
      HasDigitSplit(whole, ['.']);
    }
    if whole != [] { assert IsDigit(whole[0]); }
    if frac != [] { assert IsDigit(frac[0]); }
  }

  /** parseFloat gives a positive number exactly when the prefix it reads holds a non-zero digit. */
  lemma ParseFloatPositiveIff(s: string)
    requires IsClean(s)
    ensures (ParseFloat(s).Num? && ParseFloat(s).value > 0.0) <==> HasNonZeroDigit(NumericPrefix(s))
  {
    var k := DigitRun(s);
    var whole, frac := s[..k], FractionDigits(s);
    ValuePositiveIff(whole);
    ValuePositiveIff(frac);
    if k < |s| && s[k] == '.' {
      HasDigitSplit(whole + ['.'], frac);
      HasDigitSplit(whole, ['.']);
    }
    var w, f, d := Value(whole) as real, Value(frac) as real, Pow10(|frac|) as real;
    assert f / d >= 0.0;
    assert f > 0.0 ==> f / d > 0.0;
  }

  /** The filtered amount carries no sign, so a parsed amount is never negative. */
  lemma ParseFloatNonNegative(s: string)
    requires IsClean(s)
    ensures ParseFloat(s).Num? ==> ParseFloat(s).value >= 0.0
  {
    var frac := FractionDigits(s);
    var f, d := Value(frac) as real, Pow10(|frac|) as real;
    assert f / d >= 0.0;
  }

  // ---------------------------------------------------------------------------
  // The validation chain

  datatype Verdict = Accept(amount: real) | Reject(message: string)

  /**
   * The checks of the create handler, stopping at the first that fails: both
   * accounts filled in, the accounts differ, the amount is a number, the amount
   * is positive. Each message is stated in terms of the typed text: the number
   * checks are characterised by the digits of the prefix parseFloat reads.
   */
  function Validate(fromAccount: string, toAccount: string, amount: string): (v: Verdict)
    requires IsClean(amount)
    ensures v == Reject(FillInFields) <==> fromAccount == "" || toAccount == ""
    ensures v == Reject(SameAccounts) <==> fromAccount != "" && toAccount != "" && fromAccount == toAccount
    ensures v == Reject(InvalidNumber) <==>
      fromAccount != "" && toAccount != "" && fromAccount != toAccount && !HasDigit(NumericPrefix(amount))
    ensures v == Reject(NotPositive) <==>
      fromAccount != "" && toAccount != "" && fromAccount != toAccount
      && HasDigit(NumericPrefix(amount)) && !HasNonZeroDigit(NumericPrefix(amount))
    ensures v.Accept? <==>
      fromAccount != "" && toAccount != "" && fromAccount != toAccount && HasNonZeroDigit(NumericPrefix(amount))
    ensures v.Accept? ==> ParseFloat(amount) == Num(v.amount) && v.amount > 0.0
  {
    var parsed := ParseFloat(amount);
    ParseFloatNaNIff(amount);
    ParseFloatPositiveIff(amount);
    ParseFloatNonNegative(amount);
    if fromAccount == "" || toAccount == "" then Reject(FillInFields)
    else if fromAccount == toAccount then Reject(SameAccounts)
    else if parsed.NaN? then Reject(InvalidNumber)
    else if parsed.value <= 0.0 then Reject(NotPositive)
    else Accept(parsed.value)
  }

  lemma SanitiseMinusFive()
    ensures Sanitise("-5") == "5"
  {
    assert "-5"[1..] == "5";
    assert "5"[1..] == [];
  }

  lemma ParseFive()
    ensures ParseFloat("5") == Num(5.0)
  {
    assert "5"[1..] == [];
    assert "5"[..1] == "5";
    assert "5"[..0] == [];
  }

  lemma SanitiseLetters()
    ensures Sanitise("abc") == ""
  {
    assert "c"[1..] == [];
    assert Sanitise("c") == [];
    assert "bc"[1..] == "c";
    assert Sanitise("bc") == [];
    assert "abc"[1..] == "bc";
  }

  /**
   * What reaches the checks is the filtered text: a typed "-5" loses its sign
   * and passes as 5, while "abc" filters to nothing and fails the number check.
   */
  lemma SignIsDropped()
    ensures Validate("a", "b", Sanitise("-5")) == Accept(5.0)
    ensures Validate("a", "b", Sanitise("abc")) == Reject(InvalidNumber)
  {
    SanitiseMinusFive();
    ParseFive();
    SanitiseLetters();
  }

  // ---------------------------------------------------------------------------
  // The form's state

  /** The body of the create request: `{from_account, to_account, amount}`. */
  datatype CreateRequest = CreateRequest(fromAccount: string, toAccount: string, amount: real)

  class Form {
    var fromAccount: string
    var toAccount: string
    var amount: string
    var error: Option<string>

    /** The amount field only ever holds digits and dots. */
    ghost predicate Valid()
      reads this
    {
      IsClean(amount)
    }

    constructor ()
      ensures Valid()
      ensures fromAccount == "" && toAccount == "" && amount == "" && error == None
    {
      fromAccount, toAccount, amount, error := "", "", "", None;
    }

    method ChangeFromAccount(text: string)
      requires Valid()
      modifies this
      ensures Valid()
      ensures fromAccount == text
      ensures toAccount == old(toAccount) && amount == old(amount) && error == old(error)
    {
      fromAccount := text;
    }

    method ChangeToAccount(text: string)
      requires Valid()
      modifies this
      ensures Valid()
      ensures toAccount == text
      ensures fromAccount == old(fromAccount) && amount == old(amount) && error == old(error)
    {
      toAccount := text;
    }

    /** The amount field's change handler: stores the filtered text. */
    method ChangeAmount(typed: string)
      modifies this
      ensures Valid()
      ensures amount == Sanitise(typed)
      ensures fromAccount == old(fromAccount) && toAccount == old(toAccount) && error == old(error)
    {
      amount := Sanitise(typed);
    }

    /**
     * The create handler up to its `await`: on the first failed check it sets
     * that check's message and issues nothing; otherwise it clears the error and
     * issues exactly one POST with the parsed amount. The fields are untouched.
     */
    method Submit() returns (request: Option<CreateRequest>)
      requires Valid()
      modifies this
      ensures Valid()
      ensures fromAccount == old(fromAccount) && toAccount == old(toAccount) && amount == old(amount)
      ensures match Validate(fromAccount, toAccount, amount)
        case Reject(message) => request == None && error == Some(message)
        case Accept(parsed) =>
          request == Some(CreateRequest(fromAccount, toAccount, parsed)) && error == None
    {
      var verdict := Validate(fromAccount, toAccount, amount);
      match verdict {
        case Reject(message) =>
          error := Some(message);
          request := None;
        case Accept(parsed) =>
          error := None;
          request := Some(CreateRequest(fromAccount, toAccount, parsed));
      }
    }

    /**
     * The create handler after its POST settled. Any response, OK or not,
     * clears the three fields and calls `onSuccess` when one was supplied; a
     * rejected request sets the failure message, keeps the fields and calls nothing.
     */
    method Complete(outcome: Response<()>, hasOnSuccess: bool) returns (calledOnSuccess: bool)
      requires Valid()
      modifies this
      ensures Valid()
      ensures outcome.Throws? ==>
        && error == Some(CreateFailed) && !calledOnSuccess
        && fromAccount == old(fromAccount) && toAccount == old(toAccount) && amount == old(amount)
      ensures !outcome.Throws? ==>
        && fromAccount == "" && toAccount == "" && amount == ""
        && error == old(error) && calledOnSuccess == hasOnSuccess
    {
      if outcome.Throws? {
        error := Some(CreateFailed);
        calledOnSuccess := false;
      } else {
        fromAccount, toAccount, amount := "", "", "";
        calledOnSuccess := hasOnSuccess;
      }
    }
  }
}
