/** Resolution of the user arguments accepted across the SDK: a number, a
    numeric string, or an object with an `id` (or `name`) field. */
module UserResolvers {
  import opened Wrappers
  import opened Decimal

  datatype IdField = IdNumber(n: int) | IdText(s: string)

  datatype UserIdResolvable =
    | UserNumber(n: int)
    | UserText(s: string)
    | UserObject(id: IdField)

  datatype UserNameResolvable = NameText(s: string) | NameObject(name: string)

  datatype ResolveError = TypeError(message: string)

  const UserIdMessage := "User ID must be integer or numeric string"

  /** A string id is accepted when it is all ASCII digits and read in base 10. */
  function ParseNumericId(s: string): (r: Result<int, ResolveError>)
    ensures r.Ok? <==> IsDigitString(s)
    ensures r.Ok? ==> r.value >= 0 && r.value == DigitsValue(s)
    ensures r.Err? ==> r.error == TypeError(UserIdMessage)
  {
    if IsDigitString(s) then Ok(DigitsValue(s)) else Err(TypeError(UserIdMessage))
  }

  /** The text an argument supplies as its id, when it supplies text. */
  function IdTextOf(user: UserIdResolvable): Option<string>
  {
    match user
    case UserNumber(_) => None
    case UserText(s) => Some(s)
    case UserObject(IdNumber(_)) => None
    case UserObject(IdText(s)) => Some(s)
  }

  /** extractUserId with a stateless digit test: numbers pass unchanged,
      digit strings (bare or in `id`) are parsed, anything else is a
      TypeError. */
  function ExtractUserId(user: UserIdResolvable): (r: Result<int, ResolveError>)
    ensures user.UserNumber? ==> r == Ok(user.n)
    ensures user.UserObject? && user.id.IdNumber? ==> r == Ok(user.id.n)
    ensures IdTextOf(user).Some? ==>
      (r.Ok? <==> IsDigitString(IdTextOf(user).value)) &&
      (r.Ok? ==> r.value == DigitsValue(IdTextOf(user).value))
    ensures r.Err? ==> r.error == TypeError(UserIdMessage)
  {
    match user
    case UserNumber(n) => Ok(n)
    case UserText(s) => ParseNumericId(s)
    case UserObject(IdNumber(n)) => Ok(n)
    case UserObject(IdText(s)) => ParseNumericId(s)
  }

  /** Every non-negative id survives being passed as its decimal text, bare
      or wrapped in an object. */
  lemma DecimalIdResolves(n: nat)
    ensures ExtractUserId(UserText(NatToDecimal(n))) == Ok(n)
    ensures ExtractUserId(UserObject(IdText(NatToDecimal(n)))) == Ok(n)
  {
    DecimalRoundTrip(n);
  }

  /** Only non-negative ids can be given as text: a '-' sign is rejected. */
  lemma NegativeTextRejected(n: int)
    requires n < 0
    ensures ExtractUserId(UserText(IntToDecimal(n))).Err?
  {
  }

  /** extractUserName: a string is the name; otherwise the `name` field. */
  function ExtractUserName(user: UserNameResolvable): (r: string)
    ensures user.NameText? ==> r == user.s
    ensures user.NameObject? ==> r == user.name
  {
    match user
    case NameText(s) => s
    case NameObject(name) => name
  }

  // ---------------------------------------------------------------------
  // The digit test as written: one regular expression `^\d+$` with the
  // global flag, shared by every call, whose `lastIndex` survives between
  // calls.

  /** Outcome of `RegExp.prototype.test` and the `lastIndex` it leaves. */
  datatype RegexTest = RegexTest(matched: bool, lastIndex: nat)

  /** Where an anchored `^\d+$` match starting at `pos` ends, if any: the
      `^` anchor only matches at position 0. */
  function AnchoredMatchAt(s: string, pos: nat): Option<nat>
  {
    if pos == 0 && IsDigitString(s) then Some(|s|) else None
  }

  /** The first match found scanning from `pos` to the end of `s`. */
  function ScanFrom(s: string, pos: nat): (m: Option<nat>)
    requires pos <= |s|
    decreases |s| - pos
    ensures m.Some? <==> pos == 0 && IsDigitString(s)
    ensures m.Some? ==> m.value == |s|
  {
    match AnchoredMatchAt(s, pos)
    case Some(end) => Some(end)
    case None => if pos == |s| then None else ScanFrom(s, pos + 1)
  }

  /** A global regex's `test`: start scanning at `lastIndex`; on success
      remember where the match ended, on failure go back to 0. */
  function GlobalRegexTest(lastIndex: nat, s: string): (t: RegexTest)
    ensures t.matched <==> lastIndex == 0 && IsDigitString(s)
    ensures t.matched ==> t.lastIndex == |s| > 0
    ensures !t.matched ==> t.lastIndex == 0
  {
    if lastIndex > |s| then RegexTest(false, 0)
    else match ScanFrom(s, lastIndex)
      case Some(end) => RegexTest(true, end)
      case None => RegexTest(false, 0)
  }

  datatype Resolved = Resolved(result: Result<int, ResolveError>, lastIndex: nat)

  /** extractUserId as written, threading the shared regex's `lastIndex`. */
  function ExtractUserIdAsWritten(lastIndex: nat, user: UserIdResolvable): (r: Resolved)
    ensures IdTextOf(user).None? ==> r == Resolved(ExtractUserId(user), lastIndex)
    ensures lastIndex == 0 ==> r.result == ExtractUserId(user)
    ensures lastIndex > 0 && IdTextOf(user).Some? ==>
      r == Resolved(Err(TypeError(UserIdMessage)), 0)
  {
    match IdTextOf(user)
    case None => Resolved(ExtractUserId(user), lastIndex)
    case Some(s) =>
      var t := GlobalRegexTest(lastIndex, s);
      if t.matched then Resolved(Ok(DigitsValue(s)), t.lastIndex)
      else Resolved(Err(TypeError(UserIdMessage)), t.lastIndex)
  }

  /** Two numeric-string ids in a row: the first resolves, the second is
      rejected because the regex resumes scanning after the first match. */
  lemma SecondNumericIdRejected()
    ensures ExtractUserIdAsWritten(0, UserText("123")) == Resolved(Ok(123), 3)
    ensures ExtractUserIdAsWritten(3, UserText("456")).result.Err?
    ensures ExtractUserId(UserText("456")) == Ok(456)
  {
    assert IsDigitString("123");
    assert IsDigitString("456");
    assert DigitsValue("123") == 123 by {
      assert "123"[..2] == "12" && "12"[..1] == "1" && "1"[..0] == "";
    }
    assert DigitsValue("456") == 456 by {
      assert "456"[..2] == "45" && "45"[..1] == "4" && "4"[..0] == "";
    }
  }
}
