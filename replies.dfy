/**
 * What a send can end with: the provider's success record, its error record,
 * the envelope both are decoded into, the errors `Send` returns, and their
 * textual renderings (`Result.String`, `Error.Error`, `wrapErr`).
 */
module Replies {
  import opened Wrappers
  import opened Decimal

  /** The provider's success record: message id, number of SMS, optional cost and balance. */
  datatype Result = Result(id: int, count: int, cost: Option<string>, balance: Option<string>)

  /** The provider's error record: error code, description, optional message id. */
  datatype Error = Error(code: int, desc: string, id: Option<int>)

  /** The decoded response: each part is absent (nil) or present. */
  datatype MetaResult = MetaResult(result: Option<Result>, error: Option<Error>)

  /**
   * The errors `Send` and `New` return: the missing-credentials sentinel, an
   * error built by `wrapErr` (only its formatted text survives, since the
   * cause is formatted with `%s`), or the provider's error record itself.
   */
  datatype SendError = NoLoginPassword | Wrapped(text: string) | Provider(error: Error)

  const PackageTag := "smsc: "
  const ResultPrefix := "OK - "
  const ResultMiddle := " SMS, ID - "
  const ErrorPrefix := "ERROR = "
  const DescOpen := " ("
  /** What follows the description when an id is present: its closing parenthesis, then ", ID - ". */
  const IdClauseStart := "), ID - "

  /** `Result.String`: "OK - <count> SMS, ID - <id>"; cost and balance are not shown. */
  function ResultString(r: Result): (s: string)
    ensures ResultPrefix <= s
    ensures IsDigit(s[|s| - 1])
  {
    ResultPrefix + (FormatInt(r.count) + (ResultMiddle + FormatInt(r.id)))
  }

  /** What follows the description: ")" alone, or ")" then ", ID - <id>" when there is an id. */
  function Closing(id: Option<int>): string {
    match id
    case None => ")"
    case Some(i) => IdClauseStart + FormatInt(i)
  }

  /** `Error.Error`: "ERROR = <code> (<desc>)", then ", ID - <id>" when an id is present. */
  function ErrorString(e: Error): (s: string)
    ensures ErrorPrefix <= s
    ensures s[|s| - 1] == ')' <==> e.id.None?
    ensures e.id.Some? ==> IsDigit(s[|s| - 1])
    ensures e.id.Some? ==> s[|s| - 1] == FormatInt(e.id.value)[|FormatInt(e.id.value)| - 1]
  {
    ErrorPrefix + (FormatInt(e.code) + (DescOpen + (e.desc + Closing(e.id))))
  }

  /** The text the Go `error` interface reports for each error `Send` or `New` returns. */
  function ErrorMessage(err: SendError): string {
    match err
    case NoLoginPassword => PackageTag + "empty login or password"
    case Wrapped(text) => text
    case Provider(e) => ErrorString(e)
  }

  /**
   * `wrapErr`: nil stays nil; a foreign error, given by its message, becomes a
   * new error whose message is the package tag followed by that message.
   */
  function WrapErr(cause: Option<string>): (r: Option<SendError>)
    ensures r.None? <==> cause.None?
    ensures r.Some? ==> r.value.Wrapped? && ErrorMessage(r.value) == PackageTag + cause.value
  {
    match cause
    case None => None
    case Some(msg) => Some(Wrapped(PackageTag + msg))
  }

  /** Reads "OK - <count> SMS, ID - <id>" back into the pair (count, id). */
  function ParseResultString(s: string): Option<(int, int)> {
    if ResultPrefix <= s then ParseResultBody(s[|ResultPrefix|..]) else None
  }

  /** Reads "<count> SMS, ID - <id>", the part after the prefix. */
  function ParseResultBody(t: string): Option<(int, int)> {
    var k := NumeralPrefix(t);
    var u := t[k..];
    if !(ResultMiddle <= u) then None
    else
      match (ParseInt(t[..k]), ParseInt(u[|ResultMiddle|..]))
      case (Some(count), Some(id)) => Some((count, id))
      case _ => None
  }

  /** Reads the rendering of an error record back into the record. */
  function ParseErrorString(s: string): Option<Error> {
    if ErrorPrefix <= s then ParseErrorBody(s[|ErrorPrefix|..]) else None
  }

  /** Reads "<code> (" and then the rest of an error rendering. */
  function ParseErrorBody(t: string): Option<Error> {
    var k := NumeralPrefix(t);
    var u := t[k..];
    match ParseInt(t[..k])
    case None => None
    case Some(code) => if DescOpen <= u then ParseErrorTail(code, u[|DescOpen|..]) else None
  }

  /** Reads "<desc>)" or "<desc>), ID - <id>", the part after the opening parenthesis. */
  function ParseErrorTail(code: int, w: string): Option<Error> {
    if w != [] && w[|w| - 1] == ')' then Some(Error(code, w[..|w| - 1], None))
    else
      match SplitIdClause(w)
      case None => None
      case Some((desc, id)) => Some(Error(code, desc, Some(id)))
  }

  /** Splits "<desc>), ID - <id>" into the description and the id. */
  function SplitIdClause(w: string): Option<(string, int)> {
    var j := NumeralSuffix(w);
    if j < |IdClauseStart| || w[j - |IdClauseStart|..j] != IdClauseStart then None
    else
      match ParseInt(w[j..])
      case None => None
      case Some(id) => Some((w[..j - |IdClauseStart|], id))
  }

  /** The success summary determines the count and the id it was rendered from. */
  lemma ResultStringRoundTrip(r: Result)
    ensures ParseResultString(ResultString(r)) == Some((r.count, r.id))
  {
    var rest := ResultMiddle + FormatInt(r.id);
    var t := FormatInt(r.count) + rest;
    assert ResultString(r) == ResultPrefix + t;
    assert (ResultPrefix + t)[|ResultPrefix|..] == t;
    assert ParseResultString(ResultPrefix + t) == ParseResultBody(t);
    LeadingNumber(r.count, rest);
    assert t[..|FormatInt(r.count)|] == FormatInt(r.count);
    assert t[|FormatInt(r.count)|..] == rest;
    assert rest[|ResultMiddle|..] == FormatInt(r.id);
    FormatIntRoundTrip(r.count);
    FormatIntRoundTrip(r.id);
  }

  /** The tail of a rendering without an id reads back to the description. */
  lemma TailWithoutId(code: int, desc: string)
    ensures ParseErrorTail(code, desc + Closing(None)) == Some(Error(code, desc, None))
  {
    var w := desc + Closing(None);
    assert w[..|w| - 1] == desc;
  }

  /** The tail of a rendering with an id reads back to the description and the id. */
  lemma TailWithId(code: int, desc: string, id: int)
    ensures ParseErrorTail(code, desc + Closing(Some(id))) == Some(Error(code, desc, Some(id)))
  {
    TailWithIdParts(desc, id);
    FormatIntRoundTrip(id);
    SplitIdClauseOf(desc + Closing(Some(id)), |desc| + |IdClauseStart|, id);
  }

  /** `SplitIdClause` on a string whose trailing number and the text before it are known. */
  lemma SplitIdClauseOf(w: string, j: nat, id: int)
    requires j == NumeralSuffix(w) && j >= |IdClauseStart|
    requires w[j - |IdClauseStart|..j] == IdClauseStart
    requires ParseInt(w[j..]) == Some(id)
    ensures SplitIdClause(w) == Some((w[..j - |IdClauseStart|], id))
  {
  }

  /** Where the pieces of "<desc>), ID - <id>" lie. */
  lemma TailWithIdParts(desc: string, id: int)
    ensures var w := desc + Closing(Some(id));
      var j := |desc| + |IdClauseStart|;
      && w[|w| - 1] != ')'
      && NumeralSuffix(w) == j
      && w[j..] == FormatInt(id)
      && w[j - |IdClauseStart|..j] == IdClauseStart
      && w[..j - |IdClauseStart|] == desc
  {
    var before := desc + IdClauseStart;
    var w := before + FormatInt(id);
    assert desc + Closing(Some(id)) == w;
    TrailingNumber(before, id);
    assert w[|before|..] == FormatInt(id);
    assert w[|desc|..|before|] == IdClauseStart;
    assert w[..|desc|] == desc;
  }

  /** The part after the opening parenthesis determines the description and the optional id. */
  lemma ErrorTailRoundTrip(e: Error)
    ensures ParseErrorTail(e.code, e.desc + Closing(e.id)) == Some(e)
  {
    match e.id
    case None => TailWithoutId(e.code, e.desc);
    case Some(id) => TailWithId(e.code, e.desc, id);
  }

  /** The code is read back, and what follows " (" is left to `ParseErrorTail`. */
  lemma CodeThenTail(code: int, tail: string)
    ensures ParseErrorBody(FormatInt(code) + (DescOpen + tail)) == ParseErrorTail(code, tail)
  {
    var rest := DescOpen + tail;
    var t := FormatInt(code) + rest;
    LeadingNumber(code, rest);
    assert t[..|FormatInt(code)|] == FormatInt(code);
    assert t[|FormatInt(code)|..] == rest;
    assert rest[|DescOpen|..] == tail;
    FormatIntRoundTrip(code);
  }

  /** The error summary determines the code, the description and the optional id. */
  lemma ErrorStringRoundTrip(e: Error)
    ensures ParseErrorString(ErrorString(e)) == Some(e)
  {
    var tail := e.desc + Closing(e.id);
    var body := FormatInt(e.code) + (DescOpen + tail);
    assert ErrorString(e) == ErrorPrefix + body;
    assert (ErrorPrefix + body)[|ErrorPrefix|..] == body;
    CodeThenTail(e.code, tail);
    ErrorTailRoundTrip(e);
  }

  /** Two errors with the same rendering are the same error. */
  lemma ErrorStringInjective(e1: Error, e2: Error)
    requires ErrorString(e1) == ErrorString(e2)
    ensures e1 == e2
  {
    ErrorStringRoundTrip(e1);
    ErrorStringRoundTrip(e2);
  }

  /** Errors made by the package carry its tag; the provider's errors never do. */
  lemma PackageTagMarksLocalErrors(e: Error, cause: string)
    ensures PackageTag <= ErrorMessage(NoLoginPassword)
    ensures PackageTag <= ErrorMessage(WrapErr(Some(cause)).value)
    ensures !(PackageTag <= ErrorMessage(Provider(e)))
  {
  }

  /** The rendering of an error record without a message id. */
  lemma ErrorStringWithoutIdExample()
    ensures ErrorString(Error(3, "bad login", None)) == "ERROR = 3 (bad login)"
  {
  }

  /** The rendering of an error record with a message id. */
  lemma ErrorStringWithIdExample()
    ensures ErrorString(Error(9, "x", Some(42))) == "ERROR = 9 (x), ID - 42"
  {
  }

  /** The rendering of a success record; cost and balance do not appear. */
  lemma ResultStringExample()
    ensures ResultString(Result(5, 2, Some("1.00"), Some("99.00"))) == "OK - 2 SMS, ID - 5"
  {
  }
}
