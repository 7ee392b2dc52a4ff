/**
 * The per-call message: what `Send` seeds from the client and its
 * arguments, the options that adjust it, its (empty) validation and its
 * serialisation into the form fields that are posted to the provider.
 */
module Messages {
  import opened Wrappers
  import opened Decimal
  import opened Replies

  /** The `fmt` request parameter: the output format asked of the provider. */
  type Format = int

  const FormatInlineVerbose: Format := 0
  const FormatInline: Format := 1
  const FormatXML: Format := 2
  const FormatJSON: Format := 3

  /** The `cost` request parameter: whether and how the provider reports cost. */
  type Cost = int

  const CostOmit: Cost := 0
  const CostWithoutSend: Cost := 1
  const CostCount: Cost := 2
  const CostCountBalance: Cost := 3

  /** An option applied to a message before it is sent; `WithCost` is the only one. */
  datatype Opt = WithCost(cost: Cost)

  /** The value of a message: credentials, text, destination phones, format and cost. */
  datatype Msg = Msg(login: string, password: string, text: string, phones: seq<string>,
                     format: Format, cost: Cost)

  /** What running one option does to a message. */
  function ApplyOpt(m: Msg, o: Opt): Msg {
    match o
    case WithCost(c) => m.(cost := c)
  }

  /** What running the options in order, first to last, does to a message. */
  function ApplyOpts(m: Msg, opts: seq<Opt>): Msg {
    if opts == [] then m else ApplyOpt(ApplyOpts(m, opts[..|opts| - 1]), opts[|opts| - 1])
  }

  /**
   * Options touch only the cost, and the last `WithCost` wins; with no option
   * the message is left as it was.
   */
  lemma {:induction false} ApplyOptsLastWins(m: Msg, opts: seq<Opt>)
    ensures ApplyOpts(m, opts) == m.(cost := if opts == [] then m.cost else opts[|opts| - 1].cost)
  {
    if opts != [] {
      ApplyOptsLastWins(m, opts[..|opts| - 1]);
    }
  }

  /** Running `a` and then `b` is running `a + b`: options compose left to right. */
  lemma {:induction false} ApplyOptsCompose(m: Msg, a: seq<Opt>, b: seq<Opt>)
    ensures ApplyOpts(m, a + b) == ApplyOpts(ApplyOpts(m, a), b)
  {
    if b == [] {
      assert a + b == a;
    } else {
      assert (a + b)[..|a + b| - 1] == a + b[..|b| - 1];
      ApplyOptsCompose(m, a, b[..|b| - 1]);
    }
  }

  /** Form fields (Go's `url.Values`): each key maps to a list of values. */
  type FormValues = map<string, seq<string>>

  const FormKeys: set<string> := {"login", "psw", "mes", "phones", "fmt", "cost"}

  /** A numeric parameter: absent when zero, else its decimal rendering. */
  function NumericField(key: string, n: int): FormValues {
    if n == 0 then map[] else map[key := [FormatInt(n)]]
  }

  /**
   * The form a message is posted as: `login`, `psw`, `mes` and `phones` always;
   * `fmt` and `cost` only when non-zero, as one decimal string each.
   */
  function Form(m: Msg): (v: FormValues)
    ensures v.Keys <= FormKeys
    ensures "login" in v && v["login"] == [m.login]
    ensures "psw" in v && v["psw"] == [m.password]
    ensures "mes" in v && v["mes"] == [m.text]
    ensures "phones" in v && v["phones"] == m.phones
    ensures "fmt" in v <==> m.format != 0
    ensures "fmt" in v ==> v["fmt"] == [FormatInt(m.format)]
    ensures "cost" in v <==> m.cost != 0
    ensures "cost" in v ==> v["cost"] == [FormatInt(m.cost)]
  {
    map["login" := [m.login], "psw" := [m.password], "mes" := [m.text], "phones" := m.phones]
      + NumericField("fmt", m.format) + NumericField("cost", m.cost)
  }

  /** A numeric parameter as the provider reads it: zero when absent. */
  function ReadNumericField(v: FormValues, key: string): Option<int> {
    if key !in v then Some(0)
    else if |v[key]| == 1 then ParseInt(v[key][0])
    else None
  }

  /** Reads a form back into the message it describes. */
  function ParseForm(v: FormValues): Option<Msg> {
    if !(v.Keys <= FormKeys) || "login" !in v || "psw" !in v || "mes" !in v || "phones" !in v then None
    else if |v["login"]| != 1 || |v["psw"]| != 1 || |v["mes"]| != 1 then None
    else
      match (ReadNumericField(v, "fmt"), ReadNumericField(v, "cost"))
      case (Some(format), Some(cost)) =>
        Some(Msg(v["login"][0], v["psw"][0], v["mes"][0], v["phones"], format, cost))
      case _ => None
  }

  /** The form loses nothing: every field of the message, phones in order, can be read back. */
  lemma FormRoundTrip(m: Msg)
    ensures ParseForm(Form(m)) == Some(m)
  {
    FormatIntRoundTrip(m.format);
    FormatIntRoundTrip(m.cost);
  }

  /** A message being prepared for sending; options update its fields in place. */
  class Message {
    var login: string
    var password: string
    var text: string
    var phones: seq<string>
    var format: Format
    var cost: Cost

    function Value(): Msg
      reads this
    {
      Msg(login, password, text, phones, format, cost)
    }

    /** The struct literal in `Send`: the cost starts at its zero value, `CostOmit`. */
    constructor (login: string, password: string, text: string, phones: seq<string>, format: Format)
      ensures Value() == Msg(login, password, text, phones, format, CostOmit)
    {
      this.login := login;
      this.password := password;
      this.text := text;
      this.phones := phones;
      this.format := format;
      this.cost := CostOmit;
    }

    /** Runs an option on this message (the closure `WithCost` returns). */
    method Apply(o: Opt)
      modifies this
      ensures Value() == ApplyOpt(old(Value()), o)
    {
      match o
      case WithCost(c) =>
        cost := c;
    }

    /** `Validate` accepts every message: no check is implemented yet. */
    method Validate() returns (err: Option<SendError>)
      ensures err.None?
    {
      err := None;
    }

    /** `Values`: the form to post, built field by field. */
    method Values() returns (v: FormValues)
      ensures v == Form(Value())
    {
      v := map["login" := [login], "psw" := [password], "mes" := [text], "phones" := phones];
      if format != 0 {
        v := v["fmt" := [FormatInt(format)]];
      }
      if cost != 0 {
        v := v["cost" := [FormatInt(cost)]];
      }
    }
  }
}
