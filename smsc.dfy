/**
 * The client: construction from a configuration (`New`) and one send
 * (`Send`).  The HTTP round trip and the JSON decoding are not modelled;
 * `Send` takes them as a function from the URL and the posted form to what
 * came back.
 */
module Smsc {
  import opened Wrappers
  import opened Replies
  import opened Messages
  import Decimal

  const DefaultURL := "https://smsc.ru/sys/send.php"

  /** The configuration a client is built from (the HTTP client handle is not modelled). */
  datatype Config = Config(url: string, login: string, password: string)

  /** The step of the round trip at which a foreign error was reported. */
  datatype Stage = Post | ReadBody | Unmarshal

  /**
   * What one round trip to the provider yields: a foreign error at one of its
   * steps (given by the error's message), or the decoded response.
   */
  datatype Reply = Failed(stage: Stage, cause: string) | Decoded(meta: MetaResult)

  /** A configured client; nothing changes it after construction. */
  class Client {
    const url: string
    const login: string
    const password: string

    constructor (url: string, login: string, password: string)
      ensures this.url == url && this.login == login && this.password == password
    {
      this.url := url;
      this.login := login;
      this.password := password;
    }

    /** The message `Send` posts: seeded from the client and the arguments, then adjusted by the options. */
    function Prepared(text: string, phones: seq<string>, opts: seq<Opt>): Msg {
      ApplyOpts(Msg(login, password, text, phones, FormatJSON, CostOmit), opts)
    }

    /**
     * Posts the prepared message's form to the client's URL through `post`
     * and turns what came back into the call's outcome: a foreign error is
     * wrapped; a decoded error part wins over a decoded result part;
     * otherwise the result part (possibly absent) is returned.
     */
    method Send(text: string, phones: seq<string>, opts: seq<Opt>,
                post: (string, FormValues) -> Reply)
      returns (res: Option<Result>, err: Option<SendError>)
      ensures !(res.Some? && err.Some?)
      ensures match post(url, Form(Prepared(text, phones, opts)))
        case Failed(_, cause) => res.None? && err == WrapErr(Some(cause))
        case Decoded(meta) =>
          if meta.error.Some? then res.None? && err == Some(Provider(meta.error.value))
          else res == meta.result && err.None?
    {
      var m := new Message(login, password, text, phones, FormatJSON);
      for i := 0 to |opts|
        invariant m.Value() == ApplyOpts(Msg(login, password, text, phones, FormatJSON, CostOmit), opts[..i])
      {
        assert opts[..i + 1][..i] == opts[..i];
        m.Apply(opts[i]);
      }
      assert opts[..|opts|] == opts;

      var invalid := m.Validate();
      if invalid.Some? {
        return None, invalid;
      }

      var form := m.Values();
      var reply := post(url, form);
      match reply
      case Failed(_, cause) =>
        return None, WrapErr(Some(cause));
      case Decoded(meta) =>
        if meta.error.Some? {
          return None, Some(Provider(meta.error.value));
        }
        return meta.result, None;
    }
  }

  /**
   * `New`: an empty URL is replaced by the default one; an empty login or
   * password yields the missing-credentials error and no client; otherwise
   * the client holds the resolved URL and the credentials as given.
   */
  method New(cfg: Config) returns (c: Client?, err: Option<SendError>)
    ensures err.Some? <==> cfg.login == "" || cfg.password == ""
    ensures err.Some? ==> c == null && err.value == NoLoginPassword
    ensures err.None? ==> c != null
    ensures c != null ==> c.url == (if cfg.url == "" then DefaultURL else cfg.url)
    ensures c != null ==> c.login == cfg.login && c.password == cfg.password
  {
    var conf := cfg;
    if conf.url == "" {
      conf := conf.(url := DefaultURL);
    }
    if conf.login == "" || conf.password == "" {
      return null, Some(NoLoginPassword);
    }
    c := new Client(conf.url, conf.login, conf.password);
    err := None;
  }

  /**
   * The message `Send` prepares keeps the client's credentials, the text and
   * the phones, asks for JSON, and carries the cost of the last option, or
   * `CostOmit` when there is none.
   */
  lemma PreparedMessage(c: Client, text: string, phones: seq<string>, opts: seq<Opt>)
    ensures var m := c.Prepared(text, phones, opts);
      && m.login == c.login && m.password == c.password
      && m.text == text && m.phones == phones
      && m.format == FormatJSON
      && m.cost == if opts == [] then CostOmit else opts[|opts| - 1].cost
  {
    ApplyOptsLastWins(Msg(c.login, c.password, text, phones, FormatJSON, CostOmit), opts);
  }

  /**
   * The form `Send` posts: the client's credentials, the text and every phone
   * in order, `fmt` = "3" always, and `cost` exactly when the last option
   * asked for a non-zero cost, rendered in decimal.
   */
  lemma SentForm(c: Client, text: string, phones: seq<string>, opts: seq<Opt>)
    ensures var v := Form(c.Prepared(text, phones, opts));
      var last := if opts == [] then CostOmit else opts[|opts| - 1].cost;
      && v["login"] == [c.login] && v["psw"] == [c.password]
      && v["mes"] == [text] && v["phones"] == phones
      && "fmt" in v && v["fmt"] == ["3"]
      && ("cost" in v <==> last != CostOmit)
      && ("cost" in v ==> v["cost"] == [Decimal.FormatInt(last)])
  {
    PreparedMessage(c, text, phones, opts);
  }
}
