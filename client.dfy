/** The client (client.go): a value holding the user's session credential,
    built by applying configuration options in order to a zero-valued
    client. */
module NicoClient {

  /** A configuration option: a function run against the client being
      built. `WithUserSession(s)` stands for the option the library's
      function of that name returns. `Custom(update)` stands for any other
      option a caller writes; since the client's only state is its
      credential, such an option is what it does to that credential. */
  datatype NewClientOption =
    | WithUserSession(userSession: string)
    | Custom(update: string -> string)

  /** The session credential after applying `opt` to a client whose
      credential was `session`. */
  function ApplyOption(opt: NewClientOption, session: string): string
  {
    match opt
    case WithUserSession(s) => s
    case Custom(update) => update(session)
  }

  /** The session credential after applying `opts`, first to last, to a
      client whose credential was `session`. */
  function ApplyOptions(session: string, opts: seq<NewClientOption>): string
    decreases |opts|
  {
    if |opts| == 0 then session
    else ApplyOptions(ApplyOption(opts[0], session), opts[1..])
  }

  class Client {
    var userSession: string

    /** The zero value of a client: an empty credential. */
    constructor ()
      ensures userSession == ""
    {
      userSession := "";
    }

    /** Runs one option against this client, which it updates in place. */
    method Apply(opt: NewClientOption)
      modifies this
      ensures userSession == ApplyOption(opt, old(userSession))
      ensures opt.WithUserSession? ==> userSession == opt.userSession
    {
      match opt
      case WithUserSession(s) =>
        userSession := s;
      case Custom(update) =>
        userSession := update(userSession);
    }
  }

  /** Allocates a fresh zero-valued client and applies every option to it,
      in the order given. */
  method NewClient(opts: seq<NewClientOption>) returns (c: Client)
    ensures fresh(c)
    ensures c.userSession == ApplyOptions("", opts)
    ensures |opts| == 0 ==> c.userSession == ""
    ensures |opts| > 0 && opts[|opts| - 1].WithUserSession? ==> c.userSession == opts[|opts| - 1].userSession
  {
    c := new Client();
    for i := 0 to |opts|
      invariant c.userSession == ApplyOptions("", opts[..i])
    {
      ApplyOptionsAppend("", opts[..i], [opts[i]]);
      assert opts[..i] + [opts[i]] == opts[..i + 1];
      c.Apply(opts[i]);
    }
    assert opts[..|opts|] == opts;
    if |opts| > 0 && opts[|opts| - 1].WithUserSession? {
      ApplyOptionsLastWins("", opts);
    }
  }

  /** Applying `a` and then `b` is applying `a + b`: options take effect
      one after the other, each once. */
  lemma {:induction false} ApplyOptionsAppend(session: string, a: seq<NewClientOption>, b: seq<NewClientOption>)
    ensures ApplyOptions(session, a + b) == ApplyOptions(ApplyOptions(session, a), b)
    decreases |a|
  {
    if |a| == 0 {
      assert a + b == b;
    } else {
      assert (a + b)[1..] == a[1..] + b;
      ApplyOptionsAppend(ApplyOption(a[0], session), a[1..], b);
    }
  }

  /** When the last option is `WithUserSession`, its value is the
      credential, whatever came before; with no option the credential is
      left as it was. */
  lemma {:induction false} ApplyOptionsLastWins(session: string, opts: seq<NewClientOption>)
    requires |opts| == 0 || opts[|opts| - 1].WithUserSession?
    ensures ApplyOptions(session, opts) == if |opts| == 0 then session else opts[|opts| - 1].userSession
    decreases |opts|
  {
    if |opts| > 0 {
      ApplyOptionsLastWins(ApplyOption(opts[0], session), opts[1..]);
    }
  }

  /** A `WithUserSession` option discards everything before it: the result
      is that of the options after it, started from its value. */
  lemma {:induction false} WithUserSessionForgetsEarlier(session: string, opts: seq<NewClientOption>, k: int)
    requires 0 <= k < |opts| && opts[k].WithUserSession?
    ensures ApplyOptions(session, opts) == ApplyOptions(opts[k].userSession, opts[k + 1..])
    decreases k
  {
    if k > 0 {
      assert opts[1..][k - 1] == opts[k];
      assert opts[1..][k..] == opts[k + 1..];
      WithUserSessionForgetsEarlier(ApplyOption(opts[0], session), opts[1..], k - 1);
    }
  }
}
