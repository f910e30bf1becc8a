/** The OAuth return page (`pages/AuthCallback.tsx`). On mount it reads the
    query string, shows the provider's error message if one was passed, makes
    one gateway call (code exchange or session probe), and schedules one
    navigation. Delays are carried as numbers; the gateway reply is a parameter. */
module AuthCallback {
  import opened Wrappers
  import opened Url
  import opened Gateway

  const GenericAuthError := "An unexpected authentication error occurred"
  const UnexpectedError := "An unexpected error occurred"
  const HomePath := "/"
  const AuthPath := "/auth"

  /** The single gateway call the page makes. */
  datatype GatewayCall = ExchangeCode(code: string) | ProbeSession

  /** `data` of either reply, of which only `data.session` is read. */
  datatype CallbackData = CallbackData(session: Option<Session>)

  /** The settled gateway call: `{ data, error }` (either part may be null), or a thrown exception. */
  datatype GatewayReply = Replied(data: Option<CallbackData>, error: Option<AuthError>) | Threw

  /** `navigate(target)`, run after `delayMs` milliseconds (0: at once). */
  datatype Navigation = Navigation(target: string, delayMs: nat)

  /** The message shown and the navigation scheduled by one run of the handler. */
  datatype Decision = Decision(message: Option<string>, navigation: Navigation)

  datatype View = ErrorView(message: string) | LoadingView

  /** The first effect: an `error` parameter sets the message to the description,
      or to the generic text when the description is absent or empty. */
  function ErrorParamMessage(q: Params): (m: Option<string>)
    ensures m.Some? <==> Truthy(ParamGet(q, "error"))
    ensures m.Some? && Truthy(ParamGet(q, "error_description")) ==> m.value == ParamGet(q, "error_description").value
    ensures m.Some? && !Truthy(ParamGet(q, "error_description")) ==> m.value == GenericAuthError
    ensures m.Some? ==> m.value != ""
  {
    if Truthy(ParamGet(q, "error")) then Some(OrDefault(ParamGet(q, "error_description"), GenericAuthError))
    else None
  }

  /** The call made: the code exchange when `code` is present and non-empty, the session probe otherwise. */
  function CallFor(q: Params): (c: GatewayCall)
    ensures c.ExchangeCode? <==> Truthy(ParamGet(q, "code"))
    ensures c.ExchangeCode? ==> c.code == ParamGet(q, "code").value && c.code != ""
  {
    if Truthy(ParamGet(q, "code")) then ExchangeCode(ParamGet(q, "code").value) else ProbeSession
  }

  /** The handler's branch on the settled call, given the message already shown.
      A gateway error shows its message and leaves for `/auth` after 4 s; a
      session leaves for `/` after 6 s; no session leaves for `/auth` at once;
      an exception, including reading `session` of a null `data`, shows the
      generic message and leaves for `/auth` after 4 s. Only the error branches
      change the message. */
  function Decide(message: Option<string>, reply: GatewayReply): (d: Decision)
    ensures d.navigation.target == HomePath || d.navigation.target == AuthPath
    ensures d.navigation.target == HomePath <==>
              reply.Replied? && reply.error.None? && reply.data.Some? && reply.data.value.session.Some?
    ensures d.navigation.target == HomePath ==> d.navigation.delayMs == 6000 && d.message == message
    ensures reply.Replied? && reply.error.Some? ==> d == Decision(Some(reply.error.value.message), Navigation(AuthPath, 4000))
    ensures reply.Threw? ==> d == Decision(Some(UnexpectedError), Navigation(AuthPath, 4000))
    ensures reply.Replied? && reply.error.None? && reply.data.None? ==> d == Decision(Some(UnexpectedError), Navigation(AuthPath, 4000))
    ensures (reply.Replied? && reply.error.None? && reply.data.Some? && reply.data.value.session.None?) ==>
              d == Decision(message, Navigation(AuthPath, 0))
    ensures d.navigation.delayMs in {0, 4000, 6000}
  {
    match reply
    case Threw => Decision(Some(UnexpectedError), Navigation(AuthPath, 4000))
    case Replied(data, error) =>
      if error.Some? then Decision(Some(error.value.message), Navigation(AuthPath, 4000))
      else if data.None? then Decision(Some(UnexpectedError), Navigation(AuthPath, 4000))
      else if data.value.session.Some? then Decision(message, Navigation(HomePath, 6000))
      else Decision(message, Navigation(AuthPath, 0))
  }

  /** `if (error)`: the error view exactly when the message is present and non-empty. */
  function ViewFor(message: Option<string>): (v: View)
    ensures v.ErrorView? <==> Truthy(message)
    ensures v.ErrorView? ==> v.message == message.value
  {
    if Truthy(message) then ErrorView(message.value) else LoadingView
  }

  class CallbackPage {
    /** The `error` state. */
    var error: Option<string>
    /** Gateway calls made, oldest first. */
    var calls: seq<GatewayCall>
    /** Navigations scheduled, oldest first. */
    var scheduled: seq<Navigation>

    constructor()
      ensures error == None && calls == [] && scheduled == []
    {
      error := None;
      calls := [];
      scheduled := [];
    }

    /** The first effect, reading the query string. */
    method ApplyErrorParam(q: Params)
      modifies this`error
      ensures ErrorParamMessage(q).Some? ==> error == ErrorParamMessage(q)
      ensures ErrorParamMessage(q).None? ==> error == old(error)
    {
      var hasError := ParamGet(q, "error");
      if hasError.Some? && hasError.value != "" {
        var description := ParamGet(q, "error_description");
        if description.Some? && description.value != "" {
          error := description;
        } else {
          error := Some(GenericAuthError);
        }
      }
    }

    /** `handleAuthCallback`, given the reply to the call it makes. */
    method HandleAuthCallback(q: Params, reply: GatewayReply)
      modifies this`error, this`calls, this`scheduled
      ensures calls == old(calls) + [CallFor(q)]
      ensures scheduled == old(scheduled) + [Decide(old(error), reply).navigation]
      ensures error == Decide(old(error), reply).message
    {
      var code := ParamGet(q, "code");
      if code.Some? && code.value != "" {
        calls := calls + [ExchangeCode(code.value)];
      } else {
        calls := calls + [ProbeSession];
      }
      match reply {
        case Threw =>
          error := Some(UnexpectedError);
          scheduled := scheduled + [Navigation(AuthPath, 4000)];
        case Replied(data, err) =>
          if err.Some? {
            error := Some(err.value.message);
            scheduled := scheduled + [Navigation(AuthPath, 4000)];
          } else if data.None? {
            error := Some(UnexpectedError);
            scheduled := scheduled + [Navigation(AuthPath, 4000)];
          } else if data.value.session.Some? {
            scheduled := scheduled + [Navigation(HomePath, 6000)];
          } else {
            scheduled := scheduled + [Navigation(AuthPath, 0)];
          }
      }
    }

    /** What the page renders now. */
    function Render(): (v: View)
      reads this
      ensures v.ErrorView? <==> Truthy(error)
    {
      ViewFor(error)
    }
  }

  /** The page mounted with query string `q`, its call settling with `reply`:
      exactly one gateway call and exactly one navigation, and an `error`
      parameter shows its message without preventing the call. */
  method Mount(q: Params, reply: GatewayReply) returns (calls: seq<GatewayCall>, scheduled: seq<Navigation>, view: View)
    ensures calls == [CallFor(q)]
    ensures |scheduled| == 1 && scheduled[0] == Decide(ErrorParamMessage(q), reply).navigation
    ensures scheduled[0].target == HomePath || scheduled[0].target == AuthPath
    ensures view == ViewFor(Decide(ErrorParamMessage(q), reply).message)
    ensures ErrorParamMessage(q).Some? && scheduled[0].target == HomePath ==> view == ErrorView(ErrorParamMessage(q).value)
  {
    var page := new CallbackPage();
    page.ApplyErrorParam(q);
    page.HandleAuthCallback(q, reply);
    calls := page.calls;
    scheduled := page.scheduled;
    view := page.Render();
  }
}
