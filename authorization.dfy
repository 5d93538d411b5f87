/**
  The per-user authorization handshake: what the bot does with one text
  message, given the sender's current state and Pocket's answers.
*/
module Authorization {
  import opened Wrappers
  import opened Telegram
  import opened Pocket

  /** A recorded user is waiting for Pocket's callback, or holds a token. A user without an entry has not started. */
  datatype AuthorizationState = WaitingForCallback(code: string) | Authorized(token: AccessToken)

  const RedirectUri: string := "https://t.me/PocketReminderBot"
  const AuthorizePage: string := "https://getpocket.com/auth/authorize?request_token="
  const RedirectParam: string := "&redirect_uri="
  const AuthorizedText: string := "Authorized!"
  const WaitingText: string := "Waiting for callback!"

  /**
    The page the user opens to approve the request code: the authorize page,
    then the code, then the redirect parameter with the bot's redirect URI.
  */
  function AuthorizeLink(code: string): (link: string)
    ensures |link| == |AuthorizePage| + |code| + |RedirectParam| + |RedirectUri|
    ensures link[..|AuthorizePage|] == AuthorizePage
    ensures link[|AuthorizePage|..|AuthorizePage| + |code|] == code
    ensures link[|link| - |RedirectParam + RedirectUri|..] == RedirectParam + RedirectUri
  {
    AuthorizePage + code + RedirectParam + RedirectUri
  }

  /** The request code an authorize link carries, if `link` has the shape of one. */
  function CodeOfLink(link: string): Option<string>
  {
    var tail := RedirectParam + RedirectUri;
    if |AuthorizePage| + |tail| <= |link|
       && link[..|AuthorizePage|] == AuthorizePage
       && link[|link| - |tail|..] == tail
    then Some(link[|AuthorizePage|..|link| - |tail|])
    else None
  }

  /** The link carries exactly the code it was built from. */
  lemma LinkRoundTrip(code: string)
    ensures CodeOfLink(AuthorizeLink(code)) == Some(code)
  {
  }

  /** Every link the parser accepts is the authorize link of the code it returns. */
  lemma LinkDeterminesCode(link: string, code: string)
    requires CodeOfLink(link) == Some(code)
    ensures AuthorizeLink(code) == link
  {
  }

  /** `after` is one step further in the handshake than `before` (`None`: no entry). */
  predicate Advance(before: Option<AuthorizationState>, after: AuthorizationState)
  {
    match before
    case None => after.WaitingForCallback?
    case Some(WaitingForCallback(_)) => after.Authorized?
    case Some(Authorized(_)) => false
  }

  /**
    Every user recorded in `before` is still recorded in `after`, with the same
    state or a later one; in particular an `Authorized` entry never changes.
  */
  ghost predicate Progress(before: map<UserId, AuthorizationState>, after: map<UserId, AuthorizationState>)
  {
    forall u :: u in before ==> u in after && (after[u] == before[u] || Advance(Some(before[u]), after[u]))
  }

  lemma ProgressTransitive(a: map<UserId, AuthorizationState>, b: map<UserId, AuthorizationState>, c: map<UserId, AuthorizationState>)
    requires Progress(a, b) && Progress(b, c)
    ensures Progress(a, c)
  {
  }

  /**
    What handling one text message decides: the entry to insert (if any),
    the replies sent, in order, and the calls made to Pocket.
  */
  datatype Outcome = Outcome(change: Option<(UserId, AuthorizationState)>, replies: seq<Reply>, calls: seq<Call>)

  /**
    The handshake step for `message`, whose sender currently has state `current`.
    An authorized user only gets "Authorized!". A waiting user's stored code is
    confirmed; the token is kept only from a 200 answer whose body decodes. A new
    user's handshake is started; any answer whose body decodes is taken, whatever
    its status, and the link and the waiting notice are sent. A failure sends
    nothing and records nothing.
  */
  function Transition(current: Option<AuthorizationState>, message: Message, consumerKey: string, pocket: Service): (r: Outcome)
    ensures r.change.Some? ==> r.change.value.0 == message.from && Advance(current, r.change.value.1)
    ensures current.Some? && current.value.Authorized? ==>
              r.change.None? && r.replies == [TextReply(message, AuthorizedText)] && r.calls == []
    ensures current.Some? && current.value.WaitingForCallback? ==>
              var request := AuthorizationRequest(consumerKey, current.value.code);
              var answer := pocket.authorize(request);
              && r.calls == [Authorize(request)]
              && r.replies == []
              && (r.change.Some? <==> answer.Some? && answer.value.status == StatusOk && answer.value.body.Some?)
              && (r.change.Some? ==> r.change.value.1 == Authorized(answer.value.body.value))
    ensures current.None? ==>
              var request := InitialRequest(consumerKey, RedirectUri);
              var answer := pocket.request(request);
              && r.calls == [RequestToken(request)]
              && (r.change.Some? <==> answer.Some? && answer.value.body.Some?)
              && (r.change.None? ==> r.replies == [])
              && (r.change.Some? ==>
                    var code := answer.value.body.value.code;
                    && r.change.value.1 == WaitingForCallback(code)
                    && r.replies == [TextReply(message, AuthorizeLink(code)), TextReply(message, WaitingText)])
  {
    match current
    case Some(Authorized(_)) =>
      Outcome(None, [TextReply(message, AuthorizedText)], [])
    case Some(WaitingForCallback(code)) =>
      var request := AuthorizationRequest(consumerKey, code);
      var change :=
        match pocket.authorize(request)
        case Some(Response(status, body)) =>
          if status == StatusOk then
            match body
            case Some(token) => Some((message.from, Authorized(token)))
            case None => None
          else None
        case None => None;
      Outcome(change, [], [Authorize(request)])
    case None =>
      var request := InitialRequest(consumerKey, RedirectUri);
      match pocket.request(request)
      case Some(Response(_, Some(InitialResponse(code)))) =>
        Outcome(Some((message.from, WaitingForCallback(code))),
                [TextReply(message, AuthorizeLink(code)), TextReply(message, WaitingText)],
                [RequestToken(request)])
      case _ =>
        Outcome(None, [], [RequestToken(request)])
  }
}
