/**
  The bot's update loop: every update of the Telegram stream is handled in
  turn, and a decided state change is committed by inserting it into the
  per-user map.
*/
module UpdateLoop {
  import opened Wrappers
  import opened Telegram
  import opened Pocket
  import opened Authorization

  /** Everything the loop changes: the user map, the replies sent and the Pocket calls made, each in order. */
  datatype BotState = BotState(userStates: map<UserId, AuthorizationState>, outbox: seq<Reply>, sent: seq<Call>)

  /** One element of the update stream, with Pocket's behaviour while it is handled. */
  datatype Event = Event(update: Update, pocket: Service)

  function Lookup(states: map<UserId, AuthorizationState>, user: UserId): Option<AuthorizationState>
  {
    if user in states then Some(states[user]) else None
  }

  /**
    One pass of the handler. Anything but a text message changes nothing. For a
    text message, the sender's entry becomes the change `Transition` decides (or
    stays as it was), exactly its replies and calls are appended, and every other
    user keeps its entry; entries only move forward.
  */
  function Step(s: BotState, consumerKey: string, e: Event): (r: BotState)
    ensures !IsTextMessage(e.update) ==> r == s
    ensures forall u :: !SentText(e.update, u) ==> Lookup(r.userStates, u) == Lookup(s.userStates, u)
    ensures Progress(s.userStates, r.userStates)
    ensures s.outbox <= r.outbox && s.sent <= r.sent
    ensures IsTextMessage(e.update) ==>
              var message := e.update.kind.message;
              var outcome := Transition(Lookup(s.userStates, message.from), message, consumerKey, e.pocket);
              && Lookup(r.userStates, message.from)
                   == (if outcome.change.Some? then Some(outcome.change.value.1) else Lookup(s.userStates, message.from))
              && r.outbox == s.outbox + outcome.replies
              && r.sent == s.sent + outcome.calls
  {
    match e.update.kind
    case NewMessage(message) =>
      if message.kind.Text? then
        var outcome := Transition(Lookup(s.userStates, message.from), message, consumerKey, e.pocket);
        var states :=
          match outcome.change
          case Some((user, state)) => s.userStates[user := state]
          case None => s.userStates;
        BotState(states, s.outbox + outcome.replies, s.sent + outcome.calls)
      else s
    case OtherUpdate => s
  }

  /**
    The state after handling `events` in order, starting from `s`. Replies and
    Pocket calls are only appended, never withdrawn or reordered, and no user
    entry is removed.
  */
  function Replay(s: BotState, consumerKey: string, events: seq<Event>): (r: BotState)
    ensures s.outbox <= r.outbox && s.sent <= r.sent
    ensures s.userStates.Keys <= r.userStates.Keys
    decreases |events|
  {
    if events == [] then s
    else Step(Replay(s, consumerKey, events[..|events| - 1]), consumerKey, events[|events| - 1])
  }

  /** Over any stream, no entry is removed and no entry moves backwards; an authorized user stays as it was. */
  lemma {:induction false} ReplayProgress(s: BotState, consumerKey: string, events: seq<Event>)
    ensures Progress(s.userStates, Replay(s, consumerKey, events).userStates)
  {
    if events != [] {
      var mid := Replay(s, consumerKey, events[..|events| - 1]);
      ReplayProgress(s, consumerKey, events[..|events| - 1]);
      ProgressTransitive(s.userStates, mid.userStates, Replay(s, consumerKey, events).userStates);
    }
  }

  /** A user who sent no text message in the stream keeps exactly the entry (or absence of one) it had. */
  lemma {:induction false} ReplayOnlySenders(s: BotState, consumerKey: string, events: seq<Event>, user: UserId)
    requires forall i :: 0 <= i < |events| ==> !SentText(events[i].update, user)
    ensures Lookup(Replay(s, consumerKey, events).userStates, user) == Lookup(s.userStates, user)
  {
    if events != [] {
      ReplayOnlySenders(s, consumerKey, events[..|events| - 1], user);
    }
  }

  /**
    A full handshake for user 42: the first message starts it with code "abc",
    the second confirms "abc" and stores the token; a third only gets "Authorized!".
  */
  lemma HandshakeScenario(consumerKey: string, token: AccessToken)
    ensures
      var first := Message(1, 42, 7, Text("hi"));
      var second := Message(2, 42, 7, Text("done"));
      var third := Message(3, 42, 7, Text("again"));
      var pocket := Service(
        (req: InitialRequest) => Some(Response(200, Some(InitialResponse("abc")))),
        (req: AuthorizationRequest) => if req.code == "abc" then Some(Response(200, Some(token))) else None);
      var events := [Event(Update(10, NewMessage(first)), pocket),
                     Event(Update(11, NewMessage(second)), pocket),
                     Event(Update(12, NewMessage(third)), pocket)];
      Replay(BotState(map[], [], []), consumerKey, events)
        == BotState(map[42 := Authorized(token)],
                    [TextReply(first, AuthorizeLink("abc")), TextReply(first, WaitingText),
                     TextReply(third, AuthorizedText)],
                    [RequestToken(InitialRequest(consumerKey, RedirectUri)),
                     Authorize(AuthorizationRequest(consumerKey, "abc"))])
  {
    var first := Message(1, 42, 7, Text("hi"));
    var second := Message(2, 42, 7, Text("done"));
    var third := Message(3, 42, 7, Text("again"));
    var pocket := Service(
      (req: InitialRequest) => Some(Response(200, Some(InitialResponse("abc")))),
      (req: AuthorizationRequest) => if req.code == "abc" then Some(Response(200, Some(token))) else None);
    var events := [Event(Update(10, NewMessage(first)), pocket),
                   Event(Update(11, NewMessage(second)), pocket),
                   Event(Update(12, NewMessage(third)), pocket)];
    var start := BotState(map[], [], []);
    assert events[..0] == [] && events[..1][..0] == [];
    assert events[..2][..1] == events[..1] && events[..3] == events && events[..3][..2] == events[..2];
    var waiting := BotState(map[42 := WaitingForCallback("abc")],
                            [TextReply(first, AuthorizeLink("abc")), TextReply(first, WaitingText)],
                            [RequestToken(InitialRequest(consumerKey, RedirectUri))]);
    assert Replay(start, consumerKey, events[..1]) == Step(start, consumerKey, events[0]) == waiting;
    var authorized := BotState(map[42 := Authorized(token)], waiting.outbox,
                               waiting.sent + [Authorize(AuthorizationRequest(consumerKey, "abc"))]);
    assert Replay(start, consumerKey, events[..2]) == Step(waiting, consumerKey, events[1]) == authorized;
    assert Replay(start, consumerKey, events) == Step(authorized, consumerKey, events[2]);
  }

  /** The bot: the per-user map, updated in place, and what it has sent so far. */
  class Bot {
    const consumerKey: string
    var userStates: map<UserId, AuthorizationState>
    var outbox: seq<Reply>
    var sent: seq<Call>

    function State(): BotState
      reads this
    {
      BotState(userStates, outbox, sent)
    }

    constructor (consumerKey: string)
      ensures this.consumerKey == consumerKey
      ensures State() == BotState(map[], [], [])
    {
      this.consumerKey := consumerKey;
      userStates := map[];
      outbox := [];
      sent := [];
    }

    /** Handles one update: decide, send the replies, then insert the change keyed by the sender. */
    method HandleUpdate(update: Update, pocket: Service)
      modifies this
      ensures State() == Step(old(State()), consumerKey, Event(update, pocket))
    {
      if update.kind.NewMessage? {
        var message := update.kind.message;
        if message.kind.Text? {
          var outcome := Transition(Lookup(userStates, message.from), message, consumerKey, pocket);
          sent := sent + outcome.calls;
          outbox := outbox + outcome.replies;
          match outcome.change {
            case Some((user, state)) =>
              userStates := userStates[user := state];
            case None =>
          }
        }
      }
    }

    /** Handles the whole stream in order. */
    method Run(events: seq<Event>)
      modifies this
      ensures State() == Replay(old(State()), consumerKey, events)
      ensures Progress(old(userStates), userStates)
    {
      for i := 0 to |events|
        invariant State() == Replay(old(State()), consumerKey, events[..i])
      {
        assert events[..i + 1][..i] == events[..i];
        HandleUpdate(events[i].update, events[i].pocket);
      }
      assert events[..|events|] == events;
      ReplayProgress(old(State()), consumerKey, events);
    }
  }
}
