/** `Whatsapp::IncomingMessageBaileysService#perform`: the verify-token guard, the
    blank guard, the provider-event dispatch, and the choice of a handler method
    named after the event. */
module Baileys {
  import opened Base

  /** The webhook parameters the entry point reads; `data` is the payload hash. */
  datatype Params = Params(webhookVerifyToken: Option<string>, event: Option<string>, data: Option<map<string, string>>)

  datatype Effect =
    | ProviderEventReceived(event: string, payload: map<string, string>, at: int)
    | Invoke(methodName: string)
    | Warn(line: string)

  /** Either the `InvalidWebhookVerifyToken` exception or a normal return with its effects. */
  datatype Outcome = InvalidWebhookVerifyToken | Completed(effects: seq<Effect>)

  predicate IsSeparatorChar(c: char) {
    c == '.' || c == '-'
  }

  /** `event.gsub(/[\.-]/, '_')`: every `.` and `-` becomes `_`. */
  function NormalizeEvent(e: string): (r: string)
    ensures |r| == |e|
    ensures forall i | 0 <= i < |e| :: (IsSeparatorChar(e[i]) ==> r[i] == '_') && (!IsSeparatorChar(e[i]) ==> r[i] == e[i])
  {
    seq(|e|, i requires 0 <= i < |e| => if IsSeparatorChar(e[i]) then '_' else e[i])
  }

  /** A normalised name holds no `.` or `-`, and normalising it again changes nothing. */
  lemma NormalizeEventClean(e: string)
    ensures forall i | 0 <= i < |NormalizeEvent(e)| :: !IsSeparatorChar(NormalizeEvent(e)[i])
    ensures NormalizeEvent(NormalizeEvent(e)) == NormalizeEvent(e)
  {
  }

  /** Two events that differ only in which of `.`, `-` and `_` they use reach the same method. */
  lemma NormalizeEventMerges(e1: string, e2: string)
    requires |e1| == |e2|
    requires forall i | 0 <= i < |e1| ::
               e1[i] == e2[i] || ((IsSeparatorChar(e1[i]) || e1[i] == '_') && (IsSeparatorChar(e2[i]) || e2[i] == '_'))
    ensures NormalizeEvent(e1) == NormalizeEvent(e2)
  {
  }

  const MethodPrefix: string := "process_"

  function HandlerMethod(e: string): (m: string)
    ensures |m| == |MethodPrefix| + |e|
    ensures m[..|MethodPrefix|] == MethodPrefix && m[|MethodPrefix|..] == NormalizeEvent(e)
  {
    MethodPrefix + NormalizeEvent(e)
  }

  /** The handler methods assumed to come from the three included handler modules
      (`ConnectionUpdate`, `MessagesUpsert`, `MessagesUpdate`), named after the events
      they handle; the modules themselves are not part of this model. */
  const IncludedHandlers: set<string> := {"process_connection_update", "process_messages_upsert", "process_messages_update"}

  const UnsupportedEventPrefix: string := "Baileys unsupported event: "

  /** Rails `blank?` on the `data` hash. */
  predicate BlankData(d: Option<map<string, string>>): (b: bool)
    ensures b <==> d == None || d == Some(map[])
  {
    d.None? || |d.value| == 0
  }

  /** `perform`, given the channel's configured token, the methods the service
      responds to, and the current time. */
  function Perform(configuredToken: Option<string>, methods: set<string>, p: Params, now: int): (r: Outcome)
    ensures r.InvalidWebhookVerifyToken? <==> p.webhookVerifyToken != configuredToken
    ensures r.Completed? && (BlankOpt(p.event) || BlankData(p.data)) ==> r.effects == []
    ensures r.Completed? && !BlankOpt(p.event) && !BlankData(p.data) ==>
              && |r.effects| == 2
              && r.effects[0] == ProviderEventReceived(p.event.value, p.data.value, now)
              && (r.effects[1] == Invoke(HandlerMethod(p.event.value)) <==> HandlerMethod(p.event.value) in methods)
              && (r.effects[1] == Warn(UnsupportedEventPrefix + p.event.value) <==> HandlerMethod(p.event.value) !in methods)
  {
    if p.webhookVerifyToken != configuredToken then InvalidWebhookVerifyToken
    else if BlankOpt(p.event) || BlankData(p.data) then Completed([])
    else
      var announced := ProviderEventReceived(p.event.value, p.data.value, now);
      var name := HandlerMethod(p.event.value);
      if name in methods then Completed([announced, Invoke(name)])
      else Completed([announced, Warn(UnsupportedEventPrefix + p.event.value)])
  }

  /** The token is checked first: a wrong token raises even when the event or the data is blank. */
  lemma TokenCheckedFirst(configuredToken: Option<string>, methods: set<string>, p: Params, now: int)
    requires p.webhookVerifyToken != configuredToken
    ensures Perform(configuredToken, methods, p.(event := None), now) == InvalidWebhookVerifyToken
    ensures Perform(configuredToken, methods, p.(data := None), now) == InvalidWebhookVerifyToken
  {
  }

  /** A channel without a configured token accepts only webhooks that carry none. */
  lemma MissingTokenMatchesMissingToken(methods: set<string>, p: Params, now: int)
    ensures Perform(None, methods, p, now).InvalidWebhookVerifyToken? <==> p.webhookVerifyToken.Some?
  {
  }

  /** An event written as two words joined by `.` or `-` is handled by the method
      named after the words joined by `_`. */
  lemma HandlerMethodOfTwoWords(a: string, sep: char, b: string)
    requires IsSeparatorChar(sep)
    requires forall i | 0 <= i < |a| :: !IsSeparatorChar(a[i])
    requires forall i | 0 <= i < |b| :: !IsSeparatorChar(b[i])
    ensures HandlerMethod(a + [sep] + b) == MethodPrefix + a + "_" + b
  {
    var e := a + [sep] + b;
    assert NormalizeEvent(e) == a + "_" + b by {
      forall i | 0 <= i < |e|
        ensures NormalizeEvent(e)[i] == (a + "_" + b)[i]
      {
        if i > |a| {
          assert e[i] == b[i - |a| - 1];
        }
      }
    }
  }

  /** `connection.update` reaches the connection-update handler module. */
  lemma ConnectionUpdateHandled()
    ensures HandlerMethod("connection.update") == "process_connection_update"
  {
    HandlerMethodOfTwoWords("connection", '.', "update");
    assert "connection" + ['.'] + "update" == "connection.update";
    assert MethodPrefix + "connection" + "_" + "update" == "process_connection_update";
  }

  /** `messages.upsert` reaches the messages-upsert handler module. */
  lemma MessagesUpsertHandled()
    ensures HandlerMethod("messages.upsert") == "process_messages_upsert"
  {
    HandlerMethodOfTwoWords("messages", '.', "upsert");
    assert "messages" + ['.'] + "upsert" == "messages.upsert";
    assert MethodPrefix + "messages" + "_" + "upsert" == "process_messages_upsert";
  }

  /** `messages.update` and `messages-update` both reach the messages-update handler module. */
  lemma MessagesUpdateHandled()
    ensures HandlerMethod("messages.update") == "process_messages_update"
    ensures HandlerMethod("messages-update") == "process_messages_update"
  {
    HandlerMethodOfTwoWords("messages", '.', "update");
    HandlerMethodOfTwoWords("messages", '-', "update");
    assert "messages" + ['.'] + "update" == "messages.update";
    assert "messages" + ['-'] + "update" == "messages-update";
    assert MethodPrefix + "messages" + "_" + "update" == "process_messages_update";
  }

  /** With the three handler modules included, each of their events runs its handler
      after the dispatch and logs nothing. */
  lemma IncludedEventsInvokeHandler(configuredToken: Option<string>, methods: set<string>, p: Params, now: int)
    requires p.webhookVerifyToken == configuredToken
    requires IncludedHandlers <= methods
    requires p.event == Some("connection.update") || p.event == Some("messages.upsert")
          || p.event == Some("messages.update") || p.event == Some("messages-update")
    requires !BlankData(p.data)
    ensures Perform(configuredToken, methods, p, now) ==
              Completed([ProviderEventReceived(p.event.value, p.data.value, now), Invoke(HandlerMethod(p.event.value))])
  {
    ConnectionUpdateHandled();
    MessagesUpsertHandled();
    MessagesUpdateHandled();
    assert !IsSpace(p.event.value[0]);
  }
}
