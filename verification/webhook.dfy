/**
 * The webhook handler: one inbound update in, the store afterwards and at
 * most one outbound reply out. The completion service is a parameter
 * (request to response), so the model can say exactly what it was asked and
 * how its answer is used; the reply stands for the sendMessage call.
 */
module Webhook {
  import opened Wrappers
  import opened Types
  import opened History
  import opened Strings

  const StartCommand: string := "/START"
  const ClearCommand: string := "/CLEAR"
  const WelcomeText: string := "Welcome, You can start chatting with Haj Jipit."
  const ClearedText: string := "Conversation cleared."
  const FallbackText: string :=
    "There was a problem processing your message. Maybe it's because of number of tokens. Try to /CLEAR your conversation history."
  const UserRole: string := "user"

  /** The outbound sendMessage call: the chat addressed and the text sent. */
  datatype Reply = Reply(chatId: Int64, text: string)

  /**
   * The effect of one webhook call: the store afterwards, the message list
   * handed to the completion service (if it was called) and the reply sent
   * (if any).
   */
  datatype Outcome = Outcome(store: Store, request: Option<seq<Message>>, reply: Option<Reply>)

  /** The completion service as one call sees it. */
  type Completion = seq<Message> -> CompletionResponse

  /** The text upper-cases to "/START": the whole text, in any letter case. */
  predicate IsStart(text: string) {
    ToUpper(text) == StartCommand
  }

  /** The text upper-cases to "/CLEAR". */
  predicate IsClear(text: string) {
    ToUpper(text) == ClearCommand
  }

  /** Text that the handler relays to the completion service. */
  predicate IsRelayed(text: string) {
    text != "" && !IsStart(text) && !IsClear(text)
  }

  /** `handleWebhook`. */
  function HandleWebhook(store: Store, update: Update, complete: Completion): (r: Outcome)
    ensures r.reply.Some? <==> update.message.text != ""
    ensures r.reply.Some? ==> r.reply.value.chatId == update.message.chat.id
    ensures r.request.Some? <==> IsRelayed(update.message.text)
    ensures r.store - {HistoryKey(update.message.chat.id)} == store - {HistoryKey(update.message.chat.id)}
    ensures forall other :: other != update.message.chat.id ==> Fetch(r.store, other) == Fetch(store, other)
  {
    var chatId := update.message.chat.id;
    var text := update.message.text;
    if text == "" then
      Outcome(store, None, None)
    else if IsStart(text) then
      Outcome(store, None, Some(Reply(chatId, WelcomeText)))
    else if IsClear(text) then
      Outcome(Clear(store, chatId), None, Some(Reply(chatId, ClearedText)))
    else
      var userTurn := Message(UserRole, text);
      var request := Fetch(store, chatId) + [userTurn];
      var response := complete(request);
      if |response.choices| > 0 then
        var answer := response.choices[0].message;
        Outcome(Append(store, chatId, [userTurn, answer]), Some(request), Some(Reply(chatId, answer.content)))
      else
        Outcome(store, Some(request), Some(Reply(chatId, FallbackText)))
  }

  /** An update without text changes nothing, calls nothing and sends nothing. */
  lemma EmptyTextIsSilent(store: Store, update: Update, complete: Completion)
    requires update.message.text == ""
    ensures HandleWebhook(store, update, complete) == Outcome(store, None, None)
  {
  }

  /** The start command is "/" then s, t, a, r, t in either case, with long s for s; nothing more. */
  lemma StartSpellings(text: string)
    ensures IsStart(text) <==>
              && |text| == 6
              && text[0] == '/'
              && text[1] in {'s', 'S', LongS}
              && text[2] in {'t', 'T'}
              && text[3] in {'a', 'A'}
              && text[4] in {'r', 'R'}
              && text[5] in {'t', 'T'}
  {
    ToUpperEquals(text, StartCommand);
    if |text| == 6 {
      UpperRuneOnto(text[0], '/');
      UpperRuneOnto(text[1], 'S');
      UpperRuneOnto(text[2], 'T');
      UpperRuneOnto(text[3], 'A');
      UpperRuneOnto(text[4], 'R');
      UpperRuneOnto(text[5], 'T');
    }
  }

  /** The clear command is "/" then c, l, e, a, r in either case; nothing more. */
  lemma ClearSpellings(text: string)
    ensures IsClear(text) <==>
              && |text| == 6
              && text[0] == '/'
              && text[1] in {'c', 'C'}
              && text[2] in {'l', 'L'}
              && text[3] in {'e', 'E'}
              && text[4] in {'a', 'A'}
              && text[5] in {'r', 'R'}
  {
    ToUpperEquals(text, ClearCommand);
    if |text| == 6 {
      UpperRuneOnto(text[0], '/');
      UpperRuneOnto(text[1], 'C');
      UpperRuneOnto(text[2], 'L');
      UpperRuneOnto(text[3], 'E');
      UpperRuneOnto(text[4], 'A');
      UpperRuneOnto(text[5], 'R');
    }
  }

  /** "/start" welcomes and leaves the store alone; the completion service is not called. */
  lemma StartWelcomes(store: Store, update: Update, complete: Completion)
    requires IsStart(update.message.text)
    ensures HandleWebhook(store, update, complete)
            == Outcome(store, None, Some(Reply(update.message.chat.id, WelcomeText)))
  {
  }

  /** "/clear" empties the chat's history, whatever it held, and confirms. */
  lemma ClearForgets(store: Store, update: Update, complete: Completion)
    requires IsClear(update.message.text)
    ensures var r := HandleWebhook(store, update, complete);
            && Fetch(r.store, update.message.chat.id) == []
            && r.request == None
            && r.reply == Some(Reply(update.message.chat.id, ClearedText))
  {
  }

  /** Only the whole text is matched: longer or shorter text, such as a command with more after it, is relayed. */
  lemma CommandsMatchWholeText(store: Store, update: Update, complete: Completion)
    requires update.message.text != "" && |update.message.text| != 6
    ensures HandleWebhook(store, update, complete).request
            == Some(Fetch(store, update.message.chat.id) + [Message(UserRole, update.message.text)])
  {
  }

  /** The completion service gets the stored history, oldest first, then the new user turn. */
  lemma RelayedRequest(store: Store, update: Update, complete: Completion)
    requires IsRelayed(update.message.text)
    ensures HandleWebhook(store, update, complete).request
            == Some(Fetch(store, update.message.chat.id) + [Message(UserRole, update.message.text)])
  {
  }

  /** With at least one choice: user turn then the first choice are appended, and the choice's text is the reply. */
  lemma RelayedAnswer(store: Store, update: Update, complete: Completion)
    requires IsRelayed(update.message.text)
    requires |complete(Fetch(store, update.message.chat.id) + [Message(UserRole, update.message.text)]).choices| > 0
    ensures var chatId := update.message.chat.id;
            var userTurn := Message(UserRole, update.message.text);
            var answer := complete(Fetch(store, chatId) + [userTurn]).choices[0].message;
            var r := HandleWebhook(store, update, complete);
            && Fetch(r.store, chatId) == Fetch(store, chatId) + [userTurn, answer]
            && r.reply == Some(Reply(chatId, answer.content))
  {
  }

  /** With no choice: the history is untouched and the fallback text is the reply. */
  lemma RelayedFallback(store: Store, update: Update, complete: Completion)
    requires IsRelayed(update.message.text)
    requires |complete(Fetch(store, update.message.chat.id) + [Message(UserRole, update.message.text)]).choices| == 0
    ensures var r := HandleWebhook(store, update, complete);
            && r.store == store
            && r.reply == Some(Reply(update.message.chat.id, FallbackText))
  {
  }

  /** The handler consults the completion service on its request and nowhere else. */
  lemma CompletionSeesOnlyRequest(store: Store, update: Update, f: Completion, g: Completion)
    requires f(Fetch(store, update.message.chat.id) + [Message(UserRole, update.message.text)])
             == g(Fetch(store, update.message.chat.id) + [Message(UserRole, update.message.text)])
    ensures HandleWebhook(store, update, f) == HandleWebhook(store, update, g)
  {
  }

  /**
   * A history the handler can build: (user turn, answer) pairs, each user turn
   * holding relayed text. The answer's role is whatever the service returned.
   */
  predicate Paired(h: seq<Message>) {
    && |h| % 2 == 0
    && forall i :: 0 <= i < |h| && i % 2 == 0 ==> h[i].role == UserRole && IsRelayed(h[i].content)
  }

  /** Every chat's history is paired. */
  ghost predicate AllPaired(store: Store) {
    forall chatId :: Paired(Fetch(store, chatId))
  }

  lemma PairedAppend(h: seq<Message>, userTurn: Message, answer: Message)
    requires Paired(h)
    requires userTurn.role == UserRole && IsRelayed(userTurn.content)
    ensures Paired(h + [userTurn, answer])
  {
    var h' := h + [userTurn, answer];
    forall i | 0 <= i < |h'| && i % 2 == 0
      ensures h'[i].role == UserRole && IsRelayed(h'[i].content)
    {
      if i < |h| {
        assert h'[i] == h[i];
      } else {
        assert i == |h|;
      }
    }
  }

  /** One webhook call keeps every history paired. */
  lemma HandleKeepsPaired(store: Store, update: Update, complete: Completion)
    requires AllPaired(store)
    ensures AllPaired(HandleWebhook(store, update, complete).store)
  {
    var r := HandleWebhook(store, update, complete);
    var chatId := update.message.chat.id;
    forall c
      ensures Paired(Fetch(r.store, c))
    {
      if c != chatId {
        assert Paired(Fetch(store, c));
      } else if IsRelayed(update.message.text) {
        var userTurn := Message(UserRole, update.message.text);
        var response := complete(Fetch(store, chatId) + [userTurn]);
        assert Paired(Fetch(store, chatId));
        if |response.choices| > 0 {
          PairedAppend(Fetch(store, chatId), userTurn, response.choices[0].message);
        }
      } else {
        assert Paired(Fetch(store, c));
      }
    }
  }

  /** One inbound update together with the completion service's behaviour at that moment. */
  datatype Delivery = Delivery(update: Update, complete: Completion)

  /** Handle a sequence of updates one after another. */
  function Run(store: Store, trace: seq<Delivery>): Store
    decreases |trace|
  {
    if trace == [] then store
    else Run(HandleWebhook(store, trace[0].update, trace[0].complete).store, trace[1..])
  }

  /** The empty store is paired: no chat has any history. */
  lemma EmptyStorePaired()
    ensures AllPaired(map[])
  {
  }

  /** From a paired store (the empty one, say), every history stays paired whatever arrives. */
  lemma {:induction false} RunKeepsPaired(store: Store, trace: seq<Delivery>)
    requires AllPaired(store)
    ensures AllPaired(Run(store, trace))
    decreases |trace|
  {
    if trace != [] {
      HandleKeepsPaired(store, trace[0].update, trace[0].complete);
      RunKeepsPaired(HandleWebhook(store, trace[0].update, trace[0].complete).store, trace[1..]);
    }
  }

  /** Until a chat sends the clear command, its history only grows at the end. */
  lemma {:induction false} RunAppendOnly(store: Store, trace: seq<Delivery>, chatId: Int64)
    requires forall j :: 0 <= j < |trace| ==>
               !(trace[j].update.message.chat.id == chatId && IsClear(trace[j].update.message.text))
    ensures Fetch(store, chatId) <= Fetch(Run(store, trace), chatId)
    decreases |trace|
  {
    if trace != [] {
      var d := trace[0];
      var next := HandleWebhook(store, d.update, d.complete).store;
      assert Fetch(store, chatId) <= Fetch(next, chatId) by {
        if d.update.message.chat.id == chatId && IsRelayed(d.update.message.text) {
          var userTurn := Message(UserRole, d.update.message.text);
          var response := d.complete(Fetch(store, chatId) + [userTurn]);
          if |response.choices| > 0 {
            assert Fetch(next, chatId) == Fetch(store, chatId) + [userTurn, response.choices[0].message];
          }
        }
      }
      assert forall j :: 0 <= j < |trace[1..]| ==> trace[1..][j] == trace[j + 1];
      RunAppendOnly(next, trace[1..], chatId);
    }
  }

  /** Updates from other chats never touch a chat's history. */
  lemma {:induction false} RunOtherChats(store: Store, trace: seq<Delivery>, chatId: Int64)
    requires forall j :: 0 <= j < |trace| ==> trace[j].update.message.chat.id != chatId
    ensures Fetch(Run(store, trace), chatId) == Fetch(store, chatId)
    decreases |trace|
  {
    if trace != [] {
      var next := HandleWebhook(store, trace[0].update, trace[0].complete).store;
      assert forall j :: 0 <= j < |trace[1..]| ==> trace[1..][j] == trace[j + 1];
      RunOtherChats(next, trace[1..], chatId);
    }
  }
}
