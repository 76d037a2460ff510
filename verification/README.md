# Conversation relay of a Telegram chat bot, modelled in Dafny

The bot receives Telegram updates on a webhook, keeps each chat's
conversation in Redis, forwards the conversation to an OpenAI chat
completion endpoint and sends the first answer back to the chat. Its only
behaviour beyond plumbing is what `handleWebhook` does with one update:

- an update with empty text is ignored: no reply, no store access;
- text that upper-cases to `/START` gets a fixed welcome and touches nothing;
- text that upper-cases to `/CLEAR` deletes the chat's history list and gets a fixed confirmation;
- any other text is relayed: the stored history plus a new user turn goes to
  the completion service; if the service returns at least one choice, the
  user turn and the first choice are pushed onto the history and the choice's
  text is the reply, otherwise a fixed fallback text suggesting `/CLEAR` is
  the reply.

The model is pure. The Redis keyspace is a `map<string, seq<Message>>`; the
history of a chat lives under `"userHistory:"` followed by the chat id in
decimal, exactly as the program builds the key, and the decimal formatting is
modelled digit by digit so that "other chats are untouched" is proved from the
injectivity of the key rather than assumed. The completion service is a
function parameter from request to response, and the result of one webhook
call records the store afterwards, the request handed to the service (if any)
and the reply sent (if any).

Files, one module each:

- `wrappers.dfy` — `Option`.
- `types.dfy` — the `Update`, `Message` and completion response records.
- `strconv.dfy` — `Itoa` and its inverse `ParseInt`.
- `strings.dfy` — `ToUpper`, for the runes that decide command matching.
- `history.dfy` — the store: key scheme, LRANGE, RPUSH, DEL, and the read/append/clear operations built on them.
- `webhook.dfy` — `HandleWebhook`, one lemma per branch, the pairing invariant and runs of several updates.

Two facts about the program shape the model:

- A turn's role is a free string, and the stored answer keeps whatever role
  the service returned. What the program does guarantee, and
  `HandleKeepsPaired` proves, is that every history is a sequence of
  (user turn, answer) pairs whose user turns hold relayed text (never empty,
  never a command).
- A first choice whose text is empty is still sent as the reply.

## Model

| member | source | states |
|---|---|---|
| Strconv.Digits | main.go:163 | the decimal digits of a natural number are non-empty, all digits, with no leading zero unless the number is zero |
| Strconv.Itoa | main.go:163 | the chat id's decimal text starts with a minus sign exactly when the id is negative, every other character is a digit, a negative id has at least one digit after the sign, and there is no leading zero unless the id is zero |
| Strconv.DigitsRoundTrip | main.go:163 | reading the digits back gives the number that was formatted |
| Strconv.ItoaRoundTrip | main.go:163 | reading the decimal text back gives the chat id that was formatted |
| Strconv.ItoaInjective | main.go:114 | two chat ids format to the same text if and only if they are equal |
| Strings.UpperRune | main.go:111 | upper-casing a rune never yields an ASCII lower-case letter, maps a-z onto A-Z and keeps other runes except U+0131 and U+017F |
| Strings.ToUpper | main.go:111 | upper-casing keeps the length and upper-cases each rune in its place |
| Strings.UpperRuneOnto | main.go:111 | the runes that upper-case to an ASCII capital or ASCII symbol are that rune, its lower-case letter, and U+0131 for I or U+017F for S |
| Strings.ToUpperEquals | main.go:111-113 | an upper-cased text equals a command exactly when the lengths agree and each rune upper-cases to the command's rune |
| History.HistoryKey | main.go:163 | every history key begins with the prefix "userHistory:" |
| History.HistoryKeyExamples | main.go:163 | chat 42 is stored under "userHistory:42", chat 0 under "userHistory:0" and chat -705 under "userHistory:-705" |
| History.HistoryKeyInjective | main.go:114 | two chats share a history key if and only if they are the same chat |
| History.LRange | main.go:163 | LRANGE returns at most the list; for indexes inside the list it is exactly the slice between them, and a negative stop counts from the tail, so a stop of -1 reaches the last element |
| History.LRangeWhole | main.go:163 | LRANGE 0 -1 returns the whole list in stored order, including the empty list |
| History.Fetch | main.go:162-170 | a chat's history is the list stored under its key, oldest first, or empty when the key holds nothing |
| History.FetchEmptyStore | main.go:162-170 | a chat that never stored anything has an empty history |
| History.RPush | main.go:128 | RPUSH puts the values at the tail of the key's list, creating it if absent, and no other key changes |
| History.Del | main.go:114 | DEL removes the key and no other key changes |
| History.OnlyOwnHistoryChanges | main.go:114 | a change confined to one chat's key leaves every other chat's history unchanged |
| History.Append | main.go:128 | appending makes the chat's history the old history followed by the turns, and no other chat's history changes |
| History.Clear | main.go:114 | clearing makes the chat's history empty whatever it held, and no other chat's history changes |
| Webhook.HandleWebhook | main.go:100-136 | exactly one reply is sent when the text is non-empty and none otherwise, always to the originating chat; the completion service is called exactly for relayed text; only the originating chat's key can change |
| Webhook.EmptyTextIsSilent | main.go:107-109 | empty text leaves the store as it was, calls no service and sends no reply |
| Webhook.StartSpellings | main.go:111 | the start command is exactly six runes: a slash, then s (or long s), t, a, r, t in any case |
| Webhook.ClearSpellings | main.go:113 | the clear command is exactly six runes: a slash, then c, l, e, a, r in any case |
| Webhook.StartWelcomes | main.go:111-112 | the start command leaves the store as it was, calls no service and replies with the welcome text |
| Webhook.ClearForgets | main.go:113-115 | the clear command empties the chat's history, calls no service and replies with the confirmation text |
| Webhook.CommandsMatchWholeText | main.go:111-118 | non-empty text of any length other than six runes, such as a command followed by more text, is relayed with the stored history as a user message |
| Webhook.RelayedRequest | main.go:118-122 | relayed text sends the completion service the stored history in stored order followed by the user turn with that text |
| Webhook.RelayedAnswer | main.go:124-128 | with at least one choice the history becomes the old history, the user turn, then the first choice, and the reply is the first choice's text |
| Webhook.RelayedFallback | main.go:129-131 | with no choice the store is unchanged and the reply is the fallback text |
| Webhook.CompletionSeesOnlyRequest | main.go:122 | the outcome depends on the completion service only through its answer to that one request |
| Webhook.PairedAppend | main.go:128 | pushing a relayed user turn and an answer onto a paired history keeps it paired |
| Webhook.HandleKeepsPaired | main.go:107-134 | if every history is (user turn, answer) pairs with relayed user text, it stays so after any update |
| Webhook.EmptyStorePaired | main.go:162-170 | a store with no lists holds only paired histories |
| Webhook.RunKeepsPaired | main.go:100-136 | any sequence of updates keeps every history paired |
| Webhook.RunAppendOnly | main.go:113-131 | as long as a chat sends no clear command, its earlier history stays a prefix of its history |
| Webhook.RunOtherChats | main.go:114-128 | updates from other chats never change a chat's history |

## Left out

- The HTTP server, routing and startup (`main`, main.go:59-81), environment and credential loading, and webhook registration (`setTelegramWebhook`): configuration and I/O.
- Sending the reply (`sendTelegramRequest`, `sendTelegramMessage`) and the request logging: the reply is an output value. An HTTP error status from Telegram is ignored by the program; a transport failure makes it crash (see the crash paths below).
- The OpenAI call (`callOpenAiApi`): the service is a function parameter from the message list to the parsed response; the model name, headers and logging are not modelled. An HTTP error status or a body that does not decode yields a response with no choices, which the fallback branch covers; a transport failure makes the handler crash before any reply or push (see the crash paths below).
- JSON encoding and decoding of the webhook body, the request, the response and the stored turns: turns are stored as values. Go's decoder skips a field whose value does not fit its type and still fills the others, and the handler ignores the error; an update without a string `text` (a non-text message, a field of the wrong type, or a body that is not JSON) leaves the text empty, which the empty-text branch covers.
- Redis connection handling, errors, and lists stored under a key of another type; the store is always available.
- Concurrency: two updates for one chat may interleave their read and append; the model handles updates one at a time.
- Crash paths from ignored errors: when an HTTP call to OpenAI (main.go:150-152) or to Telegram (main.go:96-97) fails at the transport level, the nil response is dereferenced and the handler panics; for the OpenAI call this happens before any reply is sent or any turn is pushed.
- Strings.UpperRune: non-ASCII lower-case letters other than U+0131 and U+017F are kept as they are, where Go's `strings.ToUpper` maps them to their non-ASCII capitals; this never changes whether a text upper-cases to "/START" or "/CLEAR", which is all the handler asks.
- Strings.ToUpper: works on runes; invalid UTF-8 bytes in a Go string have no counterpart.
- Chat ids outside the 64-bit range cannot be built; the model assumes a 64-bit platform. On a 32-bit build, Go's `int` is 32 bits wide and a supergroup id such as -1001234567890 does not fit either. Go's decoder leaves such an id at 0 and the handler goes on with chat 0 (key "userHistory:0", reply to chat 0); the model covers that as an update whose chat id is 0.
