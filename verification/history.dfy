/**
 * The conversation store: the part of the Redis keyspace the bot uses. Each
 * chat's history is one Redis list under the key "userHistory:" followed by
 * the chat id in decimal. The bot reads a whole list (LRANGE key 0 -1),
 * appends to it (RPUSH) and deletes it (DEL); the model gives each of these
 * Redis's own meaning on an in-memory map. Turns are stored as values rather
 * than as their JSON encoding.
 */
module History {
  import opened Types
  import Strconv

  /** The Redis keyspace: key to list. A key that is absent holds no list. */
  type Store = map<string, seq<Message>>

  const KeyPrefix: string := "userHistory:"

  /** The key of one chat's history. */
  function HistoryKey(chatId: int): (k: string)
    ensures |k| > |KeyPrefix| && k[..|KeyPrefix|] == KeyPrefix
  {
    KeyPrefix + Strconv.Itoa(chatId)
  }

  /** The keys the program writes for a few chat ids. */
  lemma HistoryKeyExamples()
    ensures HistoryKey(42) == "userHistory:42"
    ensures HistoryKey(0) == "userHistory:0"
    ensures HistoryKey(-705) == "userHistory:-705"
  {
  }

  /** Different chats never share a history list. */
  lemma HistoryKeyInjective(a: int, b: int)
    ensures HistoryKey(a) == HistoryKey(b) <==> a == b
  {
    if HistoryKey(a) == HistoryKey(b) {
      assert Strconv.Itoa(a) == HistoryKey(a)[|KeyPrefix|..];
      assert Strconv.Itoa(b) == HistoryKey(b)[|KeyPrefix|..];
      Strconv.ItoaInjective(a, b);
    }
  }

  /**
   * Redis LRANGE on a list: negative indexes count from the end, a start
   * before the head is moved to the head, a stop past the tail is moved to
   * the tail, and an empty range gives the empty list.
   */
  function LRange<T>(list: seq<T>, start: int, stop: int): (r: seq<T>)
    ensures |r| <= |list|
    ensures 0 <= start <= stop < |list| ==> r == list[start..stop + 1]
    ensures -|list| <= stop < 0 && 0 <= start <= |list| + stop ==> r == list[start..|list| + stop + 1]
  {
    var n := |list|;
    var lo0 := if start < 0 then start + n else start;
    var hi0 := if stop < 0 then stop + n else stop;
    var lo := if lo0 < 0 then 0 else lo0;
    if lo > hi0 || lo >= n then []
    else
      var hi := if hi0 >= n then n - 1 else hi0;
      list[lo..hi + 1]
  }

  /** LRANGE 0 -1 reads the whole list, in stored order. */
  lemma LRangeWhole<T>(list: seq<T>)
    ensures LRange(list, 0, -1) == list
  {
  }

  /** `getMessagesFromRedis`: a chat's stored turns, oldest first; none if nothing is stored. */
  function Fetch(store: Store, chatId: int): (h: seq<Message>)
    ensures HistoryKey(chatId) in store ==> h == store[HistoryKey(chatId)]
    ensures HistoryKey(chatId) !in store ==> h == []
  {
    var key := HistoryKey(chatId);
    if key in store then LRangeWhole(store[key]); LRange(store[key], 0, -1) else []
  }

  /** Redis RPUSH: the values go to the tail of the list, which is created if absent. */
  function RPush(store: Store, key: string, values: seq<Message>): (r: Store)
    requires |values| > 0
    ensures key in r && r[key] == (if key in store then store[key] else []) + values
    ensures r - {key} == store - {key}
  {
    store[key := (if key in store then store[key] else []) + values]
  }

  /** Redis DEL: the key no longer holds anything. */
  function Del(store: Store, key: string): (r: Store)
    ensures key !in r
    ensures r - {key} == store - {key}
  {
    store - {key}
  }

  /** A change confined to one chat's key leaves every other chat's history as it was. */
  lemma OnlyOwnHistoryChanges(store: Store, store': Store, chatId: int)
    requires store' - {HistoryKey(chatId)} == store - {HistoryKey(chatId)}
    ensures forall other :: other != chatId ==> Fetch(store', other) == Fetch(store, other)
  {
    forall other | other != chatId
      ensures Fetch(store', other) == Fetch(store, other)
    {
      var k := HistoryKey(other);
      HistoryKeyInjective(other, chatId);
      assert k in store' <==> k in store' - {HistoryKey(chatId)};
      assert k in store <==> k in store - {HistoryKey(chatId)};
      if k in store {
        assert store[k] == (store - {HistoryKey(chatId)})[k];
        assert store'[k] == (store' - {HistoryKey(chatId)})[k];
      }
    }
  }

  /** Append turns to a chat's history (RPUSH on its key). */
  function Append(store: Store, chatId: int, turns: seq<Message>): (r: Store)
    requires |turns| > 0
    ensures Fetch(r, chatId) == Fetch(store, chatId) + turns
    ensures forall other :: other != chatId ==> Fetch(r, other) == Fetch(store, other)
    ensures r - {HistoryKey(chatId)} == store - {HistoryKey(chatId)}
  {
    var r := RPush(store, HistoryKey(chatId), turns);
    OnlyOwnHistoryChanges(store, r, chatId);
    r
  }

  /** Forget a chat's history (DEL on its key). */
  function Clear(store: Store, chatId: int): (r: Store)
    ensures Fetch(r, chatId) == []
    ensures forall other :: other != chatId ==> Fetch(r, other) == Fetch(store, other)
    ensures r - {HistoryKey(chatId)} == store - {HistoryKey(chatId)}
  {
    var r := Del(store, HistoryKey(chatId));
    OnlyOwnHistoryChanges(store, r, chatId);
    r
  }

  /** A chat that never stored anything has an empty history. */
  lemma FetchEmptyStore(chatId: int)
    ensures Fetch(map[], chatId) == []
  {
  }
}
