/** server.js: the chat history store and the chat turn.

    History lives in a Redis list per session, under the key `chat:{sessionId}`.
    When Redis cannot be reached at start-up, an in-memory stand-in with the same
    list operations is installed, but the `redisConnected` flag is left false, and
    every history access is guarded by that flag: without Redis nothing is ever
    stored or read back. Both the Redis server and the stand-in are modelled by
    ListStore; stored messages are the message records themselves (the JSON
    encoding is a round trip). Store failures of a reachable Redis are inputs. */
module Server {
  import opened Base
  import opened Documents
  import SimpleNews
  import SimpleRag

  datatype Role = User | Assistant | ErrorRole

  /** `{role, content, sources?, timestamp}`; an assistant reply can be `undefined`. */
  datatype ChatMessage = ChatMessage(role: Role, content: Reply, sources: Option<seq<string>>, timestamp: string)

  /** What the socket emits: a `receive_message` with a message, or an `error` with text. */
  datatype Event = ReceiveMessage(message: ChatMessage) | ErrorEvent(text: string)

  /** Which store write of a turn fails, if any (only a reachable Redis can fail). */
  datatype StoreFault = NoFault | UserPushFails | AssistantPushFails

  const MissingInput := "Missing message or sessionId"
  const TurnFailure := "Sorry, I encountered an error processing your request. Please try again."
  const ClearedMessage := "Chat history cleared"

  /** `chat:${sessionId}` */
  function SessionKey(sessionId: string): (key: string)
    ensures |key| == |sessionId| + 5 && key[..5] == "chat:" && key[5..] == sessionId
  {
    "chat:" + sessionId
  }

  /** Two sessions never share a history list. */
  lemma SessionKeysDistinct(a: string, b: string)
    requires a != b
    ensures SessionKey(a) != SessionKey(b)
  {
    assert SessionKey(a)[5..] != SessionKey(b)[5..];
  }

  /** A message or session id is truthy when it is present and not empty. */
  predicate Truthy(v: Option<string>) {
    v.Some? && v.value != ""
  }

  /** A key-to-list store with the three list commands the server uses. */
  class ListStore {
    var lists: map<string, seq<ChatMessage>>

    constructor (initial: map<string, seq<ChatMessage>>)
      ensures lists == initial
    {
      lists := initial;
    }

    /** The list under key, or the empty list for an unknown key. */
    function Items(key: string): seq<ChatMessage>
      reads this
    {
      if key in lists then lists[key] else []
    }

    /** `lPush(key, value)`: value goes to the front of the list (created when absent);
        the result is the new length. */
    method LPush(key: string, value: ChatMessage) returns (length: nat)
      modifies this
      ensures lists == old(lists)[key := [value] + old(Items(key))]
      ensures Items(key)[0] == value && Items(key)[1..] == old(Items(key))
      ensures length == |old(Items(key))| + 1 == |Items(key)|
    {
      lists := lists[key := [value] + Items(key)];
      length := |lists[key]|;
    }

    /** `lRange(key, start, stop)`: the bounds are ignored and the whole list is returned. */
    method LRange(key: string, start: int, stop: int) returns (items: seq<ChatMessage>)
      ensures key in lists ==> items == lists[key]
      ensures key !in lists ==> items == []
    {
      items := Items(key);
    }

    /** `del(key)`: the key is removed, so the list reads back empty, and the result is 1. */
    method Del(key: string) returns (removed: nat)
      modifies this
      ensures lists == old(lists) - {key}
      ensures Items(key) == []
      ensures removed == 1
    {
      lists := lists - {key};
      removed := 1;
    }
  }

  /** The list after pushing msgs, in order, to the front of list. */
  function PushAll(list: seq<ChatMessage>, msgs: seq<ChatMessage>): seq<ChatMessage>
    decreases |msgs|
  {
    if msgs == [] then list else PushAll([msgs[0]] + list, msgs[1..])
  }

  /** Reading a list back reversed lists the pushed messages oldest first, after
      whatever the list held before. */
  lemma {:induction false} ReversedPushesArePushOrder(list: seq<ChatMessage>, msgs: seq<ChatMessage>)
    ensures Reverse(PushAll(list, msgs)) == Reverse(list) + msgs
    decreases |msgs|
  {
    if msgs != [] {
      ReversedPushesArePushOrder([msgs[0]] + list, msgs[1..]);
      ReverseAppend([msgs[0]], list);
      assert Reverse([msgs[0]]) == [msgs[0]];
      assert [msgs[0]] + msgs[1..] == msgs;
    }
  }

  /** The assistant message carrying a query result. */
  function AssistantMessage(result: QueryResult, timestamp: string): ChatMessage {
    ChatMessage(Assistant, result.response, Some(result.sources), timestamp)
  }

  /** The list stored under key in a store's contents, empty when absent. */
  function Stored(lists: map<string, seq<ChatMessage>>, key: string): seq<ChatMessage> {
    if key in lists then lists[key] else []
  }

  /** The emitted events and the store contents after a validated turn, by whether
      Redis is connected and which write fails. */
  ghost predicate TurnOutcome(connected: bool, fault: StoreFault,
                              before: map<string, seq<ChatMessage>>, after: map<string, seq<ChatMessage>>,
                              events: seq<Event>, key: string,
                              user: ChatMessage, assistant: ChatMessage, failure: ChatMessage)
  {
    if !connected then
      events == [ReceiveMessage(user), ReceiveMessage(assistant)] && after == before
    else
      match fault
      case NoFault =>
        events == [ReceiveMessage(user), ReceiveMessage(assistant)] &&
        after == before[key := [assistant, user] + Stored(before, key)]
      case UserPushFails =>
        events == [ReceiveMessage(failure)] && after == before
      case AssistantPushFails =>
        events == [ReceiveMessage(user), ReceiveMessage(failure)] &&
        after == before[key := [user] + Stored(before, key)]
  }

  /** A completed turn with Redis adds the user message, then the assistant message, to
      the end of the history as `GET /api/chat/history` reads it, and leaves every
      other session alone. */
  lemma CompletedTurnExtendsHistory(before: map<string, seq<ChatMessage>>, after: map<string, seq<ChatMessage>>,
                                    events: seq<Event>, key: string,
                                    user: ChatMessage, assistant: ChatMessage, failure: ChatMessage)
    requires TurnOutcome(true, NoFault, before, after, events, key, user, assistant, failure)
    ensures Reverse(Stored(after, key)) == Reverse(Stored(before, key)) + [user, assistant]
    ensures forall k :: k != key ==> Stored(after, k) == Stored(before, k)
  {
    var list := Stored(before, key);
    ReversedPushesArePushOrder(list, [user, assistant]);
    assert PushAll(list, [user, assistant]) == PushAll([user] + list, [assistant]);
    assert [user, assistant][1..] == [assistant];
    assert [assistant] + ([user] + list) == [assistant, user] + list;
  }

  /** A failed write ends the turn with the error message, which is never stored: a
      failed user write stores nothing, a failed assistant write keeps the user message. */
  lemma FailedTurnStoresNoFailure(fault: StoreFault, before: map<string, seq<ChatMessage>>,
                                  after: map<string, seq<ChatMessage>>, events: seq<Event>, key: string,
                                  user: ChatMessage, assistant: ChatMessage, failure: ChatMessage)
    requires fault != NoFault
    requires TurnOutcome(true, fault, before, after, events, key, user, assistant, failure)
    ensures events[|events| - 1] == ReceiveMessage(failure)
    ensures fault == UserPushFails ==> after == before
    ensures fault == AssistantPushFails ==> Stored(after, key) == [user] + Stored(before, key)
  {
  }

  class ChatServer {
    var redisConnected: bool
    const redisClient: ListStore
    const memoryStore: ListStore
    const newsFetcher: SimpleNews.SimpleNewsFetcher
    const geminiApiKey: Option<string>

    /** Start-up: the stand-in store, the Redis connection (its contents when reachable),
        and the news fetch. feeds are the outcomes of the five feed requests; apiKey is
        `process.env.GEMINI_API_KEY`. */
    constructor (redisReachable: bool, redisContents: map<string, seq<ChatMessage>>,
                 feeds: seq<SimpleNews.FeedOutcome>, apiKey: Option<string>)
      requires |feeds| == |SimpleNews.RssFeeds|
      ensures redisConnected == redisReachable
      ensures fresh(memoryStore) && memoryStore.lists == map[]
      ensures redisReachable ==> fresh(redisClient) && redisClient != memoryStore && redisClient.lists == redisContents
      ensures !redisReachable ==> redisClient == memoryStore
      ensures fresh(newsFetcher) && newsFetcher.articles == SimpleNews.Collect(SimpleNews.RssFeeds, feeds)
      ensures geminiApiKey == apiKey
    {
      var store := new ListStore(map[]);
      var fetcher := new SimpleNews.SimpleNewsFetcher();
      var report := fetcher.ProcessAndStoreArticles(feeds);
      memoryStore := store;
      newsFetcher := fetcher;
      geminiApiKey := apiKey;
      if redisReachable {
        redisClient := new ListStore(redisContents);
        redisConnected := true;
      } else {
        redisClient := store;
        redisConnected := false;
      }
    }

    /** The Redis client's `error` event clears the flag. */
    method OnRedisError()
      modifies this
      ensures !redisConnected
    {
      redisConnected := false;
    }

    /** `GET /api/health`: the `redis` field. */
    function RedisStatus(): (status: string)
      reads this
      ensures status == "connected" <==> redisConnected
    {
      if redisConnected then "connected" else "disconnected"
    }

    /** `GET /api/chat/history/:sessionId`: the session's list read back reversed when
        connected; `[]` when not connected or when the read fails. */
    method GetHistory(sessionId: string, readFails: bool) returns (history: seq<ChatMessage>)
      ensures redisConnected && !readFails ==> history == Reverse(redisClient.Items(SessionKey(sessionId)))
      ensures !redisConnected || readFails ==> history == []
    {
      history := [];
      if redisConnected {
        if readFails {
          return;
        }
        var items := redisClient.LRange(SessionKey(sessionId), 0, -1);
        history := Reverse(items);
      }
    }

    /** `DELETE /api/chat/history/:sessionId`: the session's list is removed when
        connected and the delete succeeds; the reply is the same in every case. */
    method ClearHistory(sessionId: string, deleteFails: bool) returns (message: string)
      modifies redisClient
      ensures message == ClearedMessage
      ensures redisConnected && !deleteFails ==>
                redisClient.lists == old(redisClient.lists) - {SessionKey(sessionId)}
      ensures !redisConnected || deleteFails ==> redisClient.lists == old(redisClient.lists)
    {
      if redisConnected && !deleteFails {
        var removed := redisClient.Del(SessionKey(sessionId));
      }
      message := ClearedMessage;
    }

    /** `send_message`: validate, then run the turn. The answer depends only on the
        fetched articles, the question and the generator, never on the store, so it is
        computed here and handed to the turn. */
    method SendMessage(message: Option<string>, sessionId: Option<string>, gemini: Prompt -> GeminiOutcome,
                       fault: StoreFault, userTime: string, replyTime: string, errorTime: string)
      returns (events: seq<Event>)
      modifies redisClient
      ensures !Truthy(message) || !Truthy(sessionId) ==>
                events == [ErrorEvent(MissingInput)] && redisClient.lists == old(redisClient.lists)
      ensures Truthy(message) && Truthy(sessionId) ==>
                TurnOutcome(redisConnected, fault, old(redisClient.lists), redisClient.lists, events,
                            SessionKey(sessionId.value),
                            ChatMessage(User, Text(message.value), None, userTime),
                            AssistantMessage(SimpleRag.ProcessQuery(newsFetcher.articles, message.value, geminiApiKey, gemini),
                                             replyTime),
                            ChatMessage(ErrorRole, Text(TurnFailure), None, errorTime))
    {
      if !Truthy(message) || !Truthy(sessionId) {
        events := [ErrorEvent(MissingInput)];
        return;
      }
      var user := ChatMessage(User, Text(message.value), None, userTime);
      var result := SimpleRag.ProcessQuery(newsFetcher.articles, message.value, geminiApiKey, gemini);
      var failure := ChatMessage(ErrorRole, Text(TurnFailure), None, errorTime);
      events := Turn(SessionKey(sessionId.value), user, AssistantMessage(result, replyTime), failure, fault);
    }

    /** The validated turn: store and emit the user message, then store and emit the
        assistant message. A failed store write ends the turn with one error-role
        message, which is never stored; a user message stored before the failure stays
        stored. Without Redis nothing is written and no write can fail. */
    method Turn(key: string, user: ChatMessage, assistant: ChatMessage, failure: ChatMessage, fault: StoreFault)
      returns (events: seq<Event>)
      modifies redisClient
      ensures TurnOutcome(redisConnected, fault, old(redisClient.lists), redisClient.lists, events,
                          key, user, assistant, failure)
    {
      if redisConnected {
        if fault == UserPushFails {
          events := [ReceiveMessage(failure)];
          return;
        }
        var length := redisClient.LPush(key, user);
      }
      events := [ReceiveMessage(user)];
      if redisConnected {
        if fault == AssistantPushFails {
          events := events + [ReceiveMessage(failure)];
          return;
        }
        ghost var stored := old(redisClient.Items(key));
        var length := redisClient.LPush(key, assistant);
        assert [assistant] + ([user] + stored) == [assistant, user] + stored;
      }
      events := events + [ReceiveMessage(assistant)];
    }
  }
}
