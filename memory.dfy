/** The conversational memory kept in Redis by the products service
    (products-service/src/helpers/redis_helpers.go): a capped, newest-first
    list of past queries per session, rendered with exponentially decaying
    weights, and one string holding the running chat summary. */
module Memory {
  import opened Wrappers
  import opened Text
  import opened AiQuery
  import opened RedisStore

  /** Both keys live for 48 hours. */
  const KeyTtlSeconds: nat := 48 * 60 * 60

  /** `LTRIM key 0 9` keeps at most this many queries. */
  const MaxQueries: nat := 10

  /** The weight of the query at position `rank` of the list: 0.5^rank. */
  function Weight(rank: nat): real {
    if rank == 0 then 1.0 else Weight(rank - 1) / 2.0
  }

  function Pow2(n: nat): nat {
    if n == 0 then 1 else 2 * Pow2(n - 1)
  }

  /** `Weight(rank)` is exactly the reciprocal of 2^rank. */
  lemma {:induction false} WeightIsReciprocal(rank: nat)
    ensures Weight(rank) * Pow2(rank) as real == 1.0
  {
    if rank > 0 {
      WeightIsReciprocal(rank - 1);
      calc {
        Weight(rank) * Pow2(rank) as real;
        (Weight(rank - 1) / 2.0) * (2 * Pow2(rank - 1)) as real;
        Weight(rank - 1) * Pow2(rank - 1) as real;
      }
    }
  }

  /** Older queries weigh strictly less, and every weight is in (0, 1]. */
  lemma {:induction false} WeightDecreasing(rank: nat)
    ensures 0.0 < Weight(rank + 1) < Weight(rank) <= 1.0
  {
    if rank > 0 {
      WeightDecreasing(rank - 1);
    }
  }

  /** One line of the rendered history, `[%.2f] %s\n`; `render` stands for
      Go's `%.2f` formatting of the weight. */
  function HistoryLine(rank: nat, query: string, render: real -> string): string {
    "[" + render(Weight(rank)) + "] " + query + "\n"
  }

  /** The history text for a newest-first list of queries. */
  function DecayedHistory(queries: seq<string>, render: real -> string): string
    decreases |queries|
  {
    if queries == [] then ""
    else DecayedHistory(queries[..|queries| - 1], render) + HistoryLine(|queries| - 1, queries[|queries| - 1], render)
  }

  /** The text is empty exactly when there are no queries. */
  lemma DecayedHistoryEmpty(queries: seq<string>, render: real -> string)
    ensures DecayedHistory(queries, render) == "" <==> queries == []
  {
    if queries != [] {
      var n := |queries| - 1;
      assert HistoryLine(n, queries[n], render)[0] == '[';
    }
  }

  /** The history of the newest `k` queries is a prefix of the full history:
      lines appear in list order, newest first. */
  lemma {:induction false} DecayedHistoryPrefix(queries: seq<string>, k: nat, render: real -> string)
    requires k <= |queries|
    ensures DecayedHistory(queries[..k], render) <= DecayedHistory(queries, render)
    decreases |queries|
  {
    if k < |queries| {
      var init := queries[..|queries| - 1];
      assert init[..k] == queries[..k];
      DecayedHistoryPrefix(init, k, render);
    } else {
      assert queries[..k] == queries;
    }
  }

  /** A non-empty history starts with the newest query at weight 1. */
  lemma NewestLineFirst(queries: seq<string>, render: real -> string)
    requires queries != []
    ensures HistoryLine(0, queries[0], render) <= DecayedHistory(queries, render)
    ensures Weight(0) == 1.0
  {
    DecayedHistoryPrefix(queries, 1, render);
    assert queries[..1][..0] == [];
  }

  /** Reads the session's queries (`LRANGE key 0 -1`) and renders them. A
      read error yields an empty text and the error; a missing or empty list
      yields an empty text and no error. */
  method GetQueriesWithDecay(data: map<string, Entry>, key: string, fault: Option<string>, render: real -> string)
    returns (history: string, err: Option<RedisError>)
    ensures LRangeAll(data, key, fault).Err? ==> history == "" && err == Some(LRangeAll(data, key, fault).error)
    ensures LRangeAll(data, key, fault).Ok? ==>
      err == None && history == DecayedHistory(LRangeAll(data, key, fault).value, render)
  {
    var reply := LRangeAll(data, key, fault);
    if reply.Err? {
      return "", Some(reply.error);
    }
    var queries := reply.value;
    if |queries| == 0 {
      return "", None;
    }
    history := "";
    var i := 0;
    while i < |queries|
      invariant 0 <= i <= |queries|
      invariant history == DecayedHistory(queries[..i], render)
    {
      assert queries[..i + 1][..i] == queries[..i];
      history := history + HistoryLine(i, queries[i], render);
      i := i + 1;
    }
    assert queries[..i] == queries;
    err := None;
  }

  /** Reads the chat summary (`GET key`); a missing key is an empty summary
      and not an error. */
  function GetUserChat(data: map<string, Entry>, key: string, fault: Option<string>): (r: (string, Option<RedisError>))
    ensures r.1 == None <==> fault.None? && (key !in data || data[key].Text?)
    ensures r.1 == None && key in data ==> r.0 == data[key].s
    ensures key !in data && fault.None? ==> r.0 == ""
    ensures r.1 != None ==> r.0 == "" && r.1 != Some(Nil)
    ensures r.1 != None ==> r.1 == Some(Get(data, key, fault).error)
  {
    match Get(data, key, fault)
    case Ok(v) => (v, None)
    case Err(Nil) => ("", None)
    case Err(e) => ("", Some(e))
  }

  /** Stores the chat summary for 48 hours. A failed write is dropped: the
      caller always sees success. */
  method SetUserChat(store: Store, key: string, value: string, fault: Option<string>) returns (err: Option<RedisError>)
    modifies store
    ensures err == None
    ensures store.issued == old(store.issued) + [SetCmd(key, value, KeyTtlSeconds)]
    ensures store.data == if fault.None? then old(store.data)[key := Text(value)] else old(store.data)
    ensures store.ttl == if fault.None? then old(store.ttl)[key := KeyTtlSeconds] else old(store.ttl)
  {
    var _ := store.Set(key, value, KeyTtlSeconds, fault);
    err := None;
  }

  /** What a query list becomes after one successful push and trim. */
  function Pushed(items: seq<string>, query: string): seq<string> {
    var l := [query] + items;
    if |l| <= MaxQueries then l else l[..MaxQueries]
  }

  /** The list held under `key`, empty when there is none. */
  function ListItems(data: map<string, Entry>, key: string): seq<string> {
    if key in data && data[key].List? then data[key].items else []
  }

  /** Whether `LPUSH` goes through: no fault and the key is not a string. */
  predicate PushAccepted(data: map<string, Entry>, key: string, fault: Option<string>) {
    fault.None? && !(key in data && data[key].Text?)
  }

  /** The result of `SetUserQueries`. The trim-failure branch formats the
      push command's error, which is nil there, so Go panics. */
  datatype Outcome = Returned(err: Option<string>) | Panicked

  function PushFailureText(e: RedisError): string {
    "failed to push value to redis: " + ErrorText(e) + " "
  }

  /** Pushes a query to the front of the session list, sets the 48-hour
      expiry (its result ignored), reports a failed push, then trims the
      list to its newest ten entries. */
  method SetUserQueries(store: Store, query: string, key: string,
                        pushFault: Option<string>, expireFault: Option<string>, trimFault: Option<string>)
    returns (outcome: Outcome)
    modifies store
    ensures var pushed := PushAccepted(old(store.data), key, pushFault);
      store.issued == old(store.issued) + [LPushCmd(key, query), ExpireCmd(key, KeyTtlSeconds)]
                      + (if pushed then [LTrimCmd(key, 0, MaxQueries - 1)] else [])
    ensures !PushAccepted(old(store.data), key, pushFault) ==>
      store.data == old(store.data) &&
      outcome == Returned(Some(PushFailureText(if pushFault.Some? then RedisError.Failure(pushFault.value) else WrongType)))
    ensures PushAccepted(old(store.data), key, pushFault) && trimFault.Some? ==>
      outcome == Panicked && store.data == old(store.data)[key := List([query] + ListItems(old(store.data), key))]
    ensures PushAccepted(old(store.data), key, pushFault) && trimFault.None? ==>
      outcome == Returned(None) && store.data == old(store.data)[key := List(Pushed(ListItems(old(store.data), key), query))]
    ensures store.ttl == if expireFault.None? && (PushAccepted(old(store.data), key, pushFault) || key in old(store.data))
                         then old(store.ttl)[key := KeyTtlSeconds] else old(store.ttl)
  {
    ghost var pushedList := [query] + ListItems(store.data, key);
    var pushErr := store.LPush(key, query, pushFault);
    store.Expire(key, KeyTtlSeconds, expireFault);
    if pushErr.Some? {
      return Returned(Some(PushFailureText(pushErr.value)));
    }
    assert pushedList[0..|pushedList|] == pushedList;
    var trimErr := store.LTrim(key, 0, MaxQueries - 1, trimFault);
    if trimErr.Some? {
      return Panicked;
    }
    outcome := Returned(None);
  }

  /** The list after `SetUserQueries` succeeded for each query of `asked`,
      oldest first, starting from no list. */
  function Remembered(asked: seq<string>): seq<string>
    decreases |asked|
  {
    if asked == [] then [] else Pushed(Remembered(asked[..|asked| - 1]), asked[|asked| - 1])
  }

  /** An independent reference: the queries, newest first. */
  function Reversed(s: seq<string>): (r: seq<string>)
    ensures |r| == |s|
    ensures forall i :: 0 <= i < |s| ==> r[i] == s[|s| - 1 - i]
    decreases |s|
  {
    if s == [] then [] else [s[|s| - 1]] + Reversed(s[..|s| - 1])
  }

  /** The stored list holds the ten most recent queries, newest first. */
  lemma {:induction false} RememberedNewestFirst(asked: seq<string>)
    ensures |Remembered(asked)| == if |asked| < MaxQueries then |asked| else MaxQueries
    ensures forall i :: 0 <= i < |Remembered(asked)| ==> Remembered(asked)[i] == asked[|asked| - 1 - i]
    ensures Remembered(asked) == Reversed(asked)[..|Remembered(asked)|]
    decreases |asked|
  {
    if asked != [] {
      RememberedNewestFirst(asked[..|asked| - 1]);
    }
    var r, rev := Remembered(asked), Reversed(asked);
    assert forall i :: 0 <= i < |r| ==> r[i] == rev[i];
  }

  /** After a successful `SetUserQueries`, the rendered history opens with
      the query just stored, at weight 1. */
  lemma JustStoredFirst(data: map<string, Entry>, key: string, query: string, render: real -> string)
    ensures LRangeAll(data[key := List(Pushed(ListItems(data, key), query))], key, None)
         == Ok(Pushed(ListItems(data, key), query))
    ensures HistoryLine(0, query, render) <= DecayedHistory(Pushed(ListItems(data, key), query), render)
  {
    NewestLineFirst(Pushed(ListItems(data, key), query), render);
  }

  /** The queries key: `user_queries:<user>_<org>_<session>`. */
  function QueriesKey(p: AiQueryParams): string {
    "user_queries:" + p.userId + "_" + p.orgId + "_" + p.sessionId
  }

  /** The chat key: `user_chat:<user>_<org>_<session>`. */
  function ChatKey(p: AiQueryParams): string {
    "user_chat:" + p.userId + "_" + p.orgId + "_" + p.sessionId
  }

  /** A queries key never equals a chat key, so the list and the summary
      of any two sessions cannot overwrite each other. */
  lemma KeyFamiliesDisjoint(p: AiQueryParams, p': AiQueryParams)
    ensures QueriesKey(p) != ChatKey(p')
  {
    assert QueriesKey(p)[5] == 'q';
    assert ChatKey(p')[5] == 'c';
  }

  lemma IdsSplit(prefix: string, p: AiQueryParams, p': AiQueryParams)
    requires '_' !in p.userId && '_' !in p'.userId && '_' !in p.orgId && '_' !in p'.orgId
    requires prefix + p.userId + "_" + p.orgId + "_" + p.sessionId == prefix + p'.userId + "_" + p'.orgId + "_" + p'.sessionId
    ensures p.userId == p'.userId && p.orgId == p'.orgId && p.sessionId == p'.sessionId
  {
    var rest, rest' := p.orgId + "_" + p.sessionId, p'.orgId + "_" + p'.sessionId;
    assert prefix + p.userId + "_" + p.orgId + "_" + p.sessionId == prefix + (p.userId + ['_'] + rest);
    assert prefix + p'.userId + "_" + p'.orgId + "_" + p'.sessionId == prefix + (p'.userId + ['_'] + rest');
    StripPrefix(prefix, p.userId + ['_'] + rest, p'.userId + ['_'] + rest');
    SplitAtSeparator(p.userId, rest, p'.userId, rest', '_');
    SplitAtSeparator(p.orgId, p.sessionId, p'.orgId, p'.sessionId, '_');
  }

  /** When user and organisation ids contain no `_`, each session has its
      own queries key and its own chat key. */
  lemma KeysInjective(p: AiQueryParams, p': AiQueryParams)
    requires '_' !in p.userId && '_' !in p'.userId && '_' !in p.orgId && '_' !in p'.orgId
    ensures QueriesKey(p) == QueriesKey(p') ==> p.userId == p'.userId && p.orgId == p'.orgId && p.sessionId == p'.sessionId
    ensures ChatKey(p) == ChatKey(p') ==> p.userId == p'.userId && p.orgId == p'.orgId && p.sessionId == p'.sessionId
  {
    if QueriesKey(p) == QueriesKey(p') {
      IdsSplit("user_queries:", p, p');
    }
    if ChatKey(p) == ChatKey(p') {
      IdsSplit("user_chat:", p, p');
    }
  }

  /** With `_` inside an id, two different sessions share one key. */
  lemma KeysCollideWithSeparatorInIds()
    ensures var p, p' := AiQueryParams("q", "s", "u_o", "x"), AiQueryParams("q", "s", "u", "o_x");
      p != p' && QueriesKey(p) == QueriesKey(p') && ChatKey(p) == ChatKey(p')
  {
  }
}
