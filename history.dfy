/**
 * The chat history page (src/app/history/page.tsx): the stored messages of
 * the signed-in user, shown newest first, behind a loading screen and an
 * error screen. Firestore timestamps are modelled as integers; the
 * subscription, the router and date formatting are left to the caller.
 */
module History {
  import opened Wrappers
  import opened ChatInterface

  /** A stored chat message: a transcript message without its id, plus the time it was written. */
  datatype StoredMessage = StoredMessage(role: Role, content: string, timestamp: int)

  predicate NewestFirst(s: seq<StoredMessage>)
  {
    forall i, j :: 0 <= i < j < |s| ==> s[i].timestamp >= s[j].timestamp
  }

  /** A message no older than the head of a newest-first list can go in front of it. */
  lemma ConsNewestFirst(y: StoredMessage, t: seq<StoredMessage>)
    requires NewestFirst(t) && (t == [] || y.timestamp >= t[0].timestamp)
    ensures NewestFirst([y] + t)
  {
    var r := [y] + t;
    forall i, j | 0 <= i < j < |r| ensures r[i].timestamp >= r[j].timestamp {
      if i == 0 {
        assert r[j] == t[j - 1];
        assert t[0].timestamp >= t[j - 1].timestamp;
      } else {
        assert r[i] == t[i - 1] && r[j] == t[j - 1];
      }
    }
  }

  /** Puts `x` in front of the first element that is not newer than it. */
  function Insert(x: StoredMessage, s: seq<StoredMessage>): (r: seq<StoredMessage>)
    requires NewestFirst(s)
    ensures NewestFirst(r)
    ensures multiset(r) == multiset(s) + multiset{x}
    ensures r[0] == (if s == [] || x.timestamp >= s[0].timestamp then x else s[0])
  {
    if s == [] || x.timestamp >= s[0].timestamp then
      ConsNewestFirst(x, s);
      [x] + s
    else
      var rest := Insert(x, s[1..]);
      assert s == [s[0]] + s[1..];
      ConsNewestFirst(s[0], rest);
      [s[0]] + rest
  }

  /**
   * `[...messages].sort((a, b) => b.timestamp - a.timestamp)`: a stable sort
   * on a copy, newest first. The result is ordered and holds exactly the
   * input's messages.
   */
  function SortNewestFirst(s: seq<StoredMessage>): (r: seq<StoredMessage>)
    ensures NewestFirst(r)
    ensures multiset(r) == multiset(s)
    ensures |r| == |s|
  {
    if s == [] then []
    else
      assert s == [s[0]] + s[1..];
      Insert(s[0], SortNewestFirst(s[1..]))
  }

  /** The messages of `s` written at time `t`, in their order in `s`. */
  function WrittenAt(s: seq<StoredMessage>, t: int): seq<StoredMessage>
  {
    if s == [] then []
    else (if s[0].timestamp == t then [s[0]] else []) + WrittenAt(s[1..], t)
  }

  lemma {:induction false} InsertKeepsTies(x: StoredMessage, s: seq<StoredMessage>, t: int)
    requires NewestFirst(s)
    ensures WrittenAt(Insert(x, s), t) == (if x.timestamp == t then [x] else []) + WrittenAt(s, t)
  {
    var r := Insert(x, s);
    if s == [] || x.timestamp >= s[0].timestamp {
      assert r[0] == x && r[1..] == s;
    } else {
      InsertKeepsTies(x, s[1..], t);
      assert r[0] == s[0] && r[1..] == Insert(x, s[1..]);
    }
  }

  /** The sort is stable: messages with equal timestamps keep their fetched order. */
  lemma {:induction false} SortIsStable(s: seq<StoredMessage>, t: int)
    ensures WrittenAt(SortNewestFirst(s), t) == WrittenAt(s, t)
  {
    if s != [] {
      SortIsStable(s[1..], t);
      InsertKeepsTies(s[0], SortNewestFirst(s[1..]), t);
    }
  }

  /** `sortedMessages`: absent data shows as the empty list. */
  function DisplayedMessages(data: Option<seq<StoredMessage>>): (r: seq<StoredMessage>)
    ensures data.None? ==> r == []
    ensures data.Some? ==> NewestFirst(r) && multiset(r) == multiset(data.value)
  {
    match data
    case None => []
    case Some(messages) => SortNewestFirst(messages)
  }

  /** One history card: its header text, its text and its time. */
  datatype Card = Card(heading: string, content: string, timestamp: int)

  function CardFor(m: StoredMessage): Card
  {
    Card(if m.role == User then "You" else "Assistant", m.content, m.timestamp)
  }

  /** One card per message, in list order. */
  function CardsFor(s: seq<StoredMessage>): (r: seq<Card>)
    ensures |r| == |s|
    ensures forall i :: 0 <= i < |s| ==>
      r[i].heading == (if s[i].role == User then "You" else "Assistant")
      && r[i].content == s[i].content && r[i].timestamp == s[i].timestamp
  {
    seq(|s|, i requires 0 <= i < |s| => CardFor(s[i]))
  }

  datatype Screen = Loading | LoadFailed | NoHistory | Cards(cards: seq<Card>)

  /** Which screen the page shows: loading first, then the error, then the list or its placeholder. */
  function HistoryScreen(isUserLoading: bool, isLoadingHistory: bool, hasError: bool,
                         data: Option<seq<StoredMessage>>): (r: Screen)
    ensures r.Loading? <==> isUserLoading || isLoadingHistory
    ensures r.LoadFailed? <==> !isUserLoading && !isLoadingHistory && hasError
    ensures r.NoHistory? <==> !isUserLoading && !isLoadingHistory && !hasError && DisplayedMessages(data) == []
    ensures r.Cards? ==> r.cards != [] && r.cards == CardsFor(DisplayedMessages(data))
  {
    if isUserLoading || isLoadingHistory then Loading
    else if hasError then LoadFailed
    else
      var sorted := DisplayedMessages(data);
      if |sorted| > 0 then Cards(CardsFor(sorted)) else NoHistory
  }

  /**
   * Once loaded without error, the placeholder shows exactly when no message
   * was fetched, and otherwise there is one card per fetched message, newest
   * first.
   */
  lemma HistoryListIsComplete(data: Option<seq<StoredMessage>>)
    ensures HistoryScreen(false, false, false, data).NoHistory? <==> data.None? || data.value == []
    ensures HistoryScreen(false, false, false, data).Cards? ==>
      var cards := HistoryScreen(false, false, false, data).cards;
      |cards| == |data.value|
      && multiset(DisplayedMessages(data)) == multiset(data.value)
      && forall i, j :: 0 <= i < j < |cards| ==> cards[i].timestamp >= cards[j].timestamp
  {
    var shown := DisplayedMessages(data);
    if data.Some? {
      assert |shown| == |multiset(shown)| == |multiset(data.value)| == |data.value|;
    }
  }

  /** The collection the page subscribes to, once Firestore and a user are available. */
  function MessagesCollectionPath(firestoreReady: bool, uid: Option<string>): (r: Option<seq<string>>)
    ensures r.Some? <==> firestoreReady && uid.Some?
    ensures r.Some? ==> r.value == ["users", uid.value, "chat_messages"]
  {
    if !firestoreReady || uid.None? then None
    else Some(["users", uid.value, "chat_messages"])
  }

  /** The page sends a signed-out visitor to the login page once the user lookup has finished. */
  function RedirectTarget(isUserLoading: bool, signedIn: bool): (r: Option<string>)
    ensures r.Some? <==> !isUserLoading && !signedIn
    ensures r.Some? ==> r.value == "/login"
  {
    if !isUserLoading && !signedIn then Some("/login") else None
  }
}
