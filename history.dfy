/** Context assembly: the last stored turns of a chat, turned into the
    role-tagged prior turns handed to the language model. */
module History {
  import opened Wrappers

  /** One record under a chat's log as read back from the store. A field is
      `None` when the record lacks it; records the relay writes itself always
      have both. */
  datatype StoredTurn = StoredTurn(sender: Option<string>, text: Option<string>)

  datatype Role = User | Model

  /** One prior turn of the prompt: `{"role": ..., "parts": [text]}`. */
  datatype Content = Content(role: Role, text: string)

  /** How many of the latest turns the history query asks for. */
  const HistoryLimit: nat := 10

  const UserSender: string := "user"
  const BotSender: string := "bot"

  /** The store's "last `n`" query over a log kept in append order. */
  function LastTurns(log: seq<StoredTurn>, n: nat): seq<StoredTurn>
  {
    if |log| <= n then log else log[|log| - n..]
  }

  /** The window holds the latest `min(n, |log|)` turns, in stored order. */
  lemma LastTurnsIsLatestSuffix(log: seq<StoredTurn>, n: nat)
    ensures var w := LastTurns(log, n);
            |w| == (if |log| <= n then |log| else n)
            && forall i :: 0 <= i < |w| ==> w[i] == log[|log| - |w| + i]
  {
  }

  /** A record the loop can read without a missing-key error. */
  predicate Readable(t: StoredTurn)
  {
    t.sender.Some? && t.text.Some?
  }

  /** `"user"` for the sender `'user'`, `"model"` for every other sender. */
  function RoleOf(sender: string): (r: Role)
    ensures r == User <==> sender == UserSender
  {
    if sender == UserSender then User else Model
  }

  function ToContent(t: StoredTurn): (c: Content)
    requires Readable(t)
    ensures c.text == t.text.value
    ensures c.role == User <==> t.sender.value == UserSender
  {
    Content(RoleOf(t.sender.value), t.text.value)
  }

  /** The number of leading records that are readable: the loop stops at
      the first record that is not. */
  function ReadablePrefix(w: seq<StoredTurn>): (k: nat)
    ensures k <= |w|
    ensures forall i :: 0 <= i < k ==> Readable(w[i])
    ensures k < |w| ==> !Readable(w[k])
  {
    if w == [] || !Readable(w[0]) then 0 else 1 + ReadablePrefix(w[1..])
  }

  /** The context built from a query result: nothing when there is no result
      (no store, or the query failed), otherwise the readable records that
      precede the first unreadable one, each mapped to its content. */
  function Context(snapshot: Option<seq<StoredTurn>>): (c: seq<Content>)
    ensures snapshot.None? ==> c == []
    ensures snapshot.Some? ==> |c| <= |snapshot.value|
    ensures snapshot.Some? ==>
              forall i :: 0 <= i < |c| ==>
                Readable(snapshot.value[i])
                && c[i].text == snapshot.value[i].text.value
                && (c[i].role == User <==> snapshot.value[i].sender.value == UserSender)
  {
    match snapshot
    case None => []
    case Some(w) =>
      var k := ReadablePrefix(w);
      seq(k, i requires 0 <= i < k => ToContent(w[i]))
  }

  /** The history-loading loop of the message handler. A missing key in a
      record raises inside the same `try` as the query, so the loop stops
      there and keeps what it has built so far. */
  method LoadHistory(snapshot: Option<seq<StoredTurn>>) returns (history: seq<Content>)
    ensures history == Context(snapshot)
  {
    history := [];
    if snapshot.Some? && snapshot.value != [] {
      var w := snapshot.value;
      var i := 0;
      while i < |w|
        invariant 0 <= i <= ReadablePrefix(w)
        invariant |history| == i
        invariant forall j :: 0 <= j < i ==> history[j] == ToContent(w[j])
      {
        var record := w[i];
        if record.sender.None? || record.text.None? {
          break;
        }
        history := history + [ToContent(record)];
        i := i + 1;
      }
      ContextOfReadPrefix(w, history);
    }
  }

  /** What the loop has built once it stops at the first unreadable record,
      or at the end, is the context of the query result. */
  lemma ContextOfReadPrefix(w: seq<StoredTurn>, history: seq<Content>)
    requires |history| == ReadablePrefix(w)
    requires forall j :: 0 <= j < |history| ==> history[j] == ToContent(w[j])
    ensures history == Context(Some(w))
  {
  }

  /** A log all of whose records are readable is read in full. */
  lemma {:induction false} ReadablePrefixOfReadable(w: seq<StoredTurn>)
    requires forall i :: 0 <= i < |w| ==> Readable(w[i])
    ensures ReadablePrefix(w) == |w|
  {
    if w != [] {
      ReadablePrefixOfReadable(w[1..]);
    }
  }

  /** Whatever the store holds, the assembled context has at most ten
      entries, and none when the query gave no result. */
  lemma ContextAtMostLimit(log: seq<StoredTurn>)
    ensures |Context(Some(LastTurns(log, HistoryLimit)))| <= HistoryLimit
    ensures Context(None) == []
  {
  }

  /** For a log of readable records the context is exactly its last
      `min(10, |log|)` turns in stored order, with role `User` exactly for
      the sender `user` and the stored text carried verbatim. */
  lemma ContextIsLatestTurns(log: seq<StoredTurn>)
    requires forall i :: 0 <= i < |log| ==> Readable(log[i])
    ensures var c := Context(Some(LastTurns(log, HistoryLimit)));
            |c| == (if |log| <= HistoryLimit then |log| else HistoryLimit)
            && forall i :: 0 <= i < |c| ==>
                 c[i].text == log[|log| - |c| + i].text.value
                 && (c[i].role == User <==> log[|log| - |c| + i].sender.value == UserSender)
  {
    var w := LastTurns(log, HistoryLimit);
    LastTurnsIsLatestSuffix(log, HistoryLimit);
    ReadablePrefixOfReadable(w);
  }

  /** An unreadable record bounds the context: nothing from it or after it
      is used. */
  lemma ContextStopsAtUnreadable(w: seq<StoredTurn>, j: nat)
    requires j < |w| && !Readable(w[j])
    ensures |Context(Some(w))| <= j
  {
  }
}
