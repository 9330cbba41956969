// The conversation log: the turns stored in `conversation_history`, the
// role/content messages rebuilt from them for a follow-up request, and the
// Markdown transcript offered by the "Export Chat" button.

module Conversation {
  import opened Text

  datatype Role = User | Assistant

  /** The role string stored in a history entry and sent to the API. */
  function RoleName(r: Role): string {
    match r
    case User => "user"
    case Assistant => "assistant"
  }

  /** One history entry. The timestamp is supplied by the environment and kept
      in the form the transcript prints it in. */
  datatype Turn = Turn(role: Role, content: string, timestamp: string)

  /** One role/content pair of an API request. */
  datatype Message = Message(role: Role, content: string)

  /** The history without its timestamps, one message per turn, in order. */
  function ToMessages(history: seq<Turn>): (r: seq<Message>)
    ensures |r| == |history|
    ensures forall i :: 0 <= i < |history| ==> r[i] == Message(history[i].role, history[i].content)
  {
    if history == [] then [] else [Message(history[0].role, history[0].content)] + ToMessages(history[1..])
  }

  /** The pair of turns one successful exchange appends: the user's message,
      then the assistant's reply. */
  function Exchange(userText: string, reply: string, userTime: string, replyTime: string): seq<Turn> {
    [Turn(User, userText, userTime), Turn(Assistant, reply, replyTime)]
  }

  /** The history is a whole number of exchanges: even length, user turns at
      even positions and assistant turns at odd ones. */
  predicate Alternating(history: seq<Turn>) {
    |history| % 2 == 0 && forall i :: 0 <= i < |history| ==> history[i].role == (if i % 2 == 0 then User else Assistant)
  }

  lemma ExchangeKeepsAlternating(history: seq<Turn>, userText: string, reply: string, userTime: string, replyTime: string)
    requires Alternating(history)
    ensures Alternating(history + Exchange(userText, reply, userTime, replyTime))
  {
    var h := history + Exchange(userText, reply, userTime, replyTime);
    forall i | 0 <= i < |h| ensures h[i].role == (if i % 2 == 0 then User else Assistant) {
      if i >= |history| {
        assert i == |history| || i == |history| + 1;
      }
    }
  }

  /** The upper-cased role that heads a transcript block. */
  function RoleLabel(r: Role): (l: string)
    ensures l == (if r == User then "USER" else "ASSISTANT")
  {
    Upper(RoleName(r))
  }

  /** The transcript block of one turn. */
  function Block(t: Turn): string {
    "**" + RoleLabel(t.role) + "** (" + t.timestamp + "):\n" + t.content + "\n\n---\n\n"
  }

  /** The exported transcript: one block per turn, in history order. */
  function Export(history: seq<Turn>): string {
    if history == [] then "" else Block(history[0]) + Export(history[1..])
  }

  /** Exporting a history in two parts gives the two transcripts one after the other. */
  lemma {:induction false} ExportAppend(a: seq<Turn>, b: seq<Turn>)
    ensures Export(a + b) == Export(a) + Export(b)
    decreases |a|
  {
    if a != [] {
      assert (a + b)[0] == a[0] && (a + b)[1..] == a[1..] + b;
      ExportAppend(a[1..], b);
      assert Export(a + b) == Block(a[0]) + Export(a[1..] + b);
    } else {
      assert a + b == b;
    }
  }

  /** The transcript of a single exchange: a USER block, then an ASSISTANT block. */
  lemma ExportExchange(userText: string, reply: string, userTime: string, replyTime: string)
    ensures Export(Exchange(userText, reply, userTime, replyTime))
         == Block(Turn(User, userText, userTime)) + Block(Turn(Assistant, reply, replyTime))
  {
    var e := Exchange(userText, reply, userTime, replyTime);
    assert e[1..][1..] == [];
    assert Export(e[1..]) == Block(e[1]) + "";
  }

  /** A successful exchange adds exactly its two blocks to the end of the transcript. */
  lemma ExportAfterExchange(history: seq<Turn>, userText: string, reply: string, userTime: string, replyTime: string)
    ensures Export(history + Exchange(userText, reply, userTime, replyTime))
         == Export(history) + Block(Turn(User, userText, userTime)) + Block(Turn(Assistant, reply, replyTime))
  {
    ExportAppend(history, Exchange(userText, reply, userTime, replyTime));
    ExportExchange(userText, reply, userTime, replyTime);
    ConcatAssoc(Export(history), Block(Turn(User, userText, userTime)), Block(Turn(Assistant, reply, replyTime)));
  }

  /** The turn at position k yields the k-th block: the transcript of the
      first k turns, then that turn's block, then the rest. */
  lemma ExportAt(history: seq<Turn>, k: nat)
    requires k < |history|
    ensures Export(history) == Export(history[..k]) + Block(history[k]) + Export(history[k + 1..])
  {
    assert history == history[..k] + history[k..];
    ExportAppend(history[..k], history[k..]);
    assert history[k..][1..] == history[k + 1..];
    ConcatAssoc(Export(history[..k]), Block(history[k]), Export(history[k + 1..]));
  }
}
