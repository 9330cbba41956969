// The generation client behind `send_message`: the request it builds, how it
// classifies what one API attempt produced, and the bounded retry policy,
// stated as a function of the per-attempt outcomes. The API itself is an
// oracle `api: nat -> Outcome` giving the outcome of attempt 0, 1, 2.

module Client {
  import opened Wrappers
  import opened Text
  import opened Conversation

  const MaxRetries: nat := 3
  const ModelId: string := "claude-sonnet-4-20250514"
  const MaxTokens: nat := 8000

  /** What one call sends, apart from the fixed system prompt. */
  datatype Request = Request(model: string, maxTokens: nat, messages: seq<Message>)

  /** The messages of a call: for the initial call a single user message made
      of the context, a newline and the instruction; for a follow-up the whole
      history's role/content pairs followed by the new user message. */
  function RequestMessages(initial: bool, context: string, history: seq<Turn>, userMessage: string): seq<Message> {
    if initial then [Message(User, context + "\n" + userMessage)]
    else ToMessages(history) + [Message(User, userMessage)]
  }

  function BuildRequest(initial: bool, context: string, history: seq<Turn>, userMessage: string): Request {
    Request(ModelId, MaxTokens, RequestMessages(initial, context, history, userMessage))
  }

  /** An initial request is one user message that starts with the context and
      ends with the instruction; a follow-up replays the history in order, ends
      with the new user message and does not depend on the context at all. */
  lemma RequestShape(initial: bool, context: string, otherContext: string, history: seq<Turn>, userMessage: string)
    ensures var m := RequestMessages(initial, context, history, userMessage);
            m != [] && m[|m| - 1].role == User
            && (initial ==> |m| == 1 && context <= m[0].content
                            && m[0].content[|m[0].content| - |userMessage|..] == userMessage)
            && (!initial ==> |m| == |history| + 1 && m[|history|].content == userMessage
                             && m == RequestMessages(false, otherContext, history, userMessage)
                             && forall i :: 0 <= i < |history| ==>
                                  m[i].role == history[i].role && m[i].content == history[i].content)
  {
    if initial {
      var c := context + "\n" + userMessage;
      assert c[|c| - |userMessage|..] == userMessage;
      assert c[..|context|] == context;
    }
  }

  /** What one API attempt produced. `Replied` carries the text of the
      response's content blocks; the three transport failures are the HTTP
      client's; `Raised` is any other exception, by type name and message. */
  datatype Outcome =
    | Replied(segments: seq<string>)
    | ConnectTimedOut
    | ReadTimedOut
    | ConnectFailed(detail: string)
    | Raised(typeName: string, message: string)

  /** A failure kind that is retried. */
  datatype Transient =
    | ConnectTimeout
    | ReadTimeout
    | ConnectError(detail: string)
    | Unclassified(typeName: string, message: string)

  /** Why a send gave up, as reported by its one error notice. */
  datatype Failure =
    | MissingApiKey
    | AuthenticationFailed
    | RateLimited
    | RetriesExhausted(last: Transient)

  datatype Verdict = Delivered(text: string) | Retryable(kind: Transient) | Fatal(failure: Failure)

  /** Taking the first content block of an empty reply raises this exception. */
  const EmptyReply: Outcome := Raised("IndexError", "list index out of range")

  predicate IsAuthError(typeName: string, message: string) {
    Contains(typeName, "Authentication") || Contains(message, "401")
  }

  predicate IsRateLimit(typeName: string, message: string) {
    Contains(typeName, "RateLimit") || Contains(message, "429")
  }

  /** The generic except-clause: authentication first, then rate limit,
      anything else is retried as unclassified. */
  function ClassifyException(typeName: string, message: string): Verdict {
    if IsAuthError(typeName, message) then Fatal(AuthenticationFailed)
    else if IsRateLimit(typeName, message) then Fatal(RateLimited)
    else Retryable(Unclassified(typeName, message))
  }

  /** The except-clauses of one attempt, in their order. A reply without
      content blocks fails where its first block is taken, with EmptyReply. */
  function Classify(o: Outcome): Verdict {
    match o
    case Replied(segments) =>
      if segments != [] then Delivered(segments[0]) else Retryable(Unclassified(EmptyReply.typeName, EmptyReply.message))
    case ConnectTimedOut => Retryable(ConnectTimeout)
    case ReadTimedOut => Retryable(ReadTimeout)
    case ConnectFailed(detail) => Retryable(ConnectError(detail))
    case Raised(typeName, message) => ClassifyException(typeName, message)
  }

  /** The body of one attempt: take the text of the reply's first content
      block, or handle what was raised by the except-clauses in their order
      (the three transport failures, then the generic clause, which tests
      for authentication before rate limit). */
  method TryAttempt(o: Outcome) returns (v: Verdict)
    ensures v == Classify(o)
  {
    var raised: Outcome;
    match o {
      case Replied(segments) =>
        if segments != [] {
          return Delivered(segments[0]);
        }
        raised := EmptyReply;
        EmptyReplyRetried();
      case ConnectTimedOut =>
        return Retryable(ConnectTimeout);
      case ReadTimedOut =>
        return Retryable(ReadTimeout);
      case ConnectFailed(detail) =>
        return Retryable(ConnectError(detail));
      case Raised(_, _) =>
        raised := o;
    }
    if Contains(raised.typeName, "Authentication") || Contains(raised.message, "401") {
      v := Fatal(AuthenticationFailed);
    } else if Contains(raised.typeName, "RateLimit") || Contains(raised.message, "429") {
      v := Fatal(RateLimited);
    } else {
      v := Retryable(Unclassified(raised.typeName, raised.message));
    }
  }

  /** Only an authentication or a rate-limit exception stops at once; the
      authentication test comes first; every other failure is retried, an
      empty reply included. */
  lemma ClassifyFatal(o: Outcome)
    ensures Classify(o).Fatal? <==> o.Raised? && (IsAuthError(o.typeName, o.message) || IsRateLimit(o.typeName, o.message))
    ensures Classify(o).Fatal? ==> Classify(o).failure in {AuthenticationFailed, RateLimited}
    ensures o.Raised? && IsAuthError(o.typeName, o.message) ==> Classify(o) == Fatal(AuthenticationFailed)
    ensures Classify(o).Delivered? <==> o.Replied? && o.segments != []
  {
    EmptyReplyRetried();
  }

  /** A reply without content blocks is handled as the IndexError its first
      block's lookup raises, by the generic except-clause: an unclassified
      failure, retried. */
  lemma EmptyReplyRetried()
    ensures Classify(Replied([])) == Classify(EmptyReply) == ClassifyException(EmptyReply.typeName, EmptyReply.message)
    ensures Classify(EmptyReply) == Retryable(Unclassified(EmptyReply.typeName, EmptyReply.message))
  {
    NotContainsLonger("IndexError", "Authentication");
    NotContainsAbsentChar("IndexError", "RateLimit");
    NotContainsAbsentChar("list index out of range", "401");
    NotContainsAbsentChar("list index out of range", "429");
    assert !IsAuthError(EmptyReply.typeName, EmptyReply.message);
    assert !IsRateLimit(EmptyReply.typeName, EmptyReply.message);
  }

  lemma NotContainsLonger(s: string, sub: string)
    requires |s| < |sub|
    ensures !Contains(s, sub)
  {
  }

  lemma NotContainsAbsentChar(s: string, sub: string)
    requires sub != [] && sub[0] !in s
    ensures !Contains(s, sub)
  {
  }

  /** A notice shown to the user: a warning before a retry, numbered from 1,
      or the one error that ends a failed send. */
  datatype Notice = Warning(kind: Transient, attempt: nat) | Error(failure: Failure)

  /** What a send did: the reply, the notices in order and the number of API calls. */
  datatype Run = Run(reply: Option<string>, notices: seq<Notice>, calls: nat)

  /** The retry loop from attempt `attempt` on. The key is looked up at the
      start of each attempt, before the call. */
  function Attempts(hasKey: bool, api: nat -> Outcome, attempt: nat): Run
    requires attempt < MaxRetries
    decreases MaxRetries - attempt
  {
    if !hasKey then Run(None, [Error(MissingApiKey)], attempt)
    else
      match Classify(api(attempt))
      case Delivered(text) => Run(Some(text), [], attempt + 1)
      case Fatal(failure) => Run(None, [Error(failure)], attempt + 1)
      case Retryable(kind) =>
        if attempt < MaxRetries - 1 then
          var rest := Attempts(hasKey, api, attempt + 1);
          Run(rest.reply, [Warning(kind, attempt + 1)] + rest.notices, rest.calls)
        else
          Run(None, [Error(RetriesExhausted(kind))], attempt + 1)
  }

  /** `send_message` apart from its effect on the history. */
  function Send(hasKey: bool, api: nat -> Outcome): Run {
    Attempts(hasKey, api, 0)
  }

  /** The warnings of attempts 0 .. a-1, all of them retried, in order. */
  function Warnings(api: nat -> Outcome, a: nat): seq<Notice>
    requires forall j :: 0 <= j < a ==> Classify(api(j)).Retryable?
  {
    if a == 0 then [] else Warnings(api, a - 1) + [Warning(Classify(api(a - 1)).kind, a)]
  }

  /** After `a` retried attempts, a send is those attempts' warnings followed
      by the run from attempt `a` on. */
  lemma {:induction false} SendAfterRetries(api: nat -> Outcome, a: nat)
    requires a < MaxRetries
    requires forall j :: 0 <= j < a ==> Classify(api(j)).Retryable?
    ensures var rest := Attempts(true, api, a);
            Send(true, api) == Run(rest.reply, Warnings(api, a) + rest.notices, rest.calls)
  {
    if a > 0 {
      SendAfterRetries(api, a - 1);
      var rest := Attempts(true, api, a);
      var w := Warnings(api, a - 1);
      var n := Warning(Classify(api(a - 1)).kind, a);
      assert Attempts(true, api, a - 1) == Run(rest.reply, [n] + rest.notices, rest.calls);
      assert w + ([n] + rest.notices) == (w + [n]) + rest.notices;
    }
  }

  /** How a send ends at attempt `a`, every earlier attempt having been
      retried: with the reply, with the fatal error, or, at the last attempt,
      with RetriesExhausted; the earlier attempts' warnings come first. */
  lemma SendEndsAt(api: nat -> Outcome, a: nat)
    requires a < MaxRetries
    requires forall j :: 0 <= j < a ==> Classify(api(j)).Retryable?
    ensures var v := Classify(api(a));
      && (v.Delivered? ==> Send(true, api) == Run(Some(v.text), Warnings(api, a), a + 1))
      && (v.Fatal? ==> Send(true, api) == Run(None, Warnings(api, a) + [Error(v.failure)], a + 1))
      && (v.Retryable? && a == MaxRetries - 1 ==>
            Send(true, api) == Run(None, Warnings(api, a) + [Error(RetriesExhausted(v.kind))], a + 1))
  {
    SendAfterRetries(api, a);
    assert Warnings(api, a) + [] == Warnings(api, a);
  }

  /** How many leading notices of a run are warnings: all of them when a
      reply came back, all but the closing error otherwise. */
  function WarningCount(r: Run): int {
    if r.reply.Some? then |r.notices| else |r.notices| - 1
  }

  /** The shape a run `r` from attempt `a` on has: warnings for the retried
      attempts, numbered in order, then either the reply or exactly one error. */
  ghost predicate Shaped(hasKey: bool, api: nat -> Outcome, a: nat, r: Run) {
    && a <= r.calls <= MaxRetries
    && (hasKey <==> r.calls > a)
    && (forall j :: 0 <= j < WarningCount(r) ==>
          r.notices[j].Warning? && r.notices[j].attempt == a + j + 1
          && Classify(api(a + j)) == Retryable(r.notices[j].kind))
    && (r.reply.Some? ==>
          |r.notices| == r.calls - a - 1 && (forall n :: n in r.notices ==> n.Warning?)
          && Classify(api(r.calls - 1)) == Delivered(r.reply.value))
    && (r.reply.None? ==>
          |r.notices| == r.calls - a + (if hasKey then 0 else 1)
          && r.notices[|r.notices| - 1].Error?
          && var f := r.notices[|r.notices| - 1].failure;
             (!hasKey ==> f == MissingApiKey)
             && (hasKey ==> Classify(api(r.calls - 1)) == Fatal(f)
                            || (r.calls == MaxRetries && f.RetriesExhausted?
                                && Classify(api(r.calls - 1)) == Retryable(f.last))))
  }

  /** Every run from attempt `a` on has that shape. */
  lemma {:induction false} AttemptsShape(hasKey: bool, api: nat -> Outcome, a: nat)
    requires a < MaxRetries
    ensures Shaped(hasKey, api, a, Attempts(hasKey, api, a))
    decreases MaxRetries - a
  {
    if hasKey && Classify(api(a)).Retryable? && a < MaxRetries - 1 {
      AttemptsShape(hasKey, api, a + 1);
      RetryKeepsShape(api, a, Attempts(hasKey, api, a + 1));
    }
  }

  /** Prepending the warning of a retried attempt `a` to a well-shaped run from
      `a + 1` on gives a well-shaped run from `a` on. */
  lemma RetryKeepsShape(api: nat -> Outcome, a: nat, rest: Run)
    requires a < MaxRetries - 1 && Classify(api(a)).Retryable?
    requires Shaped(true, api, a + 1, rest)
    ensures Shaped(true, api, a, Run(rest.reply, [Warning(Classify(api(a)).kind, a + 1)] + rest.notices, rest.calls))
  {
    var r := Run(rest.reply, [Warning(Classify(api(a)).kind, a + 1)] + rest.notices, rest.calls);
    forall j | 0 <= j < WarningCount(r)
      ensures r.notices[j].Warning? && r.notices[j].attempt == a + j + 1
              && Classify(api(a + j)) == Retryable(r.notices[j].kind)
    {
      if j > 0 { assert r.notices[j] == rest.notices[j - 1]; }
    }
    if r.reply.None? {
      assert r.notices[|r.notices| - 1] == rest.notices[|rest.notices| - 1];
    }
  }

  /** Counts over a whole send: at most three calls, one more call than
      warnings when the key is present, warnings only before attempts 2 and 3,
      and an error notice exactly when no reply came back, as the last notice. */
  lemma SendCounts(hasKey: bool, api: nat -> Outcome)
    ensures var r := Send(hasKey, api);
      && r.calls <= MaxRetries
      && (hasKey <==> r.calls >= 1)
      && (forall j :: 0 <= j < WarningCount(r) ==>
            r.notices[j].Warning? && r.notices[j].attempt == j + 1 && r.notices[j].attempt < MaxRetries)
      && (r.reply.Some? <==> |r.notices| == r.calls - 1 && hasKey)
      && (r.reply.None? <==> r.notices != [] && r.notices[|r.notices| - 1].Error?)
  {
    AttemptsShape(hasKey, api, 0);
  }

  /** When attempt i is the first whose outcome is not retried, the send makes
      exactly i + 1 calls, warns once for each earlier attempt, and ends with
      the reply or with that outcome's error. */
  lemma {:induction false} AttemptsStopAt(api: nat -> Outcome, a: nat, i: nat)
    requires a <= i < MaxRetries
    requires forall j :: a <= j < i ==> Classify(api(j)).Retryable?
    requires !Classify(api(i)).Retryable?
    ensures var r := Attempts(true, api, a);
      && r.calls == i + 1
      && |r.notices| == i - a + (if Classify(api(i)).Delivered? then 0 else 1)
      && (forall j :: a <= j < i ==> r.notices[j - a] == Warning(Classify(api(j)).kind, j + 1))
      && (Classify(api(i)).Delivered? ==> r.reply == Some(Classify(api(i)).text))
      && (Classify(api(i)).Fatal? ==> r.reply == None && r.notices[i - a] == Error(Classify(api(i)).failure))
    decreases i - a
  {
    if a < i {
      AttemptsStopAt(api, a + 1, i);
      var r := Attempts(true, api, a);
      var rest := Attempts(true, api, a + 1);
      assert r.notices == [Warning(Classify(api(a)).kind, a + 1)] + rest.notices;
      forall j | a <= j < i ensures r.notices[j - a] == Warning(Classify(api(j)).kind, j + 1) {
        if j > a { assert r.notices[j - a] == rest.notices[j - (a + 1)]; }
      }
    }
  }

  lemma SendStopsAt(api: nat -> Outcome, i: nat)
    requires i < MaxRetries
    requires forall j :: 0 <= j < i ==> Classify(api(j)).Retryable?
    requires !Classify(api(i)).Retryable?
    ensures var r := Send(true, api);
      && r.calls == i + 1
      && |r.notices| == i + (if Classify(api(i)).Delivered? then 0 else 1)
      && (forall j :: 0 <= j < i ==> r.notices[j] == Warning(Classify(api(j)).kind, j + 1))
      && (Classify(api(i)).Delivered? ==> r.reply == Some(Classify(api(i)).text))
      && (Classify(api(i)).Fatal? ==> r.reply == None && r.notices[i] == Error(Classify(api(i)).failure))
  {
    AttemptsStopAt(api, 0, i);
    var r := Attempts(true, api, 0);
    forall j | 0 <= j < i ensures r.notices[j] == Warning(Classify(api(j)).kind, j + 1) {
      assert r.notices[j - 0] == Warning(Classify(api(j)).kind, j + 1);
    }
  }

  /** Three retryable failures in a row: three calls, warnings for attempts
      1 and 2, then one error naming the last failure. */
  lemma SendExhausted(api: nat -> Outcome)
    requires forall j :: 0 <= j < MaxRetries ==> Classify(api(j)).Retryable?
    ensures Send(true, api) == Run(None, [Warning(Classify(api(0)).kind, 1), Warning(Classify(api(1)).kind, 2),
                                          Error(RetriesExhausted(Classify(api(2)).kind))], 3)
  {
    assert Classify(api(0)).Retryable? && Classify(api(1)).Retryable? && Classify(api(2)).Retryable?;
    var r2 := Attempts(true, api, 2);
    assert r2 == Run(None, [Error(RetriesExhausted(Classify(api(2)).kind))], 3);
    var r1 := Attempts(true, api, 1);
    assert r1 == Run(None, [Warning(Classify(api(1)).kind, 2)] + r2.notices, 3);
  }

  /** A send gets a reply exactly when some attempt delivered text and every
      attempt before it was retried; that text is the reply. */
  lemma SendReplyIff(hasKey: bool, api: nat -> Outcome, text: string)
    ensures Send(hasKey, api).reply == Some(text) <==>
            hasKey && exists i :: 0 <= i < MaxRetries && Classify(api(i)) == Delivered(text)
                                  && forall j :: 0 <= j < i ==> Classify(api(j)).Retryable?
  {
    AttemptsShape(hasKey, api, 0);
    var r := Send(hasKey, api);
    if r.reply == Some(text) {
      var i := r.calls - 1;
      forall j | 0 <= j < i ensures Classify(api(j)).Retryable? {
        assert Classify(api(0 + j)) == Retryable(r.notices[j].kind);
      }
    }
    if hasKey && exists i :: 0 <= i < MaxRetries && Classify(api(i)) == Delivered(text)
                             && forall j :: 0 <= j < i ==> Classify(api(j)).Retryable? {
      var i :| 0 <= i < MaxRetries && Classify(api(i)) == Delivered(text)
               && forall j :: 0 <= j < i ==> Classify(api(j)).Retryable?;
      SendStopsAt(api, i);
    }
  }

  /** A missing API key ends the send before any call, with one error. */
  lemma MissingKeyNoCall(api: nat -> Outcome)
    ensures Send(false, api) == Run(None, [Error(MissingApiKey)], 0)
  {
  }

  /** An authentication or rate-limit exception on the first attempt is not
      retried: one call, no warning, one error. */
  lemma FatalNotRetried(api: nat -> Outcome)
    requires api(0).Raised?
    requires IsAuthError(api(0).typeName, api(0).message) || IsRateLimit(api(0).typeName, api(0).message)
    ensures var r := Send(true, api);
      r.calls == 1 && r.reply == None && |r.notices| == 1 && r.notices[0].Error?
      && r.notices[0].failure == (if IsAuthError(api(0).typeName, api(0).message) then AuthenticationFailed else RateLimited)
  {
    SendStopsAt(api, 0);
  }

  /** Two read timeouts, then a reply on the third attempt: two warnings and
      the reply. */
  lemma TwoTimeoutsThenReply(api: nat -> Outcome, text: string)
    requires api(0) == ReadTimedOut && api(1) == ReadTimedOut && api(2) == Replied([text])
    ensures Send(true, api) == Run(Some(text), [Warning(ReadTimeout, 1), Warning(ReadTimeout, 2)], 3)
  {
    SendStopsAt(api, 2);
  }
}
