// The session controller: the five `st.session_state` fields, the
// `send_message` retry loop that appends to the history in place, and the
// script's reactions to the Start button, the automatic first analysis, the
// message form and the New Session button.

module Session {
  import opened Wrappers
  import opened Text
  import opened Context
  import opened Conversation
  import opened Client

  /** The instruction the automatic first analysis sends after the context. */
  const InitialInstruction: string := "Please analyze my CrewAI system and identify any issues."

  /** The keys the upload form can store. */
  const SlotKeys: set<string> := {"agents", "tasks", "tools", "crew", "main"}

  /** What one send depends on outside the session: whether an API key is
      configured, the outcome of each API attempt, and the two timestamps
      taken when the turns are appended. */
  datatype Env = Env(hasApiKey: bool, api: nat -> Outcome, userTime: string, replyTime: string)

  /** The five file-upload widgets; `None` for a widget left empty. */
  datatype Uploads = Uploads(agents: Option<string>, tasks: Option<string>, crew: Option<string>,
                             main: Option<string>, tools: Option<string>)

  /** The Start button is enabled only when the four required files are there. */
  predicate StartEnabled(u: Uploads) {
    u.agents.Some? && u.tasks.Some? && u.crew.Some? && u.main.Some?
  }

  /** The four required files are stored under their keys. */
  predicate HasRequiredFiles(files: map<string, string>) {
    Key(Agents) in files && Key(Tasks) in files && Key(Crew) in files && Key(Main) in files
  }

  /** The files map the Start button builds from an empty one. */
  function StoredFiles(u: Uploads): (files: map<string, string>)
    requires StartEnabled(u)
    ensures HasRequiredFiles(files) && files.Keys <= SlotKeys
    ensures files[Key(Agents)] == u.agents.value && files[Key(Tasks)] == u.tasks.value
    ensures files[Key(Crew)] == u.crew.value && files[Key(Main)] == u.main.value
    ensures Key(Tools) in files <==> u.tools.Some?
    ensures u.tools.Some? ==> files[Key(Tools)] == u.tools.value
  {
    var m := map[Key(Agents) := u.agents.value, Key(Tasks) := u.tasks.value,
                 Key(Crew) := u.crew.value, Key(Main) := u.main.value];
    assert m[Key(Agents)] == u.agents.value by { assert Key(Agents) != Key(Tasks) && Key(Agents) != Key(Crew) && Key(Agents) != Key(Main); }
    assert m[Key(Tasks)] == u.tasks.value by { assert Key(Tasks) != Key(Crew) && Key(Tasks) != Key(Main); }
    assert m[Key(Crew)] == u.crew.value by { assert Key(Crew) != Key(Main); }
    assert Key(Tools) !in m by { assert Key(Tools)[1] == 'o'; }
    if u.tools.Some? then m[Key(Tools) := u.tools.value] else m
  }

  /** A started session's context has the four required sections, with the
      tools section between tasks and crew exactly when tools.py was uploaded. */
  lemma StartedSections(u: Uploads)
    requires StartEnabled(u)
    ensures PresentSlots(StoredFiles(u)) == [Agents, Tasks] + (if u.tools.Some? then [Tools] else []) + [Crew, Main]
  {
    RequiredSections(StoredFiles(u), u.tools.Some?);
  }

  lemma RequiredSections(files: map<string, string>, withTools: bool)
    requires HasRequiredFiles(files) && (Key(Tools) in files <==> withTools)
    ensures PresentSlots(files) == [Agents, Tasks] + (if withTools then [Tools] else []) + [Crew, Main]
  {
    var t := if withTools then [Tools] else [];
    assert SlotOrder[1..][1..][1..][1..] == [Main];
    assert Present(files, [Main]) == [Main];
    assert SlotOrder[1..][1..][1..] == [Crew, Main];
    assert Present(files, [Crew, Main]) == [Crew, Main];
    assert SlotOrder[1..][1..] == [Tools, Crew, Main];
    assert Present(files, [Tools, Crew, Main]) == t + [Crew, Main];
    assert SlotOrder[1..] == [Tasks, Tools, Crew, Main];
    assert Present(files, [Tasks, Tools, Crew, Main]) == [Tasks] + t + [Crew, Main];
  }

  /** The stored first user turn is the bare instruction, not the text that
      was sent: a follow-up replays instruction, reply and the new message, and
      never the uploaded files. After a failed first analysis the history is
      empty, so a follow-up is sent alone, without the context. */
  lemma FollowUpOmitsContext(files: map<string, string>, errorLog: string, reply: string,
                             userTime: string, replyTime: string, message: string)
    ensures var context := BuildContext(files, errorLog);
            var first := RequestMessages(true, context, [], InitialInstruction);
            var next := RequestMessages(false, context, Exchange(InitialInstruction, reply, userTime, replyTime), message);
            && first[0].content != InitialInstruction
            && next == [Message(User, InitialInstruction), Message(Assistant, reply), Message(User, message)]
            && RequestMessages(false, context, [], message) == [Message(User, message)]
  {
    var context := BuildContext(files, errorLog);
    assert |context + "\n" + InitialInstruction| > |InitialInstruction|;
    var h := Exchange(InitialInstruction, reply, userTime, replyTime);
    assert ToMessages(h) == [Message(User, InitialInstruction), Message(Assistant, reply)];
  }

  /** The header followed by the right-nested sections, regrouped as the
      left-to-right appends of `BuildConversationContext`. Stated on plain
      parameters so that the method's proof does not unfold the header and
      section literals. */
  lemma PrependAssoc(h: string, a: string, b: string, c: string, d: string, e: string)
    ensures h + (a + b + c + d + e) == h + a + b + c + d + e
  {
  }

  class Session {
    var conversationHistory: seq<Turn>
    var filesUploaded: bool
    var files: map<string, string>
    var errorLog: string
    var processing: bool

    /** The history is a whole number of exchanges; before Start everything is
        empty; after Start the required files are stored; only slot keys occur. */
    ghost predicate Valid()
      reads this
    {
      && Alternating(conversationHistory)
      && files.Keys <= SlotKeys
      && (filesUploaded ==> HasRequiredFiles(files))
      && (!filesUploaded ==> files == map[] && errorLog == "" && conversationHistory == [] && !processing)
    }

    /** The state of a fresh session, and of one after New Session. */
    predicate IsEmpty()
      reads this
    {
      conversationHistory == [] && !filesUploaded && files == map[] && errorLog == "" && !processing
    }

    constructor ()
      ensures Valid() && IsEmpty()
    {
      conversationHistory := [];
      filesUploaded := false;
      files := map[];
      errorLog := "";
      processing := false;
    }

    /** The Start Debugging Session button. It exists only before a session has
        started and is disabled until the four required files are uploaded. */
    method Start(u: Uploads, errorLogInput: string) returns (started: bool)
      requires Valid()
      modifies this
      ensures Valid()
      ensures started == (!old(filesUploaded) && StartEnabled(u))
      ensures started ==> files == StoredFiles(u) && errorLog == errorLogInput
                          && filesUploaded && processing && conversationHistory == []
      ensures !started ==> unchanged(this)
    {
      started := !filesUploaded && StartEnabled(u);
      if !started {
        return;
      }
      assert files == map[];
      if u.agents.Some? {
        files := files[Key(Agents) := u.agents.value];
      }
      if u.tasks.Some? {
        files := files[Key(Tasks) := u.tasks.value];
      }
      if u.crew.Some? {
        files := files[Key(Crew) := u.crew.value];
      }
      if u.main.Some? {
        files := files[Key(Main) := u.main.value];
      }
      if u.tools.Some? {
        files := files[Key(Tools) := u.tools.value];
      }
      assert files == StoredFiles(u);
      errorLog := errorLogInput;
      filesUploaded := true;
      processing := true;
    }

    /** `build_conversation_context()`, which appends to a local string: the
        header, each uploaded file's section in slot order, then the error log's
        section when the log is not blank. */
    method BuildConversationContext() returns (context: string)
      ensures context == BuildContext(files, errorLog)
    {
      context := Header;
      context := AddFileSection(context, Agents);
      context := AddFileSection(context, Tasks);
      context := AddFileSection(context, Tools);
      context := AddFileSection(context, Crew);
      context := AddFileSection(context, Main);
      SectionsBySlot(files);
      PrependAssoc(Header, SlotPart(files, Agents), SlotPart(files, Tasks), SlotPart(files, Tools),
                   SlotPart(files, Crew), SlotPart(files, Main));
      ghost var sections := context;
      var hasLog := HasText(errorLog);
      if hasLog {
        context := context + LogSection(errorLog);
      }
      assert context == sections + LogPart(errorLog);
    }

    /** One `if '<key>' in files: context += ...` step of the context builder. */
    method AddFileSection(context: string, s: Slot) returns (extended: string)
      ensures extended == context + SlotPart(files, s)
    {
      extended := context;
      if Key(s) in files {
        extended := extended + FileSection(s, files[Key(s)]);
      }
    }

    /** The messages `send_message` sends: the context and the message for the
        initial call, otherwise a copy of the history followed by the message. */
    method BuildMessages(userMessage: string, initial: bool) returns (messages: seq<Message>)
      ensures messages == RequestMessages(initial, BuildContext(files, errorLog), conversationHistory, userMessage)
    {
      messages := [];
      if initial {
        var context := BuildConversationContext();
        var fullMessage := context + "\n" + userMessage;
        messages := messages + [Message(User, fullMessage)];
      } else {
        for i := 0 to |conversationHistory|
          invariant messages == ToMessages(conversationHistory[..i])
        {
          var msg := conversationHistory[i];
          assert conversationHistory[..i + 1] == conversationHistory[..i] + [msg];
          messages := messages + [Message(msg.role, msg.content)];
        }
        assert conversationHistory[..|conversationHistory|] == conversationHistory;
        messages := messages + [Message(User, userMessage)];
      }
    }

    /** `send_message(userMessage, initial)`: up to MaxRetries attempts, each
        building the request and looking up the key before calling the API;
        on success the user turn and then the assistant turn are appended. */
    method SendMessage(userMessage: string, initial: bool, env: Env)
      returns (ok: bool, notices: seq<Notice>, calls: nat, request: Request)
      requires Alternating(conversationHistory)
      modifies this`conversationHistory
      ensures Alternating(conversationHistory)
      ensures var run := Send(env.hasApiKey, env.api);
              && ok == run.reply.Some? && notices == run.notices && calls == run.calls
              && conversationHistory == if ok then old(conversationHistory) + Exchange(userMessage, run.reply.value, env.userTime, env.replyTime)
                                        else old(conversationHistory)
      ensures request == BuildRequest(initial, BuildContext(files, errorLog), old(conversationHistory), userMessage)
    {
      notices := [];
      var attempt := 0;
      while attempt < MaxRetries
        invariant attempt < MaxRetries
        invariant env.hasApiKey || attempt == 0
        invariant conversationHistory == old(conversationHistory)
        invariant forall j :: 0 <= j < attempt ==> Classify(env.api(j)).Retryable?
        invariant notices == Warnings(env.api, attempt)
        decreases MaxRetries - attempt
      {
        var messages := BuildMessages(userMessage, initial);
        request := Request(ModelId, MaxTokens, messages);
        if !env.hasApiKey {
          MissingKeyNoCall(env.api);
          notices := notices + [Error(MissingApiKey)];
          ok, calls := false, attempt;
          return;
        }
        var outcome := env.api(attempt);
        calls := attempt + 1;
        var verdict := TryAttempt(outcome);
        SendEndsAt(env.api, attempt);
        match verdict {
          case Delivered(assistantMessage) =>
            AppendExchange(userMessage, assistantMessage, env.userTime, env.replyTime);
            ok := true;
            return;
          case Fatal(failure) =>
            notices := notices + [Error(failure)];
            ok := false;
            return;
          case Retryable(kind) =>
            if attempt < MaxRetries - 1 {
              notices := notices + [Warning(kind, attempt + 1)];
              attempt := attempt + 1;
            } else {
              notices := notices + [Error(RetriesExhausted(kind))];
              ok := false;
              return;
            }
        }
      }
      assert false;
    }

    /** The two appends after a reply: the user's message, then the reply,
        each with its own timestamp. */
    method AppendExchange(userMessage: string, reply: string, userTime: string, replyTime: string)
      requires Alternating(conversationHistory)
      modifies this`conversationHistory
      ensures Alternating(conversationHistory)
      ensures conversationHistory == old(conversationHistory) + Exchange(userMessage, reply, userTime, replyTime)
    {
      ExchangeKeepsAlternating(conversationHistory, userMessage, reply, userTime, replyTime);
      conversationHistory := conversationHistory + [Turn(User, userMessage, userTime)];
      conversationHistory := conversationHistory + [Turn(Assistant, reply, replyTime)];
      assert conversationHistory == old(conversationHistory) + Exchange(userMessage, reply, userTime, replyTime);
    }

    /** The automatic first analysis: it runs once after Start, while
        `processing` is set and the history is empty, and clears `processing`
        whether or not the send succeeded, so a failure is not retried. */
    method InitialAnalysis(env: Env) returns (fired: bool, ok: bool, notices: seq<Notice>)
      requires Valid()
      modifies this`conversationHistory, this`processing
      ensures Valid()
      ensures fired == (old(processing) && old(conversationHistory) == [])
      ensures fired ==> !processing
      ensures var run := Send(env.hasApiKey, env.api);
              fired ==> ok == run.reply.Some? && notices == run.notices
                        && conversationHistory == if ok then Exchange(InitialInstruction, run.reply.value, env.userTime, env.replyTime)
                                                  else []
      ensures !fired ==> !ok && notices == [] && unchanged(this)
    {
      fired := processing && |conversationHistory| == 0;
      ok, notices := false, [];
      if fired {
        var calls, request;
        ok, notices, calls, request := SendMessage(InitialInstruction, true, env);
        processing := false;
      }
    }

    /** The message form's Send button: the text is sent, untrimmed, only when
        it holds a character other than white space. */
    method SendFollowUp(userInput: string, env: Env) returns (sent: bool, ok: bool, notices: seq<Notice>)
      requires Valid()
      modifies this`conversationHistory
      ensures Valid()
      ensures sent == (filesUploaded && !IsBlank(userInput))
      ensures var run := Send(env.hasApiKey, env.api);
              sent ==> ok == run.reply.Some? && notices == run.notices
                       && conversationHistory == if ok then old(conversationHistory) + Exchange(userInput, run.reply.value, env.userTime, env.replyTime)
                                                 else old(conversationHistory)
      ensures !sent ==> !ok && notices == [] && conversationHistory == old(conversationHistory)
    {
      var hasText := HasText(userInput);
      sent := filesUploaded && hasText;
      ok, notices := false, [];
      if sent {
        var calls, request;
        ok, notices, calls, request := SendMessage(userInput, false, env);
      }
    }

    /** The New Session button: everything returns to the empty state,
        whatever it was. */
    method NewSession()
      modifies this
      ensures Valid() && IsEmpty()
    {
      conversationHistory := [];
      filesUploaded := false;
      files := map[];
      errorLog := "";
      processing := false;
    }

    /** The Export Chat button's transcript; the button is shown only when the
        history is not empty. */
    function ExportChat(): (r: Option<string>)
      reads this
      ensures r.Some? <==> conversationHistory != []
    {
      if |conversationHistory| > 0 then Some(Export(conversationHistory)) else None
    }
  }

  /** A session whose first analysis succeeds and whose blank follow-up is
      ignored: two turns, and a transcript of a USER block and an ASSISTANT block. */
  method FirstExchange(u: Uploads, errorLogInput: string, reply: string, userTime: string, replyTime: string)
    returns (transcript: Option<string>)
    requires StartEnabled(u)
    ensures transcript == Some(Block(Turn(User, InitialInstruction, userTime)) + Block(Turn(Assistant, reply, replyTime)))
  {
    var s := new Session();
    var started := s.Start(u, errorLogInput);
    var env := Env(true, (i: nat) => Replied([reply]), userTime, replyTime);
    assert Send(true, env.api) == Run(Some(reply), [], 1);
    var fired, ok, notices := s.InitialAnalysis(env);
    assert ok && |s.conversationHistory| == 2;
    var sent, ok2, notices2 := s.SendFollowUp(" \n", env);
    assert !sent && |s.conversationHistory| == 2;
    ExportExchange(InitialInstruction, reply, userTime, replyTime);
    transcript := s.ExportChat();
  }
}
