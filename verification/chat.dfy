/**
 * One chat turn of the backend and the session store it works on.
 *
 * A turn creates the user's session on first contact, appends the user's
 * message, lets the hosted model decide between a plain reply and one named
 * function call, runs the matching action, records the produced sequence,
 * appends the assistant's reply and streams server-sent-event frames. The
 * model's decision and its reply to an action's prompt are inputs; each
 * round trip to the model is recorded as a `RemoteCall`.
 */
module Chat {
  import opened Wrappers
  import opened Sessions
  import opened Handlers

  /** Function-call arguments as the model supplies them, already decoded. */
  type Args = map<string, string>

  /** The model's decision for a turn: answer in text, or ask for one named function. */
  datatype Decision = PlainReply(content: string) | FunctionCall(name: string, arguments: Args)

  /** A round trip to the hosted model: the turn's decision, or an action's prompt. */
  datatype RemoteCall = ChatCompletion(history: seq<Message>) | HandlerCompletion(prompt: Prompt)

  const GenerateName: string := "generate_sequence"
  const EditName: string := "edit_sequence"
  const DeleteName: string := "delete_step"

  const GeneratingMarker: string := "[GENERATING_SEQUENCE]"
  const EditingMarker: string := "[EDITING_SEQUENCE]"
  const DeletingMarker: string := "[DELETING_STEP]"
  const SequenceDataMarker: string := "[SEQUENCE_DATA]"
  const ResetReply: string := "Chat reset"

  /** The keyword parameters of `generate_sequence`. */
  const GenerateParams: set<string> := {"role", "background", "tone"}
  /** The keyword parameters of `edit_sequence` and `delete_step`. */
  const RevisionParams: set<string> := {"sequence", "instruction", "user_id"}

  // ---------------------------------------------------------------------------
  // Frames of the event stream
  // ---------------------------------------------------------------------------

  const FramePrefix: string := "data: "
  const FrameEnd: string := "\n\n"

  /** One server-sent event carrying `payload`. */
  function Frame(payload: string): string {
    FramePrefix + payload + FrameEnd
  }

  /** The payload a frame carries. */
  function Payload(frame: string): string
    requires |frame| >= |FramePrefix| + |FrameEnd|
  {
    frame[|FramePrefix|..|frame| - |FrameEnd|]
  }

  /** Every frame starts with `data: `, ends with a blank line and gives its payload back intact. */
  lemma FrameRoundTrip(payload: string)
    ensures var f := Frame(payload);
      |f| == |FramePrefix| + |payload| + |FrameEnd| &&
      f[..|FramePrefix|] == FramePrefix && f[|f| - |FrameEnd|..] == FrameEnd &&
      Payload(f) == payload
  {
    var f := Frame(payload);
    assert f[..|FramePrefix|] == FramePrefix;
    assert f[|f| - |FrameEnd|..] == FrameEnd;
    assert f[|FramePrefix|..|f| - |FrameEnd|] == payload;
  }

  // ---------------------------------------------------------------------------
  // Dispatch of the model's decision
  // ---------------------------------------------------------------------------

  /** A keyword argument; the actions default every parameter to the empty string. */
  function Arg(args: Args, name: string): string {
    if name in args then args[name] else ""
  }

  /** The status marker streamed when a known function starts, `None` for any other name. */
  function Marker(name: string): Option<string> {
    if name == GenerateName then Some(GeneratingMarker)
    else if name == EditName then Some(EditingMarker)
    else if name == DeleteName then Some(DeletingMarker)
    else None
  }

  function UnknownFunctionReply(name: string): string {
    "(Unknown function `" + name + "` was called.)"
  }

  /**
   * The arguments an action is called with: for edit and delete the dispatcher's own
   * user id replaces whatever `user_id` the model supplied.
   */
  function Bound(name: string, args: Args, userId: string): Args {
    if name == GenerateName then args else args["user_id" := userId]
  }

  /** The keyword parameters of a known function. */
  function Params(name: string): set<string> {
    if name == GenerateName then GenerateParams else RevisionParams
  }

  /**
   * What the dispatcher does with a decision: reply with text, run an action after its
   * status marker, or stop after the marker because the call passes a keyword the
   * action does not take (Python raises a `TypeError` there).
   */
  datatype Action =
    | Reply(text: string)
    | Ran(marker: string, handled: Handled)
    | Rejected(marker: string)

  function Dispatch(decision: Decision, userId: string, sessions: map<string, Session>, reply: string): (a: Action)
    requires userId in sessions
    ensures decision.PlainReply? ==> a == Reply(decision.content)
    ensures decision.FunctionCall? && Marker(decision.name) == None ==>
      a == Reply(UnknownFunctionReply(decision.name))
    ensures decision.FunctionCall? && Marker(decision.name) != None ==>
      !a.Reply? && a.marker == Marker(decision.name).value &&
      (a.Rejected? <==> !(Bound(decision.name, decision.arguments, userId).Keys <= Params(decision.name)))
    ensures a.Ran? && decision.name == GenerateName ==>
      var args := decision.arguments;
      a.handled == GenerateSequence(Arg(args, "role"), Arg(args, "background"), Arg(args, "tone"), reply)
    ensures a.Ran? && decision.name != GenerateName ==>
      var args := decision.arguments;
      a.handled == (if decision.name == EditName
                    then EditSequence(Arg(args, "sequence"), Arg(args, "instruction"), userId, sessions, reply)
                    else DeleteStep(Arg(args, "sequence"), Arg(args, "instruction"), userId, sessions, reply))
  {
    match decision
    case PlainReply(content) => Reply(content)
    case FunctionCall(name, args) =>
      if name == GenerateName then
        if args.Keys <= GenerateParams
        then Ran(GeneratingMarker, GenerateSequence(Arg(args, "role"), Arg(args, "background"), Arg(args, "tone"), reply))
        else Rejected(GeneratingMarker)
      else if name == EditName || name == DeleteName then
        var marker := if name == EditName then EditingMarker else DeletingMarker;
        var bound := args["user_id" := userId];
        if !(bound.Keys <= RevisionParams) then Rejected(marker)
        else
          var sequence, instruction := Arg(bound, "sequence"), Arg(bound, "instruction");
          assert sequence == Arg(args, "sequence") && instruction == Arg(args, "instruction");
          if name == EditName
          then Ran(marker, EditSequence(sequence, instruction, bound["user_id"], sessions, reply))
          else Ran(marker, DeleteStep(sequence, instruction, bound["user_id"], sessions, reply))
      else Reply(UnknownFunctionReply(name))
  }

  /** For edit and delete a `user_id` among the model's arguments has no effect. */
  lemma ModelUserIdIgnored(name: string, args: Args, other: string, userId: string,
                           sessions: map<string, Session>, reply: string)
    requires name == EditName || name == DeleteName
    requires userId in sessions
    ensures Dispatch(FunctionCall(name, args["user_id" := other]), userId, sessions, reply) ==
            Dispatch(FunctionCall(name, args), userId, sessions, reply)
  {
    assert args["user_id" := other]["user_id" := userId] == args["user_id" := userId];
  }

  /** The dispatcher reads no session but the current user's. */
  lemma DispatchReadsOwnSession(decision: Decision, userId: string, s1: map<string, Session>,
                                s2: map<string, Session>, reply: string)
    requires userId in s1 && userId in s2 && s1[userId] == s2[userId]
    ensures Dispatch(decision, userId, s1, reply) == Dispatch(decision, userId, s2, reply)
  {
  }

  // ---------------------------------------------------------------------------
  // A whole turn
  // ---------------------------------------------------------------------------

  /** What a turn leaves behind: the store, the frames streamed, the model round trips, and whether it ran to the end. */
  datatype TurnOutcome = TurnOutcome(sessions: map<string, Session>, frames: seq<string>,
                                     calls: seq<RemoteCall>, completed: bool)

  /** The user's session as the turn finds it: the stored one, or a freshly seeded one. */
  function Prior(seed: string, sessions: map<string, Session>, userId: string): Session {
    if userId in sessions then sessions[userId] else NewSession(seed)
  }

  /** The model calls an action made: its prompt, if it sent one. */
  function Requests(h: Handled): seq<RemoteCall> {
    if h.request.Some? then [HandlerCompletion(h.request.value)] else []
  }

  /**
   * The rest of a turn once the model has decided: the frames streamed, the action's own
   * model call, the sequence stored and the reply appended to history.
   */
  function Conclude(current: map<string, Session>, userId: string, a: Action): TurnOutcome
    requires userId in current
  {
    var session := current[userId];
    match a
    case Reply(text) =>
      TurnOutcome(current[userId := Session(session.messages + [Message(Assistant, text)], session.lastSequence)],
                  [Frame(text)], [], true)
    case Ran(marker, h) =>
      var produced := h.result;
      TurnOutcome(current[userId := Session(session.messages + [Message(Assistant, produced.response)], Some(produced.sequence))],
                  [Frame(marker), Frame(SequenceDataMarker + produced.sequence), Frame(produced.response)],
                  Requests(h), true)
    case Rejected(marker) =>
      TurnOutcome(current, [Frame(marker)], [], false)
  }

  /**
   * Whatever the action, the rest of a turn touches only the user's session, keeps its
   * history as a prefix, and appends one assistant message exactly when it completes.
   */
  lemma ConcludeShape(current: map<string, Session>, userId: string, a: Action)
    requires userId in current
    ensures var o, s := Conclude(current, userId, a), current[userId];
      var after := o.sessions[userId];
      o.sessions.Keys == current.Keys &&
      (forall u :: u in current && u != userId ==> o.sessions[u] == current[u]) &&
      |o.calls| <= 1 &&
      |after.messages| == |s.messages| + (if o.completed then 1 else 0) &&
      after.messages[..|s.messages|] == s.messages &&
      (o.completed ==>
         after.messages[|s.messages|].role == Assistant && o.frames != [] &&
         o.frames[|o.frames| - 1] == Frame(after.messages[|s.messages|].content)) &&
      (!o.completed ==> after.lastSequence == s.lastSequence)
  {
    var s := current[userId];
    match a
    case Reply(text) =>
      assert (s.messages + [Message(Assistant, text)])[..|s.messages|] == s.messages;
    case Ran(marker, h) =>
      assert (s.messages + [Message(Assistant, h.result.response)])[..|s.messages|] == s.messages;
    case Rejected(marker) =>
  }

  /**
   * One turn for `userId`. Only that user's session changes; its history grows by the
   * user's message and, when the turn completes, by the assistant's reply, which is
   * also the payload of the last frame. The model first sees the history ending with
   * the new user message.
   */
  function Turn(seed: string, sessions: map<string, Session>, userId: string, userMessage: string,
                decision: Decision, reply: string): (o: TurnOutcome)
    ensures o.sessions.Keys == sessions.Keys + {userId}
    ensures forall u :: u in sessions && u != userId ==> o.sessions[u] == sessions[u]
    ensures var before, after := Prior(seed, sessions, userId), o.sessions[userId];
      var asked := before.messages + [Message(User, userMessage)];
      1 <= |o.calls| <= 2 && o.calls[0] == ChatCompletion(asked) &&
      |after.messages| == |asked| + (if o.completed then 1 else 0) &&
      after.messages[..|asked|] == asked &&
      (o.completed ==>
         after.messages[|asked|].role == Assistant && o.frames != [] &&
         o.frames[|o.frames| - 1] == Frame(after.messages[|asked|].content)) &&
      (!o.completed ==> after.lastSequence == before.lastSequence)
  {
    var before := Prior(seed, sessions, userId);
    var current := sessions[userId := Session(before.messages + [Message(User, userMessage)], before.lastSequence)];
    var action := Dispatch(decision, userId, current, reply);
    var rest := Conclude(current, userId, action);
    ConcludeShape(current, userId, action);
    TurnOutcome(rest.sessions, rest.frames, [ChatCompletion(current[userId].messages)] + rest.calls, rest.completed)
  }

  /** A user's first turn starts from one system message and no sequence; that is what the model first sees. */
  lemma FirstTurnSeeds(seed: string, sessions: map<string, Session>, userId: string, userMessage: string,
                       decision: Decision, reply: string)
    requires userId !in sessions
    ensures var o := Turn(seed, sessions, userId, userMessage, decision, reply);
      o.calls[0] == ChatCompletion([Message(System, seed), Message(User, userMessage)]) &&
      o.sessions[userId].messages[..2] == [Message(System, seed), Message(User, userMessage)] &&
      (o.sessions[userId].lastSequence != None ==> |o.frames| == 3) &&
      (!o.completed || decision.PlainReply? || Marker(decision.name) == None ==>
         o.sessions[userId].lastSequence == None)
  {
  }

  /**
   * A plain reply or an unknown function streams the reply frame alone and leaves the stored
   * sequence as it was; the reply goes to history.
   */
  lemma TextTurnFrames(seed: string, sessions: map<string, Session>, userId: string, userMessage: string,
                       decision: Decision, reply: string)
    requires decision.PlainReply? || Marker(decision.name) == None
    ensures var o := Turn(seed, sessions, userId, userMessage, decision, reply);
      var text := if decision.PlainReply? then decision.content else UnknownFunctionReply(decision.name);
      o.completed && o.frames == [Frame(text)] && |o.calls| == 1 &&
      o.sessions[userId].lastSequence == Prior(seed, sessions, userId).lastSequence &&
      o.sessions[userId].messages == Prior(seed, sessions, userId).messages + [Message(User, userMessage), Message(Assistant, text)]
  {
  }

  /**
   * A known function streams its status marker, then the sequence data, then the reply.
   * The stored sequence becomes exactly the data payload (the empty one after an early
   * answer), and the reply recorded in history is the action's response, not its sequence.
   * If the call is rejected, the marker is all that is streamed.
   */
  lemma FunctionTurnFrames(seed: string, sessions: map<string, Session>, userId: string, userMessage: string,
                           name: string, args: Args, reply: string)
    requires Marker(name) != None
    ensures var o := Turn(seed, sessions, userId, userMessage, FunctionCall(name, args), reply);
      var asked := Prior(seed, sessions, userId).messages + [Message(User, userMessage)];
      var after := o.sessions[userId];
      if o.completed then
        after.lastSequence.Some? &&
        var a := Dispatch(FunctionCall(name, args), userId, sessions[userId := Session(asked, Prior(seed, sessions, userId).lastSequence)], reply);
        a.Ran? &&
        after.lastSequence.value == a.handled.result.sequence &&
        o.frames == [Frame(Marker(name).value), Frame(SequenceDataMarker + after.lastSequence.value),
                     Frame(a.handled.result.response)] &&
        after.messages == asked + [Message(Assistant, a.handled.result.response)] &&
        o.calls == [ChatCompletion(asked)] + Requests(a.handled)
      else
        o.frames == [Frame(Marker(name).value)] && after.messages == asked &&
        o.calls == [ChatCompletion(asked)]
  {
  }

  /**
   * A `generate_sequence` call with only the keywords it takes runs to the end: the
   * model's reply to the prompt on role, background and tone is streamed and stored as the
   * sequence, and the reply frame is the summary naming those three values.
   */
  lemma GenerateTurn(seed: string, sessions: map<string, Session>, userId: string, userMessage: string,
                     args: Args, reply: string)
    requires args.Keys <= GenerateParams
    ensures var o := Turn(seed, sessions, userId, userMessage, FunctionCall(GenerateName, args), reply);
      var role, background, tone := Arg(args, "role"), Arg(args, "background"), Arg(args, "tone");
      o.completed &&
      o.calls[1..] == [HandlerCompletion(GeneratePrompt(role, background, tone))] &&
      o.frames == [Frame(GeneratingMarker), Frame(SequenceDataMarker + reply),
                   Frame(GeneratedResponse(role, background, tone))] &&
      o.sessions[userId].lastSequence == Some(reply)
  {
    var role, background, tone := Arg(args, "role"), Arg(args, "background"), Arg(args, "tone");
    var before := Prior(seed, sessions, userId);
    var current := sessions[userId := Session(before.messages + [Message(User, userMessage)], before.lastSequence)];
    var h := GenerateSequence(role, background, tone, reply);
    assert Dispatch(FunctionCall(GenerateName, args), userId, current, reply) == Ran(GeneratingMarker, h);
  }

  /** Omitted arguments are empty: a call without arguments asks for and reports an all-empty request. */
  lemma GenerateWithoutArguments(seed: string, sessions: map<string, Session>, userId: string,
                                 userMessage: string, reply: string)
    ensures var o := Turn(seed, sessions, userId, userMessage, FunctionCall(GenerateName, map[]), reply);
      o.calls[1..] == [HandlerCompletion(GeneratePrompt("", "", ""))] &&
      o.frames[|o.frames| - 1] == Frame(GeneratedResponse("", "", ""))
  {
    var none: Args := map[];
    GenerateTurn(seed, sessions, userId, userMessage, none, reply);
    assert Arg(none, "role") == "" && Arg(none, "background") == "" && Arg(none, "tone") == "";
  }

  /**
   * Edit or delete of `[LAST]` with nothing usable stored answers at once: the model is
   * called for the decision only, the data frame is empty and the empty sequence is stored.
   */
  lemma NothingStoredMakesNoCall(seed: string, sessions: map<string, Session>, userId: string, userMessage: string,
                                 name: string, args: Args, reply: string)
    requires name == EditName || name == DeleteName
    requires args.Keys <= RevisionParams && Arg(args, "sequence") == LastSentinel
    requires NothingStored(Prior(seed, sessions, userId).lastSequence)
    ensures var o := Turn(seed, sessions, userId, userMessage, FunctionCall(name, args), reply);
      o.completed && |o.calls| == 1 &&
      o.frames == [Frame(Marker(name).value), Frame(SequenceDataMarker), Frame(NoPreviousSequence)] &&
      o.sessions[userId].lastSequence == Some("")
  {
    var bound := args["user_id" := userId];
    assert bound.Keys <= RevisionParams;
    assert SequenceDataMarker + "" == SequenceDataMarker;
  }

  /** A sequence generated in one turn is what an edit of `[LAST]` in the next turn sends to the model. */
  lemma EditAfterGenerate(seed: string, sessions: map<string, Session>, userId: string,
                          first: string, role: string, background: string, tone: string, generated: string,
                          second: string, instruction: string, edited: string)
    requires generated != ""
    ensures var genArgs := map["role" := role, "background" := background, "tone" := tone];
      var o1 := Turn(seed, sessions, userId, first, FunctionCall(GenerateName, genArgs), generated);
      var editArgs := map["sequence" := LastSentinel, "instruction" := instruction];
      var o2 := Turn(seed, o1.sessions, userId, second, FunctionCall(EditName, editArgs), edited);
      o1.completed && o2.completed &&
      o2.calls[1..] == [HandlerCompletion(EditPrompt(instruction, generated))] &&
      o2.sessions[userId].lastSequence == Some(edited)
  {
    var genArgs := map["role" := role, "background" := background, "tone" := tone];
    assert genArgs.Keys == GenerateParams;
    var o1 := Turn(seed, sessions, userId, first, FunctionCall(GenerateName, genArgs), generated);
    assert o1.sessions[userId].lastSequence == Some(generated);
    var editArgs := map["sequence" := LastSentinel, "instruction" := instruction];
    assert editArgs["user_id" := userId].Keys == RevisionParams;
    assert Arg(editArgs, "sequence") == LastSentinel;
  }

  // ---------------------------------------------------------------------------
  // Reset
  // ---------------------------------------------------------------------------

  /** The store after `/reset`: the user's session is gone, every other one is untouched. */
  function AfterReset(sessions: map<string, Session>, userId: string): (r: map<string, Session>)
    ensures userId !in r
    ensures forall u :: u != userId ==> (u in r <==> u in sessions)
    ensures forall u :: u in r ==> r[u] == sessions[u]
  {
    sessions - {userId}
  }

  /** Resetting twice is resetting once, and resetting an unknown user changes nothing. */
  lemma ResetIdempotent(sessions: map<string, Session>, userId: string)
    ensures AfterReset(AfterReset(sessions, userId), userId) == AfterReset(sessions, userId)
    ensures userId !in sessions ==> AfterReset(sessions, userId) == sessions
  {
  }

  /** After a reset the user's next turn is indistinguishable from a first-ever turn. */
  lemma ResetThenTurnIsFresh(seed: string, sessions: map<string, Session>, userId: string, userMessage: string,
                             decision: Decision, reply: string)
    ensures var o := Turn(seed, AfterReset(sessions, userId), userId, userMessage, decision, reply);
      var first := Turn(seed, map[], userId, userMessage, decision, reply);
      o.sessions[userId] == first.sessions[userId] && o.frames == first.frames &&
      o.calls == first.calls && o.completed == first.completed
  {
    var before := NewSession(seed);
    var asked := Session(before.messages + [Message(User, userMessage)], before.lastSequence);
    DispatchReadsOwnSession(decision, userId, AfterReset(sessions, userId)[userId := asked],
                            map[][userId := asked], reply);
  }

  // ---------------------------------------------------------------------------
  // The process-wide store
  // ---------------------------------------------------------------------------

  /**
   * The map from user id to session that the backend keeps for its lifetime, with the
   * system instructions every new session is seeded with. `remoteLog` records every
   * round trip to the model, in order.
   */
  class SessionStore {
    const seed: string
    var sessions: map<string, Session>
    ghost var remoteLog: seq<RemoteCall>

    /** A new process: no sessions, no calls made. */
    constructor (seed: string)
      ensures this.seed == seed && sessions == map[] && remoteLog == []
    {
      this.seed := seed;
      sessions := map[];
      remoteLog := [];
    }

    /** `POST /chat`: one turn, step by step, streaming its frames. */
    method Chat(userId: string, userMessage: string, decision: Decision, reply: string)
      returns (frames: seq<string>, completed: bool)
      modifies this
      ensures var o := Turn(seed, old(sessions), userId, userMessage, decision, reply);
        sessions == o.sessions && frames == o.frames && completed == o.completed &&
        remoteLog == old(remoteLog) + o.calls
    {
      RecordUserMessage(userId, userMessage);
      ghost var current := sessions;
      ghost var logged := remoteLog;
      frames, completed := Respond(userId, decision, reply);
      ghost var rest := Conclude(current, userId, Dispatch(decision, userId, current, reply));
      assert remoteLog == logged + rest.calls;
      assert Turn(seed, old(sessions), userId, userMessage, decision, reply) ==
        TurnOutcome(rest.sessions, rest.frames, [ChatCompletion(current[userId].messages)] + rest.calls, rest.completed);
    }

    /**
     * The opening of `POST /chat`: seed a session for a new user and append the user's
     * message (app.py:152-162), then the decision call on that history that opens the
     * stream (app.py:166-171).
     */
    method RecordUserMessage(userId: string, userMessage: string)
      modifies this
      ensures var before := Prior(seed, old(sessions), userId);
        var asked := before.messages + [Message(User, userMessage)];
        sessions == old(sessions)[userId := Session(asked, before.lastSequence)] &&
        remoteLog == old(remoteLog) + [ChatCompletion(asked)]
    {
      if userId !in sessions {
        sessions := sessions[userId := NewSession(seed)];
      }
      var session := sessions[userId];
      sessions := sessions[userId := session.(messages := session.messages + [Message(User, userMessage)])];
      remoteLog := remoteLog + [ChatCompletion(sessions[userId].messages)];
    }

    /** The turn once the user's message is recorded: dispatch, stream and record the outcome. */
    method Respond(userId: string, decision: Decision, reply: string) returns (frames: seq<string>, completed: bool)
      requires userId in sessions
      modifies this
      ensures var rest := Conclude(old(sessions), userId, Dispatch(decision, userId, old(sessions), reply));
        sessions == rest.sessions && frames == rest.frames && completed == rest.completed &&
        remoteLog == old(remoteLog) + rest.calls
    {
      ghost var action := Dispatch(decision, userId, sessions, reply);
      frames := [];
      var assistantReply: string;
      match decision {
        case PlainReply(content) =>
          assistantReply := content;
        case FunctionCall(name, args) =>
          if name == GenerateName {
            frames := frames + [Frame(GeneratingMarker)];
            if !(args.Keys <= GenerateParams) {
              completed := false;
              return;
            }
            var h := GenerateSequence(Arg(args, "role"), Arg(args, "background"), Arg(args, "tone"), reply);
            assert action == Ran(GeneratingMarker, h);
            StoreResult(userId, h);
            frames := frames + [Frame(SequenceDataMarker + h.result.sequence)];
            assistantReply := h.result.response;
          } else if name == EditName {
            frames := frames + [Frame(EditingMarker)];
            var bound := args["user_id" := userId];
            if !(bound.Keys <= RevisionParams) {
              completed := false;
              return;
            }
            var h := EditSequence(Arg(bound, "sequence"), Arg(bound, "instruction"), bound["user_id"], sessions, reply);
            assert action == Ran(EditingMarker, h);
            StoreResult(userId, h);
            frames := frames + [Frame(SequenceDataMarker + h.result.sequence)];
            assistantReply := h.result.response;
          } else if name == DeleteName {
            frames := frames + [Frame(DeletingMarker)];
            var bound := args["user_id" := userId];
            if !(bound.Keys <= RevisionParams) {
              completed := false;
              return;
            }
            var h := DeleteStep(Arg(bound, "sequence"), Arg(bound, "instruction"), bound["user_id"], sessions, reply);
            assert action == Ran(DeletingMarker, h);
            StoreResult(userId, h);
            frames := frames + [Frame(SequenceDataMarker + h.result.sequence)];
            assistantReply := h.result.response;
          } else {
            assistantReply := UnknownFunctionReply(name);
          }
      }
      var session := sessions[userId];
      sessions := sessions[userId := session.(messages := session.messages + [Message(Assistant, assistantReply)])];
      frames := frames + [Frame(assistantReply)];
      completed := true;
    }

    /** An action has run: its model call, if any, is logged and its sequence becomes the user's last one. */
    method StoreResult(userId: string, h: Handled)
      requires userId in sessions
      modifies this
      ensures sessions == old(sessions)[userId := old(sessions)[userId].(lastSequence := Some(h.result.sequence))]
      ensures remoteLog == old(remoteLog) + Requests(h)
    {
      remoteLog := remoteLog + Requests(h);
      sessions := sessions[userId := sessions[userId].(lastSequence := Some(h.result.sequence))];
    }

    /** `POST /reset`: forget the user's session if there is one. */
    method Reset(userId: string) returns (message: string)
      modifies this
      ensures sessions == AfterReset(old(sessions), userId) && remoteLog == old(remoteLog)
      ensures message == ResetReply
    {
      if userId in sessions {
        sessions := sessions - {userId};
      }
      message := ResetReply;
    }
  }
}
