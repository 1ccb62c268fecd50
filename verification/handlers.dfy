/**
 * The three actions the language model can ask for: generate an outreach
 * sequence, edit one, delete a step from one. Each builds a prompt, sends it
 * to the hosted model and shapes a `{sequence, response}` result. The
 * model's reply to the prompt is an input (`reply`); the prompt is kept as a
 * structured value recording what it embeds, and `request` records the call
 * made (`None` when the action answers without calling the model).
 */
module Handlers {
  import opened Wrappers
  import opened Sessions

  /** The argument value that stands for "the sequence last produced for this user". */
  const LastSentinel: string := "[LAST]"
  const NoPreviousSequence: string := "No previous sequence found to edit."

  /** A prompt sent to the model, by the fields its text embeds (the surrounding wording is fixed). */
  datatype Prompt =
    | GeneratePrompt(role: string, background: string, tone: string)
    | EditPrompt(instruction: string, sequence: string)
    | DeletePrompt(instruction: string, sequence: string)

  /** The `{sequence, response}` dictionary an action returns. */
  datatype SequenceResult = SequenceResult(sequence: string, response: string)

  /** An action's result and the prompt it sent to the model, if it sent one. */
  datatype Handled = Handled(result: SequenceResult, request: Option<Prompt>)

  function GeneratedResponse(role: string, background: string, tone: string): string {
    "Generated sequence for a " + role + " role for candidate(s) with the following background: " +
    background + ", using a " + tone + " tone."
  }

  const EditedPrefix: string := "Sequence has been edited according to your instruction: "
  const DeletedPrefix: string := "A step has been deleted from the sequence according to your instruction: "

  function EditedResponse(instruction: string): string {
    EditedPrefix + instruction
  }

  function DeletedResponse(instruction: string): string {
    DeletedPrefix + instruction
  }

  /** Nothing usable is stored: no sequence yet, or the empty one. */
  predicate NothingStored(stored: Option<string>) {
    stored == None || stored == Some("")
  }

  /**
   * The sequence an edit or a deletion works on: the argument itself, unless it is
   * the sentinel, in which case the user's stored sequence (`None` if nothing usable is stored).
   */
  function Target(sequence: string, userId: string, sessions: map<string, Session>): (t: Option<string>)
    requires sequence == LastSentinel ==> userId in sessions
    ensures sequence != LastSentinel ==> t == Some(sequence)
    ensures sequence == LastSentinel ==>
      (t == None <==> NothingStored(sessions[userId].lastSequence)) &&
      (t != None ==> t == sessions[userId].lastSequence)
  {
    if sequence == LastSentinel then
      match sessions[userId].lastSequence
      case None => None
      case Some(stored) => if stored == "" then None else Some(stored)
    else Some(sequence)
  }

  /**
   * `generate_sequence`: one call to the model with a prompt embedding role, background and
   * tone; the sequence is the model's reply, the response the fixed summary of the request.
   */
  function GenerateSequence(role: string, background: string, tone: string, reply: string): (h: Handled)
    ensures h.request == Some(GeneratePrompt(role, background, tone))
    ensures h.result.sequence == reply
    ensures h.result.response ==
      "Generated sequence for a " + role + " role for candidate(s) with the following background: " +
      background + ", using a " + tone + " tone."
  {
    Handled(SequenceResult(reply, GeneratedResponse(role, background, tone)), Some(GeneratePrompt(role, background, tone)))
  }

  /**
   * `edit_sequence`: the sentinel stands for the stored sequence; with nothing stored the
   * action answers at once without calling the model. Any other argument, the empty one
   * included, is edited as given.
   */
  function EditSequence(sequence: string, instruction: string, userId: string,
                        sessions: map<string, Session>, reply: string): (h: Handled)
    requires sequence == LastSentinel ==> userId in sessions
    ensures sequence != LastSentinel ==> h.request == Some(EditPrompt(instruction, sequence))
    ensures sequence == LastSentinel ==> var stored := sessions[userId].lastSequence;
      if NothingStored(stored) then h == Handled(SequenceResult("", NoPreviousSequence), None)
      else h.request == Some(EditPrompt(instruction, stored.value))
    ensures h.request != None ==> h.result == SequenceResult(reply, EditedResponse(instruction))
  {
    match Target(sequence, userId, sessions)
    case None => Handled(SequenceResult("", NoPreviousSequence), None)
    case Some(target) => Handled(SequenceResult(reply, EditedResponse(instruction)), Some(EditPrompt(instruction, target)))
  }

  /**
   * `delete_step`: the same sentinel substitution and the same early answer (with the
   * same wording) when nothing is stored; otherwise one call to the model.
   */
  function DeleteStep(sequence: string, instruction: string, userId: string,
                      sessions: map<string, Session>, reply: string): (h: Handled)
    requires sequence == LastSentinel ==> userId in sessions
    ensures sequence != LastSentinel ==> h.request == Some(DeletePrompt(instruction, sequence))
    ensures sequence == LastSentinel ==> var stored := sessions[userId].lastSequence;
      if NothingStored(stored) then h == Handled(SequenceResult("", NoPreviousSequence), None)
      else h.request == Some(DeletePrompt(instruction, stored.value))
    ensures h.request != None ==> h.result == SequenceResult(reply, DeletedResponse(instruction))
  {
    match Target(sequence, userId, sessions)
    case None => Handled(SequenceResult("", NoPreviousSequence), None)
    case Some(target) => Handled(SequenceResult(reply, DeletedResponse(instruction)), Some(DeletePrompt(instruction, target)))
  }
}
