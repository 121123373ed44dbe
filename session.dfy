/**
 * One browser session of the chatbot: the session-state slot holding the
 * transcript, its once-only seeding, the chat-window rendering and the submit
 * step that appends the prompt, asks the remote model and appends the reply
 * or pops the prompt again.
 */
module ChatSession {
  import opened Wrappers
  import opened Transcript

  /** What is handed to the remote model: the full history and the message to answer. */
  datatype Request = Request(history: seq<Turn>, message: string)

  /** The remote model either answers with a text or raises. */
  datatype Outcome = Reply(text: string) | Failure(error: string)

  /** One chat bubble on screen: the avatar it is drawn under and its text. */
  datatype Bubble = Bubble(avatar: string, text: string)

  const UserAvatar: string := "user"
  const AssistantAvatar: string := "assistant"

  /** Python truthiness of the prompt box's value: absent and empty are false. */
  predicate Truthy(prompt: Option<string>) {
    prompt.Some? && prompt.value != ""
  }

  /** The bubble drawn for a shown entry. */
  function BubbleFor(t: Turn): Bubble
    requires |t.parts| > 0
  {
    Bubble(if t.role == UserRole then UserAvatar else AssistantAvatar, t.parts[0])
  }

  /** `bubbles` is what the chat window draws for transcript `m`. */
  predicate RendersAs(bubbles: seq<Bubble>, m: seq<Turn>)
    requires AllDisplayable(m)
  {
    var v := Visible(m);
    |bubbles| == |v| &&
    forall i | 0 <= i < |v| :: |v[i].parts| > 0 && bubbles[i] == BubbleFor(v[i])
  }

  /** The display loop over the stored transcript. */
  method Display(m: seq<Turn>) returns (bubbles: seq<Bubble>)
    requires AllDisplayable(m)
    ensures RendersAs(bubbles, m)
  {
    bubbles := [];
    var k := 0;
    while k < |m|
      invariant 0 <= k <= |m|
      invariant AllDisplayable(m[..k])
      invariant RendersAs(bubbles, m[..k])
    {
      var t := m[k];
      assert m[..k + 1] == m[..k] + [t];
      VisibleAppend(m[..k], [t]);
      if t.role == UserRole {
        bubbles := bubbles + [Bubble(UserAvatar, t.parts[0])];
      } else if t.role == ModelRole && t.parts[0] != Acknowledgement {
        bubbles := bubbles + [Bubble(AssistantAvatar, t.parts[0])];
      }
      k := k + 1;
    }
    assert m[..k] == m;
  }

  /**
   * The per-session state slot. `messages` is None until the first run seeds it.
   * In the program the stored list is the seed constant's own list object, so
   * later appends also change that constant; here the transcript is a value.
   */
  class SessionState {
    var messages: Option<seq<Turn>>

    ghost predicate Valid()
      reads this
    {
      messages.Some? ==> AllWellFormed(messages.value)
    }

    /** A fresh session holds no transcript yet. */
    constructor ()
      ensures Valid() && messages == None
    {
      messages := None;
    }

    /** Seeds the transcript when it is absent and leaves an existing one alone. */
    method InitMessages()
      requires Valid()
      modifies this
      ensures Valid() && messages.Some?
      ensures old(messages) == None ==> messages == Some(InitialContext)
      ensures old(messages).Some? ==> messages == old(messages)
    {
      if messages.None? {
        messages := Some(InitialContext);
      }
    }

    /**
     * Handles one prompt. A falsy prompt changes nothing and sends nothing.
     * Otherwise the prompt's user entry is appended, the whole transcript is
     * projected into the request history, the same prompt is sent as the
     * message, and the reply is appended or, on failure, the last entry popped.
     */
    method Submit(prompt: Option<string>, remote: Request -> Outcome) returns (sent: Option<Request>)
      requires Valid() && messages.Some?
      modifies this
      ensures Valid() && messages.Some?
      ensures !Truthy(prompt) ==> sent == None && messages == old(messages)
      ensures Truthy(prompt) ==>
        sent == Some(Request(Project(old(messages.value) + [UserTurn(prompt.value)]), prompt.value))
      ensures Truthy(prompt) && remote(sent.value).Reply? ==>
        messages.value == old(messages.value) + [UserTurn(prompt.value), ModelTurn(remote(sent.value).text)]
      ensures Truthy(prompt) && remote(sent.value).Failure? ==> messages == old(messages)
    {
      sent := None;
      if Truthy(prompt) {
        var text := prompt.value;
        var before := messages.value;
        messages := Some(messages.value + [UserTurn(text)]);
        var request := Request(Project(messages.value), text);
        sent := Some(request);
        match remote(request)
        case Reply(answer) =>
          messages := Some(messages.value + [ModelTurn(answer)]);
          assert messages.value == before + [UserTurn(text), ModelTurn(answer)];
        case Failure(_) =>
          messages := Some(Pop(messages.value));
      }
    }

    /**
     * One run of the script for one user action: seed if needed, draw the
     * stored transcript, then handle the prompt.
     */
    method Run(prompt: Option<string>, remote: Request -> Outcome) returns (shown: seq<Bubble>, sent: Option<Request>)
      requires Valid()
      modifies this
      ensures Valid() && messages.Some?
      ensures var before := if old(messages).Some? then old(messages).value else InitialContext;
        AllDisplayable(before) && RendersAs(shown, before)
      ensures var before := if old(messages).Some? then old(messages).value else InitialContext;
        if !Truthy(prompt) then sent == None && messages == Some(before)
        else
          var request := Request(Project(before + [UserTurn(prompt.value)]), prompt.value);
          sent == Some(request) &&
          match remote(request)
          case Reply(answer) => messages == Some(before + [UserTurn(prompt.value), ModelTurn(answer)])
          case Failure(_) => messages == Some(before)
    {
      InitMessages();
      WellFormedDisplayable(messages.value);
      shown := Display(messages.value);
      sent := Submit(prompt, remote);
    }
  }
}
