/** The chat screen (src/pages/Dashboard.tsx): an append-only transcript,
    the input text and a loading flag, with the greeting effect and the
    submit handler. */
module Dashboard {
  import opened Types
  import AuthProvider

  /** A transcript entry; the `Date.now()` id is not modelled. */
  datatype Message = Message(text: string, isUser: bool)

  datatype Chat = Chat(messages: seq<Message>, input: string, isLoading: bool)

  const InitialChat := Chat([], "", false)

  /** The characters `String.prototype.trim` removes: ECMAScript white
      space (tab, vertical tab, form feed, space, no-break space, byte
      order mark and the other space separators) and line terminators. */
  predicate IsWhiteSpace(c: char)
  {
    || c == '\t' || c == '\U{000B}' || c == '\U{000C}' || c == ' ' || c == '\U{00A0}' || c == '\U{FEFF}'
    || c == '\U{1680}' || ('\U{2000}' <= c <= '\U{200A}') || c == '\U{202F}' || c == '\U{205F}' || c == '\U{3000}'
    || c == '\n' || c == '\r' || c == '\U{2028}' || c == '\U{2029}'
  }

  function TrimStart(s: string): (r: string)
    ensures |r| <= |s|
    ensures r == s[|s| - |r|..]
    ensures r != [] ==> !IsWhiteSpace(r[0])
    ensures forall i :: 0 <= i < |s| - |r| ==> IsWhiteSpace(s[i])
  {
    if s != [] && IsWhiteSpace(s[0]) then TrimStart(s[1..]) else s
  }

  function TrimEnd(s: string): (r: string)
    ensures |r| <= |s|
    ensures r == s[..|r|]
    ensures r != [] ==> !IsWhiteSpace(r[|r| - 1])
    ensures forall i :: |r| <= i < |s| ==> IsWhiteSpace(s[i])
  {
    if s != [] && IsWhiteSpace(s[|s| - 1]) then TrimEnd(s[..|s| - 1]) else s
  }

  /** `s.trim()`. */
  function Trim(s: string): (r: string)
    ensures |r| <= |s|
    ensures r != [] ==> !IsWhiteSpace(r[0]) && !IsWhiteSpace(r[|r| - 1])
    ensures exists k :: TrimmedAt(s, r, k)
  {
    var t := TrimStart(s);
    var k := |s| - |t|;
    assert forall i :: k + |TrimEnd(t)| <= i < |s| ==> s[i] == t[i - k];
    assert TrimmedAt(s, TrimEnd(t), k);
    TrimEnd(t)
  }

  /** `r` is the part of `s` starting at offset `k`, and everything of `s`
      before and after it is white space. */
  predicate TrimmedAt(s: string, r: string, k: nat)
  {
    && k + |r| <= |s|
    && r == s[k..k + |r|]
    && (forall i :: 0 <= i < k ==> IsWhiteSpace(s[i]))
    && (forall i :: k + |r| <= i < |s| ==> IsWhiteSpace(s[i]))
  }

  /** The submit guard (a trimmed input that is empty) holds exactly for text made only of white space. */
  lemma {:induction false} TrimEmptyIffBlank(s: string)
    ensures Trim(s) == "" <==> forall i :: 0 <= i < |s| ==> IsWhiteSpace(s[i])
  {
    TrimStartEmptyIffBlank(s);
    TrimEndEmptyIffBlank(TrimStart(s));
    if TrimStart(s) != "" {
      assert !IsWhiteSpace(TrimStart(s)[0]);
    }
  }

  lemma {:induction false} TrimStartEmptyIffBlank(s: string)
    ensures TrimStart(s) == "" <==> forall i :: 0 <= i < |s| ==> IsWhiteSpace(s[i])
    decreases |s|
  {
    if s != [] && IsWhiteSpace(s[0]) {
      TrimStartEmptyIffBlank(s[1..]);
      assert forall i :: 1 <= i < |s| ==> s[i] == s[1..][i - 1];
    }
  }

  lemma {:induction false} TrimEndEmptyIffBlank(s: string)
    ensures TrimEnd(s) == "" <==> forall i :: 0 <= i < |s| ==> IsWhiteSpace(s[i])
    decreases |s|
  {
    if s != [] && IsWhiteSpace(s[|s| - 1]) {
      TrimEndEmptyIffBlank(s[..|s| - 1]);
      assert forall i :: 0 <= i < |s| - 1 ==> s[i] == s[..|s| - 1][i];
    }
  }

  /** The greeting text for a signed-in user. */
  function Greeting(name: string): (r: string)
    ensures |r| > |name| + 3
    ensures r[..3] == "Hi " && r[3..3 + |name|] == name
  {
    "Hi " + name + "! \U{1F44B} I'm your mood-boosting companion. How are you feeling today?"
  }

  /** The greeting effect: an empty transcript of a signed-in user becomes
      the greeting alone; anything else is left as it is. */
  function GreetStep(c: Chat, user: Option<User>): (d: Chat)
    ensures d.input == c.input && d.isLoading == c.isLoading
    ensures c.messages == [] && user.Some? ==> d.messages == [Message(Greeting(user.value.name), false)]
    ensures c.messages != [] || user.None? ==> d == c
  {
    if |c.messages| == 0 && user.Some? then c.(messages := [Message(Greeting(user.value.name), false)]) else c
  }

  /** After a submit: the chat, the store, and the text sent to the chat
      endpoint (None when nothing was sent). */
  datatype Submitted = Submitted(chat: Chat, auth: AuthProvider.AuthState, sent: Option<string>)

  /** `handleSubmit`. A blank input does nothing. Otherwise the raw input is
      appended as the user's message and sent, the input is cleared, and,
      when the reply arrives, it is appended after it and one API call is
      counted against the user. A failed request appends nothing.
      Loading ends either way. */
  function SubmitStep(c: Chat, auth: AuthProvider.AuthState, reply: Outcome<string>): (r: Submitted)
    ensures Trim(c.input) == "" ==> r == Submitted(c, auth, None)
    ensures Trim(c.input) != "" ==>
              && r.sent == Some(c.input)
              && r.chat.input == "" && !r.chat.isLoading
              && |r.chat.messages| > |c.messages|
              && r.chat.messages[..|c.messages|] == c.messages
              && r.chat.messages[|c.messages|] == Message(c.input, true)
    ensures Trim(c.input) != "" && reply.Success? ==>
              && r.chat.messages == c.messages + [Message(c.input, true), Message(reply.data, false)]
              && r.auth == AuthProvider.IncrementStep(auth).state
    ensures Trim(c.input) != "" && reply.Failure? ==>
              r.chat.messages == c.messages + [Message(c.input, true)] && r.auth == auth
  {
    if Trim(c.input) == "" then Submitted(c, auth, None)
    else
      var withQuestion := c.messages + [Message(c.input, true)];
      match reply
      case Success(text) =>
        var counted := AuthProvider.IncrementStep(auth);
        Submitted(Chat(withQuestion + [Message(text, false)], "", false), counted.state, Some(c.input))
      case Failure(_) =>
        Submitted(Chat(withQuestion, "", false), auth, Some(c.input))
  }

  /** The transcript only grows: neither effect removes or rewrites an
      earlier message. */
  lemma TranscriptIsAppendOnly(c: Chat, user: Option<User>, auth: AuthProvider.AuthState, reply: Outcome<string>)
    ensures c.messages <= GreetStep(c, user).messages
    ensures c.messages <= SubmitStep(c, auth, reply).chat.messages
  {
  }

  /** The call limit does not withhold the reply: a user already at the
      limit still gets the bot's answer appended, and only `error` records
      that the limit was reached. */
  lemma LimitDoesNotBlockReply(c: Chat, auth: AuthProvider.AuthState, text: string)
    requires Trim(c.input) != ""
    requires auth.user.Some? && AuthProvider.CallsOf(auth) >= AuthProvider.ApiCallLimit
    ensures SubmitStep(c, auth, Success(text)).chat.messages[|c.messages| + 1] == Message(text, false)
    ensures SubmitStep(c, auth, Success(text)).auth.user == auth.user
    ensures SubmitStep(c, auth, Success(text)).auth.error == Some(AuthProvider.LimitReachedMessage)
  {
  }

  class ChatPanel {
    var messages: seq<Message>
    var input: string
    var isLoading: bool

    function ChatState(): Chat
      reads this
    {
      Chat(messages, input, isLoading)
    }

    constructor ()
      ensures ChatState() == InitialChat
    {
      messages := [];
      input := "";
      isLoading := false;
    }

    method HandleChange(text: string)
      modifies this
      ensures ChatState() == old(ChatState()).(input := text)
    {
      input := text;
    }

    method Greet(user: Option<User>)
      modifies this
      ensures ChatState() == GreetStep(old(ChatState()), user)
    {
      if |messages| == 0 && user.Some? {
        messages := [Message(Greeting(user.value.name), false)];
      }
    }

    method HandleSubmit(auth: AuthProvider.AuthStore, reply: Outcome<string>) returns (sent: Option<string>)
      modifies this, auth
      ensures Submitted(ChatState(), auth.State(), sent) == SubmitStep(old(ChatState()), old(auth.State()), reply)
    {
      if Trim(input) == "" {
        return None;
      }
      var text := input;
      messages := messages + [Message(text, true)];
      input := "";
      isLoading := true;
      sent := Some(text);
      match reply {
        case Success(answer) =>
          messages := messages + [Message(answer, false)];
          var counted := auth.IncrementApiCalls();
          if !counted {
            isLoading := false;
            return;
          }
        case Failure(_) =>
      }
      isLoading := false;
    }
  }
}
