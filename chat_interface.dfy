/**
 * The chat log of `ChatInterface`: the message list, the text box and the
 * selected document. Sending is refused when the text is blank after
 * `String.prototype.trim`; the simulated assistant reply, which the component
 * schedules with a one-second timer, is a separate step here.
 */
module ChatInterface {
  import opened Wrappers

  /**
   * The characters `String.prototype.trim` removes: the ECMAScript WhiteSpace
   * (tab, vertical tab, form feed, no-break space, byte-order mark and the
   * Unicode space separators) and LineTerminator code points.
   */
  predicate IsTrimmable(c: char) {
    || c == '\t' || c == '\n' || c == '\U{000B}' || c == '\U{000C}' || c == '\r' || c == ' '
    || c == '\U{00A0}' || c == '\U{1680}' || ('\U{2000}' <= c <= '\U{200A}')
    || c == '\U{2028}' || c == '\U{2029}' || c == '\U{202F}' || c == '\U{205F}' || c == '\U{3000}'
    || c == '\U{FEFF}'
  }

  /** Every character of `s` is one `trim` removes (vacuously so for ""). */
  predicate IsBlank(s: string) {
    forall i :: 0 <= i < |s| ==> IsTrimmable(s[i])
  }

  /** `s` without its leading trimmable characters. */
  function TrimStart(s: string): (r: string)
    ensures |r| <= |s| && r == s[|s| - |r|..]
    ensures IsBlank(s[..|s| - |r|])
    ensures r == [] || !IsTrimmable(r[0])
  {
    if s == [] || !IsTrimmable(s[0]) then s
    else
      var r := TrimStart(s[1..]);
      assert s[..|s| - |r|] == [s[0]] + s[1..][..|s| - 1 - |r|];
      r
  }

  /** `s` without its trailing trimmable characters. */
  function TrimEnd(s: string): (r: string)
    ensures |r| <= |s| && r == s[..|r|]
    ensures IsBlank(s[|r|..])
    ensures r == [] || !IsTrimmable(r[|r| - 1])
  {
    if s == [] || !IsTrimmable(s[|s| - 1]) then s
    else
      var r := TrimEnd(s[..|s| - 1]);
      assert s[|r|..] == s[..|s| - 1][|r|..] + [s[|s| - 1]];
      r
  }

  /** How many leading characters `trim` drops. */
  function LeadingBlanks(s: string): (n: nat)
    ensures n <= |s| && IsBlank(s[..n])
  {
    |s| - |TrimStart(s)|
  }

  /**
   * `String.prototype.trim`: the part of `s` left between a blank prefix and a
   * blank suffix, neither starting nor ending with a trimmable character.
   */
  function Trim(s: string): (r: string)
    ensures LeadingBlanks(s) + |r| <= |s|
    ensures r == s[LeadingBlanks(s)..LeadingBlanks(s) + |r|]
    ensures IsBlank(s[LeadingBlanks(s) + |r|..])
    ensures r == [] || (!IsTrimmable(r[0]) && !IsTrimmable(r[|r| - 1]))
  {
    var t := TrimStart(s);
    var r := TrimEnd(t);
    assert r != [] ==> r[0] == t[0];
    assert t[..|r|] == s[|s| - |t|..|s| - |t| + |r|];
    assert t[|r|..] == s[|s| - |t| + |r|..];
    r
  }

  /** A blank string is trimmed away entirely. */
  lemma {:induction false} BlankTrimsAway(s: string)
    requires IsBlank(s)
    ensures TrimStart(s) == []
  {
    if s != [] {
      assert IsTrimmable(s[0]);
      BlankTrimsAway(s[1..]);
    }
  }

  /** `!input.trim()` holds exactly for the blank inputs. */
  lemma {:induction false} TrimEmptyIffBlank(s: string)
    ensures Trim(s) == [] <==> IsBlank(s)
  {
    var t := TrimStart(s);
    assert t[0..] == t;
    if IsBlank(s) {
      BlankTrimsAway(s);
    }
  }

  datatype Role = User | Assistant

  /** A chat message; the timestamp is left out. */
  datatype Message = Message(id: int, role: Role, content: string)

  /** The reply scheduled by a send: the id it will carry, fixed from the list length at send time. */
  datatype PendingReply = PendingReply(id: int)

  const Greeting: string :=
    "Hi! I'm your AI study companion. I can help you understand your study materials, answer questions, and explain concepts. What would you like to learn about today?"

  const CannedReply: string :=
    "That's a great question! Based on your study materials, let me explain...\n\nBinary search trees (BST) are a fundamental data structure where each node has at most two children. The key property is that for any node, all values in its left subtree are smaller, and all values in its right subtree are larger.\n\nThis ordering property makes BSTs efficient for searching, with O(log n) average time complexity for balanced trees."

  const SuggestedQuestions: seq<string> := [
    "Explain binary search trees",
    "What is time complexity?",
    "Compare TCP vs UDP",
    "Summarize this chapter"]

  /** The document selector: clicking the selected document clears the selection, any other selects it. */
  function Toggled(selected: Option<string>, doc: string): (r: Option<string>)
    ensures selected == Some(doc) ==> r == None
    ensures selected != Some(doc) ==> r == Some(doc)
  {
    if selected == Some(doc) then None else Some(doc)
  }

  /** Two clicks on the same document restore its selection state, and leave no other document selected. */
  lemma {:induction false} ToggleTwice(selected: Option<string>, doc: string)
    ensures Toggled(Toggled(selected, doc), doc) == if selected == Some(doc) then selected else None
  {
  }

  /** The ids of a log in which every reply arrived before the next send: 1, 2, 3, ... */
  ghost predicate IdsArePositions(messages: seq<Message>) {
    forall i :: 0 <= i < |messages| ==> messages[i].id == i + 1
  }

  /** Appending the message whose id is the next position keeps ids equal to positions. */
  lemma AppendKeepsIds(messages: seq<Message>, m: Message)
    requires IdsArePositions(messages) && m.id == |messages| + 1
    ensures IdsArePositions(messages + [m])
  {
    forall i | 0 <= i < |messages| + 1
      ensures (messages + [m])[i].id == i + 1
    {
      if i < |messages| {
        assert (messages + [m])[i] == messages[i];
      }
    }
  }

  /** The log opens with the greeting. */
  ghost predicate StartsWithGreeting(messages: seq<Message>) {
    |messages| >= 1 && messages[0] == Message(1, Assistant, Greeting)
  }

  /** Appending keeps the opening message. */
  lemma AppendKeepsGreeting(messages: seq<Message>, m: Message)
    requires StartsWithGreeting(messages)
    ensures StartsWithGreeting(messages + [m])
  {
    assert (messages + [m])[0] == messages[0];
  }

  class ChatSession {
    var messages: seq<Message>
    var input: string
    var selectedDocument: Option<string>

    /** The component's initial state: the greeting, an empty text box, no document selected. */
    constructor()
      ensures messages == [Message(1, Assistant, Greeting)] && input == "" && selectedDocument == None
      ensures IdsArePositions(messages) && StartsWithGreeting(messages)
    {
      messages := [Message(1, Assistant, Greeting)];
      input := "";
      selectedDocument := None;
    }

    /** The text box's `onChange`. */
    method SetInput(text: string)
      modifies this
      ensures input == text && messages == old(messages) && selectedDocument == old(selectedDocument)
    {
      input := text;
    }

    /**
     * `handleSend`: a blank input changes nothing; otherwise the untrimmed input
     * is appended as a user message with id `length + 1`, the text box is
     * cleared, and a reply with id `length + 2` is scheduled.
     */
    method Send() returns (pending: Option<PendingReply>)
      modifies this
      ensures IsBlank(old(input)) ==>
        pending == None && messages == old(messages) && input == old(input)
      ensures !IsBlank(old(input)) ==>
        && messages == old(messages) + [Message(|old(messages)| + 1, User, old(input))]
        && input == ""
        && pending == Some(PendingReply(|old(messages)| + 2))
      ensures selectedDocument == old(selectedDocument)
      ensures IdsArePositions(old(messages)) ==> IdsArePositions(messages)
      ensures StartsWithGreeting(old(messages)) ==> StartsWithGreeting(messages)
    {
      TrimEmptyIffBlank(input);
      if Trim(input) == [] {
        return None;
      }
      var sentAt := |messages|;
      if IdsArePositions(messages) {
        AppendKeepsIds(messages, Message(sentAt + 1, User, input));
      }
      if StartsWithGreeting(messages) {
        AppendKeepsGreeting(messages, Message(sentAt + 1, User, input));
      }
      messages := messages + [Message(sentAt + 1, User, input)];
      input := "";
      pending := Some(PendingReply(sentAt + 2));
    }

    /** The timer firing: the reply is appended after whatever the list holds by then. */
    method DeliverReply(reply: PendingReply)
      modifies this
      ensures messages == old(messages) + [Message(reply.id, Assistant, CannedReply)]
      ensures input == old(input) && selectedDocument == old(selectedDocument)
      ensures IdsArePositions(old(messages)) && reply.id == |old(messages)| + 1 ==> IdsArePositions(messages)
      ensures StartsWithGreeting(old(messages)) ==> StartsWithGreeting(messages)
    {
      if IdsArePositions(messages) && reply.id == |messages| + 1 {
        AppendKeepsIds(messages, Message(reply.id, Assistant, CannedReply));
      }
      if StartsWithGreeting(messages) {
        AppendKeepsGreeting(messages, Message(reply.id, Assistant, CannedReply));
      }
      messages := messages + [Message(reply.id, Assistant, CannedReply)];
    }

    /** `handleKeyPress`: Enter without Shift sends; any other key does nothing here. */
    method KeyPress(key: string, shiftKey: bool) returns (pending: Option<PendingReply>)
      modifies this
      ensures !(key == "Enter" && !shiftKey) ==>
        pending == None && messages == old(messages) && input == old(input)
      ensures key == "Enter" && !shiftKey && !IsBlank(old(input)) ==>
        && messages == old(messages) + [Message(|old(messages)| + 1, User, old(input))]
        && input == "" && pending == Some(PendingReply(|old(messages)| + 2))
      ensures key == "Enter" && !shiftKey && IsBlank(old(input)) ==>
        pending == None && messages == old(messages) && input == old(input)
      ensures selectedDocument == old(selectedDocument)
    {
      pending := None;
      if key == "Enter" && !shiftKey {
        pending := Send();
      }
    }

    /** A click on a document badge. */
    method ToggleDocument(doc: string)
      modifies this
      ensures selectedDocument == Toggled(old(selectedDocument), doc)
      ensures messages == old(messages) && input == old(input)
    {
      selectedDocument := Toggled(selectedDocument, doc);
    }

    /** A click on a suggested question: it replaces the text box's content. */
    method PickSuggestion(k: nat)
      requires k < |SuggestedQuestions|
      modifies this
      ensures input == SuggestedQuestions[k]
      ensures messages == old(messages) && selectedDocument == old(selectedDocument)
    {
      input := SuggestedQuestions[k];
    }

    /** The Send button is enabled exactly when a send would append a message. */
    function SendEnabled(): (b: bool)
      reads this
      ensures b <==> !IsBlank(input)
    {
      TrimEmptyIffBlank(input);
      Trim(input) != []
    }

    /** The suggestions are shown while the greeting is the only message. */
    function ShowsSuggestions(): (b: bool)
      reads this
      ensures b <==> |messages| == 1
      ensures StartsWithGreeting(messages) ==> (b <==> messages == [Message(1, Assistant, Greeting)])
    {
      |messages| == 1
    }
  }

  /**
   * Two sends before the first reply arrives give two messages the same id:
   * the second user message and the first reply both get 3.
   */
  method InterleavedSendsShareAnId(first: string, second: string) returns (log: seq<Message>)
    requires !IsBlank(first) && !IsBlank(second)
    ensures log == [Message(1, Assistant, Greeting), Message(2, User, first),
                    Message(3, User, second), Message(3, Assistant, CannedReply)]
  {
    var chat := new ChatSession();
    chat.SetInput(first);
    var firstReply := chat.Send();
    chat.SetInput(second);
    var secondReply := chat.Send();
    chat.DeliverReply(firstReply.value);
    log := chat.messages;
  }
}
