/**
 * The secure chat panel (components/ChatModule.tsx): a transcript and an
 * input line, and the send action that moves the input into the transcript.
 *
 * The message id and the time stamp the source derives from the clock are
 * parameters of `HandleSend`.
 */
module Chat {
  import opened Types

  /** The characters `String.prototype.trim` removes: ECMAScript white space and line terminators. */
  predicate IsWhiteSpace(c: char)
  {
    || c == '\t' || c == '\n' || c == '\U{000B}' || c == '\U{000C}' || c == '\r' || c == ' '
    || c == '\U{00A0}' || c == '\U{1680}' || ('\U{2000}' <= c <= '\U{200A}')
    || c == '\U{2028}' || c == '\U{2029}' || c == '\U{202F}' || c == '\U{205F}'
    || c == '\U{3000}' || c == '\U{FEFF}'
  }

  predicate IsBlank(s: string)
  {
    forall i :: 0 <= i < |s| ==> IsWhiteSpace(s[i])
  }

  /** `s` without its leading white space. */
  function TrimStart(s: string): (r: string)
    ensures |r| <= |s| && r == s[|s| - |r|..]
    ensures IsBlank(s[..|s| - |r|])
    ensures r == [] || !IsWhiteSpace(r[0])
  {
    if s != [] && IsWhiteSpace(s[0]) then
      var r := TrimStart(s[1..]);
      assert s[|s| - |r|..] == s[1..][|s[1..]| - |r|..];
      var lead := s[..|s| - |r|];
      assert IsBlank(lead) by {
        forall i | 0 <= i < |lead| ensures IsWhiteSpace(lead[i]) {
          if i > 0 {
            assert lead[i] == s[1..][..|s[1..]| - |r|][i - 1];
          }
        }
      }
      r
    else s
  }

  /** `s` without its trailing white space. */
  function TrimEnd(s: string): (r: string)
    ensures |r| <= |s| && r == s[..|r|]
    ensures IsBlank(s[|r|..])
    ensures r == [] || !IsWhiteSpace(r[|r| - 1])
  {
    if s != [] && IsWhiteSpace(s[|s| - 1]) then
      var r := TrimEnd(s[..|s| - 1]);
      assert s[..|r|] == s[..|s| - 1][..|r|];
      var trail := s[|r|..];
      assert IsBlank(trail) by {
        forall i | 0 <= i < |trail| ensures IsWhiteSpace(trail[i]) {
          if i < |trail| - 1 {
            assert trail[i] == s[..|s| - 1][|r|..][i];
          }
        }
      }
      r
    else s
  }

  /** A prefix of a suffix of `s` is a slice of `s`, and what follows it in the suffix follows it in `s`. */
  lemma SliceOfSuffix(s: string, t: string, r: string, k: nat)
    requires k <= |s| && t == s[k..] && |r| <= |t| && r == t[..|r|]
    ensures r == s[k..k + |r|] && s[k + |r|..] == t[|r|..]
  {
  }

  /** `s.trim()`: the part of `s` between its leading and its trailing white space. */
  function Trim(s: string): (r: string)
    ensures |r| <= |s|
    ensures r == [] || (!IsWhiteSpace(r[0]) && !IsWhiteSpace(r[|r| - 1]))
  {
    var t := TrimStart(s);
    var r := TrimEnd(t);
    assert r == [] || r[0] == t[0];
    r
  }

  /** Trimming keeps one contiguous run of the input, with only white space before and after it. */
  lemma TrimKeepsMiddle(s: string)
    ensures var r := Trim(s);
              exists k :: 0 <= k <= |s| - |r| && r == s[k..k + |r|] && IsBlank(s[..k]) && IsBlank(s[k + |r|..])
  {
    var t := TrimStart(s);
    var r := TrimEnd(t);
    var k := |s| - |t|;
    SliceOfSuffix(s, t, r, k);
    assert 0 <= k <= |s| - |r| && r == s[k..k + |r|] && IsBlank(s[..k]) && IsBlank(s[k + |r|..]);
  }

  /** The trimmed input is empty exactly when every character of the input is white space. */
  lemma TrimEmptyIffBlank(s: string)
    ensures Trim(s) == [] <==> IsBlank(s)
  {
  }

  /** Whether the transcript shows `msg` as the user's own (right-aligned, blue). */
  predicate IsOwn(msg: Message, user: User)
  {
    msg.sender == user.name
  }

  /** None of the three seeded messages belongs to the current user. */
  lemma MockMessagesNotOwn()
    ensures forall i :: 0 <= i < |MockMessages| ==> !IsOwn(MockMessages[i], CurrentUser)
  {
  }

  /** The chat panel's two state fields, for the user it is opened for. */
  class ChatModule {
    const user: User
    var messages: seq<Message>
    var input: string

    constructor (user: User)
      ensures this.user == user
      ensures messages == MockMessages && input == ""
    {
      this.user := user;
      messages := MockMessages;
      input := "";
    }

    /** Typing into the input line. */
    method SetInput(text: string)
      modifies this
      ensures input == text && messages == old(messages)
    {
      input := text;
    }

    /**
     * Sending: a blank input changes nothing; otherwise one message holding
     * the input verbatim, from the user, encrypted, on the General channel,
     * is appended and the input is cleared.
     */
    method HandleSend(id: string, timestamp: string)
      modifies this
      ensures IsBlank(old(input)) ==> messages == old(messages) && input == old(input)
      ensures !IsBlank(old(input)) ==>
                && messages == old(messages) + [Message(id, user.name, old(input), timestamp, true, "General")]
                && input == ""
      ensures !IsBlank(old(input)) ==> |messages| == |old(messages)| + 1 && IsOwn(messages[|messages| - 1], user)
    {
      TrimEmptyIffBlank(input);
      if Trim(input) == [] {
        return;
      }
      var newMessage := Message(id, user.name, input, timestamp, true, "General");
      messages := messages + [newMessage];
      input := "";
    }
  }
}
