/** The tutor chat of the main application (src/components/AIChat.tsx): the
    light-weight markdown rendering of a message, and the steps of sending a
    message around the request to the chat service. */
module AIChat {
  import opened Common
  import opened Text

  /** The characters a regular-expression `.` does not match. */
  predicate IsLineTerminator(c: char) {
    c == '\n' || c == '\r' || c == '\U{2028}' || c == '\U{2029}'
  }

  predicate NoLineBreak(s: string) {
    forall k :: 0 <= k < |s| ==> !IsLineTerminator(s[k])
  }

  /** The delimiter `d` occurs in `s` at position `k`. */
  predicate DelimAt(s: string, k: int, d: string) {
    0 <= k && k + |d| <= |s| && s[k..k + |d|] == d
  }

  /** The lazy `(.*?)` followed by the closing delimiter `d`, tried from
      position `j`: the first `d` at or after `j` with no line terminator
      before it, and none when every `d` on the rest of the line is missing. */
  function CloseFrom(s: string, j: nat, d: string): (r: Option<nat>)
    requires j <= |s|
    ensures r.Some? ==> j <= r.value && DelimAt(s, r.value, d)
    ensures r.Some? ==> NoLineBreak(s[j..r.value])
    ensures r.Some? ==> forall k :: j <= k < r.value ==> !DelimAt(s, k, d)
    ensures r.None? ==> forall k :: j <= k <= |s| && NoLineBreak(s[j..k]) ==> !DelimAt(s, k, d)
    decreases |s| - j
  {
    if DelimAt(s, j, d) then Some(j)
    else if j < |s| && !IsLineTerminator(s[j]) then
      var r := CloseFrom(s, j + 1, d);
      assert r.Some? ==> s[j..r.value] == [s[j]] + s[j + 1..r.value];
      assert forall k :: j < k <= |s| ==> s[j..k] == [s[j]] + s[j + 1..k];
      r
    else
      assert forall k :: j < k <= |s| ==> s[j..k][0] == s[j];
      None
  }

  /** The first `d` after a stretch of ordinary characters is where the lazy
      match closes. */
  lemma {:induction false} CloseFromPlain(s: string, j: nat, m: nat, d: string)
    requires j <= m && m + |d| <= |s| && s[m..m + |d|] == d && |d| > 0
    requires forall k :: j <= k < m ==> s[k] != d[0] && !IsLineTerminator(s[k])
    ensures CloseFrom(s, j, d) == Some(m)
    decreases m - j
  {
    if j < m {
      assert s[j..j + |d|][0] == s[j];
      CloseFromPlain(s, j + 1, m, d);
    }
  }

  /** One global `replace(/D(.*?)D/g, open + "$1" + close)`: scanning from the
      left, a delimiter that has a closing one later on the same line is
      rewritten together with it, and anything else is copied. */
  function ReplacePairs(s: string, d: string, open: string, close: string): string
    requires |d| > 0
    decreases |s|
  {
    if |s| >= |d| && s[..|d|] == d && CloseFrom(s, |d|, d).Some? then
      var j := CloseFrom(s, |d|, d).value;
      open + s[|d|..j] + close + ReplacePairs(s[j + |d|..], d, open, close)
    else if s == [] then []
    else [s[0]] + ReplacePairs(s[1..], d, open, close)
  }

  /** Text without the delimiter's first character goes through untouched. */
  lemma {:induction false} ReplacePairsAbsent(s: string, d: string, open: string, close: string)
    requires |d| > 0 && d[0] !in s
    ensures ReplacePairs(s, d, open, close) == s
  {
    if s != [] {
      assert |s| >= |d| ==> s[..|d|][0] == s[0];
      ReplacePairsAbsent(s[1..], d, open, close);
    }
  }

  /** A lone `*` at the end of star-free text opens no `**` pair. */
  lemma {:induction false} BoldSkipsLastStar(u: string)
    requires '*' !in u
    ensures ReplacePairs(u + "*", "**", "<strong>", "</strong>") == u + "*"
  {
    if u != [] {
      var t := u + "*";
      assert t[..2][0] == u[0];
      assert t[1..] == u[1..] + "*";
      BoldSkipsLastStar(u[1..]);
    }
  }

  /** `replace(/\n/g, "<br/>")`. */
  function BreakLines(s: string): (r: string)
    ensures '\n' !in r
    ensures '\n' !in s ==> r == s
  {
    if s == [] then []
    else (if s[0] == '\n' then "<br/>" else [s[0]]) + BreakLines(s[1..])
  }

  /** The line-break pass works character by character, so it distributes over
      concatenation. */
  lemma {:induction false} BreakLinesAppend(a: string, b: string)
    ensures BreakLines(a + b) == BreakLines(a) + BreakLines(b)
  {
    if a == [] {
      assert a + b == b;
    } else {
      assert (a + b)[0] == a[0] && (a + b)[1..] == a[1..] + b;
      BreakLinesAppend(a[1..], b);
    }
  }

  /** A newline becomes `<br/>`. */
  lemma NewlineBecomesBreak()
    ensures BreakLines("\n") == "<br/>"
  {
  }

  /** So a newline between two newline-free texts becomes one `<br/>` between
      them. */
  lemma BreakBetween(a: string, b: string)
    requires '\n' !in a && '\n' !in b
    ensures BreakLines(a + "\n" + b) == a + "<br/>" + b
  {
    BreakLinesAppend(a + "\n", b);
    BreakLinesAppend(a, "\n");
    NewlineBecomesBreak();
  }

  /** `formatForDisplay`: bold, then italics, then line breaks. */
  function FormatForDisplay(text: string): (r: string)
    ensures '\n' !in r
  {
    BreakLines(ReplacePairs(ReplacePairs(text, "**", "<strong>", "</strong>"), "*", "<em>", "</em>"))
  }

  /** Text with no `*` and no line break is shown as it is; in particular `<`
      and `&` are not escaped. */
  lemma FormatPlain(text: string)
    requires '*' !in text && '\n' !in text
    ensures FormatForDisplay(text) == text
  {
    ReplacePairsAbsent(text, "**", "<strong>", "</strong>");
    ReplacePairsAbsent(text, "*", "<em>", "</em>");
  }

  /** A delimited stretch of plain text is rewritten as one pair. */
  lemma PairRewritten(s: string, d: string, open: string, close: string)
    requires |d| > 0 && d[0] !in s && NoLineBreak(s)
    ensures ReplacePairs(d + s + d, d, open, close) == open + s + close
  {
    var t := d + s + d;
    var m := |d| + |s|;
    assert t[..|d|] == d;
    assert t[m..m + |d|] == d;
    assert forall k :: |d| <= k < m ==> t[k] == s[k - |d|];
    CloseFromPlain(t, |d|, m, d);
    assert t[|d|..m] == s;
    assert t[m + |d|..] == [];
  }

  /** `**s**` becomes `<strong>s</strong>`. */
  lemma FormatBold(s: string)
    requires '*' !in s && NoLineBreak(s)
    ensures FormatForDisplay("**" + s + "**") == "<strong>" + s + "</strong>"
  {
    PairRewritten(s, "**", "<strong>", "</strong>");
    var bold := "<strong>" + s + "</strong>";
    assert '*' !in "<strong>" && '*' !in "</strong>";
    ReplacePairsAbsent(bold, "*", "<em>", "</em>");
    assert '\n' !in "<strong>" && '\n' !in "</strong>";
  }

  /** `*s*` becomes `<em>s</em>`. */
  lemma FormatItalic(s: string)
    requires '*' !in s && NoLineBreak(s)
    ensures FormatForDisplay("*" + s + "*") == "<em>" + s + "</em>"
  {
    var t := "*" + s + "*";
    if s == [] {
      assert t == "**";
      assert CloseFrom(t, 2, "**") == None;
    } else {
      assert t[..2][1] == s[0];
      assert t[1..] == s + "*";
      BoldSkipsLastStar(s);
    }
    assert ReplacePairs(t, "**", "<strong>", "</strong>") == t;
    PairRewritten(s, "*", "<em>", "</em>");
    assert '\n' !in "<em>" && '\n' !in "</em>";
  }

  datatype Role = UserRole | Assistant | SystemRole

  datatype ChatMessage = ChatMessage(id: string, role: Role, content: string)

  /** How the request to the chat service ended: the answer's text (possibly
      empty) or the error's message (possibly empty). */
  datatype Reply = Answer(content: string) | Failure(message: string)

  /** The chat's `error` state: none, the missing-key message, or the
      message a failed request reported. */
  datatype ChatError = NoError | MissingKey | RequestFailed(message: string)

  /** The text shown for an error: the empty string when there is none. */
  function ErrorText(e: ChatError): string {
    match e
    case NoError => ""
    case MissingKey => "Missing OpenAI API key. Add REACT_APP_OPENAI_API_KEY in .env.local and restart."
    case RequestFailed(message) => message
  }

  const NoAnswer: string := "Sorry, I couldn't find an answer."
  const Trouble: string := "Something went wrong while contacting OpenAI."

  /** What `sendMessage` does before the request: nothing, report the
      missing key, or send this text. */
  datatype SendStep = Skip | NoKey | Send(text: string)

  /** The guards of `sendMessage`: a blank input or a pending request stops it,
      then a missing key; otherwise the trimmed input is sent. */
  function SendStepOf(input: string, loading: bool, apiKey: string): (r: SendStep)
    ensures r.Send? <==> Trim(input) != [] && !loading && apiKey != ""
    ensures r.Skip? <==> Trim(input) == [] || loading
    ensures r.NoKey? <==> Trim(input) != [] && !loading && apiKey == ""
    ensures r.Send? ==> r.text == Trim(input) && r.text != []
  {
    var trimmed := Trim(input);
    if trimmed == [] || loading then Skip
    else if apiKey == "" then NoKey
    else Send(trimmed)
  }

  class Chat {
    /** `process.env.REACT_APP_OPENAI_API_KEY`, the empty string when unset. */
    const apiKey: string
    var input: string
    var messages: seq<ChatMessage>
    var loading: bool
    var error: ChatError

    constructor (key: string)
      ensures apiKey == key && input == "" && messages == [] && !loading && error == NoError
    {
      apiKey, input, messages, loading, error := key, "", [], false, NoError;
    }

    /** The message input. */
    method Type(text: string)
      modifies this
      ensures input == text && messages == old(messages) && loading == old(loading) && error == old(error)
    {
      input := text;
    }

    /** `sendMessage` up to the request: the error is cleared, and then the
        step `SendStepOf` decides. A missing key reports an error, and a sent
        message is the user's trimmed text. `now` stands for `Date.now()`;
        `sent` says whether the request goes out. */
    method SendMessage(now: int) returns (sent: bool)
      modifies this
      ensures var step := SendStepOf(old(input), old(loading), apiKey);
              && (sent <==> step.Send?)
              && (step.Skip? ==> error == NoError)
              && (step.NoKey? ==> error == MissingKey)
              && (!sent ==> messages == old(messages) && input == old(input) && loading == old(loading))
              && (step.Send? ==> && messages == old(messages) + [ChatMessage(IntToString(now), UserRole, step.text)]
                                 && input == "" && loading && error == NoError)
    {
      var step := SendStepOf(input, loading, apiKey);
      error := NoError;
      match step {
        case Skip =>
          sent := false;
        case NoKey =>
          error := MissingKey;
          sent := false;
        case Send(text) =>
          messages := messages + [ChatMessage(IntToString(now), UserRole, text)];
          input := "";
          loading := true;
          sent := true;
      }
    }

    /** The rest of `sendMessage` once the request has ended: an answer is
        appended as the assistant's message, a failure is reported, and the
        request is no longer pending. `now` stands for `Date.now()` then. */
    method Settle(reply: Reply, now: int)
      modifies this
      ensures reply.Answer? ==> && messages == old(messages) + [ChatMessage(IntToString(now + 1), Assistant, OrStr(reply.content, NoAnswer))]
                                && error == old(error)
      ensures reply.Failure? ==> messages == old(messages) && error == RequestFailed(OrStr(reply.message, Trouble))
      ensures !loading && input == old(input)
    {
      match reply {
        case Answer(content) =>
          messages := messages + [ChatMessage(IntToString(now + 1), Assistant, OrStr(content, NoAnswer))];
        case Failure(message) =>
          error := RequestFailed(OrStr(message, Trouble));
      }
      loading := false;
    }
  }
}
