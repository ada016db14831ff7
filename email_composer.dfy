/** The React e-mail composer (react-app/src/components/EmailComposer.jsx):
    when the form may be sent, the character and word counters, and the
    state changes of a send.

    As in `ProfileView`, component state is a value and each handler a
    function from the old state to the new one. */
module EmailComposer {
  import opened Wrappers
  import Text

  datatype EmailData = EmailData(to: string, subject: string, message: string)

  /** The `name` of each input of the form. */
  datatype Field = To | Subject | Message

  datatype SendStatus = SendStatus(isError: bool, message: string)

  datatype ComposerState = ComposerState(emailData: EmailData, isSending: bool, sendStatus: Option<SendStatus>)

  const Blank := EmailData("", "", "")

  const SentText := "Email sent successfully!"
  const FailedText := "Failed to send email. Please try again."

  /** The state on first render. */
  const Start := ComposerState(Blank, false, None)

  /** `emailData[name]`: the value of one input of the form. */
  function FieldValue(d: EmailData, f: Field): string {
    match f
    case To => d.to
    case Subject => d.subject
    case Message => d.message
  }

  /** `isFormValid`: every input of the form is filled in. */
  function IsFormValid(d: EmailData): (valid: bool)
    ensures valid <==> forall f :: FieldValue(d, f) != ""
  {
    assert FieldValue(d, To) == d.to && FieldValue(d, Subject) == d.subject && FieldValue(d, Message) == d.message;
    d.to != "" && d.subject != "" && d.message != ""
  }

  /** The send button's `disabled` attribute. */
  function SubmitDisabled(s: ComposerState): (disabled: bool)
    ensures disabled <==> s.emailData.to == "" || s.emailData.subject == "" || s.emailData.message == "" || s.isSending
  {
    !IsFormValid(s.emailData) || s.isSending
  }

  /** `s.split(/\s+/)`: the pieces between maximal runs of whitespace. A
      leading run gives an empty first piece and a trailing run an empty
      last piece; no piece in between is empty. */
  function SplitWhitespace(s: string): (pieces: seq<string>)
    ensures |pieces| >= 1
    ensures forall i, k :: 0 <= i < |pieces| && 0 <= k < |pieces[i]| ==> !Text.IsSpace(pieces[i][k])
    ensures forall i :: 0 < i < |pieces| - 1 ==> pieces[i] != ""
    ensures s != [] && Text.IsSpace(s[0]) ==> pieces[0] == ""
    decreases |s|
  {
    if s == [] then [""]
    else
      var rest := SplitWhitespace(s[1..]);
      if Text.IsSpace(s[0]) then
        if |s| > 1 && Text.IsSpace(s[1]) then rest else [""] + rest
      else
        assert forall i :: 0 < i < |rest| ==> ([[s[0]] + rest[0]] + rest[1..])[i] == rest[i];
        [[s[0]] + rest[0]] + rest[1..]
  }

  /** `.filter(word => word.length > 0)`. */
  function NonEmpty(pieces: seq<string>): (r: seq<string>)
    ensures |r| <= |pieces|
    ensures forall i :: 0 <= i < |r| ==> r[i] != "" && r[i] in pieces
    ensures forall p :: p in pieces && p != "" ==> p in r
    ensures (forall i :: 0 <= i < |pieces| ==> pieces[i] != "") ==> r == pieces
  {
    if pieces == [] then []
    else (if pieces[0] == "" then [] else [pieces[0]]) + NonEmpty(pieces[1..])
  }

  /** The filter keeps the order of the pieces: filtering a concatenation
      concatenates the filtered halves. */
  lemma {:induction false} NonEmptyAppend(a: seq<string>, b: seq<string>)
    ensures NonEmpty(a + b) == NonEmpty(a) + NonEmpty(b)
    decreases |a|
  {
    if a == [] {
      assert a + b == b;
    } else {
      var head := if a[0] == "" then [] else [a[0]];
      assert (a + b)[1..] == a[1..] + b;
      NonEmptyAppend(a[1..], b);
      calc {
        NonEmpty(a + b);
        head + NonEmpty(a[1..] + b);
        head + (NonEmpty(a[1..]) + NonEmpty(b));
        (head + NonEmpty(a[1..])) + NonEmpty(b);
        NonEmpty(a) + NonEmpty(b);
      }
    }
  }

  /** `s` with every maximal run of whitespace replaced by one space; when
      `afterSpace`, a run at the start of `s` is dropped, since a space was
      already written for it. */
  function Collapse(s: string, afterSpace: bool): (r: string)
    ensures |r| <= |s|
    ensures afterSpace ==> r == [] || !Text.IsSpace(r[0])
    decreases |s|
  {
    if s == [] then ""
    else if Text.IsSpace(s[0]) then (if afterSpace then "" else " ") + Collapse(s[1..], true)
    else [s[0]] + Collapse(s[1..], false)
  }

  /** Joining the pieces with single spaces gives the message with each run
      of whitespace collapsed to one space: no character other than
      whitespace is lost, added or moved. */
  lemma {:induction false} SplitWhitespaceJoin(s: string)
    ensures Text.Join(SplitWhitespace(s), " ") == Collapse(s, false)
    decreases |s|
  {
    if s != [] {
      var rest := SplitWhitespace(s[1..]);
      SplitWhitespaceJoin(s[1..]);
      if !Text.IsSpace(s[0]) {
        assert SplitWhitespace(s) == [[s[0]] + rest[0]] + rest[1..];
        Text.JoinCons(s[0], rest, " ");
      } else if |s| > 1 && Text.IsSpace(s[1]) {
        assert SplitWhitespace(s) == rest;
        assert Collapse(s[1..], false) == " " + Collapse(s[2..], true) by {
          assert s[1..][1..] == s[2..];
        }
      } else {
        SpaceBeforeWord(s, rest);
      }
    }
  }

  /** The case of one whitespace character before a word or the end. */
  lemma SpaceBeforeWord(s: string, rest: seq<string>)
    requires s != [] && Text.IsSpace(s[0]) && !(|s| > 1 && Text.IsSpace(s[1]))
    requires rest == SplitWhitespace(s[1..])
    requires Text.Join(rest, " ") == Collapse(s[1..], false)
    ensures Text.Join(SplitWhitespace(s), " ") == Collapse(s, false)
  {
    assert SplitWhitespace(s) == [""] + rest;
    assert ([""] + rest)[1..] == rest;
    assert Text.Join([""] + rest, " ") == " " + Text.Join(rest, " ");
    if |s| > 1 {
      assert s[1..][1..] == s[2..];
      assert Collapse(s[1..], true) == [s[1]] + Collapse(s[2..], false);
    }
  }

  /** The pieces are exactly the space-separated pieces of the collapsed
      message, so `SplitWhitespace` is determined by `Collapse`. */
  lemma SplitWhitespaceOfCollapse(s: string)
    ensures SplitWhitespace(s) == Text.Split(Collapse(s, false), ' ')
  {
    var pieces := SplitWhitespace(s);
    SplitWhitespaceJoin(s);
    Text.SplitJoin(pieces, ' ');
  }

  /** The number of words in `s` scanned left to right: a word starts at each
      non-whitespace character that begins `s` (when `afterSpace`) or follows
      a whitespace character. */
  function WordStarts(s: string, afterSpace: bool): nat
    decreases |s|
  {
    if s == [] then 0
    else if Text.IsSpace(s[0]) then WordStarts(s[1..], true)
    else (if afterSpace then 1 else 0) + WordStarts(s[1..], false)
  }

  /** Splitting and filtering counts the same words as the scan; a scan that
      starts inside a word does not count that word again. */
  lemma {:induction false} SplitCountsWords(s: string, afterSpace: bool)
    ensures WordStarts(s, afterSpace) + (if !afterSpace && SplitWhitespace(s)[0] != "" then 1 else 0)
            == |NonEmpty(SplitWhitespace(s))|
    decreases |s|
  {
    if s != [] {
      var rest := SplitWhitespace(s[1..]);
      if Text.IsSpace(s[0]) {
        SplitCountsWords(s[1..], true);
        if !(|s| > 1 && Text.IsSpace(s[1])) {
          assert ([""] + rest)[1..] == rest;
        }
      } else {
        SplitCountsWords(s[1..], false);
        var pieces := [[s[0]] + rest[0]] + rest[1..];
        assert pieces[1..] == rest[1..];
        assert |NonEmpty(rest)| == (if rest[0] == "" then 0 else 1) + |NonEmpty(rest[1..])|;
      }
    }
  }

  /** The word counter: the number of maximal runs of non-whitespace
      characters in the message. */
  function WordCount(message: string): (n: nat)
    ensures n == WordStarts(message, true)
    ensures n <= |message|
  {
    SplitCountsWords(message, true);
    WordStartsBound(message, true);
    |NonEmpty(SplitWhitespace(message))|
  }

  lemma {:induction false} WordStartsBound(s: string, afterSpace: bool)
    ensures WordStarts(s, afterSpace) <= |s|
    decreases |s|
  {
    if s != [] {
      WordStartsBound(s[1..], Text.IsSpace(s[0]));
    }
  }

  /** Words separated by single spaces count as one word each. */
  lemma {:induction false} WordCountOfWords(words: seq<string>)
    requires |words| >= 1
    requires forall i :: 0 <= i < |words| ==> words[i] != "" && forall k :: 0 <= k < |words[i]| ==> !Text.IsSpace(words[i][k])
    ensures WordStarts(Text.Join(words, " "), true) == |words|
    decreases |words|
  {
    WordStartsOfWord(words[0], true, if |words| == 1 then "" else " " + Text.Join(words[1..], " "));
    if |words| > 1 {
      WordCountOfWords(words[1..]);
      assert Text.Join(words, " ") == words[0] + (" " + Text.Join(words[1..], " "));
      assert (" " + Text.Join(words[1..], " "))[1..] == Text.Join(words[1..], " ");
    } else {
      assert words[0] + "" == words[0];
    }
  }

  /** A word followed by text that is empty or starts with whitespace adds
      one word to the scan of that text. */
  lemma {:induction false} WordStartsOfWord(w: string, afterSpace: bool, t: string)
    requires w != [] && forall k :: 0 <= k < |w| ==> !Text.IsSpace(w[k])
    requires t == [] || Text.IsSpace(t[0])
    ensures WordStarts(w + t, afterSpace) == (if afterSpace then 1 else 0) + WordStarts(t, true)
    decreases |w|
  {
    assert (w + t)[1..] == w[1..] + t;
    if |w| > 1 {
      WordStartsOfWord(w[1..], false, t);
    } else {
      assert w[1..] + t == t;
      if t != [] {
        assert WordStarts(t, false) == WordStarts(t, true);
      }
    }
  }

  /** Both counters shown under the form. */
  function Counters(message: string): (counts: (nat, nat))
    ensures counts.0 == |message|
    ensures counts.1 == WordStarts(message, true)
  {
    (|message|, WordCount(message))
  }

  /** handleInputChange: only the named field takes the typed value. */
  function HandleInputChange(s: ComposerState, field: Field, value: string): (r: ComposerState)
    ensures r.isSending == s.isSending && r.sendStatus == s.sendStatus
    ensures r.emailData.to == (if field == To then value else s.emailData.to)
    ensures r.emailData.subject == (if field == Subject then value else s.emailData.subject)
    ensures r.emailData.message == (if field == Message then value else s.emailData.message)
  {
    var d := s.emailData;
    var d' := match field
      case To => d.(to := value)
      case Subject => d.(subject := value)
      case Message => d.(message := value);
    s.(emailData := d')
  }

  /** The Clear button: all three fields emptied, nothing else touched. */
  function Clear(s: ComposerState): (r: ComposerState)
    ensures r.emailData.to == "" && r.emailData.subject == "" && r.emailData.message == ""
    ensures r.isSending == s.isSending && r.sendStatus == s.sendStatus
    ensures !IsFormValid(r.emailData)
  {
    s.(emailData := Blank)
  }

  /** The start of `handleSubmit`: sending, status cleared, fields kept. */
  function BeginSend(s: ComposerState): (r: ComposerState)
    ensures r.isSending && r.sendStatus == None && r.emailData == s.emailData
    ensures SubmitDisabled(r)
  {
    s.(isSending := true, sendStatus := None)
  }

  /** How the awaited send settled. */
  datatype Outcome = Sent | SendFailed

  /** The end of `handleSubmit`. Without a `sendEmail` function the send is
      simulated and always succeeds. Success empties the fields and reports
      success; failure keeps the fields and reports an error; either way the
      send is over. */
  function FinishSend(s: ComposerState, hasSender: bool, outcome: Outcome): (r: ComposerState)
    ensures !r.isSending && r.sendStatus.Some?
    ensures (!hasSender || outcome == Sent) ==>
      r.emailData == Blank && r.sendStatus == Some(SendStatus(false, SentText))
    ensures hasSender && outcome == SendFailed ==>
      r.emailData == s.emailData && r.sendStatus == Some(SendStatus(true, FailedText))
  {
    if !hasSender || outcome == Sent then
      ComposerState(Blank, false, Some(SendStatus(false, SentText)))
    else
      ComposerState(s.emailData, false, Some(SendStatus(true, FailedText)))
  }

  /** One whole `handleSubmit`: the state while the send is pending, the
      state after it, and the data handed to `sendEmail`, if any. */
  datatype SubmitRun = SubmitRun(pending: ComposerState, after: ComposerState, handed: Option<EmailData>)

  function HandleSubmit(s: ComposerState, hasSender: bool, outcome: Outcome): (run: SubmitRun)
    ensures run.pending.isSending && run.pending.sendStatus == None && run.pending.emailData == s.emailData
    ensures !run.after.isSending
    ensures run.handed == (if hasSender then Some(s.emailData) else None)
    ensures run.after.sendStatus == Some(SendStatus(false, SentText)) <==> !hasSender || outcome == Sent
    ensures run.after.sendStatus == Some(SendStatus(false, SentText)) ==> !IsFormValid(run.after.emailData)
    ensures run.after.sendStatus != Some(SendStatus(false, SentText)) ==> run.after.emailData == s.emailData
  {
    var pending := BeginSend(s);
    SubmitRun(pending, FinishSend(pending, hasSender, outcome), if hasSender then Some(s.emailData) else None)
  }
}
