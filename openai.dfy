/** The post-processing `askOpenAI` applies to the completion service's reply:
    the default answer, the trim to about 200 words, and the choice of error
    message. The HTTP request itself is an input here. */
module OpenAI {
  import opened Wrappers

  const NO_RESPONSE: string := "No response received."
  const FALLBACK_ERROR: string := "Failed to get AI response. Please check your API key."
  const MAX_WORDS: nat := 200

  /** `choices[i].message`, `message.content`: either may be missing. */
  datatype Message = Message(content: Option<string>)
  datatype Choice = Choice(message: Option<Message>)

  /** `response.data`: a reply without a `choices` array makes the lookup
      `choices[0]` throw. */
  datatype Reply = Reply(choices: Option<seq<Choice>>)

  /** What the POST came back with: a reply, or a rejection carrying
      `error.response?.data?.error?.message` when the service sent one. */
  datatype Outcome = Delivered(data: Reply) | Rejected(apiMessage: Option<string>)

  /** `s.split(' ')`: the pieces between single spaces, so consecutive spaces
      give empty pieces and the empty string gives one empty piece. */
  function Split(s: string): (r: seq<string>)
    ensures 1 <= |r| <= |s| + 1
  {
    if s == [] then [""]
    else
      var rest := Split(s[1..]);
      if s[0] == ' ' then [""] + rest
      else [[s[0]] + rest[0]] + rest[1..]
  }

  /** `pieces.join(' ')`. */
  function Join(pieces: seq<string>): (r: string)
    ensures pieces != [] ==> pieces[0] <= r
    ensures 2 <= |pieces| ==> |pieces[0]| < |r| && r[|pieces[0]|] == ' '
  {
    if pieces == [] then ""
    else if |pieces| == 1 then pieces[0]
    else pieces[0] + " " + Join(pieces[1..])
  }

  /** `words.slice(0, 200).join(' ')` with `words = answer.split(' ')`. */
  function Trim(answer: string): (r: string)
    ensures r <= answer
  {
    var words := Split(answer);
    var k := if |words| < MAX_WORDS then |words| else MAX_WORDS;
    JoinPrefix(words, k);
    JoinSplit(answer);
    Join(words[..k])
  }

  /** `choices[0]?.message?.content`: missing when there is no first choice,
      no message or no content. */
  function FirstContent(choices: seq<Choice>): (r: Option<string>)
    ensures r.Some? ==> choices != [] && choices[0].message == Some(Message(r))
    ensures choices != [] && choices[0].message.Some? ==> r == choices[0].message.value.content
  {
    if choices != [] && choices[0].message.Some? then choices[0].message.value.content else None
  }

  /** `choices[0]?.message?.content || 'No response received.'`: a missing or
      empty content gives the fixed answer. */
  function AnswerText(choices: seq<Choice>): (r: string)
    ensures r != ""
    ensures FirstContent(choices).Some? && FirstContent(choices).value != "" ==> r == FirstContent(choices).value
    ensures FirstContent(choices).None? || FirstContent(choices).value == "" ==> r == NO_RESPONSE
  {
    var content := FirstContent(choices);
    if content.Some? && content.value != "" then content.value else NO_RESPONSE
  }

  /** `error.response?.data?.error?.message || '<fallback>'`. */
  function ErrorMessage(apiMessage: Option<string>): (r: string)
    ensures r != ""
    ensures apiMessage.Some? && apiMessage.value != "" ==> r == apiMessage.value
    ensures apiMessage.None? || apiMessage.value == "" ==> r == FALLBACK_ERROR
  {
    if apiMessage.Some? && apiMessage.value != "" then apiMessage.value else FALLBACK_ERROR
  }

  /** `askOpenAI` from the outcome of its POST on: the trimmed answer, or the
      message of the error it throws. A reply without `choices` throws a
      TypeError, which has no `response`, so it reports the fallback text. */
  function AskOpenAI(outcome: Outcome): (r: Result<string, string>)
    ensures r.Success? <==> outcome.Delivered? && outcome.data.choices.Some?
    ensures r.Failure? ==> r.error != ""
  {
    match outcome
    case Rejected(apiMessage) => Failure(ErrorMessage(apiMessage))
    case Delivered(Reply(None)) => Failure(FALLBACK_ERROR)
    case Delivered(Reply(Some(choices))) => Success(Trim(AnswerText(choices)))
  }

  predicate NoSpace(w: string) {
    forall i :: 0 <= i < |w| ==> w[i] != ' '
  }

  /** No piece of a split contains the separator. */
  lemma {:induction false} SplitPiecesHaveNoSpace(s: string)
    ensures forall k :: 0 <= k < |Split(s)| ==> NoSpace(Split(s)[k])
    decreases |s|
  {
    if s != [] {
      SplitPiecesHaveNoSpace(s[1..]);
    }
  }

  /** Joining the pieces of a split gives back the string. */
  lemma {:induction false} JoinSplit(s: string)
    ensures Join(Split(s)) == s
    decreases |s|
  {
    if s != [] {
      var rest := Split(s[1..]);
      JoinSplit(s[1..]);
      if s[0] == ' ' {
        assert ([""] + rest)[1..] == rest;
      } else {
        var r := [[s[0]] + rest[0]] + rest[1..];
        assert r[1..] == rest[1..];
        if |rest| == 1 {
          assert s == [s[0]] + s[1..];
        } else {
          assert s[1..] == rest[0] + " " + Join(rest[1..]);
        }
      }
    }
  }

  /** Splitting a word with no space, followed by more text, glues the word to
      the first piece of the rest. */
  lemma {:induction false} SplitWordThen(w: string, t: string)
    requires NoSpace(w)
    ensures Split(w + t) == [w + Split(t)[0]] + Split(t)[1..]
    decreases |w|
  {
    if w != [] {
      assert (w + t)[1..] == w[1..] + t;
      assert (w + t)[0] == w[0];
      SplitWordThen(w[1..], t);
      assert [w[0]] + (w[1..] + Split(t)[0]) == w + Split(t)[0];
    } else {
      var r := Split(t);
      assert w + t == t;
      assert w + r[0] == r[0];
      assert r == [r[0]] + r[1..];
    }
  }

  /** Splitting the join of space-free pieces gives back the pieces. */
  lemma {:induction false} SplitJoin(pieces: seq<string>)
    requires 1 <= |pieces|
    requires forall k :: 0 <= k < |pieces| ==> NoSpace(pieces[k])
    ensures Split(Join(pieces)) == pieces
    decreases |pieces|
  {
    if |pieces| == 1 {
      SplitWordThen(pieces[0], "");
      assert pieces[0] + "" == pieces[0];
    } else {
      var tail := " " + Join(pieces[1..]);
      SplitJoin(pieces[1..]);
      SplitWordThen(pieces[0], tail);
      assert tail[0] == ' ' && tail[1..] == Join(pieces[1..]);
      assert Split(tail) == [""] + pieces[1..];
      assert Split(tail)[1..] == pieces[1..] && pieces[0] + Split(tail)[0] == pieces[0];
      assert pieces[0] + " " + Join(pieces[1..]) == pieces[0] + tail;
      assert pieces == [pieces[0]] + pieces[1..];
    }
  }

  /** The join of the first `k` pieces is a prefix of the join of all. */
  lemma {:induction false} JoinPrefix(pieces: seq<string>, k: nat)
    requires 1 <= k <= |pieces|
    ensures Join(pieces[..k]) <= Join(pieces)
    decreases k
  {
    if k > 1 {
      JoinPrefix(pieces[1..], k - 1);
      assert pieces[..k][1..] == pieces[1..][..k - 1];
      var head := pieces[0] + " ";
      assert Join(pieces[..k]) == head + Join(pieces[1..][..k - 1]);
      assert Join(pieces) == head + Join(pieces[1..]);
    } else {
      assert pieces[..k] == [pieces[0]];
    }
  }

  /** The trimmed answer splits into exactly the first 200 pieces of the
      answer, so it never has more than 200 of them. */
  lemma TrimKeepsFirstPieces(answer: string)
    ensures var words := Split(answer);
      Split(Trim(answer)) == words[..if |words| < MAX_WORDS then |words| else MAX_WORDS]
    ensures |Split(Trim(answer))| <= MAX_WORDS
  {
    var words := Split(answer);
    var kept := words[..if |words| < MAX_WORDS then |words| else MAX_WORDS];
    SplitPiecesHaveNoSpace(answer);
    SplitJoin(kept);
  }

  /** An answer of at most 200 pieces is returned unchanged. */
  lemma TrimShortUnchanged(answer: string)
    requires |Split(answer)| <= MAX_WORDS
    ensures Trim(answer) == answer
  {
    var words := Split(answer);
    assert words[..|words|] == words;
    JoinSplit(answer);
  }

  /** The fixed answer for an empty reply survives the trim. */
  lemma DefaultAnswerSurvives()
    ensures Trim(NO_RESPONSE) == NO_RESPONSE
  {
    TrimShortUnchanged(NO_RESPONSE);
  }

  /** What `askOpenAI` resolves to or rejects with, case by case. */
  lemma AskOpenAIOutcomes(outcome: Outcome)
    ensures AskOpenAI(outcome).Success? <==> outcome.Delivered? && outcome.data.choices.Some?
    ensures AskOpenAI(outcome).Success? ==>
      var answer := AnswerText(outcome.data.choices.value);
      var words := Split(answer);
      && AskOpenAI(outcome).value <= answer
      && Split(AskOpenAI(outcome).value) == words[..if |words| < MAX_WORDS then |words| else MAX_WORDS]
      && |Split(AskOpenAI(outcome).value)| <= MAX_WORDS
    ensures outcome.Rejected? && outcome.apiMessage.Some? && outcome.apiMessage.value != "" ==>
      AskOpenAI(outcome) == Failure(outcome.apiMessage.value)
    ensures outcome.Rejected? && (outcome.apiMessage.None? || outcome.apiMessage.value == "") ==>
      AskOpenAI(outcome) == Failure(FALLBACK_ERROR)
    ensures outcome.Delivered? && outcome.data.choices.None? ==> AskOpenAI(outcome) == Failure(FALLBACK_ERROR)
  {
    if outcome.Delivered? && outcome.data.choices.Some? {
      var answer := AnswerText(outcome.data.choices.value);
      TrimKeepsFirstPieces(answer);
    }
  }
}
