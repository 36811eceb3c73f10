/**
  The farming assistant chat (src/pages/Chatbot.jsx): the word limiter applied to a reply, the
  accumulation of a streamed reply, and the append-only chat log that `sendMessage` extends.
  The generative model is not part of this model: its answer arrives as a `Reply`.
*/
module Chatbot {
  import opened Text

  /** The word budget `sendMessage` hands to `limitWords`. */
  const MaxReplyWords: nat := 100

  /**
    `limitWords(text, maxWords)`: text of at most `maxWords` space-separated words is returned as
    it is; longer text is cut after its first `maxWords` words and marked with "...".
  */
  function LimitWords(text: string, maxWords: nat): (limited: string)
    ensures |Split(text, ' ')| <= maxWords ==> limited == text
    ensures |Split(text, ' ')| > maxWords ==> |limited| >= 3 && limited[|limited| - 3..] == "..."
    ensures |Split(text, ' ')| > maxWords >= 1 ==>
              var kept := limited[..|limited| - 3];
              && |kept| < |text| && text[..|kept|] == kept && text[|kept|] == ' '
              && Split(kept, ' ') == Split(text, ' ')[..maxWords]
    ensures maxWords == 0 ==> limited == "..."
  {
    var words := Split(text, ' ');
    if |words| > maxWords then
      var kept := Join(words[..maxWords], ' ');
      if maxWords >= 1 then
        JoinPrefix(words, maxWords, ' ');
        assert text == kept + [' '] + Join(words[maxWords..], ' ');
        assert text[..|kept|] == kept;
        assert forall w :: w in words[..maxWords] ==> w in words;
        SplitJoin(words[..maxWords], ' ');
        assert (kept + "...")[..|kept|] == kept;
        kept + "..."
      else
        kept + "..."
    else
      text
  }

  /** With a budget of at least one word, the limiter only returns the empty string for an empty reply. */
  lemma LimitWordsEmpty(text: string, maxWords: nat)
    requires maxWords >= 1
    ensures LimitWords(text, maxWords) == "" <==> text == ""
  {
    if text == "" {
      assert Split(text, ' ') == [""];
    } else if |Split(text, ' ')| > maxWords {
      assert |LimitWords(text, maxWords)| >= 3;
    }
  }

  /** `responseText += chunk.text` over the stream: the chunk texts one after another. */
  function Concat(texts: seq<string>): string {
    if texts == [] then "" else Concat(texts[..|texts| - 1]) + texts[|texts| - 1]
  }

  /** `piece` stands in `text` from position `k` on. */
  predicate OccursAt(piece: string, text: string, k: int) {
    0 <= k <= |text| - |piece| && text[k..k + |piece|] == piece
  }

  /** Every chunk's text stands, whole, in the reply: chunk `i` from the returned position on. */
  lemma {:induction false} ChunkInReply(texts: seq<string>, i: int) returns (k: int)
    requires 0 <= i < |texts|
    ensures OccursAt(texts[i], Concat(texts), k)
    decreases |texts|
  {
    var front, last := texts[..|texts| - 1], texts[|texts| - 1];
    var head := Concat(front);
    assert Concat(texts) == head + last;
    if i == |texts| - 1 {
      k := |head|;
    } else {
      assert front[i] == texts[i];
      k := ChunkInReply(front, i);
      assert Concat(texts)[k..k + |texts[i]|] == head[k..k + |texts[i]|];
    }
  }

  /** Concatenation respects splitting the stream anywhere. */
  lemma {:induction false} ConcatSplit(a: seq<string>, b: seq<string>)
    ensures Concat(a + b) == Concat(a) + Concat(b)
    decreases |b|
  {
    if b == [] {
      assert a + b == a;
    } else {
      var front := b[..|b| - 1];
      assert (a + b)[..|a + b| - 1] == a + front;
      ConcatSplit(a, front);
    }
  }

  /** The reply text is empty exactly when every chunk is empty. */
  lemma {:induction false} ConcatEmpty(texts: seq<string>)
    ensures Concat(texts) == "" <==> forall i :: 0 <= i < |texts| ==> texts[i] == ""
  {
    if texts != [] {
      var front := texts[..|texts| - 1];
      ConcatEmpty(front);
      assert forall i :: 0 <= i < |front| ==> front[i] == texts[i];
    }
  }

  datatype Role = User | Ai

  /** `{ role, content }`. */
  datatype Message = Message(role: Role, content: string)

  /** What the generative model did: it failed (a thrown error), or it streamed these chunk texts. */
  datatype Reply = ApiError | Stream(chunks: seq<string>)

  const NoAnswerText := "Maaf, terjadi kesalahan atau tidak ditemukan jawaban."
  const ApiErrorText := "Terjadi kesalahan koneksi API. Mungkin batas harian (Free Tier) sudah tercapai atau token salah."

  /**
    The content of the assistant message: the word-limited stream, the no-answer text when the
    stream was empty, or the connection error text when the call failed. It is never empty.
  */
  function AiContent(reply: Reply): (content: string)
    ensures content != ""
    ensures reply.ApiError? ==> content == ApiErrorText
    ensures reply.Stream? && (forall i :: 0 <= i < |reply.chunks| ==> reply.chunks[i] == "") ==> content == NoAnswerText
    ensures reply.Stream? && Concat(reply.chunks) != "" ==> content == LimitWords(Concat(reply.chunks), MaxReplyWords)
  {
    match reply
    case ApiError => ApiErrorText
    case Stream(chunks) =>
      ConcatEmpty(chunks);
      var limited := LimitWords(Concat(chunks), MaxReplyWords);
      LimitWordsEmpty(Concat(chunks), MaxReplyWords);
      if limited != "" then limited else NoAnswerText
  }

  /**
    The `try` block of `sendMessage` after the request: the stream is read chunk by chunk into
    one text, which is word-limited; a failed call gives the connection error text instead.
  */
  method ReadReply(reply: Reply) returns (content: string)
    ensures content == AiContent(reply)
  {
    match reply {
      case ApiError =>
        content := ApiErrorText;
      case Stream(chunks) =>
        var responseText := "";
        for i := 0 to |chunks|
          invariant responseText == Concat(chunks[..i])
        {
          assert chunks[..i + 1][..i] == chunks[..i];
          responseText := responseText + chunks[i];
        }
        assert chunks[..|chunks|] == chunks;
        var limited := LimitWords(responseText, MaxReplyWords);
        content := if limited != "" then limited else NoAnswerText;
    }
  }

  /** The chat page state. */
  class ChatSession {
    var input: string
    var chat: seq<Message>
    var loading: bool

    constructor ()
      ensures input == "" && chat == [] && !loading
    {
      input, chat, loading := "", [], false;
    }

    /**
      `sendMessage()` with the model's `reply`: an all-blank input or a request in flight changes
      nothing; otherwise the trimmed input is logged as the user's message, the input box is
      cleared, and exactly one assistant message follows it. The log only grows at its end.
    */
    method SendMessage(reply: Reply)
      modifies this
      ensures Trim(old(input)) == "" || old(loading) ==>
                input == old(input) && chat == old(chat) && loading == old(loading)
      ensures Trim(old(input)) != "" && !old(loading) ==>
                && chat == old(chat) + [Message(User, Trim(old(input))), Message(Ai, AiContent(reply))]
                && input == ""
                && !loading
      ensures |old(chat)| <= |chat| && chat[..|old(chat)|] == old(chat)
    {
      var currentInput := Trim(input);
      if currentInput == "" || loading {
        return;
      }
      chat := chat + [Message(User, currentInput)];
      input := "";
      loading := true;
      var content := ReadReply(reply);
      chat := chat + [Message(Ai, content)];
      loading := false;
    }
  }
}
