/** The developing streaming `predict`: the history is converted for the
    model, the new message appended, and every streamed chunk's content
    accumulated and yielded as the reply so far. The model's stream is an
    input: the contents of its chunks, in arrival order. */
module LlmInterface {
  import opened Strings
  import opened Chat
  import opened Conversion

  /** The conversion loop: recognised entries in order, then the new
      message. */
  method BuildRequest(message: string, history: seq<Msg>) returns (request: seq<LcMessage>)
    ensures request == ToLangchain(history) + [Human(message)]
  {
    request := [];
    var i := 0;
    while i < |history|
      invariant 0 <= i <= |history|
      invariant request == ToLangchain(history[..i])
    {
      assert history[..i + 1] == history[..i] + [history[i]];
      ToLangchainAppend(history[..i], [history[i]]);
      assert ToLangchain([history[i]]) == Convert(history[i]) + ToLangchain([]);
      request := request + Convert(history[i]);
      i := i + 1;
    }
    assert history[..i] == history;
    request := request + [Human(message)];
  }

  /** The streaming loop: one yield per chunk, each the concatenation of
      the chunks so far. */
  method Accumulate(chunks: seq<string>) returns (partials: seq<string>)
    ensures |partials| == |chunks|
    ensures forall k | 0 <= k < |partials| :: partials[k] == Concat(chunks[..k + 1])
  {
    var response := "";
    partials := [];
    var n := 0;
    while n < |chunks|
      invariant 0 <= n <= |chunks|
      invariant |partials| == n
      invariant response == Concat(chunks[..n])
      invariant forall k | 0 <= k < n :: partials[k] == Concat(chunks[..k + 1])
    {
      assert chunks[..n + 1][..n] == chunks[..n];
      response := response + chunks[n];
      partials := partials + [response];
      n := n + 1;
    }
  }

  /** Returns the message list sent to the model and the yielded texts. */
  method Predict(message: string, history: seq<Msg>, chunks: seq<string>)
    returns (request: seq<LcMessage>, partials: seq<string>)
    ensures request == Request(history, message)
    ensures |partials| == |chunks|
    ensures forall k | 0 <= k < |partials| :: partials[k] == Concat(chunks[..k + 1])
    ensures forall j, k | 0 <= j <= k < |partials| :: partials[j] <= partials[k]
  {
    request := BuildRequest(message, history);
    partials := Accumulate(chunks);
    forall j, k | 0 <= j <= k < |partials|
      ensures partials[j] <= partials[k]
    {
      ConcatPrefix(chunks, j + 1, k + 1);
    }
  }
}
