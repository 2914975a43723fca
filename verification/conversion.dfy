/** Conversion of the widget's role-tagged history into the model
    library's message objects, as both `predict` functions do it: `user`
    entries become human messages, `assistant` entries become AI messages,
    every other role is dropped, and the new message goes last. */
module Conversion {
  import opened Chat

  /** The library's `HumanMessage` and `AIMessage`. */
  datatype LcMessage = Human(content: string) | Ai(content: string)

  /** The roles the conversion loop recognises. */
  predicate IsChatTurn(m: Msg) {
    m.role == User || m.role == Assistant
  }

  /** The history with every unrecognised role removed, order kept. */
  function ChatTurns(history: seq<Msg>): (r: seq<Msg>)
    ensures |r| <= |history|
    ensures forall i | 0 <= i < |r| :: IsChatTurn(r[i])
  {
    if history == [] then []
    else (if IsChatTurn(history[0]) then [history[0]] else []) + ChatTurns(history[1..])
  }

  /** One step of the conversion loop. */
  function Convert(m: Msg): seq<LcMessage> {
    if m.role == User then [Human(m.content)]
    else if m.role == Assistant then [Ai(m.content)]
    else []
  }

  /** The conversion loop over the prior history. */
  function ToLangchain(history: seq<Msg>): (r: seq<LcMessage>)
    ensures |r| == |ChatTurns(history)|
    ensures forall i | 0 <= i < |r| ::
              r[i].content == ChatTurns(history)[i].content
              && (r[i].Human? <==> ChatTurns(history)[i].role == User)
  {
    if history == [] then [] else Convert(history[0]) + ToLangchain(history[1..])
  }

  /** The list handed to the model: converted history, then the new
      message as a human message. */
  function Request(history: seq<Msg>, message: string): seq<LcMessage> {
    ToLangchain(history) + [Human(message)]
  }

  /** Reading library messages back as widget entries. */
  function FromLangchain(ms: seq<LcMessage>): (r: seq<Msg>)
    ensures |r| == |ms|
  {
    if ms == [] then []
    else [Msg(if ms[0].Human? then User else Assistant, ms[0].content)] + FromLangchain(ms[1..])
  }

  /** Converting a concatenation converts each part. */
  lemma {:induction false} ToLangchainAppend(a: seq<Msg>, b: seq<Msg>)
    ensures ToLangchain(a + b) == ToLangchain(a) + ToLangchain(b)
    decreases |a|
  {
    if a != [] {
      assert (a + b)[1..] == a[1..] + b;
      ToLangchainAppend(a[1..], b);
    } else {
      assert a + b == b;
    }
  }

  /** Entries with other roles never influence the result. */
  lemma {:induction false} ToLangchainIgnoresOtherRoles(history: seq<Msg>)
    ensures ToLangchain(history) == ToLangchain(ChatTurns(history))
    decreases |history|
  {
    if history != [] {
      var head := if IsChatTurn(history[0]) then [history[0]] else [];
      ToLangchainIgnoresOtherRoles(history[1..]);
      ToLangchainAppend(head, ChatTurns(history[1..]));
      if head != [] {
        assert head[1..] == [];
      }
    }
  }

  /** Reading the converted history back yields exactly the recognised
      entries, in their original order. */
  lemma {:induction false} RoundTripHistory(history: seq<Msg>)
    ensures FromLangchain(ToLangchain(history)) == ChatTurns(history)
    decreases |history|
  {
    if history != [] {
      RoundTripHistory(history[1..]);
      FromLangchainAppend(Convert(history[0]), ToLangchain(history[1..]));
    }
  }

  /** Converting read-back messages restores them. */
  lemma {:induction false} RoundTripMessages(ms: seq<LcMessage>)
    ensures ToLangchain(FromLangchain(ms)) == ms
    decreases |ms|
  {
    if ms != [] {
      RoundTripMessages(ms[1..]);
      var f := FromLangchain(ms);
      assert f[1..] == FromLangchain(ms[1..]);
    }
  }

  lemma {:induction false} FromLangchainAppend(a: seq<LcMessage>, b: seq<LcMessage>)
    ensures FromLangchain(a + b) == FromLangchain(a) + FromLangchain(b)
    decreases |a|
  {
    if a != [] {
      assert (a + b)[1..] == a[1..] + b;
      FromLangchainAppend(a[1..], b);
    } else {
      assert a + b == b;
    }
  }

  /** The request holds one message per recognised entry plus the new
      message, which comes last as a human message. */
  lemma RequestShape(history: seq<Msg>, message: string)
    ensures |Request(history, message)| == |ChatTurns(history)| + 1
    ensures Request(history, message)[|ChatTurns(history)|] == Human(message)
    ensures Request(history, message)[..|ChatTurns(history)|] == ToLangchain(history)
  {
  }
}
