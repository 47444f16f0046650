/**
 * The chat action: a buffer of (question, answer) turns and the retrieval
 * chain that answers a question from the document's index and the turns so
 * far. Retrieval (top 3 chunks by similarity) and the model call happen
 * inside the chain, which is an opaque function here.
 */
module Conversation {
  import opened Wrappers
  import opened Prompts
  import opened Storage

  datatype Turn = Turn(question: string, answer: string)

  /** What the chain returns: the answer and the text of the source chunks it retrieved. */
  datatype ChainResult = ChainResult(answer: string, sources: seq<string>)

  /**
   * `qa_chain.invoke`: answers `question` from `index` and `history`, or is
   * `None` when the call raises.
   */
  type Answerer = (Index, string, seq<Message>) -> Option<ChainResult>

  /** The messages a conversation buffer holds after `turns`: each question, then its answer. */
  function Transcript(turns: seq<Turn>): seq<Message>
    decreases |turns|
  {
    if turns == [] then []
    else Transcript(turns[..|turns| - 1]) + [Human(turns[|turns| - 1].question), Ai(turns[|turns| - 1].answer)]
  }

  /** The transcript has two messages per turn, turn `i` at positions `2i` and `2i+1`. */
  lemma {:induction false} TranscriptAt(turns: seq<Turn>, i: nat)
    requires i < |turns|
    ensures |Transcript(turns)| == 2 * |turns|
    ensures Transcript(turns)[2 * i] == Human(turns[i].question)
    ensures Transcript(turns)[2 * i + 1] == Ai(turns[i].answer)
    decreases |turns|
  {
    var init := turns[..|turns| - 1];
    if i < |init| {
      TranscriptAt(init, i);
    } else if init != [] {
      TranscriptAt(init, 0);
    }
  }

  /**
   * The history a turn is sent with is exactly the transcript of the turns
   * before it: the transcript of the first `k` turns is the first `2k`
   * messages of any later transcript, so turn `k + 1` never sees its own
   * answer or anything after it.
   */
  lemma {:induction false} TranscriptPrefix(turns: seq<Turn>, k: nat)
    requires k <= |turns|
    ensures |Transcript(turns)| == 2 * |turns|
    ensures Transcript(turns[..k]) == Transcript(turns)[..2 * k]
    decreases |turns|
  {
    if turns != [] {
      var init := turns[..|turns| - 1];
      TranscriptPrefix(init, if k < |turns| then k else |init|);
      if k < |turns| {
        assert init[..k] == turns[..k];
      } else {
        assert turns[..k] == turns;
      }
    }
  }

  /** `ConversationBufferMemory`: the messages of the turns saved so far. */
  class ChatMemory {
    var messages: seq<Message>
    ghost var turns: seq<Turn>

    ghost predicate Valid()
      reads this
    {
      messages == Transcript(turns)
    }

    constructor ()
      ensures Valid() && turns == [] && messages == []
    {
      messages := [];
      turns := [];
    }

    /** `save_context`: append the question and the answer. */
    method SaveContext(question: string, answer: string)
      requires Valid()
      modifies this
      ensures Valid()
      ensures turns == old(turns) + [Turn(question, answer)]
      ensures messages == old(messages) + [Human(question), Ai(answer)]
    {
      messages := messages + [Human(question), Ai(answer)];
      turns := turns + [Turn(question, answer)];
      assert turns[..|turns| - 1] == old(turns);
    }
  }

  /** `ConversationalRetrievalChain` over one document's index, with its memory slot. */
  class QaChain {
    const index: Index
    var memory: ChatMemory?

    constructor (index: Index, memory: ChatMemory?)
      ensures this.index == index && this.memory == memory
    {
      this.index := index;
      this.memory := memory;
    }
  }

  /**
   * One chat turn: take the history as it stands, detach the chain's memory,
   * invoke the chain, and only when the call returns save the (question,
   * answer) pair and reattach the memory. A call that raises leaves the
   * history untouched and the memory detached.
   */
  method ChatTurn(chain: QaChain, memory: ChatMemory, query: string, answerer: Answerer)
    returns (result: Option<ChainResult>)
    requires memory.Valid()
    modifies chain, memory
    ensures memory.Valid()
    ensures result == answerer(chain.index, query, old(memory.messages))
    ensures result.Some? ==> memory.turns == old(memory.turns) + [Turn(query, result.value.answer)]
    ensures result.Some? ==> chain.memory == memory
    ensures result.None? ==> memory.turns == old(memory.turns) && memory.messages == old(memory.messages)
    ensures result.None? ==> chain.memory == null
  {
    var history := memory.messages;
    chain.memory := null;
    result := answerer(chain.index, query, history);
    if result.Some? {
      memory.SaveContext(query, result.value.answer);
      chain.memory := memory;
    }
  }
}
