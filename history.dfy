/**
  The conversation history of the chat application: the turns exchanged with the
  language model, the fixed two-turn preamble every history starts with, and the
  projection of a history onto the transcript the chat widget displays.
 */
module History {

  /** The role a turn is sent under ("user" or "assistant"). */
  datatype Role = User | Assistant

  /** One entry of the history: a role and the text sent or received under it. */
  datatype Turn = Turn(role: Role, content: string)

  /** What the chat widget shows: one (user text, assistant text) pair per exchange. */
  type Pairs = seq<(string, string)>

  /** Number of preamble turns that open every history and are never displayed. */
  const PreambleLength: nat := 2

  /** The preamble's two texts: the instruction sent as the first user turn and the
      acknowledgement recorded as the assistant's answer to it. */
  const Instruction: string := "You are an assistant."
  const Acknowledgement: string := "OK"

  /** The preamble: a user instruction followed by the assistant's acknowledgement.
      It is a well-formed history and displays as an empty transcript. */
  function Preamble(): (p: seq<Turn>)
    ensures |p| == PreambleLength
    ensures WellFormed(p)
    ensures Transcript(p) == []
  {
    [Turn(User, Instruction), Turn(Assistant, Acknowledgement)]
  }

  /** A history as reset or initialisation leaves it and as every completed
      submission keeps it: the preamble, then turns alternating user and assistant,
      so of even length. */
  ghost predicate WellFormed(h: seq<Turn>)
  {
    |h| >= PreambleLength && |h| % 2 == 0 &&
    h[0] == Turn(User, Instruction) &&
    h[1] == Turn(Assistant, Acknowledgement) &&
    forall j :: 0 <= j < |h| ==> h[j].role == (if j % 2 == 0 then User else Assistant)
  }

  /** The pairs taken at indices i, i + 2, i + 4, ... while the index is below |h| - 1:
      each pair holds the contents of the turn at that index and of the one after it.
      There are (|h| - i) / 2 of them, so a trailing turn without a partner is dropped. */
  function PairsFrom(h: seq<Turn>, i: nat): (r: Pairs)
    ensures |r| == if i <= |h| then (|h| - i) / 2 else 0
    ensures forall k :: 0 <= k < |r| ==> i + 2 * k + 1 < |h| && r[k] == (h[i + 2 * k].content, h[i + 2 * k + 1].content)
    decreases |h| - i
  {
    if i + 1 < |h| then
      var rest := PairsFrom(h, i + 2);
      assert forall k :: 1 <= k < 1 + |rest| ==> rest[k - 1] == (h[i + 2 * k].content, h[i + 2 * k + 1].content);
      [(h[i].content, h[i + 1].content)] + rest
    else
      []
  }

  /** The displayed transcript: pairs of consecutive turns from index 2 on, so the
      preamble never shows and an unanswered last turn is left out. For a history of
      length L >= 2 it has (L - 2) / 2 pairs, pair k holding turns 2 + 2k and 3 + 2k. */
  function Transcript(h: seq<Turn>): (r: Pairs)
    ensures |r| == if |h| < PreambleLength then 0 else (|h| - PreambleLength) / 2
    ensures forall k :: 0 <= k < |r| ==>
              PreambleLength + 2 * k + 1 < |h| &&
              r[k] == (h[PreambleLength + 2 * k].content, h[PreambleLength + 2 * k + 1].content)
  {
    PairsFrom(h, PreambleLength)
  }

  /** Appending a user turn and its reply to a history of even length adds exactly
      one pair, holding their two contents, at the end of the transcript. */
  lemma TranscriptAppendPair(h: seq<Turn>, u: Turn, a: Turn)
    requires |h| >= PreambleLength && |h| % 2 == 0
    ensures Transcript(h + [u, a]) == Transcript(h) + [(u.content, a.content)]
  {
  }

  /** A turn appended to a history of even length, with no partner after it, does
      not change the transcript. */
  lemma TranscriptOmitsTrailing(h: seq<Turn>, t: Turn)
    requires |h| >= PreambleLength && |h| % 2 == 0
    ensures Transcript(h + [t]) == Transcript(h)
  {
  }

  /** The transcript does not depend on the preamble: two histories that agree from
      index 2 on display the same transcript, whatever their first two turns hold. */
  lemma TranscriptIgnoresPreamble(h: seq<Turn>, g: seq<Turn>)
    requires |h| >= PreambleLength && |g| >= PreambleLength
    requires h[PreambleLength..] == g[PreambleLength..]
    ensures Transcript(h) == Transcript(g)
  {
  }

  /** In a well-formed history every displayed pair is a user message followed by
      the assistant's reply to it. */
  lemma WellFormedPairsAreExchanges(h: seq<Turn>, k: nat)
    requires WellFormed(h)
    requires k < |Transcript(h)|
    ensures h[PreambleLength + 2 * k].role == User
    ensures h[PreambleLength + 2 * k + 1].role == Assistant
    ensures Transcript(h)[k] == (h[PreambleLength + 2 * k].content, h[PreambleLength + 2 * k + 1].content)
  {
  }

  /** A well-formed history stays well-formed when a user turn and an assistant turn
      are appended, in that order. */
  lemma WellFormedAppendExchange(h: seq<Turn>, user: string, reply: string)
    requires WellFormed(h)
    ensures WellFormed(h + [Turn(User, user), Turn(Assistant, reply)])
  {
  }

  /** The pairing of a preamble, a user message A, its reply B and an unanswered
      user message C displays exactly the pair (A, B). */
  lemma PairingExample(a: string, b: string, c: string)
    ensures Transcript(Preamble() + [Turn(User, a), Turn(Assistant, b), Turn(User, c)]) == [(a, b)]
  {
  }
}
