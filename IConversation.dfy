/** The flush policy of a conversation (the `ConversationFlushMode` enum). */
module ConversationFlushModes {

  /** When the sessions of a conversation flush. */
  datatype ConversationFlushMode =
      /** Sessions flush whenever the engine needs it. */
    | Automatic
      /** Everything is flushed when the conversation is disposed and was not canceled. */
    | OnClose
      /** The conversation must be flushed explicitly. */
    | Explicit

  /** The enum's members in declaration order. */
  const AllFlushModes: seq<ConversationFlushMode> := [Automatic, OnClose, Explicit]

  /** There are exactly three flush modes, each listed once. */
  lemma ExactlyThreeFlushModes(m: ConversationFlushMode)
    ensures m in AllFlushModes
    ensures |AllFlushModes| == 3
    ensures forall i, j :: 0 <= i < j < |AllFlushModes| ==> AllFlushModes[i] != AllFlushModes[j]
  {
  }
}
