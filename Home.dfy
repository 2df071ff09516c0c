/**
 * What the chat page shows for a transcript (src/pages/index.tsx): the
 * placeholder for an empty transcript, the messages shown as they are, and,
 * while the agent's answer is arriving, that answer as animated two-word chunks.
 */
module Home {
  import opened Optional
  import opened Strings
  import opened Messages
  import opened Chunking

  /** `shouldAnimateLastMessage`: loading, and the newest message is not the user's. */
  function ShouldAnimateLastMessage(isLoading: bool, messages: seq<Message>): (animate: bool)
    ensures animate ==> isLoading && messages != []
    ensures messages != [] ==> (animate <==> isLoading && messages[|messages| - 1].role != UserRole)
  {
    isLoading && |messages| > 0 && messages[|messages| - 1].role != UserRole
  }

  /** What the page renders from the transcript. */
  datatype View = View(placeholder: bool, shown: seq<Message>, animated: Option<seq<string>>)

  /** The messages rendered as they are: all of them, or all but the newest while it is animated. */
  function StaticMessages(isLoading: bool, messages: seq<Message>): (shown: seq<Message>)
    ensures |shown| == if ShouldAnimateLastMessage(isLoading, messages) then |messages| - 1 else |messages|
    ensures shown == messages[..|shown|]
  {
    if ShouldAnimateLastMessage(isLoading, messages) then messages[..|messages| - 1] else messages
  }

  /** The animated block: present only while animating, and then the chunks of the newest message. */
  function AnimatedChunks(isLoading: bool, messages: seq<Message>): (block: Option<seq<string>>)
    ensures block.Some? <==> ShouldAnimateLastMessage(isLoading, messages)
    ensures block.Some? ==> block.value == Pairs(Split(messages[|messages| - 1].content))
  {
    if isLoading && ShouldAnimateLastMessage(isLoading, messages) then
      Some(Pairs(Split(messages[|messages| - 1].content)))
    else
      None
  }

  /** The whole rendering of the transcript area. */
  function Render(isLoading: bool, messages: seq<Message>): (v: View)
    ensures v.placeholder <==> messages == []
    ensures v.placeholder ==> v.shown == [] && v.animated == None
    ensures v.shown + (if v.animated.Some? then [messages[|messages| - 1]] else []) == messages
  {
    View(|messages| <= 0, StaticMessages(isLoading, messages), AnimatedChunks(isLoading, messages))
  }

  /**
   * Whether to animate depends only on the loading flag and the newest
   * message: never for an empty transcript, never once the user has spoken last.
   */
  lemma AnimationDependsOnNewestMessage(isLoading: bool, earlier: seq<Message>, newest: Message)
    ensures !ShouldAnimateLastMessage(isLoading, [])
    ensures ShouldAnimateLastMessage(isLoading, earlier + [newest]) <==> isLoading && newest.role != UserRole
  {
  }

  /**
   * While animating, the animated text is the newest message's own content:
   * all of it plus a trailing space for an even word count, all but its last
   * word for an odd one.
   */
  lemma {:induction false} AnimatedTextIsNewestContent(isLoading: bool, messages: seq<Message>)
    requires ShouldAnimateLastMessage(isLoading, messages)
    ensures AnimatedChunks(isLoading, messages).Some?
    ensures var content := messages[|messages| - 1].content;
      var words := Split(content);
      var text := Concat(AnimatedChunks(isLoading, messages).value);
      && (|words| % 2 == 0 ==> text == content + " ")
      && (|words| % 2 == 1 ==> text + words[|words| - 1] == content)
  {
    var content := messages[|messages| - 1].content;
    if |Split(content)| % 2 == 0 {
      ChunksOfEvenWordCount(content);
    } else {
      ChunksOfOddWordCount(content);
    }
  }
}
