/**
 * `chunkString` of src/pages/index.tsx: the text of the newest agent message
 * is split on `" "` and shown two words at a time, each chunk followed by a
 * space; an odd final word is left out.
 */
module Chunking {
  import opened Strings

  /** The chunk made of two neighbouring words: `[a, b].join(" ") + " "`. */
  function PairChunk(a: string, b: string): string {
    a + " " + b + " "
  }

  /** Specification of the chunks: consecutive pairs of words, in order; an unpaired last word is dropped. */
  function Pairs(words: seq<string>): seq<string> {
    if |words| < 2 then [] else [PairChunk(words[0], words[1])] + Pairs(words[2..])
  }

  /** There is one chunk per complete pair of words. */
  lemma {:induction false} PairsLength(words: seq<string>)
    ensures |Pairs(words)| == |words| / 2
  {
    if |words| >= 2 {
      PairsLength(words[2..]);
    }
  }

  /** Chunk `j` is made of words `2j` and `2j + 1`, so chunk order follows word order. */
  lemma {:induction false} PairsAt(words: seq<string>, j: nat)
    requires j < |words| / 2
    ensures |Pairs(words)| == |words| / 2
    ensures Pairs(words)[j] == PairChunk(words[2 * j], words[2 * j + 1])
  {
    PairsLength(words);
    if j > 0 {
      PairsAt(words[2..], j - 1);
    }
  }

  /**
   * Writing the chunks out gives back the words joined by spaces: followed by a
   * trailing space when the count is even, and short of the last word when it is odd.
   */
  lemma {:induction false} PairsConcat(words: seq<string>)
    requires |words| >= 1
    ensures |words| % 2 == 0 ==> Concat(Pairs(words)) == Join(words, " ") + " "
    ensures |words| % 2 == 1 ==> Concat(Pairs(words)) + words[|words| - 1] == Join(words, " ")
  {
    if |words| >= 2 {
      var rest := words[2..];
      assert words[1..][1..] == rest;
      if |rest| == 0 {
        assert Join(words, " ") == words[0] + " " + words[1];
      } else {
        PairsConcat(rest);
        assert rest[|rest| - 1] == words[|words| - 1];
        assert Join(words, " ") == words[0] + " " + (words[1] + " " + Join(rest, " "));
      }
    }
  }

  /**
   * `chunkString(str)`: the loop of the source, stepping through the words two
   * at a time and keeping each slice that holds two words.
   */
  method ChunkString(str: string) returns (chunks: seq<string>)
    ensures chunks == Pairs(Split(str))
    ensures |chunks| == |Split(str)| / 2
    ensures forall j :: 0 <= j < |chunks| ==>
      chunks[j] == Split(str)[2 * j] + " " + Split(str)[2 * j + 1] + " "
  {
    var words := Split(str);
    var n := |words|;
    chunks := [];
    var i := 0;
    while i < n
      invariant i % 2 == 0 && i <= n + 1
      invariant |chunks| == (if i <= n then i else n) / 2
      invariant forall j :: 0 <= j < |chunks| ==> chunks[j] == PairChunk(words[2 * j], words[2 * j + 1])
    {
      var chunk := words[i..if i + 2 <= n then i + 2 else n];
      if |chunk| == 2 {
        assert chunk[1..] == [words[i + 1]];
        assert Join(chunk, " ") == words[i] + " " + words[i + 1];
        assert |chunks| * 2 == i;
        chunks := chunks + [Join(chunk, " ") + " "];
      }
      i := i + 2;
    }
    PairsLength(words);
    forall j | 0 <= j < |chunks|
      ensures chunks[j] == Pairs(words)[j]
    {
      PairsAt(words, j);
    }
  }

  /** With an even number of words, the chunks spell out the whole string plus one space. */
  lemma ChunksOfEvenWordCount(str: string)
    requires |Split(str)| % 2 == 0
    ensures Concat(Pairs(Split(str))) == str + " "
  {
    PairsConcat(Split(str));
    JoinSplit(str);
  }

  /** With an odd number of words, the chunks spell out the string up to, and without, its last word. */
  lemma ChunksOfOddWordCount(str: string)
    requires |Split(str)| % 2 == 1
    ensures Concat(Pairs(Split(str))) + Split(str)[|Split(str)| - 1] == str
  {
    PairsConcat(Split(str));
    JoinSplit(str);
  }

  /** The empty string and any string without a space form a single word, hence no chunk. */
  lemma NoChunksWithoutSpace(str: string)
    requires ' ' !in str
    ensures Pairs(Split(str)) == []
  {
    SplitWord(str);
  }
}
