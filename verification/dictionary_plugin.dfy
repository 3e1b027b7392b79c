/** The sample dictionary plugin: a fixed list of five words with their
    definitions, and three functions over it — a random entry, the word of
    an entry, and the definition of a word. */
module DictionaryPlugin {
  import opened Wrappers

  datatype DictionaryEntry = DictionaryEntry(word: string, definition: string)

  const Dictionary: seq<DictionaryEntry> := [
    DictionaryEntry("apple", "a round fruit with red, green, or yellow skin and a white flesh"),
    DictionaryEntry("book", "a set of printed or written pages bound together along one edge"),
    DictionaryEntry("cat", "a small furry animal with whiskers and a long tail that is often kept as a pet"),
    DictionaryEntry("dog", "a domesticated animal with four legs, a tail, and a keen sense of smell that is often used for hunting or companionship"),
    DictionaryEntry("elephant", "a large gray mammal with a long trunk, tusks, and ears that lives in Africa and Asia")
  ]

  const WordNotFound: string := "Word not found"
  const EntryNotFound: string := "Entry not found"

  predicate HasWord(word: string) {
    exists k :: 0 <= k < |Dictionary| && Dictionary[k].word == word
  }

  /** The position of the first entry for the word, if there is one. */
  function FindEntry(d: seq<DictionaryEntry>, word: string): (r: Option<nat>)
    ensures r.Some? ==> r.value < |d| && d[r.value].word == word
    ensures r.Some? ==> forall k :: 0 <= k < r.value ==> d[k].word != word
    ensures r.None? <==> forall k :: 0 <= k < |d| ==> d[k].word != word
    decreases |d|
  {
    if d == [] then None
    else if d[0].word == word then Some(0)
    else match FindEntry(d[1..], word)
      case None => None
      case Some(k) => Some(k + 1)
  }

  /** The definition of a word, or "Word not found". */
  function GetDefinition(word: string): (r: string)
    ensures forall k :: 0 <= k < |Dictionary| && Dictionary[k].word == word ==> r == Dictionary[k].definition
    ensures !HasWord(word) ==> r == WordNotFound
  {
    match FindEntry(Dictionary, word)
    case Some(k) => WordsDistinct(); Dictionary[k].definition
    case None => WordNotFound
  }

  /** The word of an entry when the dictionary has it, or "Entry not
      found".  Only the word of the argument is looked at. */
  function GetWord(entry: DictionaryEntry): (r: string)
    ensures HasWord(entry.word) ==> r == entry.word
    ensures !HasWord(entry.word) ==> r == EntryNotFound
  {
    match FindEntry(Dictionary, entry.word)
    case Some(k) => Dictionary[k].word
    case None => EntryNotFound
  }

  /** No two entries share a word, so a lookup by word is unambiguous. */
  lemma WordsDistinct()
    ensures forall i, j :: 0 <= i < j < |Dictionary| ==> Dictionary[i].word != Dictionary[j].word
  {
  }

  /** "Word not found" is the answer exactly for the words the dictionary
      does not have: no definition reads like the failure message. */
  lemma DefinitionNotFoundIff(word: string)
    ensures GetDefinition(word) == WordNotFound <==> !HasWord(word)
  {
    if HasWord(word) {
      var k :| 0 <= k < |Dictionary| && Dictionary[k].word == word;
      assert GetDefinition(word) == Dictionary[k].definition;
      assert k == 0 || k == 1 || k == 2 || k == 3 || k == 4;
    }
  }

  /** GetWord then GetDefinition recovers the definition of every entry;
      the definition the caller passes in plays no part. */
  lemma WordThenDefinition(k: nat, definition: string)
    requires k < |Dictionary|
    ensures GetWord(DictionaryEntry(Dictionary[k].word, definition)) == Dictionary[k].word
    ensures GetDefinition(GetWord(DictionaryEntry(Dictionary[k].word, definition))) == Dictionary[k].definition
  {
  }

  /** RandomNumberGenerator.GetInt32(fromInclusive, toExclusive): the draw
      is a parameter, and every value of the range is produced by some
      draw. */
  function GetInt32(fromInclusive: int, toExclusive: int, draw: nat): (r: int)
    requires fromInclusive < toExclusive
    ensures fromInclusive <= r < toExclusive
  {
    fromInclusive + draw % (toExclusive - fromInclusive)
  }

  lemma GetInt32Covers(fromInclusive: int, toExclusive: int, x: int)
    requires fromInclusive <= x < toExclusive
    ensures GetInt32(fromInclusive, toExclusive, x - fromInclusive) == x
  {
  }

  /** GetRandomEntry as written: the upper bound is exclusive, and it is
      one less than the number of entries. */
  function GetRandomEntry(draw: nat): (r: DictionaryEntry)
    ensures r in Dictionary[..|Dictionary| - 1]
  {
    Dictionary[GetInt32(0, |Dictionary| - 1, draw)]
  }

  /** The last entry, "elephant", is never drawn. */
  lemma ElephantNeverDrawn(draw: nat)
    ensures GetRandomEntry(draw).word != "elephant"
    ensures GetRandomEntry(draw) != Dictionary[|Dictionary| - 1]
  {
    var i := GetInt32(0, |Dictionary| - 1, draw);
    assert i == 0 || i == 1 || i == 2 || i == 3;
  }

  /** As written, each of the other four entries is still drawn by some
      draw. */
  lemma FirstFourDrawable(k: nat)
    requires k < |Dictionary| - 1
    ensures GetRandomEntry(k) == Dictionary[k]
  {
    GetInt32Covers(0, |Dictionary| - 1, k);
  }

  /** GetRandomEntry with the whole dictionary as the range. */
  function GetRandomEntryCorrected(draw: nat): (r: DictionaryEntry)
    ensures r in Dictionary
  {
    Dictionary[GetInt32(0, |Dictionary|, draw)]
  }

  /** Every entry, the last one included, can be drawn. */
  lemma EveryEntryDrawable(k: nat)
    requires k < |Dictionary|
    ensures GetRandomEntryCorrected(k) == Dictionary[k]
  {
    GetInt32Covers(0, |Dictionary|, k);
  }
}
