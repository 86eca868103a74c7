/** WordEntry: one word of a wordbook with its combined translation. */
module Model {
  import opened Wrappers
  import opened JavaString
  import opened JavaInt

  /** An immutable entry; the constructor below is the only way the plugin builds one. */
  datatype WordEntry = WordEntry(word: string, translation: string)

  /** `new WordEntry(word, translation)`: Objects.requireNonNull on each argument (word first),
      then both fields are stored trimmed. */
  function NewWordEntry(word: Option<string>, translation: Option<string>): (r: Result<WordEntry, string>)
    ensures r.Success? <==> word.Some? && translation.Some?
    ensures word.None? ==> r == Failure("Word cannot be null")
    ensures word.Some? && translation.None? ==> r == Failure("Translation cannot be null")
    ensures r.Success? ==> r.value == WordEntry(Trim(word.value), Trim(translation.value))
    ensures r.Success? ==> IsTrimmed(r.value.word) && IsTrimmed(r.value.translation)
    ensures r.Success? ==> |r.value.word| <= |word.value| && |r.value.translation| <= |translation.value|
  {
    if word.None? then Failure("Word cannot be null")
    else if translation.None? then Failure("Translation cannot be null")
    else Success(WordEntry(Trim(word.value), Trim(translation.value)))
  }

  /** Building an entry from strings that are already trimmed stores them unchanged. */
  lemma NewWordEntryOfTrimmed(word: string, translation: string)
    requires IsTrimmed(word) && IsTrimmed(translation)
    ensures NewWordEntry(Some(word), Some(translation)) == Success(WordEntry(word, translation))
  {
    TrimTrimmed(word);
    TrimTrimmed(translation);
  }

  /** The fields of a constructed entry are fixed points of trimming. */
  lemma NewWordEntryStoresTrimmed(word: string, translation: string)
    ensures var r := NewWordEntry(Some(word), Some(translation));
            r.Success? && NewWordEntry(Some(r.value.word), Some(r.value.translation)) == r
  {
    TrimIdempotent(word);
    TrimIdempotent(translation);
  }

  /** WordEntry.equals: entries are the same entry when their words are equal; the translation is ignored. */
  function Equals(a: WordEntry, b: WordEntry): (r: bool)
    ensures a == b ==> r
    ensures r ==> HashCode(a) == HashCode(b)
  {
    a.word == b.word
  }

  /** WordEntry.hashCode: Objects.hash(word), that is 31 * 1 + word.hashCode() in int arithmetic. */
  function HashCode(e: WordEntry): (r: int32)
    ensures e.word == "" ==> r == 31
    ensures (r as int - 31 - StringHash(e.word) as int) % 0x1_0000_0000 == 0
  {
    Wrap(31 + StringHash(e.word) as int)
  }

  /** equals is an equivalence that ignores translations, and hashCode agrees with it. */
  lemma EqualsIsWordEquivalence(a: WordEntry, b: WordEntry, c: WordEntry, t: string)
    ensures Equals(a, a)
    ensures Equals(a, b) ==> Equals(b, a)
    ensures Equals(a, b) && Equals(b, c) ==> Equals(a, c)
    ensures Equals(a, a.(translation := t))
    ensures Equals(a, b) ==> HashCode(a) == HashCode(b)
    ensures Equals(a, b) <==> a.word == b.word
  {
  }
}
