/** WordTableModel: the rows of the page on screen, with a switch that masks the translation column. */
module Table {
  import opened Wrappers
  import opened Model

  const WORD_COLUMN_INDEX: int := 0
  const TRANSLATION_COLUMN_INDEX: int := 1
  const PRONOUNCE_COLUMN_INDEX: int := 2
  const COLUMN_COUNT: int := 3

  /** What the translation column shows while translations are hidden. */
  const MASK: string := "****"
  /** The text of the pronounce button in every row. */
  const PRONOUNCE_TEXT: string := "▶ 发音"

  class WordTableModel {
    var words: seq<WordEntry>
    var translationsHidden: bool
    /** How many times fireTableDataChanged has told the table to repaint. */
    var dataChangedEvents: nat

    constructor ()
      ensures words == [] && !translationsHidden && dataChangedEvents == 0
    {
      words := [];
      translationsHidden := false;
      dataChangedEvents := 0;
    }

    /** setWords: keep a copy of the rows (a value here, so later changes to the caller's list
        cannot reach it) and signal a data change. */
    method SetWords(newWords: seq<WordEntry>)
      modifies this
      ensures words == newWords
      ensures translationsHidden == old(translationsHidden)
      ensures dataChangedEvents == old(dataChangedEvents) + 1
    {
      words := newWords;
      dataChangedEvents := dataChangedEvents + 1;
    }

    /** setTranslationsHidden: store the flag; a change is signalled only when the flag flips. */
    method SetTranslationsHidden(hidden: bool)
      modifies this
      ensures IsTranslationsHidden() == hidden
      ensures words == old(words)
      ensures dataChangedEvents == old(dataChangedEvents) + (if old(translationsHidden) != hidden then 1 else 0)
    {
      if translationsHidden != hidden {
        translationsHidden := hidden;
        dataChangedEvents := dataChangedEvents + 1;
      }
    }

    /** isTranslationsHidden: whether the translation column shows the mask in every row. */
    function IsTranslationsHidden(): (r: bool)
      reads this
      ensures r ==> forall row :: 0 <= row < |words| ==> GetValueAt(row, TRANSLATION_COLUMN_INDEX) == Some(MASK)
      ensures !r ==> forall row :: 0 <= row < |words| ==>
                       GetValueAt(row, TRANSLATION_COLUMN_INDEX) == Some(words[row].translation)
    {
      translationsHidden
    }

    /** getWordEntryAt: the row's entry, or null outside 0 <= row < size. */
    function GetWordEntryAt(row: int): (r: Option<WordEntry>)
      reads this
      ensures r.Some? <==> 0 <= row < |words|
      ensures r.Some? ==> r.value == words[row]
    {
      if 0 <= row < |words| then Some(words[row]) else None
    }

    function GetRowCount(): (n: nat)
      reads this
      ensures n == |words|
    {
      |words|
    }

    function GetColumnCount(): (n: int)
      ensures n == COLUMN_COUNT
    {
      COLUMN_COUNT
    }

    /** Only the pronounce button column accepts clicks. */
    function IsCellEditable(row: int, column: int): (b: bool)
      ensures b <==> column == PRONOUNCE_COLUMN_INDEX
    {
      column == PRONOUNCE_COLUMN_INDEX
    }

    /** getValueAt: null for a row out of range or an unknown column; otherwise the word, the translation
        or its mask, or the button text. */
    function GetValueAt(row: int, column: int): (v: Option<string>)
      reads this
      ensures v.Some? <==> 0 <= row < |words| && 0 <= column < COLUMN_COUNT
      ensures v.Some? && column == WORD_COLUMN_INDEX ==> v.value == words[row].word
      ensures v.Some? && column == TRANSLATION_COLUMN_INDEX ==>
                v.value == (if translationsHidden then MASK else words[row].translation)
      ensures v.Some? && column == PRONOUNCE_COLUMN_INDEX ==> v.value == PRONOUNCE_TEXT
    {
      if row < 0 || row >= |words| then None
      else
        var entry := words[row];
        if column == WORD_COLUMN_INDEX then Some(entry.word)
        else if column == TRANSLATION_COLUMN_INDEX then Some(if translationsHidden then MASK else entry.translation)
        else if column == PRONOUNCE_COLUMN_INDEX then Some(PRONOUNCE_TEXT)
        else None
    }

    /** Every row the table reports can be read in every column, and the cells agree with the entry
        getWordEntryAt gives; while hidden, no translation cell shows a translation. */
    lemma CellsAgreeWithEntries(row: int)
      requires 0 <= row < GetRowCount()
      ensures forall column :: 0 <= column < GetColumnCount() ==> GetValueAt(row, column).Some?
      ensures GetValueAt(row, WORD_COLUMN_INDEX) == Some(GetWordEntryAt(row).value.word)
      ensures translationsHidden ==> GetValueAt(row, TRANSLATION_COLUMN_INDEX) == Some(MASK)
      ensures !translationsHidden ==> GetValueAt(row, TRANSLATION_COLUMN_INDEX) == Some(GetWordEntryAt(row).value.translation)
    {
    }
  }
}
