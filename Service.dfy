/** WordbookService: turns a parsed wordbook file into the ordered list of entries the tool window
    pages through, and draws random samples from such a list. */
module Service {
  import opened Wrappers
  import opened JavaString
  import opened Model

  /** One `{type, translation}` object of a record's `translations` array; Gson leaves absent fields null. */
  datatype TranslationItem = TranslationItem(translation: Option<string>, itemType: Option<string>)

  /** One object of the wordbook's top-level array. */
  datatype WordRecord = WordRecord(word: Option<string>, translations: Option<seq<Option<TranslationItem>>>)

  /** What reading and parsing the file gave: Files.readString threw, Gson threw JsonSyntaxException,
      or Gson returned a (possibly null) list whose elements may be null. */
  datatype ParsedDocument =
    | ReadFailed
    | SyntaxError
    | Parsed(records: Option<seq<Option<WordRecord>>>)

  /** The loader's only failure: the file is missing or unreadable. */
  datatype LoadError = FileNotReadable(path: string)

  // ---- the loop of loadJsonFile, for any per-record function ----

  /** Apply f to each element in order and keep the Some results. */
  function FilterMap<T, U>(f: T -> Option<U>, s: seq<T>): seq<U> {
    if s == [] then []
    else FilterMap(f, s[..|s| - 1]) + (match f(s[|s| - 1]) case None => [] case Some(u) => [u])
  }

  lemma FilterMapSnoc<T, U>(f: T -> Option<U>, s: seq<T>, i: nat)
    requires i < |s|
    ensures FilterMap(f, s[..i + 1]) == FilterMap(f, s[..i]) + (match f(s[i]) case None => [] case Some(u) => [u])
  {
    assert s[..i + 1][..i] == s[..i];
  }

  /** Filtering is done element by element: concatenated inputs give concatenated outputs, so the
      output keeps the input's relative order. */
  lemma {:induction false} FilterMapAppend<T, U>(f: T -> Option<U>, a: seq<T>, b: seq<T>)
    ensures FilterMap(f, a + b) == FilterMap(f, a) + FilterMap(f, b)
  {
    if b == [] {
      assert a + b == a;
    } else {
      assert (a + b)[..|a + b| - 1] == a + b[..|b| - 1];
      FilterMapAppend(f, a, b[..|b| - 1]);
    }
  }

  lemma {:induction false} FilterMapLength<T, U>(f: T -> Option<U>, s: seq<T>)
    ensures |FilterMap(f, s)| <= |s|
  {
    if s != [] {
      FilterMapLength(f, s[..|s| - 1]);
    }
  }

  /** A value is in the output exactly when f gives it for some element. */
  lemma {:induction false} FilterMapMembers<T, U>(f: T -> Option<U>, s: seq<T>, u: U)
    ensures u in FilterMap(f, s) <==> exists i :: 0 <= i < |s| && f(s[i]) == Some(u)
  {
    if s != [] {
      var n := |s| - 1;
      var prefix := s[..n];
      var last: seq<U> := match f(s[n]) case None => [] case Some(v) => [v];
      assert FilterMap(f, s) == FilterMap(f, prefix) + last;
      assert u in last <==> f(s[n]) == Some(u);
      FilterMapMembers(f, prefix, u);
      if u in FilterMap(f, prefix) {
        var i :| 0 <= i < n && f(prefix[i]) == Some(u);
        assert prefix[i] == s[i];
      }
      if exists i :: 0 <= i < |s| && f(s[i]) == Some(u) {
        var i :| 0 <= i < |s| && f(s[i]) == Some(u);
        if i < n {
          assert prefix[i] == s[i];
        }
      }
    }
  }

  /** When f gives a value for every element, the output is those values position by position. */
  lemma {:induction false} FilterMapAllSome<T, U>(f: T -> Option<U>, s: seq<T>)
    requires forall i :: 0 <= i < |s| ==> f(s[i]).Some?
    ensures |FilterMap(f, s)| == |s|
    ensures forall i :: 0 <= i < |s| ==> FilterMap(f, s)[i] == f(s[i]).value
  {
    if s != [] {
      var n := |s| - 1;
      assert forall i :: 0 <= i < n ==> s[..n][i] == s[i];
      FilterMapAllSome(f, s[..n]);
    }
  }

  // ---- combineTranslations ----

  /** The stream filter: a non-null item with a non-null, non-blank translation. */
  predicate IsValidItem(item: Option<TranslationItem>) {
    item.Some? && item.value.translation.Some? && !IsBlank(item.value.translation.value)
  }

  /** The stream map: `type.trim() + ". "` when the type is non-null and non-blank, then the trimmed translation. */
  function RenderItem(item: TranslationItem): (r: string)
    requires item.translation.Some? && !IsBlank(item.translation.value)
    ensures r != "" && IsTrimmed(r)
  {
    var text := Trim(item.translation.value);
    var prefix := if item.itemType.Some? && !IsBlank(item.itemType.value) then Trim(item.itemType.value) + ". " else "";
    assert text != "";
    assert prefix != "" ==> prefix[0] == Trim(item.itemType.value)[0];
    var r := prefix + text;
    assert r[|r| - 1] == text[|text| - 1];
    r
  }

  /** The items that pass the filter, in their original order. */
  function ValidItems(items: seq<Option<TranslationItem>>): (r: seq<TranslationItem>)
    ensures |r| <= |items|
    ensures forall k :: 0 <= k < |r| ==> r[k].translation.Some? && !IsBlank(r[k].translation.value)
  {
    if items == [] then []
    else (if IsValidItem(items[0]) then [items[0].value] else []) + ValidItems(items[1..])
  }

  function RenderAll(items: seq<TranslationItem>): (r: seq<string>)
    requires forall k :: 0 <= k < |items| ==> items[k].translation.Some? && !IsBlank(items[k].translation.value)
    ensures |r| == |items|
    ensures forall k :: 0 <= k < |r| ==> r[k] == RenderItem(items[k])
  {
    if items == [] then [] else [RenderItem(items[0])] + RenderAll(items[1..])
  }

  /** combineTranslations: "" for a null or empty list, else the valid items rendered and joined with "; ". */
  function CombineTranslations(items: Option<seq<Option<TranslationItem>>>): (r: string)
    ensures items.None? || items.value == [] ==> r == ""
    ensures items.Some? && |ValidItems(items.value)| == 1 ==> r == RenderItem(ValidItems(items.value)[0])
  {
    if items.None? || items.value == [] then ""
    else Join(RenderAll(ValidItems(items.value)), "; ")
  }

  /** Filtering distributes over concatenation: each item is kept or dropped on its own, in order. */
  lemma {:induction false} ValidItemsAppend(a: seq<Option<TranslationItem>>, b: seq<Option<TranslationItem>>)
    ensures ValidItems(a + b) == ValidItems(a) + ValidItems(b)
  {
    if a == [] {
      assert a + b == b;
    } else {
      assert (a + b)[1..] == a[1..] + b;
      ValidItemsAppend(a[1..], b);
    }
  }

  /** An item survives the filter exactly when it is valid. */
  lemma {:induction false} ValidItemsEmptyIff(items: seq<Option<TranslationItem>>)
    ensures ValidItems(items) == [] <==> forall k :: 0 <= k < |items| ==> !IsValidItem(items[k])
  {
    if items != [] {
      ValidItemsEmptyIff(items[1..]);
      assert forall k :: 1 <= k < |items| ==> items[k] == items[1..][k - 1];
    }
  }

  /** The combined text is empty exactly when no item has a non-blank translation, and it is already trimmed. */
  lemma CombineTranslationsEmptyIff(items: Option<seq<Option<TranslationItem>>>)
    ensures CombineTranslations(items) == ""
            <==> items.None? || forall k :: 0 <= k < |items.value| ==> !IsValidItem(items.value[k])
    ensures IsTrimmed(CombineTranslations(items))
  {
    if items.Some? && items.value != [] {
      var parts := RenderAll(ValidItems(items.value));
      JoinOfTrimmedParts(parts, "; ");
      ValidItemsEmptyIff(items.value);
    }
  }

  /** An item with a non-blank translation passes the filter and renders as its trimmed type, ". "
      and its trimmed translation, or as the trimmed translation alone when the type is null or blank. */
  lemma RenderItemText(item: TranslationItem)
    requires item.translation.Some? && !IsBlank(item.translation.value)
    ensures IsValidItem(Some(item))
    ensures RenderItem(item) == (if item.itemType.Some? && !IsBlank(item.itemType.value)
                                 then Trim(item.itemType.value) + ". " else "")
                                + Trim(item.translation.value)
  {
  }

  /** A typed sense followed by an untyped one, as in
      [{type: "n", translation: "ability"}, {translation: "skill"}] giving "n. ability; skill";
      each field is trimmed on the way. */
  lemma CombineTypedThenUntyped(itemType: string, first: string, second: string)
    requires !IsBlank(itemType) && !IsBlank(first) && !IsBlank(second)
    ensures CombineTranslations(Some([Some(TranslationItem(Some(first), Some(itemType))),
                                      Some(TranslationItem(Some(second), None))]))
            == Trim(itemType) + ". " + Trim(first) + "; " + Trim(second)
  {
    var a := TranslationItem(Some(first), Some(itemType));
    var b := TranslationItem(Some(second), None);
    var items := [Some(a), Some(b)];
    RenderItemText(a);
    RenderItemText(b);
    assert ValidItems(items) == [a, b] by {
      assert items[1..] == [Some(b)];
      assert [Some(b)][1..] == [];
    }
    assert [a, b][1..] == [b];
    assert [b][1..] == [];
    assert RenderItem(b) == "" + Trim(second) == Trim(second);
    assert RenderAll([b]) == [Trim(second)];
    var parts := RenderAll([a, b]);
    assert parts == [RenderItem(a)] + RenderAll([b]);
    assert parts == [Trim(itemType) + ". " + Trim(first), Trim(second)];
    assert parts[1..] == [Trim(second)];
    assert CombineTranslations(Some(items)) == Join(parts, "; ");
    assert Join(parts, "; ") == parts[0] + "; " + Join([Trim(second)], "; ");
  }

  /** The documented example. */
  lemma CombineTranslationsExample()
    ensures CombineTranslations(Some([Some(TranslationItem(Some("ability"), Some("n"))),
                                      Some(TranslationItem(Some("skill"), None))]))
            == "n. ability; skill"
  {
    ExampleFieldsTrimmed();
    CombineTypedThenUntyped("n", "ability", "skill");
  }

  /** The example's fields are already trimmed, so the combined text is the plain concatenation. */
  lemma ExampleFieldsTrimmed()
    ensures !IsBlank("n") && !IsBlank("ability") && !IsBlank("skill")
    ensures Trim("n") + ". " + Trim("ability") + "; " + Trim("skill") == "n. ability; skill"
  {
    TrimTrimmed("n");
    TrimTrimmed("ability");
    TrimTrimmed("skill");
    assert "n" + ". " + "ability" + "; " + "skill" == "n. ability; skill";
  }

  // ---- loadJsonFile ----

  /** What one record contributes: nothing when it is null, its word is null or blank, or its combined
      translation is empty; else the entry of the trimmed word and the combined translation. */
  function NormalizeRecord(rec: Option<WordRecord>): (r: Option<WordEntry>)
    ensures rec.None? || rec.value.word.None? ==> r.None?
    ensures rec.Some? && rec.value.word.Some? && IsBlank(rec.value.word.value) ==> r.None?
    ensures rec.Some? && rec.value.word.Some? && CombineTranslations(rec.value.translations) == "" ==> r.None?
    ensures rec.Some? && rec.value.word.Some? && !IsBlank(rec.value.word.value)
            && CombineTranslations(rec.value.translations) != ""
            ==> r == Some(WordEntry(Trim(rec.value.word.value), CombineTranslations(rec.value.translations)))
    ensures r.Some? ==> rec.Some? && rec.value.word.Some?
                        && r.value.word == Trim(rec.value.word.value)
                        && r.value.translation == CombineTranslations(rec.value.translations)
  {
    if rec.None? || rec.value.word.None? || IsBlank(rec.value.word.value) then None
    else
      var combined := CombineTranslations(rec.value.translations);
      if combined == "" then None else Some(WordEntry(Trim(rec.value.word.value), combined))
  }

  /** The entries of a list of records, in record order. */
  function NormalizeRecords(records: seq<Option<WordRecord>>): (r: seq<WordEntry>)
    ensures |r| <= |records|
  {
    FilterMapLength(NormalizeRecord, records);
    FilterMap(NormalizeRecord, records)
  }

  /** The list loadJsonFile returns: read and syntax errors are caught and give an empty list. */
  function LoadedWords(doc: ParsedDocument): (r: seq<WordEntry>)
    ensures !doc.Parsed? || doc.records.None? ==> r == []
    ensures doc.Parsed? && doc.records.Some? ==> |r| <= |doc.records.value|
  {
    match doc
    case Parsed(Some(records)) => NormalizeRecords(records)
    case _ => []
  }

  /** A kept record has a trimmed non-blank word and a trimmed non-empty translation. */
  lemma NormalizeRecordShape(rec: Option<WordRecord>)
    requires NormalizeRecord(rec).Some?
    ensures var e := NormalizeRecord(rec).value;
            e.word != "" && IsTrimmed(e.word) && e.translation != "" && IsTrimmed(e.translation)
  {
    BlankIffAllTrimmable(rec.value.word.value);
    CombineTranslationsEmptyIff(rec.value.translations);
  }

  /** The output is never longer than the input, and every entry has a trimmed non-blank word and a
      trimmed non-empty translation. */
  lemma NormalizeRecordsShape(records: seq<Option<WordRecord>>)
    ensures |NormalizeRecords(records)| <= |records|
    ensures forall e :: e in NormalizeRecords(records) ==>
              e.word != "" && IsTrimmed(e.word) && e.translation != "" && IsTrimmed(e.translation)
  {
    FilterMapLength(NormalizeRecord, records);
    forall e | e in NormalizeRecords(records)
      ensures e.word != "" && IsTrimmed(e.word) && e.translation != "" && IsTrimmed(e.translation)
    {
      FilterMapMembers(NormalizeRecord, records, e);
      var i :| 0 <= i < |records| && NormalizeRecord(records[i]) == Some(e);
      NormalizeRecordShape(records[i]);
    }
  }

  /** Records are kept or dropped one by one and in order: the entries of two runs of records are the
      entries of the first run followed by those of the second. */
  lemma NormalizeRecordsInOrder(a: seq<Option<WordRecord>>, b: seq<Option<WordRecord>>)
    ensures NormalizeRecords(a + b) == NormalizeRecords(a) + NormalizeRecords(b)
  {
    FilterMapAppend(NormalizeRecord, a, b);
  }

  /** An entry is in the output exactly when some record normalises to it. */
  lemma NormalizeRecordsMembers(records: seq<Option<WordRecord>>, e: WordEntry)
    ensures e in NormalizeRecords(records) <==> exists i :: 0 <= i < |records| && NormalizeRecord(records[i]) == Some(e)
  {
    FilterMapMembers(NormalizeRecord, records, e);
  }

  /** Every record with a non-blank word and a non-empty combined translation puts the entry of its
      trimmed word and that translation into the output. */
  lemma NormalizeRecordsKeepsValid(records: seq<Option<WordRecord>>, i: nat)
    requires i < |records| && records[i].Some? && records[i].value.word.Some?
    requires !IsBlank(records[i].value.word.value) && CombineTranslations(records[i].value.translations) != ""
    ensures WordEntry(Trim(records[i].value.word.value), CombineTranslations(records[i].value.translations))
            in NormalizeRecords(records)
  {
    var e := WordEntry(Trim(records[i].value.word.value), CombineTranslations(records[i].value.translations));
    assert NormalizeRecord(records[i]) == Some(e);
    NormalizeRecordsMembers(records, e);
  }

  /** When no record is skipped, entry i is record i's entry. */
  lemma NormalizeRecordsNoneSkipped(records: seq<Option<WordRecord>>)
    requires forall i :: 0 <= i < |records| ==> NormalizeRecord(records[i]).Some?
    ensures |NormalizeRecords(records)| == |records|
    ensures forall i :: 0 <= i < |records| ==> NormalizeRecords(records)[i] == NormalizeRecord(records[i]).value
  {
    FilterMapAllSome(NormalizeRecord, records);
  }

  /** One more record adds its entry, if it has one, at the end. */
  lemma NormalizeRecordsSnoc(records: seq<Option<WordRecord>>, i: nat, entry: Option<WordEntry>)
    requires i < |records| && entry == NormalizeRecord(records[i])
    ensures NormalizeRecords(records[..i + 1])
            == NormalizeRecords(records[..i]) + (if entry.Some? then [entry.value] else [])
  {
    FilterMapSnoc(NormalizeRecord, records, i);
  }

  /** The body of loadJsonFile's loop for one record: skip a null record, a null or blank word, or
      an empty combined translation; otherwise build the entry of the trimmed word. */
  method LoadRecord(parsedWord: Option<WordRecord>) returns (entry: Option<WordEntry>)
    ensures entry == NormalizeRecord(parsedWord)
  {
    if parsedWord.None? || parsedWord.value.word.None? || IsBlank(parsedWord.value.word.value) {
      return None;
    }
    var word := Trim(parsedWord.value.word.value);
    var combinedTranslation := CombineTranslations(parsedWord.value.translations);
    if combinedTranslation == "" {
      return None;
    }
    CombineTranslationsEmptyIff(parsedWord.value.translations);
    NewWordEntryOfTrimmed(word, combinedTranslation);
    var created := NewWordEntry(Some(word), Some(combinedTranslation));
    return Some(created.value);
  }

  /** loadJsonFile: walk the parsed records in order, skipping the invalid ones, and build the list. */
  method LoadJsonFile(doc: ParsedDocument) returns (allWords: seq<WordEntry>)
    ensures allWords == LoadedWords(doc)
  {
    allWords := [];
    if doc.ReadFailed? || doc.SyntaxError? {
      return;
    }
    var parsedWords := doc.records;
    if parsedWords.None? || parsedWords.value == [] {
      return;
    }
    var records := parsedWords.value;
    var loadedInFile := 0;
    var i := 0;
    while i < |records|
      invariant 0 <= i <= |records|
      invariant allWords == NormalizeRecords(records[..i])
      invariant loadedInFile == |allWords|
    {
      var entry := LoadRecord(records[i]);
      NormalizeRecordsSnoc(records, i, entry);
      i := i + 1;
      if entry.None? {
        continue;
      }
      allWords := allWords + [entry.value];
      loadedInFile := loadedInFile + 1;
    }
    assert records[..|records|] == records;
  }

  /** Collections.shuffle on an ArrayList: for i from size down to 2, swap positions i - 1 and
      rnd.nextInt(i). The random draws are a parameter: draws[k] is the draw for position k. */
  method Shuffle(a: array<WordEntry>, draws: seq<int>)
    requires |draws| == a.Length
    requires forall k :: 0 <= k < |draws| ==> 0 <= draws[k] <= k
    modifies a
    ensures multiset(a[..]) == multiset(old(a[..]))
  {
    var i := a.Length;
    while i > 1
      invariant 0 <= i <= a.Length
      invariant multiset(a[..]) == multiset(old(a[..]))
    {
      var j := draws[i - 1];
      a[i - 1], a[j] := a[j], a[i - 1];
      i := i - 1;
    }
  }

  class WordbookService {
    /** The list of the last successful load. */
    var currentlyLoadedWords: seq<WordEntry>

    constructor ()
      ensures currentlyLoadedWords == []
    {
      currentlyLoadedWords := [];
    }

    /** loadWordsFromFile: a missing or unreadable file throws and changes nothing; otherwise the file is
        loaded, kept as the current list, and a copy is returned. */
    method LoadWordsFromFile(path: string, fileExists: bool, readable: bool, doc: ParsedDocument)
      returns (r: Result<seq<WordEntry>, LoadError>)
      modifies this
      ensures !fileExists || !readable ==> r == Failure(FileNotReadable(path)) && unchanged(this)
      ensures fileExists && readable ==> currentlyLoadedWords == LoadedWords(doc) && r == Success(LoadedWords(doc))
    {
      if !fileExists || !readable {
        return Failure(FileNotReadable(path));
      }
      currentlyLoadedWords := LoadJsonFile(doc);
      r := Success(currentlyLoadedWords);
    }

    /** getRandomWords: nothing for a non-positive count; otherwise min(count, size) entries taken from
        distinct positions of a shuffled copy; the caller's list is not touched (it is a value here). */
    method GetRandomWords(count: int, allLoadedWords: seq<WordEntry>, draws: seq<int>) returns (r: seq<WordEntry>)
      requires |draws| == |allLoadedWords|
      requires forall k :: 0 <= k < |draws| ==> 0 <= draws[k] <= k
      ensures count <= 0 ==> r == []
      ensures count > 0 ==> |r| == Min(count, |allLoadedWords|)
      ensures multiset(r) <= multiset(allLoadedWords)
      ensures count >= |allLoadedWords| ==> multiset(r) == multiset(allLoadedWords)
    {
      if count <= 0 {
        return [];
      }
      var shuffled := new WordEntry[|allLoadedWords|](k requires 0 <= k < |allLoadedWords| => allLoadedWords[k]);
      assert shuffled[..] == allLoadedWords;
      Shuffle(shuffled, draws);
      var actualCount := Min(count, shuffled.Length);
      r := shuffled[..actualCount];
      assert shuffled[..] == r + shuffled[actualCount..];
    }
  }
}
