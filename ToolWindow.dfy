/** WordMemorizerToolWindowPanel: the paging of the loaded wordbook, the view the table and the
    page controls show, the listeners that move between pages, and the wordbook list. */
module ToolWindow {
  import opened Wrappers
  import opened JavaString
  import opened JavaInt
  import opened Model
  import opened Service
  import opened Table
  import opened Settings
  import opened NameOrder

  /** The spinner's bounds for the page size. */
  const MIN_WORDS_PER_PAGE: int := 1
  const MAX_WORDS_PER_PAGE: int := 500
  /** The page size the panel starts with, before any spinner change. */
  const INITIAL_WORDS_PER_PAGE: int32 := 20

  /** The page label and the enabled state of the previous/next buttons. */
  datatype Controls = Controls(pageInfo: string, previousEnabled: bool, nextEnabled: bool)

  /** The wordbook combo box: its items and its selected item (null when nothing is selected). */
  datatype ComboBox = ComboBox(items: seq<string>, selected: Option<string>)

  /** One entry of the wordbook directory: its file name and whether it is a regular file. */
  datatype DirEntry = DirEntry(name: string, isRegularFile: bool)

  const EMPTY_CONTROLS: Controls := Controls("0 / 0", false, false)

  // ---- pagination arithmetic ----

  /** The page count: the number of pages of wordsPerPage words it takes to hold size words (each
      page but the last one full), or 0 for a non-positive page size. */
  function PageCount(size: nat, wordsPerPage: int): (r: nat)
    ensures r == 0 <==> size == 0 || wordsPerPage <= 0
  {
    if wordsPerPage <= 0 || size == 0 then 0
    else if size <= wordsPerPage then 1
    else 1 + PageCount(size - wordsPerPage, wordsPerPage)
  }

  lemma MulMonotone(a: int, b: int, w: int)
    requires a <= b && w >= 0
    ensures a * w <= b * w
  {
    assert b * w - a * w == (b - a) * w;
  }

  /** The page count is the least number of full pages that hold every word, and no more than one
      page per word. */
  lemma {:induction false} PageCountIsCeiling(size: nat, w: int)
    requires w >= 1
    ensures size <= PageCount(size, w) * w
    ensures size > 0 ==> (PageCount(size, w) - 1) * w < size
    ensures PageCount(size, w) == 0 <==> size == 0
    ensures PageCount(size, w) <= size
  {
    if size > w {
      PageCountIsCeiling(size - w, w);
      var t := PageCount(size - w, w);
      assert PageCount(size, w) * w == t * w + w;
      assert (PageCount(size, w) - 1) * w == t * w;
      assert t > 0;
      assert (t - 1) * w == t * w - w;
    }
  }

  /** A quotient is the integer q with q * w <= x < (q + 1) * w. */
  lemma DivisionUnique(x: int, w: int, q: int)
    requires w >= 1 && q * w <= x < q * w + w
    ensures x / w == q
  {
    var d := x / w;
    assert x == d * w + x % w && 0 <= x % w < w;
    if d < q {
      MulMonotone(d + 1, q, w);
    } else if d > q {
      MulMonotone(q + 1, d, w);
    }
  }

  /** The page count is what (int) Math.ceil((double) size / wordsPerPage) computes: the quotient
      of size + wordsPerPage - 1 by wordsPerPage. */
  lemma PageCountIsCeilDivision(size: nat, w: int)
    requires w >= 1
    ensures PageCount(size, w) == (size + w - 1) / w
  {
    PageCountIsCeiling(size, w);
    var t := PageCount(size, w);
    if size == 0 {
      DivisionUnique(w - 1, w, 0);
    } else {
      assert t * w == (t - 1) * w + w;
      DivisionUnique(size + w - 1, w, t);
    }
  }

  /** The rows updateViewForCurrentPage hands the table for a page: the words from the page's start
      index up to the next page's, or none when the start index lies outside the list. */
  function ShownRows(all: seq<WordEntry>, page: int, wordsPerPage: int): (rows: seq<WordEntry>)
    requires wordsPerPage >= 1
    ensures |rows| <= wordsPerPage
  {
    var startIndex := (page - 1) * wordsPerPage;
    var endIndex := Min(startIndex + wordsPerPage, |all|);
    if startIndex < 0 || startIndex >= |all| then [] else all[startIndex..endIndex]
  }

  /** On a page within 1..PageCount the start index is always inside the list, so the guarded branch
      is never taken: the page shows the words from (page - 1) * w up to min(page * w, size), between
      one and w of them, and exactly w on every page but the last. */
  lemma StartIndexInRange(all: seq<WordEntry>, page: int, w: int)
    requires |all| > 0 && w >= 1 && 1 <= page <= PageCount(|all|, w)
    ensures 0 <= (page - 1) * w < |all|
    ensures (page - 1) * w <= Min(page * w, |all|) <= |all|
    ensures ShownRows(all, page, w) == all[(page - 1) * w .. Min(page * w, |all|)]
    ensures 1 <= |ShownRows(all, page, w)| <= w
    ensures page < PageCount(|all|, w) ==> |ShownRows(all, page, w)| == w
  {
    PageCountIsCeiling(|all|, w);
    var t := PageCount(|all|, w);
    MulMonotone(page - 1, t - 1, w);
    MulMonotone(0, page - 1, w);
    assert (page - 1) * w + w == page * w;
    if page < t {
      MulMonotone(page, t - 1, w);
    }
  }

  /** The page holding list index k: page k / w + 1, whose index range contains k. */
  function PageOfIndex(k: nat, w: int): (p: int)
    requires w >= 1
    ensures 1 <= p && (p - 1) * w <= k < p * w
  {
    var d := k / w;
    assert k == d * w + k % w && 0 <= k % w < w;
    d + 1
  }

  /** A list index lies in the index range of only one page. */
  lemma OnlyPageOfIndex(w: int, k: nat, q: int)
    requires w >= 1 && (q - 1) * w <= k < q * w
    ensures q == PageOfIndex(k, w)
  {
    var p := PageOfIndex(k, w);
    if q < p {
      MulMonotone(q, p - 1, w);
    } else if q > p {
      MulMonotone(p, q - 1, w);
    }
  }

  /** The word at offset r of page p's index range, r below w, is on that page at offset r, and the
      page lies within 1..PageCount. */
  lemma WordOnItsPage(all: seq<WordEntry>, w: int, k: int, p: int, r: int)
    requires w >= 1 && 0 <= k < |all| && 0 <= r < w && k == (p - 1) * w + r
    ensures 1 <= p <= PageCount(|all|, w)
    ensures r < |ShownRows(all, p, w)|
    ensures ShownRows(all, p, w)[r] == all[k]
  {
    var t := PageCount(|all|, w);
    PageCountIsCeiling(|all|, w);
    if p < 1 {
      MulMonotone(p, 0, w);
    }
    if p > t {
      MulMonotone(t, p - 1, w);
    }
    StartIndexInRange(all, p, w);
  }

  /** Every word is on a page: word k is on page PageOfIndex(k, w), which lies within 1..PageCount,
      at offset k - (page - 1) * w; OnlyPageOfIndex says no other page holds it. */
  lemma EveryWordOnOnePage(all: seq<WordEntry>, w: int, k: nat)
    requires w >= 1 && k < |all|
    ensures 1 <= PageOfIndex(k, w) <= PageCount(|all|, w)
    ensures 0 <= k - (PageOfIndex(k, w) - 1) * w < |ShownRows(all, PageOfIndex(k, w), w)|
    ensures ShownRows(all, PageOfIndex(k, w), w)[k - (PageOfIndex(k, w) - 1) * w] == all[k]
  {
    var p := PageOfIndex(k, w);
    WordOnItsPage(all, w, k, p, k - (p - 1) * w);
  }

  /** The rows of pages 1..p, one page after the other. */
  function PagesUpTo(all: seq<WordEntry>, w: int, p: nat): seq<WordEntry>
    requires w >= 1
  {
    if p == 0 then [] else PagesUpTo(all, w, p - 1) + ShownRows(all, p, w)
  }

  lemma {:induction false} PagesUpToIsPrefix(all: seq<WordEntry>, w: int, p: nat)
    requires w >= 1 && p <= PageCount(|all|, w)
    ensures 0 <= Min(p * w, |all|) <= |all|
    ensures PagesUpTo(all, w, p) == all[..Min(p * w, |all|)]
  {
    MulMonotone(0, p, w);
    if p > 0 {
      PagesUpToIsPrefix(all, w, p - 1);
      var lo := (p - 1) * w;
      var hi := Min(p * w, |all|);
      assert 0 <= lo <= hi <= |all| && ShownRows(all, p, w) == all[lo..hi] by {
        StartIndexInRange(all, p, w);
      }
      assert PagesUpTo(all, w, p - 1) == all[..lo];
      assert all[..lo] + all[lo..hi] == all[..hi];
    }
  }

  /** Reading the pages 1..PageCount in order gives back the whole wordbook: nothing is skipped,
      repeated or reordered by paging. */
  lemma PagesCoverAll(all: seq<WordEntry>, w: int)
    requires w >= 1
    ensures PagesUpTo(all, w, PageCount(|all|, w)) == all
  {
    PageCountIsCeiling(|all|, w);
    PagesUpToIsPrefix(all, w, PageCount(|all|, w));
    assert all[..|all|] == all;
  }

  /** 125 words at 50 a page: three pages, the second showing words 50..100 and the last 25 words. */
  lemma PagingOf125By50(all: seq<WordEntry>)
    requires |all| == 125
    ensures PageCount(|all|, 50) == 3
    ensures ShownRows(all, 2, 50) == all[50..100]
    ensures |ShownRows(all, 3, 50)| == 25
  {
    assert PageCount(125, 50) == 1 + PageCount(75, 50) == 2 + PageCount(25, 50);
    StartIndexInRange(all, 2, 50);
    StartIndexInRange(all, 3, 50);
  }

  /** The label "current / total" and the buttons: previous when not on the first page, next when
      not on the last. */
  function PageControls(page: int32, total: int32): (c: Controls)
    ensures c.previousEnabled <==> page > 1
    ensures c.nextEnabled <==> page < total
    ensures c.pageInfo == Format(page as int) + " / " + Format(total as int)
  {
    Controls(Format(page as int) + " / " + Format(total as int), page > 1, page < total)
  }

  // ---- the wordbook list ----

  /** The DirectoryStream glob "*.json" on a file name. */
  predicate MatchesJsonGlob(name: string) {
    |name| >= 5 && name[|name| - 5..] == ".json"
  }

  /** The name refreshWordbookList lists for a directory entry, if it lists it. */
  function JsonFileName(entry: DirEntry): Option<string> {
    if MatchesJsonGlob(entry.name) && entry.isRegularFile then Some(entry.name) else None
  }

  function JsonFileNames(entries: seq<DirEntry>): seq<string> {
    FilterMap(JsonFileName, entries)
  }

  /** A name is listed exactly when some regular file of the directory has that name and it matches
      the glob. */
  lemma JsonFileNamesMembers(entries: seq<DirEntry>, name: string)
    ensures name in JsonFileNames(entries) <==>
              exists i :: 0 <= i < |entries| && entries[i].name == name && entries[i].isRegularFile && MatchesJsonGlob(name)
  {
    FilterMapMembers(JsonFileName, entries, name);
  }

  /** The loop of refreshWordbookList over the directory stream: collect, in stream order, the names
      of the regular files that match the glob. */
  method ListJsonFiles(entries: seq<DirEntry>) returns (jsonFiles: seq<string>)
    ensures jsonFiles == JsonFileNames(entries)
  {
    jsonFiles := [];
    var i := 0;
    while i < |entries|
      invariant 0 <= i <= |entries|
      invariant jsonFiles == JsonFileNames(entries[..i])
    {
      FilterMapSnoc(JsonFileName, entries, i);
      if MatchesJsonGlob(entries[i].name) && entries[i].isRegularFile {
        jsonFiles := jsonFiles + [entries[i].name];
      }
      i := i + 1;
    }
    assert entries[..|entries|] == entries;
  }

  /** The selection after a refresh: the previous selection when the new list still holds it, else
      the first name, and nothing for an empty list. */
  function RestoredSelection(items: seq<string>, previous: Option<string>): (r: Option<string>)
    ensures previous.Some? && previous.value in items ==> r == previous
    ensures (previous.None? || previous.value !in items) && items != [] ==> r == Some(items[0])
    ensures r.None? <==> items == []
    ensures r.Some? ==> r.value in items
  {
    if previous.Some? && previous.value in items then previous
    else if items != [] then Some(items[0])
    else None
  }

  /** A second refresh over the same list keeps what the first one selected. */
  lemma {:induction false} RestoredSelectionIdempotent(items: seq<string>, previous: Option<string>)
    ensures RestoredSelection(items, RestoredSelection(items, previous)) == RestoredSelection(items, previous)
  {
  }

  /** What refreshWordbookList leaves in the combo box: an empty box when the directory setting is
      blank, is not a directory or cannot be listed; otherwise the listed names in case-insensitive
      order with the selection rule applied. */
  predicate RefreshedBox(box: ComboBox, previous: Option<string>, directory: string, isDirectory: bool,
                         listing: Option<seq<DirEntry>>)
  {
    if IsBlank(directory) || !isDirectory || listing.None? then box == ComboBox([], None)
    else
      && Sorted(box.items)
      && multiset(box.items) == multiset(JsonFileNames(listing.value))
      && box.selected == RestoredSelection(box.items, previous)
  }

  class WordMemorizerToolWindowPanel {
    /** The application's settings, the wordbook service and the table model the panel drives. */
    const settings: SettingsState
    const service: WordbookService
    const table: WordTableModel

    var allLoadedWords: seq<WordEntry>
    var currentPage: int32
    var wordsPerPage: int32
    var totalPages: int32
    var selectedWordbookName: Option<string>
    var controls: Controls
    var comboBox: ComboBox

    /** The bounds the panel's widgets and Java's list sizes keep. */
    predicate Bounds()
      reads this
    {
      && MIN_WORDS_PER_PAGE <= wordsPerPage as int <= MAX_WORDS_PER_PAGE
      && |allLoadedWords| <= MAX_INT
      && (comboBox.selected.Some? ==> comboBox.selected.value in comboBox.items)
    }

    /** The paging invariant: the page count agrees with the list and the page size, and the current
        page lies within 1..totalPages (page 1 when there are no pages). */
    predicate Valid()
      reads this
    {
      && Bounds()
      && totalPages as int == PageCount(|allLoadedWords|, wordsPerPage as int)
      && 1 <= currentPage
      && (totalPages > 0 ==> currentPage <= totalPages)
      && (totalPages == 0 ==> currentPage == 1)
    }

    /** The panel as built: an empty list on page 1 of 0, 20 words a page, a new table, the form's
        controls, and the wordbook list refreshed from the configured directory. The auto-load that
        follows in the source needs a remembered wordbook name, which is always null at that point. */
    constructor (settings: SettingsState, service: WordbookService, formControls: Controls,
                 isDirectory: bool, listing: Option<seq<DirEntry>>)
      ensures this.settings == settings && this.service == service && fresh(table)
      ensures Valid()
      ensures allLoadedWords == [] && currentPage == 1 && totalPages == 0 && wordsPerPage == INITIAL_WORDS_PER_PAGE
      ensures selectedWordbookName == None && controls == formControls
      ensures table.words == [] && !table.translationsHidden
      ensures RefreshedBox(comboBox, None, settings.GetWordbookDirectory(), isDirectory, listing)
    {
      this.settings := settings;
      this.service := service;
      table := new WordTableModel();
      allLoadedWords := [];
      currentPage := 1;
      wordsPerPage := INITIAL_WORDS_PER_PAGE;
      totalPages := 0;
      selectedWordbookName := None;
      controls := formControls;
      comboBox := ComboBox([], None);
      new;
      RefreshWordbookList(isDirectory, listing);
    }

    /** updatePaginationState: recount the pages, then pull the current page back to the last page,
        or to 1 when there are none. */
    method UpdatePaginationState()
      requires |allLoadedWords| <= MAX_INT
      modifies this
      ensures totalPages as int == PageCount(|allLoadedWords|, wordsPerPage as int)
      ensures totalPages > 0 ==> currentPage as int == Min(old(currentPage) as int, totalPages as int)
      ensures totalPages == 0 ==> currentPage == 1
      ensures old(Bounds()) && old(currentPage) >= 1 ==> Valid()
      ensures allLoadedWords == old(allLoadedWords) && wordsPerPage == old(wordsPerPage)
      ensures selectedWordbookName == old(selectedWordbookName) && controls == old(controls) && comboBox == old(comboBox)
    {
      if wordsPerPage <= 0 {
        totalPages := 0;
      } else {
        var size := |allLoadedWords|;
        PageCountIsCeilDivision(size, wordsPerPage as int);
        PageCountIsCeiling(size, wordsPerPage as int);
        totalPages := ((size + wordsPerPage as int - 1) / wordsPerPage as int) as int32;
      }
      if currentPage > totalPages && totalPages > 0 {
        currentPage := totalPages;
      } else if totalPages == 0 {
        currentPage := 1;
      }
    }

    /** updateViewForCurrentPage: an empty list shows no rows, "0 / 0" and both buttons off. Otherwise
        the page count is recomputed if it is 0, the current page is clamped into 1..totalPages, the
        table gets that page's rows and the controls show the page. Under the paging invariant the
        clamp changes nothing. */
    method UpdateViewForCurrentPage()
      requires 1 <= wordsPerPage && |allLoadedWords| <= MAX_INT
      modifies this, table
      ensures allLoadedWords == old(allLoadedWords) && wordsPerPage == old(wordsPerPage)
      ensures selectedWordbookName == old(selectedWordbookName) && comboBox == old(comboBox)
      ensures table.translationsHidden == old(table.translationsHidden)
      ensures table.dataChangedEvents == old(table.dataChangedEvents) + 1
      ensures allLoadedWords == [] ==>
                && currentPage == old(currentPage) && totalPages == old(totalPages)
                && table.words == [] && controls == EMPTY_CONTROLS
      ensures allLoadedWords != [] ==>
                && totalPages as int == (if old(totalPages) == 0 then PageCount(|allLoadedWords|, wordsPerPage as int)
                                         else old(totalPages) as int)
                && currentPage as int == Max(1, Min(old(currentPage) as int, totalPages as int))
                && table.words == ShownRows(allLoadedWords, currentPage as int, wordsPerPage as int)
                && controls == PageControls(currentPage, totalPages)
      ensures old(Valid()) ==> Valid() && currentPage == old(currentPage) && totalPages == old(totalPages)
    {
      if allLoadedWords == [] {
        table.SetWords([]);
        controls := EMPTY_CONTROLS;
        return;
      }
      ghost var wasValid := Valid();
      if totalPages == 0 {
        UpdatePaginationState();
      }
      currentPage := Max(1, Min(currentPage as int, totalPages as int)) as int32;
      assert wasValid ==> currentPage == old(currentPage) && totalPages == old(totalPages);
      var startIndex := (currentPage as int - 1) * wordsPerPage as int;
      var endIndex := Min(startIndex + wordsPerPage as int, |allLoadedWords|);
      if startIndex < 0 || startIndex >= |allLoadedWords| {
        table.SetWords([]);
      } else {
        table.SetWords(allLoadedWords[startIndex..endIndex]);
      }
      assert table.words == ShownRows(allLoadedWords, currentPage as int, wordsPerPage as int);
      controls := PageControls(currentPage, totalPages);
    }

    /** saveState: write the current page, the page size and the selected wordbook to the settings. */
    method SaveState()
      modifies settings
      ensures settings.GetCurrentPage() == AtLeastOne(currentPage)
      ensures settings.GetWordsPerPage() == AtLeastOne(wordsPerPage)
      ensures settings.GetSelectedWordbookName() == Some(StoredWordbookName(comboBox.selected))
      ensures settings.GetWordbookDirectory() == old(settings.GetWordbookDirectory())
    {
      settings.SetCurrentPage(currentPage);
      settings.SetWordsPerPage(wordsPerPage);
      settings.SetSelectedWordbookName(comboBox.selected);
    }

    /** clearWordDisplay: empty the list, go back to page 1 of 0, show the empty view, forget the
        wordbook name and save. */
    method ClearWordDisplay()
      requires Bounds()
      modifies this, table, settings
      ensures Valid()
      ensures allLoadedWords == [] && currentPage == 1 && totalPages == 0 && selectedWordbookName == None
      ensures wordsPerPage == old(wordsPerPage) && comboBox == old(comboBox)
      ensures table.words == [] && controls == EMPTY_CONTROLS
      ensures table.translationsHidden == old(table.translationsHidden)
      ensures settings.GetCurrentPage() == 1 && settings.GetWordsPerPage() == wordsPerPage
      ensures settings.GetSelectedWordbookName() == Some(StoredWordbookName(comboBox.selected))
      ensures settings.GetWordbookDirectory() == old(settings.GetWordbookDirectory())
    {
      allLoadedWords := [];
      currentPage := 1;
      UpdatePaginationState();
      UpdateViewForCurrentPage();
      selectedWordbookName := None;
      SaveState();
    }

    /** The previous-page button: from a page after the first, step back one page, show it and save;
        on the first page nothing happens. */
    method OnPreviousPage()
      requires Valid()
      modifies this, table, settings
      ensures Valid()
      ensures table.translationsHidden == old(table.translationsHidden)
      ensures settings.GetWordbookDirectory() == old(settings.GetWordbookDirectory())
      ensures allLoadedWords == old(allLoadedWords) && wordsPerPage == old(wordsPerPage) && totalPages == old(totalPages)
      ensures selectedWordbookName == old(selectedWordbookName) && comboBox == old(comboBox)
      ensures old(currentPage) > 1 ==>
                && currentPage == old(currentPage) - 1
                && table.words == ShownRows(allLoadedWords, currentPage as int, wordsPerPage as int)
                && controls == PageControls(currentPage, totalPages)
                && settings.GetCurrentPage() == currentPage && settings.GetWordsPerPage() == wordsPerPage
                && settings.GetSelectedWordbookName() == Some(StoredWordbookName(comboBox.selected))
      ensures old(currentPage) <= 1 ==> unchanged(this, table, settings)
    {
      if currentPage > 1 {
        currentPage := currentPage - 1;
        UpdateViewForCurrentPage();
        SaveState();
      }
    }

    /** The next-page button: from a page before the last, step forward one page, show it and save;
        on the last page (or with no pages) nothing happens. */
    method OnNextPage()
      requires Valid()
      modifies this, table, settings
      ensures Valid()
      ensures table.translationsHidden == old(table.translationsHidden)
      ensures settings.GetWordbookDirectory() == old(settings.GetWordbookDirectory())
      ensures allLoadedWords == old(allLoadedWords) && wordsPerPage == old(wordsPerPage) && totalPages == old(totalPages)
      ensures selectedWordbookName == old(selectedWordbookName) && comboBox == old(comboBox)
      ensures old(currentPage) < totalPages ==>
                && currentPage == old(currentPage) + 1
                && table.words == ShownRows(allLoadedWords, currentPage as int, wordsPerPage as int)
                && controls == PageControls(currentPage, totalPages)
                && settings.GetCurrentPage() == currentPage && settings.GetWordsPerPage() == wordsPerPage
                && settings.GetSelectedWordbookName() == Some(StoredWordbookName(comboBox.selected))
      ensures old(currentPage) >= totalPages ==> unchanged(this, table, settings)
    {
      if currentPage < totalPages {
        currentPage := currentPage + 1;
        UpdateViewForCurrentPage();
        SaveState();
      }
    }

    /** The spinner's change listener (the spinner keeps the value in 1..500): a new page size resets
        to page 1, recounts the pages, shows the first page and saves; the same size does nothing. */
    method OnWordsPerPageChanged(newWordsPerPage: int32)
      requires Valid()
      requires MIN_WORDS_PER_PAGE <= newWordsPerPage as int <= MAX_WORDS_PER_PAGE
      modifies this, table, settings
      ensures Valid()
      ensures table.translationsHidden == old(table.translationsHidden)
      ensures settings.GetWordbookDirectory() == old(settings.GetWordbookDirectory())
      ensures allLoadedWords == old(allLoadedWords) && wordsPerPage == newWordsPerPage
      ensures selectedWordbookName == old(selectedWordbookName) && comboBox == old(comboBox)
      ensures newWordsPerPage == old(wordsPerPage) ==> unchanged(this, table, settings)
      ensures newWordsPerPage != old(wordsPerPage) ==>
                && currentPage == 1
                && totalPages as int == PageCount(|allLoadedWords|, newWordsPerPage as int)
                && (allLoadedWords == [] ==> table.words == [] && controls == EMPTY_CONTROLS)
                && (allLoadedWords != [] ==> table.words == ShownRows(allLoadedWords, 1, newWordsPerPage as int)
                                             && controls == PageControls(1, totalPages))
                && settings.GetCurrentPage() == 1 && settings.GetWordsPerPage() == newWordsPerPage
                && settings.GetSelectedWordbookName() == Some(StoredWordbookName(comboBox.selected))
    {
      if newWordsPerPage != wordsPerPage {
        wordsPerPage := newWordsPerPage;
        currentPage := 1;
        UpdatePaginationState();
        UpdateViewForCurrentPage();
        SaveState();
      }
    }

    /** The start button: go to page 1, show it and save, then replace the table's rows with up to
        wordsPerPage words drawn at random from the list. The page controls keep describing page 1. */
    method OnStartClicked(draws: seq<int>)
      requires Valid()
      requires |draws| == |allLoadedWords| && forall k :: 0 <= k < |draws| ==> 0 <= draws[k] <= k
      modifies this, table, settings
      ensures Valid()
      ensures table.translationsHidden == old(table.translationsHidden)
      ensures settings.GetWordbookDirectory() == old(settings.GetWordbookDirectory())
      ensures allLoadedWords == old(allLoadedWords) && wordsPerPage == old(wordsPerPage) && totalPages == old(totalPages)
      ensures selectedWordbookName == old(selectedWordbookName) && comboBox == old(comboBox)
      ensures currentPage == 1
      ensures controls == (if allLoadedWords == [] then EMPTY_CONTROLS else PageControls(1, totalPages))
      ensures |table.words| == Min(wordsPerPage as int, |allLoadedWords|)
      ensures multiset(table.words) <= multiset(allLoadedWords)
      ensures settings.GetCurrentPage() == 1 && settings.GetWordsPerPage() == wordsPerPage
      ensures settings.GetSelectedWordbookName() == Some(StoredWordbookName(comboBox.selected))
    {
      currentPage := 1;
      UpdateViewForCurrentPage();
      SaveState();
      var randomWords := service.GetRandomWords(wordsPerPage as int, allLoadedWords, draws);
      table.SetWords(randomWords);
    }

    /** The hide-translations check box: pass its state to the table. */
    method OnHideTranslationToggled(hidden: bool)
      modifies table
      ensures table.IsTranslationsHidden() == hidden && table.words == old(table.words)
    {
      table.SetTranslationsHidden(hidden);
    }

    /** Whether loadWordsFromSelectedFile gets as far as a successful read: a wordbook is selected,
        the directory setting is not blank, and the file exists and is readable. */
    predicate LoadSucceeds(fileExists: bool, readable: bool)
      reads this, settings
    {
      comboBox.selected.Some? && !IsBlank(settings.GetWordbookDirectory()) && fileExists && readable
    }

    /** loadWordsFromSelectedFile: with no selection, a blank directory setting or a file that cannot
        be read, the display is cleared; otherwise the selected file's words replace the list and
        page 1 is shown. The file system is given by the existence and readability of the selected
        file and by what parsing it yields. */
    method LoadWordsFromSelectedFile(fileExists: bool, readable: bool, doc: ParsedDocument)
      requires Bounds()
      requires doc.Parsed? && doc.records.Some? ==> |doc.records.value| <= MAX_INT
      modifies this, table, settings, service
      ensures Valid()
      ensures wordsPerPage == old(wordsPerPage) && comboBox == old(comboBox)
      ensures table.translationsHidden == old(table.translationsHidden)
      ensures old(LoadSucceeds(fileExists, readable)) ==>
                && allLoadedWords == LoadedWords(doc) && service.currentlyLoadedWords == allLoadedWords
                && currentPage == 1 && totalPages as int == PageCount(|allLoadedWords|, wordsPerPage as int)
                && selectedWordbookName == old(selectedWordbookName)
                && (allLoadedWords == [] ==> table.words == [] && controls == EMPTY_CONTROLS)
                && (allLoadedWords != [] ==> table.words == ShownRows(allLoadedWords, 1, wordsPerPage as int)
                                             && controls == PageControls(1, totalPages))
                && unchanged(settings)
      ensures !old(LoadSucceeds(fileExists, readable)) ==>
                && allLoadedWords == [] && currentPage == 1 && totalPages == 0 && selectedWordbookName == None
                && table.words == [] && controls == EMPTY_CONTROLS
                && service.currentlyLoadedWords == old(service.currentlyLoadedWords)
                && settings.GetCurrentPage() == 1 && settings.GetWordsPerPage() == wordsPerPage
                && settings.GetSelectedWordbookName() == Some(StoredWordbookName(comboBox.selected))
                && settings.GetWordbookDirectory() == old(settings.GetWordbookDirectory())
    {
      allLoadedWords := [];
      if comboBox.selected.None? {
        ClearWordDisplay();
        return;
      }
      var selectedName := comboBox.selected.value;
      var directoryPath := settings.GetWordbookDirectory();
      if IsBlank(directoryPath) {
        ClearWordDisplay();
        return;
      }
      var filePath := directoryPath + "/" + selectedName;
      var loaded := service.LoadWordsFromFile(filePath, fileExists, readable, doc);
      match loaded
      case Success(words) =>
        NormalizeRecordsShape(if doc.Parsed? && doc.records.Some? then doc.records.value else []);
        allLoadedWords := words;
        currentPage := 1;
        UpdatePaginationState();
        UpdateViewForCurrentPage();
      case Failure(_) =>
        ClearWordDisplay();
    }

    /** refreshWordbookList: list the directory's "*.json" regular files, sort the names
        case-insensitively in place, and keep the previous selection if it is still listed, else
        select the first name. A blank directory setting, a path that is not a directory or a listing
        that fails leaves an empty list. The directory is given by whether it is one and by its
        listing, in the order the directory stream yields it (None when opening the stream fails). */
    method RefreshWordbookList(isDirectory: bool, listing: Option<seq<DirEntry>>)
      modifies this
      ensures RefreshedBox(comboBox, old(comboBox.selected), settings.GetWordbookDirectory(), isDirectory, listing)
      ensures comboBox.selected.Some? ==> comboBox.selected.value in comboBox.items
      ensures allLoadedWords == old(allLoadedWords) && currentPage == old(currentPage) && totalPages == old(totalPages)
      ensures wordsPerPage == old(wordsPerPage) && selectedWordbookName == old(selectedWordbookName)
      ensures controls == old(controls)
    {
      var directoryPath := settings.GetWordbookDirectory();
      if IsBlank(directoryPath) {
        comboBox := ComboBox([], None);
        return;
      }
      if !isDirectory {
        comboBox := ComboBox([], None);
        return;
      }
      var previousSelectedName := comboBox.selected;
      if listing.None? {
        comboBox := ComboBox([], None);
        return;
      }
      var jsonFiles := ListJsonFiles(listing.value);
      var names := new string[|jsonFiles|](k requires 0 <= k < |jsonFiles| => jsonFiles[k]);
      assert names[..] == jsonFiles;
      SortIgnoreCase(names);
      comboBox := ComboBox(names[..], RestoredSelection(names[..], previousSelectedName));
    }
  }
}
