/** WordMemorizerSettingsState: typed getters and clamping setters over the IDE's string key/value
    store, with a default for every key that was never set. */
module Settings {
  import opened Wrappers
  import opened JavaString
  import opened JavaInt

  const WORDBOOK_DIRECTORY_KEY: string := "wordmemorizer.wordbook.directory"
  const CURRENT_PAGE_KEY: string := "wordmemorizer.pagination.currentPage"
  const WORDS_PER_PAGE_KEY: string := "wordmemorizer.pagination.wordsPerPage"
  const SELECTED_WORDBOOK_KEY: string := "wordmemorizer.selectedWordbook"

  const DEFAULT_CURRENT_PAGE: int32 := 1
  const DEFAULT_WORDS_PER_PAGE: int32 := 50

  /** The four keys are distinct, so each setter leaves the other three settings alone. */
  lemma KeysDistinct()
    ensures WORDBOOK_DIRECTORY_KEY != CURRENT_PAGE_KEY && WORDBOOK_DIRECTORY_KEY != WORDS_PER_PAGE_KEY
    ensures WORDBOOK_DIRECTORY_KEY != SELECTED_WORDBOOK_KEY && CURRENT_PAGE_KEY != WORDS_PER_PAGE_KEY
    ensures CURRENT_PAGE_KEY != SELECTED_WORDBOOK_KEY && WORDS_PER_PAGE_KEY != SELECTED_WORDBOOK_KEY
  {
    assert WORDBOOK_DIRECTORY_KEY[14] != CURRENT_PAGE_KEY[14];
    assert WORDBOOK_DIRECTORY_KEY[14] != WORDS_PER_PAGE_KEY[14];
    assert |WORDBOOK_DIRECTORY_KEY| != |SELECTED_WORDBOOK_KEY|;
    assert CURRENT_PAGE_KEY[25] != WORDS_PER_PAGE_KEY[25];
    assert CURRENT_PAGE_KEY[14] != SELECTED_WORDBOOK_KEY[14];
    assert WORDS_PER_PAGE_KEY[14] != SELECTED_WORDBOOK_KEY[14];
  }

  /** WordMemorizerSettingsConfigurable.getDefaultDirectory: the user's home plus "/.wordmemorizer_books". */
  function DefaultDirectory(userHome: string): (r: string)
    ensures |r| > |userHome| && r[..|userHome|] == userHome
    ensures !IsBlank(r)
  {
    var d := userHome + "/.wordmemorizer_books";
    BlankIffAllTrimmable(d);
    assert d[|d| - 1] == 's';
    d
  }

  /** Math.max(1, n). */
  function AtLeastOne(n: int32): (r: int32)
    ensures r >= 1 && r >= n && (r == n || r == 1)
  {
    if n >= 1 then n else 1
  }

  class SettingsState {
    /** The application-level PropertiesComponent: string keys to string values. */
    var properties: map<string, string>
    /** System.getProperty("user.home"), read when the default directory is needed. */
    const userHome: string

    constructor (userHome: string, stored: map<string, string>)
      ensures properties == stored && this.userHome == userHome
    {
      properties := stored;
      this.userHome := userHome;
    }

    /** PropertiesComponent.getValue(key, default). */
    function GetValueOr(key: string, default: string): (r: string)
      reads this
      ensures key in properties ==> r == properties[key]
      ensures key !in properties ==> r == default
    {
      if key in properties then properties[key] else default
    }

    /** PropertiesComponent.getInt(key, default): the stored text parsed by Integer.parseInt, or the
        default when the key is unset or its text is not an int. */
    function GetInt(key: string, default: int32): (r: int32)
      reads this
      ensures key !in properties ==> r == default
      ensures key in properties && ParseInt(properties[key]).Some? ==> r == ParseInt(properties[key]).value
      ensures key in properties && ParseInt(properties[key]).None? ==> r == default
    {
      if key in properties then
        match ParseInt(properties[key])
        case Some(v) => v
        case None => default
      else default
    }

    /** PropertiesComponent.setValue(key, value, default): a value equal to the default unsets the key,
        any other is stored as its decimal text; either way getInt(key, default) reads the value back. */
    method SetInt(key: string, value: int32, default: int32)
      modifies this
      ensures properties == if value == default then old(properties) - {key}
                            else old(properties)[key := Format(value as int)]
      ensures GetInt(key, default) == value
    {
      if value == default {
        properties := properties - {key};
      } else {
        properties := properties[key := Format(value as int)];
        ParseFormat(value);
      }
    }

    /** getWordbookDirectory: the stored directory, or the default directory when it was never set. */
    function GetWordbookDirectory(): (r: string)
      reads this
      ensures WORDBOOK_DIRECTORY_KEY !in properties ==> r == DefaultDirectory(userHome)
      ensures WORDBOOK_DIRECTORY_KEY in properties ==> r == properties[WORDBOOK_DIRECTORY_KEY]
    {
      GetValueOr(WORDBOOK_DIRECTORY_KEY, DefaultDirectory(userHome))
    }

    /** getCurrentPage: the stored page, or 1 when it was never set (or does not parse). */
    function GetCurrentPage(): (r: int32)
      reads this
      ensures CURRENT_PAGE_KEY !in properties ==> r == DEFAULT_CURRENT_PAGE
      ensures CURRENT_PAGE_KEY in properties && ParseInt(properties[CURRENT_PAGE_KEY]).Some? ==>
                r == ParseInt(properties[CURRENT_PAGE_KEY]).value
      ensures CURRENT_PAGE_KEY in properties && ParseInt(properties[CURRENT_PAGE_KEY]).None? ==> r == DEFAULT_CURRENT_PAGE
    {
      GetInt(CURRENT_PAGE_KEY, DEFAULT_CURRENT_PAGE)
    }

    /** getWordsPerPage: the stored page size, or 50 when it was never set (or does not parse). */
    function GetWordsPerPage(): (r: int32)
      reads this
      ensures WORDS_PER_PAGE_KEY !in properties ==> r == DEFAULT_WORDS_PER_PAGE
      ensures WORDS_PER_PAGE_KEY in properties && ParseInt(properties[WORDS_PER_PAGE_KEY]).Some? ==>
                r == ParseInt(properties[WORDS_PER_PAGE_KEY]).value
      ensures WORDS_PER_PAGE_KEY in properties && ParseInt(properties[WORDS_PER_PAGE_KEY]).None? ==> r == DEFAULT_WORDS_PER_PAGE
    {
      GetInt(WORDS_PER_PAGE_KEY, DEFAULT_WORDS_PER_PAGE)
    }

    /** getSelectedWordbookName: the stored name, or null when it was never set. */
    function GetSelectedWordbookName(): (r: Option<string>)
      reads this
      ensures r.Some? <==> SELECTED_WORDBOOK_KEY in properties
      ensures r.Some? ==> r.value == properties[SELECTED_WORDBOOK_KEY]
    {
      if SELECTED_WORDBOOK_KEY in properties then Some(properties[SELECTED_WORDBOOK_KEY]) else None
    }

    /** setWordbookDirectory: store the directory as given. */
    method SetWordbookDirectory(directory: string)
      modifies this
      ensures properties == old(properties)[WORDBOOK_DIRECTORY_KEY := directory]
      ensures GetWordbookDirectory() == directory
      ensures GetCurrentPage() == old(GetCurrentPage()) && GetWordsPerPage() == old(GetWordsPerPage())
      ensures GetSelectedWordbookName() == old(GetSelectedWordbookName())
    {
      KeysDistinct();
      properties := properties[WORDBOOK_DIRECTORY_KEY := directory];
    }

    /** setCurrentPage: the page is stored as at least 1. */
    method SetCurrentPage(page: int32)
      modifies this
      ensures properties - {CURRENT_PAGE_KEY} == old(properties) - {CURRENT_PAGE_KEY}
      ensures GetCurrentPage() == AtLeastOne(page)
      ensures GetWordbookDirectory() == old(GetWordbookDirectory()) && GetWordsPerPage() == old(GetWordsPerPage())
      ensures GetSelectedWordbookName() == old(GetSelectedWordbookName())
    {
      KeysDistinct();
      SetInt(CURRENT_PAGE_KEY, AtLeastOne(page), DEFAULT_CURRENT_PAGE);
    }

    /** setWordsPerPage: the count is stored as at least 1. */
    method SetWordsPerPage(count: int32)
      modifies this
      ensures properties - {WORDS_PER_PAGE_KEY} == old(properties) - {WORDS_PER_PAGE_KEY}
      ensures GetWordsPerPage() == AtLeastOne(count)
      ensures GetWordbookDirectory() == old(GetWordbookDirectory()) && GetCurrentPage() == old(GetCurrentPage())
      ensures GetSelectedWordbookName() == old(GetSelectedWordbookName())
    {
      KeysDistinct();
      SetInt(WORDS_PER_PAGE_KEY, AtLeastOne(count), DEFAULT_WORDS_PER_PAGE);
    }

    /** setSelectedWordbookName: a null or blank name is stored as "", any other name as given. */
    method SetSelectedWordbookName(name: Option<string>)
      modifies this
      ensures properties - {SELECTED_WORDBOOK_KEY} == old(properties) - {SELECTED_WORDBOOK_KEY}
      ensures GetSelectedWordbookName() == Some(StoredWordbookName(name))
      ensures GetWordbookDirectory() == old(GetWordbookDirectory())
      ensures GetCurrentPage() == old(GetCurrentPage()) && GetWordsPerPage() == old(GetWordsPerPage())
    {
      KeysDistinct();
      if name.None? || IsBlank(name.value) {
        properties := properties[SELECTED_WORDBOOK_KEY := ""];
      } else {
        properties := properties[SELECTED_WORDBOOK_KEY := name.value];
      }
    }
  }

  /** The text setSelectedWordbookName stores for a name. */
  function StoredWordbookName(name: Option<string>): (r: string)
    ensures name.None? ==> r == ""
    ensures name.Some? ==> (r == "" <==> IsBlank(name.value))
    ensures name.Some? && !IsBlank(name.value) ==> r == name.value
  {
    if name.None? || IsBlank(name.value) then "" else name.value
  }

  /** getInstance: the first call creates the settings object; every later call returns that same object. */
  class SettingsRegistry {
    var instance: SettingsState?

    constructor ()
      ensures instance == null
    {
      instance := null;
    }

    method GetInstance(userHome: string, stored: map<string, string>) returns (s: SettingsState)
      modifies this
      ensures old(instance) != null ==> s == old(instance)
      ensures old(instance) == null ==> fresh(s) && s.properties == stored && s.userHome == userHome
      ensures instance == s
    {
      if instance == null {
        instance := new SettingsState(userHome, stored);
      }
      s := instance;
    }
  }
}
