/** Validation of the two configuration sections, from the point where
    the INI file has been read into sections of key/value strings
    (`AppConfig.from_file` in config.py, lines 45-72). */
module Config {
  import opened Wrappers

  /** Settings needed to reach one WordPress site (the `WordPressConfig` record). */
  datatype WordPressConfig = WordPressConfig(
    baseUrl: string,
    username: Option<string>,
    applicationPassword: Option<string>,
    date: string,
    perPage: int)

  /** Settings of the local SQLite store (the `DatabaseConfig` record). */
  datatype DatabaseConfig = DatabaseConfig(path: string)

  /** Both sections together (the `AppConfig` record). */
  datatype AppConfig = AppConfig(wordpress: WordPressConfig, database: DatabaseConfig)

  /** The `ValueError`s that `from_file` raises, one per rejection rule. */
  datatype ConfigError =
    | MissingSection       // no [wordpress] or no [database] section
    | PerPageNotInteger    // `getint` could not parse per_page
    | PerPageNotPositive   // per_page <= 0
    | BaseUrlRequired      // base_url empty once trailing slashes are gone
    | DateRequired         // date missing or empty

  /** One parsed section: option name to raw text. */
  type Section = map<string, string>

  /** All parsed sections by name. */
  type Sections = map<string, Section>

  const WordPressSection: string := "wordpress"
  const DatabaseSection: string := "database"
  const DefaultPerPage: int := 100
  const DefaultDatabasePath: string := "data/wp_posts.db"

  /** `section.get(key, fallback=...)`. */
  function GetOr(section: Section, key: string, fallback: string): string
  {
    if key in section then section[key] else fallback
  }

  /** `section.get(key)` without a fallback: `None` when the option is absent. */
  function GetOptional(section: Section, key: string): Option<string>
  {
    if key in section then Some(section[key]) else None
  }

  /** Python's `s.rstrip("/")`: removes every trailing slash, not just one. */
  function StripTrailingSlashes(s: string): (r: string)
    ensures r <= s
    ensures r == [] || r[|r| - 1] != '/'
    ensures forall i :: |r| <= i < |s| ==> s[i] == '/'
    decreases |s|
  {
    if |s| > 0 && s[|s| - 1] == '/' then StripTrailingSlashes(s[..|s| - 1]) else s
  }

  /** The three properties above determine the stripped string. */
  lemma StripTrailingSlashesUnique(s: string, r: string)
    requires r <= s
    requires r == [] || r[|r| - 1] != '/'
    requires forall i :: |r| <= i < |s| ==> s[i] == '/'
    ensures r == StripTrailingSlashes(s)
  {
  }

  /** Every trailing slash goes, and a URL of slashes only becomes empty. */
  lemma StripTrailingSlashesExamples()
    ensures StripTrailingSlashes("http://x//") == "http://x"
    ensures StripTrailingSlashes("http://x") == "http://x"
    ensures StripTrailingSlashes("///") == ""
  {
  }

  /** `getint("per_page", fallback=100)`: `parseInt` stands for Python's `int()`
      applied to the option's text; `None` is the `ValueError` it raises. */
  function PerPageSetting(wordpress: Section, parseInt: string -> Option<int>): (r: Result<int, ConfigError>)
    ensures "per_page" !in wordpress ==> r == Ok(DefaultPerPage)
    ensures "per_page" in wordpress ==>
      (r == Err(PerPageNotInteger) <==> parseInt(wordpress["per_page"]).None?)
    ensures "per_page" in wordpress && r.Ok? ==> Some(r.value) == parseInt(wordpress["per_page"])
    ensures r.Ok? || r == Err(PerPageNotInteger)
  {
    if "per_page" !in wordpress then Ok(DefaultPerPage)
    else match parseInt(wordpress["per_page"])
      case None => Err(PerPageNotInteger)
      case Some(n) => Ok(n)
  }

  /** The invariant every accepted WordPress configuration satisfies. */
  predicate ValidWordPressConfig(w: WordPressConfig)
  {
    && w.perPage > 0
    && w.baseUrl != []
    && w.baseUrl[|w.baseUrl| - 1] != '/'
    && w.date != []
  }

  /** The checks of `from_file` in their fixed order: sections, per_page,
      base_url, date. Each error is reported exactly when every earlier
      check passed and its own check failed. */
  function FromSections(sections: Sections, parseInt: string -> Option<int>): (r: Result<AppConfig, ConfigError>)
    ensures r == Err(MissingSection) <==> WordPressSection !in sections || DatabaseSection !in sections
    ensures r == Err(PerPageNotInteger) <==>
      && WordPressSection in sections && DatabaseSection in sections
      && PerPageSetting(sections[WordPressSection], parseInt) == Err(PerPageNotInteger)
    ensures r == Err(PerPageNotPositive) <==>
      && WordPressSection in sections && DatabaseSection in sections
      && PerPageSetting(sections[WordPressSection], parseInt).Ok?
      && PerPageSetting(sections[WordPressSection], parseInt).value <= 0
    ensures r == Err(BaseUrlRequired) <==>
      && WordPressSection in sections && DatabaseSection in sections
      && PerPageSetting(sections[WordPressSection], parseInt).Ok?
      && PerPageSetting(sections[WordPressSection], parseInt).value > 0
      && forall i :: 0 <= i < |GetOr(sections[WordPressSection], "base_url", "")| ==>
           GetOr(sections[WordPressSection], "base_url", "")[i] == '/'
    ensures r == Err(DateRequired) <==>
      && WordPressSection in sections && DatabaseSection in sections
      && PerPageSetting(sections[WordPressSection], parseInt).Ok?
      && PerPageSetting(sections[WordPressSection], parseInt).value > 0
      && (exists i :: 0 <= i < |GetOr(sections[WordPressSection], "base_url", "")| &&
           GetOr(sections[WordPressSection], "base_url", "")[i] != '/')
      && GetOr(sections[WordPressSection], "date", "") == ""
    ensures r.Ok? ==> ValidWordPressConfig(r.value.wordpress)
    ensures r.Ok? ==>
      var wordpress := sections[WordPressSection];
      && r.value.wordpress.perPage == PerPageSetting(wordpress, parseInt).value
      && r.value.wordpress.baseUrl == StripTrailingSlashes(GetOr(wordpress, "base_url", ""))
      && r.value.wordpress.username == GetOptional(wordpress, "username")
      && r.value.wordpress.applicationPassword == GetOptional(wordpress, "application_password")
      && r.value.wordpress.date == GetOr(wordpress, "date", "")
      && r.value.database.path == GetOr(sections[DatabaseSection], "path", DefaultDatabasePath)
  {
    if WordPressSection !in sections || DatabaseSection !in sections then
      Err(MissingSection)
    else
      var wordpress := sections[WordPressSection];
      var database := sections[DatabaseSection];
      match PerPageSetting(wordpress, parseInt)
      case Err(e) => Err(e)
      case Ok(perPage) =>
        if perPage <= 0 then
          Err(PerPageNotPositive)
        else
          var config := WordPressConfig(
            StripTrailingSlashes(GetOr(wordpress, "base_url", "")),
            GetOptional(wordpress, "username"),
            GetOptional(wordpress, "application_password"),
            GetOr(wordpress, "date", ""),
            perPage);
          if config.baseUrl == [] then
            Err(BaseUrlRequired)
          else if config.date == [] then
            Err(DateRequired)
          else
            Ok(AppConfig(config, DatabaseConfig(GetOr(database, "path", DefaultDatabasePath))))
  }
}
