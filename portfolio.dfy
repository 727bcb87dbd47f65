/**
 * The page's state machine: the script's global variables (`currentLang`,
 * `userData`, `reposData`, `userInfo`), the browser state it reads and
 * writes (local storage, the `data-theme` and `lang` attributes, the
 * language buttons), and the parts of the page it paints. Each method is one
 * function of the script and states the new state it leaves.
 *
 * The network is a parameter: `files` are the site files that can be read
 * successfully, `hostname` is `window.location.hostname`, and the GitHub API
 * answers a username with an `ApiOutcome`. Everything runs to completion in
 * program order; a thrown exception that the script does not catch ends the
 * method with `ok == false` and no further effect.
 */
module Portfolio {
  import opened Wrappers
  import opened JsText
  import opened Translations
  import opened Projects
  import opened Identity
  import About
  import opened Hero
  import opened Theme

  /** How the two parallel API requests for a username end. */
  datatype ApiOutcome =
    /** Both responses are ok, both bodies decode, and the repositories body is a list. */
    | Answered(profile: Profile, repos: seq<Repo>)
    /** A request failed or answered with a non-success status. */
    | RequestFailed
    /** The profile body does not decode. */
    | ProfileUnreadable
    /** The profile decodes, but the repositories body does not decode or is not a list. */
    | ReposUnusable(profile: Profile)

  /** What `loadGitHubData` leaves in `userData` and `reposData`, and whether it reached the end of its `try` block. */
  datatype LoadResult = LoadResult(userData: Option<Profile>, reposData: Option<seq<Repo>>, succeeded: bool)

  /** The result of loading for the owner `id`, from the globals as they were before. */
  function Load(id: OwnerIdentity, api: string -> ApiOutcome, userData: Option<Profile>, reposData: Option<seq<Repo>>): LoadResult {
    match ResolveUsername(id)
    case None => LoadResult(userData, reposData, false)
    case Some(u) =>
      match api(u)
      case Answered(p, repos) => LoadResult(Some(p), Some(ProjectList(repos)), true)
      case ReposUnusable(p) => LoadResult(Some(p), reposData, false)
      case _ => LoadResult(userData, reposData, false)
  }

  /** `userInfo?.email`. */
  function InfoEmail(userInfo: Option<OwnerIdentity>): Option<string> {
    if userInfo.Some? then userInfo.value.email else None
  }

  /** The static labels `updateTranslations` writes, and the about section's markup. */
  datatype Chrome = Chrome(
    pageTitle: string, navTitle: string, greeting: string, aboutTitle: string, aboutHtml: string,
    projectsTitle: string, contactTitle: string, formName: string, formEmail: string,
    formMessage: string, formSubmit: string, footerHtml: string)

  function ChromeOf(t: Labels, aboutText: string): Chrome {
    Chrome(t.pageTitle, t.navTitle, t.greeting, t.about, "<p>" + aboutText + "</p>",
      t.projects, t.contact, t.formName, t.formEmail,
      t.formMessage, t.formSubmit, t.footerText)
  }

  /** `` `${name} - Portfolio` ``. */
  function PageTitle(p: Profile): string {
    DisplayName(p) + " - Portfolio"
  }

  const PlaceholderName := "Developer"
  const PlaceholderAvatar := "https://github.com/github.png"
  const PlaceholderAlt := "Default avatar"

  /**
   * The text `showError` paints from `translations.aboutText`: the label when
   * the record has one, else the empty text that `undefined` becomes.
   */
  function AboutTextLabel(t: Labels): (text: string)
    ensures text == ""
  {
    Lookup(t, "aboutText").GetOr("")
  }

  /** The document element's `data-theme` and `lang` attributes, and the document title. */
  datatype Document = Document(theme: Option<string>, lang: string, title: string)

  /** The theme button: the glyph it shows and its tooltip. */
  datatype ToggleButton = ToggleButton(icon: string, tooltip: string)

  /** The loading screen: its text, and whether it has been hidden. */
  datatype LoadingScreen = LoadingScreen(text: string, hidden: bool)

  /** The hero section: the name, the bio markup, the avatar and the row of links. */
  datatype HeroSection = HeroSection(name: string, bio: string, avatarSrc: string, avatarAlt: string, links: seq<HeroLink>)

  /** The hero section showing profile `p` in the labels `t`, with `aboutText` as the bio when the profile has none. */
  function HeroOf(t: Labels, aboutText: string, infoEmail: Option<string>, p: Profile): HeroSection {
    HeroSection(DisplayName(p), BioMarkup(p, aboutText), p.avatarUrl, AvatarAlt(p), HeroLinks(t, infoEmail, p))
  }

  /** The page and the script's globals. The markup's own initial text is represented by empty values. */
  class App {
    /** `lang`, the label table, with the names every object inherits. */
    const lang: map<string, Labels>
    /** The site files that can be read, and the page's hostname. */
    const files: map<string, string>
    const hostname: string
    /**
     * `fetchAboutText(language)`: the formatted about text the site files give
     * for each language. The files do not change while the page is open, so
     * the answer is fixed when the page opens.
     */
    const fetchAbout: string -> string

    // The script's globals.
    var currentLang: string
    var userData: Option<Profile>
    var reposData: Option<seq<Repo>>
    var userInfo: Option<OwnerIdentity>

    // Browser state.
    var storage: map<string, string>
    var document: Document
    var toggle: ToggleButton
    var langEsActive: bool
    var langEnActive: bool
    var listenersReady: bool

    // The painted page.
    var chrome: Option<Chrome>
    var loading: LoadingScreen
    var hero: HeroSection
    var projectsGrid: seq<Card>
    var contactInfo: string

    /** The page as the script finds it, with the browser's stored preferences. */
    constructor (storage: map<string, string>, files: map<string, string>, hostname: string)
      ensures lang == Table && this.storage == storage && this.files == files && this.hostname == hostname
      ensures forall language :: fetchAbout(language) == About.FetchAboutText(language, files)
      ensures currentLang == "en" && userData.None? && reposData.None? && userInfo.None?
      ensures document == Document(None, "", "") && toggle == ToggleButton("", "") && !langEsActive && !langEnActive
      ensures chrome.None? && loading == LoadingScreen("", false) && !listenersReady
      ensures hero == HeroSection("", "", "", "", []) && projectsGrid == [] && contactInfo == ""
    {
      lang := Table;
      this.files := files;
      this.hostname := hostname;
      fetchAbout := language => About.FetchAboutText(language, files);
      this.storage := storage;
      currentLang := "en";
      userData, reposData, userInfo := None, None, None;
      document, toggle := Document(None, "", ""), ToggleButton("", "");
      langEsActive, langEnActive, listenersReady := false, false, false;
      chrome, loading := None, LoadingScreen("", false);
      hero := HeroSection("", "", "", "", []);
      projectsGrid, contactInfo := [], "";
    }

    // ------------------------------------------------------------ what a painted page looks like

    /** The static labels and the loading text are those of the current language. */
    predicate ChromePainted()
      reads this`currentLang, this`chrome, this`loading
    {
      && currentLang in lang
      && chrome == Some(ChromeOf(lang[currentLang], fetchAbout(currentLang)))
      && loading.text == lang[currentLang].loading
    }

    /**
     * The preferences read from `saved` are in force: the theme toggle, the
     * language global, the stored language and the two language buttons.
     */
    predicate PreferencesApplied(saved: map<string, string>)
      reads this`toggle, this`currentLang, this`storage, this`langEsActive, this`langEnActive
    {
      && toggle == ToggleButton(ToggleIcon(InitialTheme(saved)), ToggleTooltip(InitialTheme(saved)))
      && currentLang == InitialLanguage(saved) && storage == saved[LanguageKey := currentLang]
      && langEsActive == (currentLang == "es") && langEnActive == (currentLang == "en")
    }

    /** The hero section shows the loaded profile in the current language. */
    predicate ProfilePainted()
      reads this`currentLang, this`userData, this`userInfo, this`hero
    {
      && currentLang in lang
      && userData.Some?
      && hero == HeroOf(lang[currentLang], fetchAbout(currentLang), InfoEmail(userInfo), userData.value)
    }

    /** The grid shows the loaded project list in the current language. */
    predicate ProjectsPainted()
      reads this`currentLang, this`reposData, this`projectsGrid
    {
      currentLang in lang && reposData.Some? && projectsGrid == ProjectGrid(reposData.value, lang[currentLang])
    }

    /** The placeholders of the error path. */
    predicate ErrorPainted()
      reads this`currentLang, this`loading, this`hero
    {
      && currentLang in lang
      && loading.text == lang[currentLang].errorLoading
      && hero.name == PlaceholderName
      && hero.bio == ""
      && hero.avatarSrc == PlaceholderAvatar
      && hero.avatarAlt == PlaceholderAlt
    }

    // ------------------------------------------------------------ theme

    /** `updateThemeToggle(theme)`. */
    method UpdateThemeToggle(t: string)
      modifies this`toggle
      ensures toggle == ToggleButton(ToggleIcon(t), ToggleTooltip(t))
    {
      toggle := ToggleButton(ToggleIcon(t), ToggleTooltip(t));
    }

    /** `initializeTheme()`: applies the stored theme (or light) without writing storage. */
    method InitializeTheme()
      modifies this`document, this`toggle
      ensures document == old(document).(theme := Some(InitialTheme(storage)))
      ensures toggle == ToggleButton(ToggleIcon(InitialTheme(storage)), ToggleTooltip(InitialTheme(storage)))
    {
      var saved := StoredOr(storage, ThemeKey, Light);
      document := document.(theme := Some(saved));
      UpdateThemeToggle(saved);
    }

    /** `toggleTheme()`: flips the theme, saves it and updates the button. */
    method ToggleTheme()
      modifies this`document, this`storage, this`toggle
      ensures document == old(document).(theme := Some(Toggled(old(document.theme))))
      ensures storage == old(storage)[ThemeKey := Toggled(old(document.theme))]
      ensures toggle == ToggleButton(ToggleIcon(Toggled(old(document.theme))), ToggleTooltip(Toggled(old(document.theme))))
    {
      var next := Toggled(document.theme);
      document := document.(theme := Some(next));
      storage := storage[ThemeKey := next];
      UpdateThemeToggle(next);
    }

    // ------------------------------------------------------------ language

    /**
     * `updateTranslations()`. For a language outside the table the first
     * label read throws, before anything is painted (`ok` is false). Otherwise
     * the chrome is painted, then the hero and contact sections when a
     * profile is loaded, then the grid when a project list is loaded.
     */
    method UpdateTranslations() returns (ok: bool)
      modifies this`chrome, this`loading, this`hero, this`contactInfo, this`projectsGrid
      ensures ok <==> currentLang in lang
      ensures !ok ==> unchanged(this`chrome, this`loading, this`hero, this`contactInfo, this`projectsGrid)
      ensures ok ==> ChromePainted() && loading.hidden == old(loading.hidden)
      ensures ok && userData.Some? ==> ProfilePainted() && contactInfo == ""
      ensures userData.None? ==> unchanged(this`hero, this`contactInfo)
      ensures ok && reposData.Some? ==> ProjectsPainted()
      ensures reposData.None? ==> projectsGrid == old(projectsGrid)
    {
      if currentLang !in lang {
        return false;
      }
      var t := lang[currentLang];
      var aboutText := fetchAbout(currentLang);
      chrome, loading := Some(ChromeOf(t, aboutText)), loading.(text := t.loading);
      if userData.Some? {
        UpdateUserInfo();
        UpdateContactInfo();
      }
      if reposData.Some? {
        UpdateProjects();
      }
      return true;
    }

    /**
     * `setLanguage(language)`: records the language (unchecked) in the global
     * and in storage, marks the matching button, sets the document language
     * and repaints.
     */
    method SetLanguage(language: string) returns (ok: bool)
      modifies this`currentLang, this`storage, this`langEsActive, this`langEnActive, this`document,
        this`chrome, this`loading, this`hero, this`contactInfo, this`projectsGrid
      ensures currentLang == language && document == old(document).(lang := language)
      ensures storage == old(storage)[LanguageKey := language]
      ensures langEsActive == (language == "es") && langEnActive == (language == "en")
      ensures ok <==> language in lang
      ensures ok ==> ChromePainted() && loading.hidden == old(loading.hidden)
      ensures ok && userData.Some? ==> ProfilePainted() && contactInfo == ""
      ensures ok && reposData.Some? ==> ProjectsPainted()
      ensures userData.None? ==> unchanged(this`hero, this`contactInfo)
      ensures reposData.None? ==> projectsGrid == old(projectsGrid)
      ensures !ok ==> unchanged(this`chrome, this`loading, this`hero, this`contactInfo, this`projectsGrid)
    {
      RecordLanguage(language);
      ok := UpdateTranslations();
    }

    /** The first half of `setLanguage(language)`: the global, storage, the buttons and the document language. */
    method RecordLanguage(language: string)
      modifies this`currentLang, this`storage, this`langEsActive, this`langEnActive, this`document
      ensures currentLang == language && document == old(document).(lang := language)
      ensures storage == old(storage)[LanguageKey := language]
      ensures langEsActive == (language == "es") && langEnActive == (language == "en")
    {
      currentLang, storage, langEsActive, langEnActive, document :=
        language, storage[LanguageKey := language], language == "es", language == "en", document.(lang := language);
    }

    /** `initializeLanguage()`: switches to the stored language, or English. */
    method InitializeLanguage() returns (ok: bool)
      modifies this`currentLang, this`storage, this`langEsActive, this`langEnActive, this`document,
        this`chrome, this`loading, this`hero, this`contactInfo, this`projectsGrid
      ensures currentLang == InitialLanguage(old(storage)) && document == old(document).(lang := currentLang)
      ensures storage == old(storage)[LanguageKey := currentLang]
      ensures langEsActive == (currentLang == "es") && langEnActive == (currentLang == "en")
      ensures ok <==> currentLang in lang
      ensures ok ==> ChromePainted() && loading.hidden == old(loading.hidden)
      ensures userData.None? ==> unchanged(this`hero, this`contactInfo)
      ensures reposData.None? ==> projectsGrid == old(projectsGrid)
      ensures !ok ==> unchanged(this`chrome, this`loading, this`hero, this`contactInfo, this`projectsGrid)
    {
      var saved := StoredOr(storage, LanguageKey, DefaultLanguage);
      ok := SetLanguage(saved);
    }

    // ------------------------------------------------------------ painting the loaded data

    /** `addHeroLink(icon, text, url)`: appends one link. */
    method AddHeroLink(icon: Icon, text: string, url: string)
      modifies this`hero
      ensures hero == old(hero).(links := old(hero.links) + [HeroLink(icon, text, url)])
    {
      hero := hero.(links := hero.links + [HeroLink(icon, text, url)]);
    }

    /** `updateUserInfo()`: paints name, bio and avatar, then rebuilds the hero links from empty. */
    method UpdateUserInfo()
      requires currentLang in lang && userData.Some?
      modifies this`hero
      ensures ProfilePainted()
    {
      var t := lang[currentLang];
      var p := userData.value;
      var bio;
      if Truthy(p.bio) {
        bio := About.BreakLines(p.bio.value);
      } else {
        var aboutText := fetchAbout(currentLang);
        bio := "<p>" + aboutText + "</p>";
      }
      hero := HeroSection(DisplayName(p), bio, p.avatarUrl, DisplayName(p) + " avatar", []);

      var email := ContactEmail(InfoEmail(userInfo), p);
      if Truthy(email) {
        AddHeroLink(Envelope, t.email, MailtoScheme + email.value);
      }
      assert hero.links == LinkIf(email, HeroLink(Envelope, t.email, MailtoScheme + email.GetOr("")));
      ghost var before := hero.links;
      if Truthy(p.blog) {
        AddHeroLink(Globe, t.website, BlogUrl(p.blog.value));
      }
      assert hero.links == before + LinkIf(p.blog, HeroLink(Globe, t.website, BlogUrl(p.blog.GetOr(""))));
      before := hero.links;
      if Truthy(p.twitterUsername) {
        AddHeroLink(TwitterBird, t.twitter, TwitterBase + p.twitterUsername.value);
      }
      assert hero.links == before + LinkIf(p.twitterUsername, HeroLink(TwitterBird, t.twitter, TwitterBase + p.twitterUsername.GetOr("")));
      AddHeroLink(GitHubMark, GitHubText, p.htmlUrl);
    }

    /** `updateProjects()`: rebuilds the grid from empty, one card per repository in list order. */
    method UpdateProjects()
      requires currentLang in lang && reposData.Some?
      modifies this`projectsGrid
      ensures ProjectsPainted()
    {
      var t := lang[currentLang];
      var repos := reposData.value;
      projectsGrid := [];
      if |repos| == 0 {
        projectsGrid := projectsGrid + [NoProjects(t.noProjects)];
        return;
      }
      var i := 0;
      while i < |repos|
        invariant 0 <= i <= |repos|
        invariant projectsGrid == CardsOf(repos[..i], t)
      {
        CardsOfSnoc(repos, i, t);
        projectsGrid := projectsGrid + [CardOf(repos[i], t)];
        i := i + 1;
      }
      assert repos[..i] == repos;
    }

    /** `updateContactInfo()`: empties the contact box; the form stays. */
    method UpdateContactInfo()
      modifies this`contactInfo
      ensures contactInfo == ""
    {
      contactInfo := "";
    }

    /** `updateMetaTags()`, as far as the document title. */
    method UpdateMetaTags()
      requires userData.Some?
      modifies this`document
      ensures document == old(document).(title := PageTitle(userData.value))
    {
      document := document.(title := DisplayName(userData.value) + " - Portfolio");
    }

    /** `hideLoading()`. */
    method HideLoading()
      modifies this`loading
      ensures loading == old(loading).(hidden := true)
    {
      loading := loading.(hidden := true);
    }

    /** `showError()`: the error text and the placeholder profile; the links stay. */
    method ShowError()
      requires currentLang in lang
      modifies this`loading, this`hero
      ensures ErrorPainted()
      ensures loading.hidden == old(loading.hidden) && hero.links == old(hero.links)
    {
      var t := lang[currentLang];
      loading := loading.(text := t.errorLoading);
      hero := hero.(name := PlaceholderName, bio := AboutTextLabel(t), avatarSrc := PlaceholderAvatar, avatarAlt := PlaceholderAlt);
    }

    /**
     * The end of `loadGitHubData`'s `try` block, once both globals are set:
     * paints the hero, the grid, the contact box and the title, and hides the
     * loading screen.
     */
    method PaintLoadedData()
      requires currentLang in lang && userData.Some? && reposData.Some?
      modifies this`hero, this`projectsGrid, this`contactInfo, this`document, this`loading
      ensures ProfilePainted() && ProjectsPainted() && contactInfo == ""
      ensures document == old(document).(title := PageTitle(userData.value))
      ensures loading == old(loading).(hidden := true)
    {
      UpdateUserInfo();
      UpdateProjects();
      UpdateContactInfo();
      UpdateMetaTags();
      HideLoading();
    }

    /**
     * `loadGitHubData()`'s `try` block: reads the owner identity, queries the
     * API for the username and, when everything arrives, sets both globals
     * and paints them. `ok` is false where the block throws; by then
     * `userInfo` is set, and `userData` too when only the repositories failed.
     */
    method FetchAndPaint(api: string -> ApiOutcome) returns (ok: bool)
      requires currentLang in lang
      modifies this`userInfo, this`userData, this`reposData,
        this`hero, this`projectsGrid, this`contactInfo, this`document, this`loading
      ensures userInfo == Some(FetchInfo(files, hostname))
      ensures LoadResult(userData, reposData, ok) == Load(userInfo.value, api, old(userData), old(reposData))
      ensures ok ==> ProfilePainted() && ProjectsPainted() && contactInfo == ""
      ensures ok ==> document == old(document).(title := PageTitle(userData.value))
      ensures ok ==> loading == old(loading).(hidden := true)
      ensures !ok ==> unchanged(this`hero, this`projectsGrid, this`contactInfo, this`document, this`loading)
    {
      var info := FetchInfo(files, hostname);
      userInfo := Some(info);
      var username := ResolveUsername(info);
      if username.None? {
        return false;
      }
      match api(username.value)
      case Answered(p, repos) =>
        userData, reposData := Some(p), Some(ProjectList(repos));
        PaintLoadedData();
        ok := true;
      case ReposUnusable(p) =>
        userData := Some(p);
        ok := false;
      case _ =>
        ok := false;
    }

    /**
     * `loadGitHubData()`: the `try` block, and on any failure the error
     * placeholders; the loading screen is hidden either way.
     */
    method LoadGitHubData(api: string -> ApiOutcome)
      requires currentLang in lang
      modifies this`userInfo, this`userData, this`reposData,
        this`hero, this`projectsGrid, this`contactInfo, this`document, this`loading
      ensures userInfo == Some(FetchInfo(files, hostname))
      ensures unchanged(this`currentLang, this`storage, this`langEsActive, this`langEnActive, this`toggle, this`chrome)
      ensures userData == Load(userInfo.value, api, old(userData), old(reposData)).userData
      ensures reposData == Load(userInfo.value, api, old(userData), old(reposData)).reposData
      ensures Load(userInfo.value, api, old(userData), old(reposData)).succeeded ==>
        && ProfilePainted() && ProjectsPainted() && contactInfo == ""
        && document == old(document).(title := PageTitle(userData.value)) && loading.text == old(loading.text)
      ensures !Load(userInfo.value, api, old(userData), old(reposData)).succeeded ==>
        ErrorPainted() && hero.links == old(hero.links) && unchanged(this`projectsGrid, this`contactInfo, this`document)
      ensures loading.hidden
    {
      var ok := FetchAndPaint(api);
      assert unchanged(this`currentLang, this`storage, this`langEsActive, this`langEnActive, this`toggle, this`chrome);
      if !ok {
        ShowError();
        HideLoading();
      }
    }

    /**
     * The `DOMContentLoaded` handler up to its `await`: the stored theme,
     * then the stored language. A stored language with no entry in `lang`
     * makes the language step throw (`ok` is false) before anything is painted, and the
     * handler stops there.
     */
    method ApplyPreferences() returns (ok: bool)
      modifies this`currentLang, this`storage, this`langEsActive, this`langEnActive, this`document, this`toggle,
        this`chrome, this`loading, this`hero, this`contactInfo, this`projectsGrid
      ensures PreferencesApplied(old(storage))
      ensures document == old(document).(theme := Some(InitialTheme(old(storage))), lang := currentLang)
      ensures ok <==> currentLang in lang
      ensures ok ==> ChromePainted() && loading.hidden == old(loading.hidden)
      ensures userData.None? ==> unchanged(this`hero, this`contactInfo)
      ensures reposData.None? ==> projectsGrid == old(projectsGrid)
      ensures !ok ==> unchanged(this`chrome, this`loading, this`hero, this`contactInfo, this`projectsGrid)
    {
      InitializeTheme();
      ok := InitializeLanguage();
    }

    /**
     * The rest of the handler, once the language is applied: the listeners,
     * then the data. The loading screen ends hidden, over the loaded page or
     * over the error placeholders.
     */
    method StartLoading(api: string -> ApiOutcome)
      requires currentLang in lang
      modifies this`listenersReady, this`userInfo, this`userData, this`reposData,
        this`hero, this`projectsGrid, this`contactInfo, this`document, this`loading
      ensures listenersReady && loading.hidden && userInfo == Some(FetchInfo(files, hostname))
      ensures unchanged(this`currentLang, this`storage, this`langEsActive, this`langEnActive, this`toggle, this`chrome)
      ensures userData == Load(userInfo.value, api, old(userData), old(reposData)).userData
      ensures reposData == Load(userInfo.value, api, old(userData), old(reposData)).reposData
      ensures Load(userInfo.value, api, old(userData), old(reposData)).succeeded ==>
        && ProfilePainted() && ProjectsPainted() && contactInfo == ""
        && document == old(document).(title := PageTitle(userData.value)) && loading.text == old(loading.text)
      ensures !Load(userInfo.value, api, old(userData), old(reposData)).succeeded ==>
        ErrorPainted() && hero.links == old(hero.links) && unchanged(this`projectsGrid, this`contactInfo, this`document)
    {
      SetupEventListeners();
      assert userData == old(userData) && reposData == old(reposData) && document == old(document);
      LoadGitHubData(api);
    }

    /**
     * The `DOMContentLoaded` handler: the preferences, then, when the stored
     * language did not make it throw, the listeners and the data.
     */
    method HandleContentLoaded(api: string -> ApiOutcome) returns (started: bool)
      modifies this`currentLang, this`storage, this`langEsActive, this`langEnActive, this`document, this`toggle,
        this`chrome, this`loading, this`hero, this`contactInfo, this`projectsGrid,
        this`listenersReady, this`userInfo, this`userData, this`reposData
      ensures PreferencesApplied(old(storage))
      ensures document.theme == Some(InitialTheme(old(storage))) && document.lang == currentLang
      ensures started <==> currentLang in lang
      ensures !started ==> document.title == old(document.title) && unchanged(this`chrome, this`loading, this`hero,
        this`contactInfo, this`projectsGrid, this`listenersReady, this`userInfo, this`userData, this`reposData)
      ensures started ==>
        var r := Load(FetchInfo(files, hostname), api, old(userData), old(reposData));
        && loading.hidden && listenersReady && userInfo == Some(FetchInfo(files, hostname))
        && chrome == Some(ChromeOf(lang[currentLang], fetchAbout(currentLang)))
        && userData == r.userData && reposData == r.reposData
        && (r.succeeded ==>
              && ChromePainted() && ProfilePainted() && ProjectsPainted() && contactInfo == ""
              && document.title == PageTitle(userData.value))
        && (!r.succeeded ==> ErrorPainted() && document.title == old(document.title))
        && (!r.succeeded && old(userData).None? && old(reposData).None? ==>
              hero.links == old(hero.links) && projectsGrid == old(projectsGrid) && contactInfo == old(contactInfo))
    {
      started := ApplyPreferences();
      if started {
        assert userData == old(userData) && reposData == old(reposData) && listenersReady == old(listenersReady);
        StartLoading(api);
      }
    }

    /** `setupEventListeners()`: from now on the theme toggle and the language buttons respond. */
    method SetupEventListeners()
      modifies this`listenersReady
      ensures listenersReady
    {
      listenersReady := true;
    }
  }

  // ---------------------------------------------------------------- properties of loading

  /**
   * Loading succeeds exactly when a username resolves and the API answers
   * it in full; it then sets both globals, the project list to the derived
   * list of the answer.
   */
  lemma LoadSucceedsIff(id: OwnerIdentity, api: string -> ApiOutcome, userData: Option<Profile>, reposData: Option<seq<Repo>>)
    ensures var r := Load(id, api, userData, reposData);
      && (r.succeeded <==> ResolveUsername(id).Some? && api(ResolveUsername(id).value).Answered?)
      && (r.succeeded ==>
            var a := api(ResolveUsername(id).value);
            r.userData == Some(a.profile) && r.reposData == Some(ProjectList(a.repos)))
  {
  }

  /**
   * A failed load changes `reposData` never and `userData` only when the
   * profile arrived before the repositories failed; that leaves a profile
   * without a project list.
   */
  lemma FailedLoadKeepsGlobals(id: OwnerIdentity, api: string -> ApiOutcome, userData: Option<Profile>, reposData: Option<seq<Repo>>)
    requires !Load(id, api, userData, reposData).succeeded
    ensures Load(id, api, userData, reposData).reposData == reposData
    ensures Load(id, api, userData, reposData).userData != userData ==>
      ResolveUsername(id).Some? && api(ResolveUsername(id).value).ReposUnusable?
  {
  }

  /** A successful load stores at most six public, non-fork repositories, most stars first. */
  lemma LoadedProjectsAreTopSix(id: OwnerIdentity, api: string -> ApiOutcome, userData: Option<Profile>, reposData: Option<seq<Repo>>)
    requires Load(id, api, userData, reposData).succeeded
    ensures var list := Load(id, api, userData, reposData).reposData.value;
      |list| <= MaxProjects && SortedByStars(list) && forall x | x in list :: Eligible(x)
  {
    ProjectListFilters(api(ResolveUsername(id).value).repos);
  }

  /** A blank `info` file makes loading fail whatever the API would answer. */
  lemma BlankInfoFails(files: map<string, string>, hostname: string, api: string -> ApiOutcome, userData: Option<Profile>, reposData: Option<seq<Repo>>)
    requires InfoFileName in files && AllWhitespace(files[InfoFileName])
    ensures !Load(FetchInfo(files, hostname), api, userData, reposData).succeeded
  {
    UsernameUnresolved(files, hostname);
  }

  // ---------------------------------------------------------------- the page as a whole

  /**
   * A page load: the script starts on a fresh page. With a stored language
   * that has no entry in `lang` it never hides the loading screen and never
   * loads data.
   */
  method PageLoad(storage: map<string, string>, files: map<string, string>, hostname: string, api: string -> ApiOutcome)
    returns (app: App, started: bool)
    ensures fresh(app) && app.lang == Table && app.files == files && app.hostname == hostname
    ensures app.currentLang == InitialLanguage(storage) && app.storage == storage[LanguageKey := app.currentLang]
    ensures app.document.theme == Some(InitialTheme(storage)) && app.document.lang == app.currentLang
    ensures app.toggle == ToggleButton(ToggleIcon(InitialTheme(storage)), ToggleTooltip(InitialTheme(storage)))
    ensures app.langEsActive == (app.currentLang == "es") && app.langEnActive == (app.currentLang == "en")
    ensures started <==> InitialLanguage(storage) in Table
    ensures !started ==> !app.loading.hidden && !app.listenersReady && app.userInfo.None? && app.userData.None? && app.reposData.None?
    ensures !started ==> app.chrome.None? && app.hero.links == [] && app.projectsGrid == [] && app.document.title == ""
    ensures started ==> app.loading.hidden && app.listenersReady && app.userInfo == Some(FetchInfo(files, hostname))
    ensures started ==> app.chrome == Some(ChromeOf(Table[app.currentLang], About.FetchAboutText(app.currentLang, files)))
    ensures started ==> app.userData == Load(FetchInfo(files, hostname), api, None, None).userData
    ensures started ==> app.reposData == Load(FetchInfo(files, hostname), api, None, None).reposData
    ensures started && Load(FetchInfo(files, hostname), api, None, None).succeeded ==>
      && app.ChromePainted() && app.ProfilePainted() && app.ProjectsPainted() && app.contactInfo == ""
      && app.document.title == PageTitle(app.userData.value)
    ensures started && !Load(FetchInfo(files, hostname), api, None, None).succeeded ==>
      app.ErrorPainted() && app.hero.links == [] && app.projectsGrid == [] && app.contactInfo == "" && app.document.title == ""
  {
    app := new App(storage, files, hostname);
    started := app.HandleContentLoaded(api);
  }
}
