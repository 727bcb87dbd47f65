# Portfolio page script, modelled in Dafny

This project models `script.js`, the one browser script behind a personal
GitHub Pages portfolio. On page load it does these things in order:

1. It applies the stored theme and language from local storage.
2. It paints the page's static text from a two-language label table. It also paints the "about me" text read from a site file.
3. It finds the owner's GitHub username. The source is either an `info` file beside the page or the page's `<name>.github.io` hostname.
4. It asks the GitHub API for the profile and the repositories.
5. It paints the result:
   - the hero section, with name, bio, avatar and a row of quick links;
   - a grid of the six most-starred public, non-fork repositories;
   - the document title.

If any step of the load fails, it paints placeholders instead. The theme button and the language buttons repaint the page later.

The model has nine modules:

- `JsText`: the ECMAScript string operations the script uses, with their JavaScript meaning.
  - `trim`, including the exact whitespace set of ECMA-262.
  - `split` with a string separator, and `join`.
  - `startsWith`, `endsWith`, and the truthiness of an optional string.
- `Translations`: the `lang` table as data.
- `Projects`: the filter / stable sort / slice chain that turns the API's repository list into the project list, and the cards of the grid.
- `Identity`: parsing of the `info` file and the hostname fallback.
- `About`: `fetchAboutText`, meaning the choice of file and fallback sentence, and the paragraph and line-break formatting.
- `Hero`: the display name, the bio, the blog address rule and the ordered hero links.
- `Theme`: the stored preferences, the light/dark toggle and its button.
- `Portfolio`: the page itself.
  - `App` is a class whose fields are the script's four globals, local storage (a `map`), the document attributes, the buttons and every painted part of the page.
  - Each script function is a method of `App` that states the new state it leaves.
  - `updateUserInfo` rebuilds the hero links one `addHeroLink` at a time.
  - `updateProjects` rebuilds the grid with a loop.
  - `HandleContentLoaded` is the `DOMContentLoaded` handler, and `PageLoad` runs it on a fresh page.
- `Wrappers`: `Option`.

The outside world is given as parameters:

- `files`: the site files that can be read. A missing name stands for a failed request, a non-success status or an unreadable body.
- `hostname`: the page's hostname.
- `api`: a function from a username to how the two parallel API requests end.

Everything runs in program order. An exception the script does not catch is a result `ok == false`, returned at the point where it is thrown.

Some of the code's behaviour at the edges, which the model keeps:

- **Stored values.** Any non-empty stored theme or language is kept, recognised or not.
  - A junk theme is applied as the `data-theme` attribute (`Theme.InitialTheme`). The first click then gives dark (`Theme.ToggleFromOther`).
  - A junk language is read from `lang` as a property name. A name that every object inherits from `Object.prototype`, such as `toString`, `constructor` or `__proto__`, finds that inherited member. Its labels all read `undefined`, so nothing throws: the page starts with empty static text, and with the text `undefined` wherever a label goes into markup or a template (`Translations.TableCodes`).
  - Any other junk language makes `updateTranslations` throw at its first label read. The `DOMContentLoaded` handler then stops. The listeners are never set up, no data is loaded, and the loading screen stays up (`Portfolio.PageLoad`).
- **Partial data.** The profile JSON is stored in `userData` before the repository JSON is decoded and filtered. When both requests succeed but the repository body does not decode or is not a list (`Portfolio.ReposUnusable`, script.js:226-230), `userData` therefore keeps the profile, although the error placeholders are painted (`Portfolio.FailedLoadKeepsGlobals`). A failed response from either request throws at script.js:221-222, before that assignment, so both globals stay as they were. A later language switch paints the profile, because `updateTranslations` repaints it whenever `userData` is set (`Portfolio.App.UpdateTranslations`).
- **Error placeholders.**
  - `showError` paints the bio from a label `aboutText` that neither language record has. A missing label reads as `undefined` rather than failing, so the bio is empty (`Translations.NoAboutTextLabel`, `Portfolio.AboutTextLabel`).
  - `loadGitHubData` calls `hideLoading()` right after `showError()`, so the screen carrying the error text is hidden at once (`Portfolio.App.LoadGitHubData`). The second call that `showError` schedules two seconds later changes nothing.
- **Hostname fallback.** Only a `<name>.github.io` host gives a username from the hostname. Every other host, a loopback address included, gives `octocat` (`Identity.OtherHostUsername`).
- **Missing description.** The fallback text "No description available." is English in both languages (`Projects.NoDescription`).

## Model

| member | source | states |
|---|---|---|
| JsText.Or | script.js:256-257 | `a \|\| b` on optional strings: `a` when it is present and non-empty, otherwise `b` |
| JsText.Trim | script.js:254 | `trim` cuts only whitespace from the two ends. The result has none left at either end, is a contiguous slice of the input, and is empty exactly when the input is all whitespace |
| JsText.TrimIdempotent | script.js:254-257 | trimming twice is the same as trimming once |
| JsText.IndexOf | script.js:299 | `indexOf` finds an occurrence, with no earlier one. It is absent exactly when the separator does not occur |
| JsText.Split | script.js:254 | `split` gives at least one piece. No piece contains the separator, and joining the pieces with the separator gives the input back |
| JsText.SplitJoin | script.js:280-282 | a border-free separator that no piece contains: splitting the joined pieces gives the pieces back |
| Translations.Lookup | script.js:2-51 | `translations[key]` on a language record is defined exactly for the record's own 21 label names |
| Translations.LangCodes | script.js:2-51 | the table has a record of its own for exactly `es` and `en`, the Spanish and the English one |
| Translations.TableCodes | script.js:139 | `lang[code]` finds an entry exactly for `es`, `en` and the twelve names every object inherits. `es` and `en` give their own records. An inherited name gives a record whose labels all read `undefined`: empty where assigned to `textContent`, the text `undefined` in markup and templates |
| Translations.LabelsNonEmpty | script.js:2-51 | every label has non-empty text in both languages |
| Translations.HeadingsAreTranslated | script.js:2-51 | the greeting, the section titles and the page title differ between the two languages |
| Translations.NoAboutTextLabel | script.js:473 | `aboutText`, which the error path reads, is in neither record |
| Projects.FilterEligible | script.js:230 | the filter rule: keep, in order, the repositories that are neither private nor forks. Its property is `Projects.FilterEligibleCounts` |
| Projects.FilterEligibleCounts | script.js:230 | the filter keeps each public, non-fork repository as often as the input has it, and drops every other one |
| Projects.Insert | script.js:231 | one insertion step of the stable sort: the repository goes in front of the first entry with no more stars, so the list grows by one. `Projects.InsertPermutes` and `Projects.InsertSorted` give its properties |
| Projects.SortByStars | script.js:231 | the stable sort by descending stars keeps the length. `Projects.SortPermutes`, `Projects.SortSorted`, `Projects.SortIsStable` and `Projects.StableSortIsUnique` give its properties |
| Projects.SortPermutes | script.js:231 | sorting by stars is a permutation of its input |
| Projects.SortSorted | script.js:231 | sorting puts the star counts in non-increasing order |
| Projects.SortIsStable | script.js:231 | for every star count, the repositories with that count keep their input order |
| Projects.StableSortIsUnique | script.js:231 | any list sorted by stars that keeps the input order per star count is the model's sort. So every stable sort, as ECMA-262 requires since 2019, returns the same list |
| Projects.ProjectList | script.js:229-232 | filter, sort, then the first six. Its properties are `Projects.ProjectListFilters`, `Projects.ProjectListIsTopN` and `Projects.ProjectListIsStable` |
| Projects.ProjectListFilters | script.js:229-232 | the project list has at most six entries, all public, non-fork repositories of the input, most stars first |
| Projects.ProjectListIsTopN | script.js:229-232 | the list holds min(6, eligible count) entries. When all eligible repositories fit, they are all there. No eligible repository left out has more stars than any one kept |
| Projects.ProjectListIsStable | script.js:229-232 | among equal star counts, the list shows a prefix of the eligible repositories in input order |
| Projects.ProjectListExample | script.js:229-232 | stars 3, 10, 1, 10, 0 with a private and a fork repository mixed in give the order 10, 10, 3, 1, 0, ties in input order |
| Projects.CardOf | script.js:380-403 | a repository's card: its name, star count and link, the `stars` and `viewProject` labels, and its description or the fixed fallback when the description is absent or empty |
| Projects.CardsOf | script.js:380-403 | one card per repository, in list order |
| Projects.ProjectGrid | script.js:367-404 | the empty-state message for no repositories, otherwise the cards. Its shape is `Projects.ProjectGridShape` |
| Projects.ProjectGridShape | script.js:367-404 | the grid is never empty: the empty-state message alone for no repositories, otherwise one card per repository in order, with its name, stars and link and a non-empty description |
| Identity.TrimmedOrNull | script.js:256-257 | `line.trim() \|\| null` is null exactly for an all-whitespace line, otherwise the trimmed, non-empty line |
| Identity.ResolveUsername | script.js:207-211 | a username the load goes on with is never empty |
| Identity.ParseInfo | script.js:254-258 | the `info` file's trimmed text, cut at line feeds: the first line is the username, the second the email, each trimmed and null when blank. Its properties are `Identity.ParseInfoFields`, `Identity.UsernameNullIffBlank` and `Identity.ParseInfoRoundTrip` |
| Identity.ParseInfoFields | script.js:254-258 | each field read from the `info` file is non-empty, trimmed and a single line |
| Identity.UsernameNullIffBlank | script.js:254-256 | the username is null exactly when the file holds only whitespace |
| Identity.ParseInfoRoundTrip | script.js:254-258 | a file written as username, line feed, email (or username alone) parses back to that username and email |
| Identity.UsernameFromHostname | script.js:294-304 | the text before the first dot of a `.github.io` host, `octocat` for any other host. Its properties are `Identity.PagesHostUsername`, `Identity.AliceHost` and `Identity.OtherHostUsername` |
| Identity.PagesHostUsername | script.js:298-299 | on a `.github.io` host the username is the text before the first dot |
| Identity.AliceHost | script.js:298-299 | `alice.github.io` gives `alice` |
| Identity.OtherHostUsername | script.js:302-303 | any other host gives `octocat` |
| Identity.FetchInfo | script.js:249-269 | the parsed `info` file when it can be read, otherwise the hostname's username and no email. See `Identity.FallbackIdentity` and `Identity.UsernameUnresolved` |
| Identity.FallbackIdentity | script.js:264-268 | without a readable `info` file the username comes from the hostname and there is no email |
| Identity.UsernameUnresolved | script.js:206-211 | loading stops for want of a username exactly when the `info` file is blank, or, without one, when the host is `.github.io` with nothing before its first dot |
| About.BreakLines | script.js:281 | the replaced paragraph contains no line feed |
| About.BreakLinesLength | script.js:281 | each line feed becomes the four characters of `<br>`, and nothing else changes length |
| About.BreakLinesKeepsPlainText | script.js:281 | text without a line feed is unchanged |
| About.BreakLinesIsSplitJoin | script.js:281 | the global replace equals splitting at every line feed and joining with `<br>` |
| About.BreakAll | script.js:281 | the `.map` over the paragraphs gives one converted paragraph per paragraph |
| About.BreakAllAt | script.js:281 | the i-th converted paragraph is the i-th paragraph with its line feeds replaced |
| About.Paragraphs | script.js:279-280 | there is always at least one paragraph |
| About.FormatAbout | script.js:278-282 | trim, cut at blank lines, convert each paragraph's line feeds, join with `</p><p>`. Its properties are `About.FormatAboutHasNoNewline`, `About.FormatAboutParagraphs` and `About.SingleParagraph` |
| About.FormatAboutHasNoNewline | script.js:278-282 | the formatted text has no line feed |
| About.FormatAboutParagraphs | script.js:278-282 | k paragraphs, none containing `</p><p>`: the output cut at `</p><p>` gives back exactly the k converted paragraphs, so there are k - 1 joins |
| About.BreakLinesAvoidsParagraphBreak | script.js:281 | converting a paragraph's line feeds to `<br>` never creates a `</p><p>`, so the join's separator shows only where paragraphs meet |
| About.SingleParagraph | script.js:278-282 | text without a blank line after trimming is one paragraph with its line feeds converted |
| About.FetchAboutText | script.js:271-292 | the formatted file of the language when it can be read, otherwise the language's fallback sentence. See `About.AboutTextHasNoNewline` and `About.AboutTextLanguage` |
| About.AboutTextHasNoNewline | script.js:271-292 | the about text never has a line feed, read from the file or the fallback |
| About.AboutTextLanguage | script.js:273-291 | `es` reads `sobreMi` with the Spanish fallback. Every other code reads `aboutMe` with the English fallback |
| Hero.DisplayName | script.js:310 | the profile name when non-empty, else the login |
| Hero.BioMarkup | script.js:313-319 | the profile's bio with its line feeds converted when it is non-empty, otherwise the given about text of the language in one `<p>` block |
| Hero.BlogUrl | script.js:338-340 | the website address always starts with `http` |
| Hero.BlogUrlUnchangedIff | script.js:338-340 | the address is left alone exactly when it starts with `http` |
| Hero.BlogUrlIdempotent | script.js:338-340 | applying the rule twice is the same as applying it once |
| Hero.BlogUrlPrefixes | script.js:338-340 | an address without `http` gets `https://` in front and is otherwise kept |
| Hero.BlogUrlExamples | script.js:338-340 | `example.com` becomes `https://example.com`; `https://example.com` is kept |
| Hero.HeroLinks | script.js:324-354 | the links `updateUserInfo` appends: email, website and Twitter when their fields are truthy, then GitHub. Its properties are `Hero.HeroLinksOrder` and `Hero.HeroLinksContent` |
| Hero.HeroLinksOrder | script.js:324-354 | one to four links with strictly increasing glyphs (email, website, Twitter, GitHub), so each kind appears at most once. GitHub is always last and points at the profile page |
| Hero.HeroLinksContent | script.js:326-351 | each optional link is present exactly when its field is truthy. It then carries its label and its address: `mailto:` the preferred email, the prefixed blog, the Twitter profile |
| Hero.ContactEmail | script.js:327 | `userInfo?.email \|\| userData.email`. Its property is `Hero.ContactEmailPreference` |
| Hero.ContactEmailPreference | script.js:327 | the `info` file's email, when non-empty, wins over the profile's; otherwise the profile's is used |
| Theme.StoredOr | script.js:97 | `getItem(key) \|\| default`: the stored value when present and non-empty, otherwise the default |
| Theme.InitialTheme | script.js:97 | the stored theme when non-empty, recognised or not, otherwise light. See `Theme.Defaults` |
| Theme.InitialLanguage | script.js:119 | the stored language when non-empty, supported or not, otherwise `en`. See `Theme.Defaults` |
| Theme.Toggled | script.js:103-104 | the next theme is light or dark. It is light exactly when the current one is dark |
| Theme.ToggleIcon | script.js:112 | the sun exactly for dark, the moon for every other theme |
| Theme.ToggleTooltip | script.js:113-114 | "Switch to light mode" exactly for dark, "Switch to dark mode" otherwise |
| Theme.ToggleTwice | script.js:102-108 | toggling twice from light or dark gives the starting theme back |
| Theme.ToggleFromOther | script.js:103-104 | from an unrecognised or absent theme, one click gives dark and a second gives light |
| Theme.TooltipNamesNextTheme | script.js:104-114 | the tooltip names the theme a click produces |
| Theme.Defaults | script.js:97-119 | with nothing usable stored, the page starts light and in English |
| Theme.StoredValueIsRead | script.js:107-125 | a non-empty value once written is what the next load reads |
| Portfolio.Load | script.js:205-232 | what loading leaves in the globals and whether it reaches the end of its `try` block. Its properties are `Portfolio.LoadSucceedsIff`, `Portfolio.FailedLoadKeepsGlobals`, `Portfolio.LoadedProjectsAreTopSix` and `Portfolio.BlankInfoFails` |
| Portfolio.ChromeOf | script.js:142-157 | the static labels `updateTranslations` writes, and the about text in one `<p>` block |
| Portfolio.HeroOf | script.js:306-355 | the hero `updateUserInfo` paints from a profile, the labels and the about text: the display name, the bio markup, the avatar and its alt text, and the hero links |
| Portfolio.AboutTextLabel | script.js:473 | the error path's bio text is empty |
| Portfolio.App.constructor | script.js:53-57 | the globals start as `"en"` and three nulls. Nothing is painted: no theme attribute, no title, an empty hero, grid and contact box, inactive language buttons, and the loading screen up. The about text of each language is that of the site files |
| Portfolio.App.UpdateThemeToggle | script.js:111-115 | the button shows the icon and tooltip of the theme |
| Portfolio.App.InitializeTheme | script.js:96-100 | the stored theme (or light) becomes the theme attribute and the button. Storage is not written |
| Portfolio.App.ToggleTheme | script.js:102-109 | the theme attribute, the stored `theme` and the button all take the toggled theme. Nothing else of the document changes |
| Portfolio.App.UpdateTranslations | script.js:138-168 | it succeeds exactly for a language with an entry in the table, inherited names included, and otherwise paints nothing. On success: the static text, about text and loading text are those of the language. The hero shows the profile only when `userData` is set, and otherwise stays as it was. The grid shows the project list only when `reposData` is set, and otherwise stays as it was |
| Portfolio.App.RecordLanguage | script.js:124-133 | the unchecked language goes into the global, storage, the active buttons and the document's `lang` |
| Portfolio.App.SetLanguage | script.js:123-136 | the language is recorded as above, then the repaint above happens. It succeeds exactly for a language with an entry in the table. Without a loaded profile the hero and contact box are unchanged, and without a loaded project list the grid is unchanged |
| Portfolio.App.InitializeLanguage | script.js:118-121 | the stored language (or `en`) becomes the global, the document's `lang` and the active button, and is written back to storage. The chrome is painted exactly when the language has an entry in the table, inherited names included (`Translations.TableCodes`), and the loading screen's visibility is kept. Otherwise the chrome, loading screen, hero, grid and contact box are untouched. Without a loaded profile the hero and contact box are unchanged, and without a loaded project list the grid is unchanged |
| Portfolio.App.AddHeroLink | script.js:357-365 | one link is appended at the end and the rest of the hero is unchanged |
| Portfolio.App.UpdateUserInfo | script.js:306-355 | after clearing and appending step by step, the hero equals the specification `HeroOf` of the profile in the current language, so the properties of `Hero` apply to the painted links |
| Portfolio.App.UpdateProjects | script.js:367-404 | the grid, rebuilt by the loop, equals `ProjectGrid` of the project list (see `Projects.ProjectGridShape`) |
| Portfolio.App.UpdateContactInfo | script.js:406-412 | the contact box is emptied |
| Portfolio.App.UpdateMetaTags | script.js:414-416 | the document title becomes `<name> - Portfolio`; the theme and language attributes are unchanged |
| Portfolio.App.HideLoading | script.js:458-463 | the loading screen is hidden and its text is kept |
| Portfolio.App.ShowError | script.js:465-476 | the error text and the placeholder name, empty bio, default avatar and alt text. The existing links and the loading screen's visibility are kept |
| Portfolio.App.PaintLoadedData | script.js:235-241 | the hero and the grid show the loaded data, the contact box is empty, the title is set and the loading screen is hidden |
| Portfolio.App.FetchAndPaint | script.js:205-241 | the globals and the outcome are exactly those of `Load` on the identity read. On success the page is painted. On any throw nothing visible has changed |
| Portfolio.App.LoadGitHubData | script.js:204-247 | the identity is the one read from the files and the globals are as in `Load`. On success the page is painted and the title is set. Otherwise the error placeholders show and the links, grid, contact box and document are unchanged. Either way the loading screen ends hidden, and the language, storage, buttons and chrome are untouched |
| Portfolio.App.ApplyPreferences | script.js:88-90 | the stored theme (or light) becomes the theme attribute and the button. The stored language is applied, stored and marked active as in `InitializeLanguage`, with the same painted and unchanged parts |
| Portfolio.App.StartLoading | script.js:91-92 | the listeners are ready and the load has run as in `LoadGitHubData`: the globals of `Load`; on success the profile and projects, an empty contact box and the title; otherwise the error placeholders with the links, grid, contact box and document unchanged. The language, storage, buttons, toggle and chrome are untouched |
| Portfolio.App.HandleContentLoaded | script.js:88-93 | the stored theme and language are applied: the toggle, the language global, its stored copy, the buttons and the document's theme and `lang`. The handler goes on exactly when the language has an entry in the table. If it stops, the chrome, the loading screen, the hero, grid, contact box, title and listeners are untouched, and `userInfo`, `userData` and `reposData` are as before. If it goes on, the chrome is that of the language, the listeners are ready, the globals are those of `Load`, the loading screen is hidden, and the page shows the profile, projects, empty contact box and title, or the error placeholders with the title kept |
| Portfolio.App.SetupEventListeners | script.js:171-201 | the buttons respond from now on |
| Portfolio.LoadSucceedsIff | script.js:205-232 | loading succeeds exactly when a username resolves and the API answers it in full. Both globals are then set, the list to the derived project list |
| Portfolio.FailedLoadKeepsGlobals | script.js:221-232 | a failed load never changes `reposData`. It changes `userData` only when the profile arrived and the repositories failed afterwards |
| Portfolio.LoadedProjectsAreTopSix | script.js:225-232 | a successful load stores at most six public, non-fork repositories, most stars first |
| Portfolio.BlankInfoFails | script.js:206-211 | a blank `info` file makes loading fail whatever the API would answer |
| Portfolio.PageLoad | script.js:88-93 | on a fresh page the stored theme and language are applied: the theme attribute, the toggle, the language, its stored copy, the buttons and the document's `lang`. Startup goes on exactly when the stored language has an entry in the table, inherited names included. If it does not, the loading screen stays up, the listeners stay off, no chrome is painted, nothing is loaded and the title, links and grid stay empty. If it does, the listeners are ready and the loading screen is hidden. The chrome is that of the language. The globals are those of `Load`. The page shows either the profile, projects, empty contact box and title, or the error placeholders with no links, an empty grid and contact box and no title |

## Left out

- Network I/O, meaning `fetch`, `Promise.all` and response and JSON decoding. Their outcomes are the parameters `files` and `api`. `api` merges the two parallel requests into one outcome; which request failed first is not observable by the script.
- The DOM itself. Each painted element is a field holding the value written to it. The `<i>` markup of the link glyphs is the `Icon` datatype. Elements the page markup fills before the script runs start empty.
- HTML parsing and escaping of the `innerHTML` templates. Values are kept as the strings written.
- The meta description, Open Graph, Twitter Card and author tags (script.js:418-455). They only copy profile fields into tags the page may lack.
- `Portfolio.App.UpdateMetaTags` states only the document title for the reason above.
- The `alert` of the contact form and the smooth scrolling of in-page links. They are browser presentation. `Portfolio.App.SetupEventListeners` records only that the handlers are installed; what the theme and language buttons then do is `ToggleTheme` and `SetLanguage`.
- The scroll animations, the animation delay of the cards (floating point) and the 500 ms `display: none` timer of `hideLoading`. These are timers and presentation.
- `Portfolio.App.ShowError` leaves out the `hideLoading()` it schedules after two seconds. `loadGitHubData` hides the loading screen immediately after it anyway, so the second call changes nothing.
- Interleavings of the asynchronous functions. A language switch during a load is one example. The model runs each function to completion in program order.
- `console` logging.
- `Portfolio.App.LoadGitHubData`, `Portfolio.App.UpdateUserInfo`, `Portfolio.App.UpdateProjects` and `Portfolio.App.ShowError` require the current language to have an entry in the table, inherited names included. The script calls them only after `updateTranslations` has read that language's labels without throwing, and the language buttons pass only `es` and `en`. So every call the script makes meets this requirement. Calls with a language that has no entry are not modelled.
- `Portfolio.App.UpdateUserInfo`, `Portfolio.App.UpdateProjects` and `Portfolio.App.UpdateMetaTags` require the global they read to be set. The script calls them only in that case.
- Strings are sequences of Unicode scalar values; JavaScript's UTF-16 code units are not modelled. On well-formed text this changes no result the model states: `trim`, `split` at `.`, a line feed or a blank line, replacing line feeds, and `startsWith` and `endsWith` with the script's ASCII arguments each look only for characters of the Basic Multilingual Plane. Each such character is a single code unit and never part of a surrogate pair, so these operations give the same results on code points as on UTF-16 code units.
- `Translations.Lookup` covers only a record's own labels. A name every object inherits, such as `toString`, would read as a function from a label record. Beyond the 21 labels the script reads only `aboutText` this way, which no object inherits.
- The `#page-title` element is assumed not to be the document's `<title>`. If it were, a language switch after a load would overwrite the title that `updateMetaTags` sets (script.js:416). The page markup is not part of this model.
- Each site file gives the same answer on every read. The script fetches `info` anew in each load (script.js:251) and the about file anew in each repaint (script.js:148, script.js:317, both reaching script.js:274), but the model reads both from the one map `files`, so `Portfolio.App` fixes each language's about text when the page opens.
- `Portfolio.App.HandleContentLoaded` states that a failed load leaves the links, grid and contact box unchanged only when `userData` and `reposData` are still null, as they are on the one run the script makes at page load. `Portfolio.PageLoad` states it for that run.
