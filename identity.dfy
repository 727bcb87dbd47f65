/**
 * The owner identity (`fetchInfoFromFile`, `extractUsernameFromDomain`): a
 * username and an optional contact email, read from the site's `info` file
 * (first line username, second line email) or, when that file cannot be
 * read, derived from the page's hostname with no email.
 */
module Identity {
  import opened Wrappers
  import opened JsText

  /** `{ username, email }`; `None` is `null`. */
  datatype OwnerIdentity = OwnerIdentity(username: Option<string>, email: Option<string>)

  const InfoFileName := "info"
  /** The hosting domain whose subdomain names the owner. */
  const PagesSuffix := ".github.io"
  /** The account used for any other hostname. */
  const DefaultUsername := "octocat"

  /** `line.trim() || null`. */
  function TrimmedOrNull(line: string): (r: Option<string>)
    ensures r.None? <==> AllWhitespace(line)
    ensures r.Some? ==> r.value != "" && IsTrimmed(r.value) && r.value == Trim(line)
  {
    var t := Trim(line);
    if t == "" then None else Some(t)
  }

  /** The identity read from the text of a readable `info` file. */
  function ParseInfo(content: string): OwnerIdentity {
    var lines := Split(Trim(content), "\n");
    OwnerIdentity(
      TrimmedOrNull(lines[0]),
      if |lines| > 1 then TrimmedOrNull(lines[1]) else None)
  }

  /** `extractUsernameFromDomain()` for the page's `hostname`. */
  function UsernameFromHostname(hostname: string): string {
    if EndsWith(hostname, PagesSuffix) then Split(hostname, ".")[0] else DefaultUsername
  }

  /**
   * `fetchInfoFromFile()`, given the site files that can be read successfully
   * (a name outside `files` stands for a failed request, a non-success status
   * or an unreadable body) and the page's hostname.
   */
  function FetchInfo(files: map<string, string>, hostname: string): OwnerIdentity {
    if InfoFileName in files then ParseInfo(files[InfoFileName])
    else OwnerIdentity(Some(UsernameFromHostname(hostname)), None)
  }

  /** The username `loadGitHubData` queries with; `None` where it throws "Unable to get username". */
  function ResolveUsername(id: OwnerIdentity): (u: Option<string>)
    ensures u.Some? ==> u.value != ""
  {
    if Truthy(id.username) then id.username else None
  }

  /** An `info` file as its owner would write it: the username, then the email on the next line if there is one. */
  function FormatInfo(username: string, email: Option<string>): string {
    if email.Some? then username + "\n" + email.value else username
  }

  // ---------------------------------------------------------------- properties

  /** A field the file can supply: non-empty, one line, no whitespace at its ends. */
  predicate IsField(s: string) {
    s != "" && IsTrimmed(s) && '\n' !in s
  }

  /** Whatever the file holds, each field it yields is non-empty, trimmed and a single line. */
  lemma ParseInfoFields(content: string)
    ensures var id := ParseInfo(content);
      (id.username.Some? ==> IsField(id.username.value)) && (id.email.Some? ==> IsField(id.email.value))
  {
    var lines := Split(Trim(content), "\n");
    assert lines[0] in lines;
    NoNewlineInPiece(lines[0]);
    TrimSlice(lines[0]);
    if |lines| > 1 {
      assert lines[1] in lines;
      NoNewlineInPiece(lines[1]);
      TrimSlice(lines[1]);
    }
  }

  lemma NoNewlineInPiece(piece: string)
    requires !Contains(piece, "\n")
    ensures '\n' !in piece
  {
    ContainsChar(piece, '\n');
  }

  lemma TrimSlice(s: string)
    requires '\n' !in s
    ensures '\n' !in Trim(s)
  {
    var t := Trim(s);
    var i := SkipWhitespace(s, 0);
    forall j | 0 <= j < |t| ensures t[j] != '\n' {
      assert t[j] == s[i + j];
    }
  }

  /** The username is `null` exactly when the file holds nothing but whitespace. */
  lemma {:induction false} UsernameNullIffBlank(content: string)
    ensures ParseInfo(content).username.None? <==> AllWhitespace(content)
  {
    var t := Trim(content);
    var lines := Split(t, "\n");
    SplitFirst(t, "\n");
    if t != [] {
      // The trimmed text starts with a character that is neither whitespace nor a line feed,
      // so the first line starts with it too.
      assert t[0] != '\n';
      assert !OccursAt(t, "\n", 0);
      assert lines[0][0] == t[0];
      assert !AllWhitespace(lines[0]);
    } else {
      assert lines[0] == [];
    }
  }

  /** Reading back an `info` file written from a username and an optional email gives them back. */
  lemma {:induction false} ParseInfoRoundTrip(username: string, email: Option<string>)
    requires IsField(username)
    requires email.Some? ==> IsField(email.value)
    ensures ParseInfo(FormatInfo(username, email)) == OwnerIdentity(Some(username), email)
  {
    var content := FormatInfo(username, email);
    assert IsTrimmed(content);
    TrimTrimmed(content);
    TrimTrimmed(username);
    ContainsChar(username, '\n');
    if email.Some? {
      FirstOccurrenceAfter(username, "\n", email.value);
      SplitAt(content, "\n", |username|);
      assert content[..|username|] == username;
      assert content[|username| + 1..] == email.value;
      ContainsChar(email.value, '\n');
      TrimTrimmed(email.value);
    } else {
      assert IndexOf(content, "\n").None?;
    }
  }

  /** On a `<name>.github.io` host the username is the text before the first dot. */
  lemma PagesHostUsername(hostname: string)
    requires EndsWith(hostname, PagesSuffix)
    ensures var u := UsernameFromHostname(hostname);
      |u| < |hostname| && u == hostname[..|u|] && hostname[|u|] == '.' && '.' !in u
  {
    var dot := |hostname| - |PagesSuffix|;
    assert hostname[dot] == '.';
    assert OccursAt(hostname, ".", dot) by { assert hostname[dot..dot + 1] == [hostname[dot]]; }
    var i := IndexOf(hostname, ".");
    BeforeFirstChar(hostname, '.');
    SplitFirst(hostname, ".");
    assert hostname[i.value..i.value + 1] == [hostname[i.value]];
  }

  /** An example: `alice.github.io` belongs to `alice`. */
  lemma AliceHost()
    ensures UsernameFromHostname("alice.github.io") == "alice"
  {
    var h := "alice.github.io";
    assert h == "alice" + "." + "github.io";
    assert EndsWith(h, PagesSuffix) by { assert h[|h| - |PagesSuffix|..] == PagesSuffix; }
    ContainsChar("alice", '.');
    FirstOccurrenceAfter("alice", ".", "github.io");
    SplitAt(h, ".", 5);
  }

  /** Any other host falls back to the default account. */
  lemma OtherHostUsername(hostname: string)
    requires !EndsWith(hostname, PagesSuffix)
    ensures UsernameFromHostname(hostname) == DefaultUsername
  {
  }

  /** Without a readable `info` file there is never an email, and the username comes from the hostname. */
  lemma FallbackIdentity(files: map<string, string>, hostname: string)
    requires InfoFileName !in files
    ensures FetchInfo(files, hostname) == OwnerIdentity(Some(UsernameFromHostname(hostname)), None)
  {
  }

  /**
   * Loading fails for want of a username exactly when the `info` file is
   * blank, or, without one, when the host is `.github.io` with nothing before
   * its first dot.
   */
  lemma UsernameUnresolved(files: map<string, string>, hostname: string)
    ensures ResolveUsername(FetchInfo(files, hostname)).None? <==>
      if InfoFileName in files then AllWhitespace(files[InfoFileName])
      else EndsWith(hostname, PagesSuffix) && hostname[0] == '.'
  {
    if InfoFileName in files {
      UsernameNullIffBlank(files[InfoFileName]);
      ParseInfoFields(files[InfoFileName]);
    } else if EndsWith(hostname, PagesSuffix) {
      PagesHostUsername(hostname);
    }
  }
}
