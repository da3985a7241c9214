// Names and the identities made of them; repository references, tool
// versions and branch names.
module Names {
  import opened Basics

  predicate NameChar(c: char) {
    'a' <= c <= 'z' || '0' <= c <= '9' || c == '-'
  }

  // The naming rule fleets, crews, agents and plugins share.
  predicate ValidName(s: string) {
    && s != ""
    && ByteLen(s) <= 63
    && (forall i :: 0 <= i < |s| ==> NameChar(s[i]))
    && s[0] != '-'
    && s[|s| - 1] != '-'
  }

  datatype AgentId = AgentId(fleet: string, crew: string, agent: string) {
    predicate Valid() {
      ValidName(fleet) && ValidName(crew) && ValidName(agent)
    }
  }

  datatype CrewRef = CrewRef(fleet: string, crew: string) {
    predicate Valid() {
      ValidName(fleet) && ValidName(crew)
    }
  }

  function ShowId(id: AgentId): string {
    id.fleet + "/" + id.crew + "/" + id.agent
  }

  // Exactly three parts, each a name.
  function ParseId(s: string): Option<AgentId> {
    var parts := Split(s, '/');
    if |parts| == 3 && ValidName(parts[0]) && ValidName(parts[1]) && ValidName(parts[2])
    then Some(AgentId(parts[0], parts[1], parts[2]))
    else None
  }

  function ShowCrew(c: CrewRef): string {
    c.fleet + "/" + c.crew
  }

  function ParseCrew(s: string): Option<CrewRef> {
    match SplitOnce(s, '/')
    case None => None
    case Some((f, c)) =>
      if '/' !in c && ValidName(f) && ValidName(c) then Some(CrewRef(f, c)) else None
  }

  // Ids are written and read back: each valid id is read from its text, and
  // only from that.
  lemma IdRoundTrip(id: AgentId, s: string)
    ensures ParseId(s) == Some(id) <==> id.Valid() && s == ShowId(id)
  {
    if id.Valid() && s == ShowId(id) {
      var parts := [id.fleet, id.crew, id.agent];
      assert parts[1..] == [id.crew, id.agent] && parts[1..][1..] == [id.agent];
      assert Join(parts[1..], '/') == id.crew + "/" + id.agent;
      assert s == Join(parts, '/');
      SplitJoin(parts, '/');
    }
    if ParseId(s) == Some(id) {
      var parts := Split(s, '/');
      JoinSplit(s, '/');
      assert Join(parts[1..], '/') == parts[1] + "/" + parts[2];
    }
  }

  lemma CrewRoundTrip(c: CrewRef, s: string)
    ensures ParseCrew(s) == Some(c) <==> c.Valid() && s == ShowCrew(c)
  {
    SplitOnceCuts(s, '/');
    if c.Valid() && s == ShowCrew(c) {
      SplitOnceAt(c.fleet, '/', c.crew);
    }
  }

  // --- Tool versions ------------------------------------------------------

  predicate IsDigit(c: char) {
    '0' <= c <= '9'
  }

  predicate AllDigits(s: string) {
    s != "" && forall i :: 0 <= i < |s| ==> IsDigit(s[i])
  }

  predicate AllNumeric(parts: seq<string>) {
    forall i :: 0 <= i < |parts| ==> AllDigits(parts[i])
  }

  // Not one of the fuzzy forms a tool manager would resolve for itself.
  predicate IsExactVersion(v: string) {
    && !EndsWith(v, ".x")
    && '*' !in v
    && ':' !in v
    && (exists i :: 0 <= i < |v| && IsDigit(v[i]))
    && !(AllNumeric(Split(v, '.')) && |Split(v, '.')| < 3)
  }

  // --- Branch names ---------------------------------------------------------

  predicate BranchChar(c: char) {
    && 0x20 < c as int
    && c as int != 0x7F
    && c !in {'~', '^', ':', '?', '*', '[', '\\'}
  }

  predicate BranchComponent(c: string) {
    !("." <= c) && !EndsWith(c, ".lock")
  }

  predicate ValidBranch(name: string) {
    && name != ""
    && ByteLen(name) <= 255
    && name != "@"
    && !("-" <= name)
    && !("refs/" <= name)
    && !("/" <= name)
    && !EndsWith(name, "/")
    && !EndsWith(name, ".")
    && !Contains(name, "//")
    && !Contains(name, "..")
    && !Contains(name, "@{")
    && (forall i :: 0 <= i < |name| ==> BranchChar(name[i]))
    && forall c :: c in Split(name, '/') ==> BranchComponent(c)
  }

  function DefaultBranch(id: AgentId): string {
    "balerix/" + ShowId(id)
  }

  lemma ParsesAsItsParts(id: AgentId)
    requires id.Valid()
    ensures Split(DefaultBranch(id), '/') == ["balerix", id.fleet, id.crew, id.agent]
  {
    var parts := ["balerix", id.fleet, id.crew, id.agent];
    assert parts[1..] == [id.fleet, id.crew, id.agent];
    assert parts[1..][1..] == [id.crew, id.agent] && parts[1..][1..][1..] == [id.agent];
    assert Join(parts[1..][1..], '/') == id.crew + "/" + id.agent;
    assert Join(parts[1..], '/') == ShowId(id);
    assert DefaultBranch(id) == Join(parts, '/');
    SplitJoin(parts, '/');
  }

  lemma ContainsItsFirst(s: string, p: string)
    requires Contains(s, p) && p != ""
    ensures p[0] in s
  {
    var i :| 0 <= i <= |s| - |p| && p <= s[i..];
    assert s[i] == s[i..][0];
  }

  lemma ABadComponentHasADot(c: string)
    requires !BranchComponent(c)
    ensures '.' in c
  {
    if "." <= c {
      assert c[0] == '.';
    } else {
      assert c[|c| - 5] == c[|c| - 5..][0];
    }
  }

  lemma DoubledSlash(s: string)
    requires Contains(s, "//")
    ensures "" in Split(s, '/')[1..]
  {
    var i :| 0 <= i <= |s| - 2 && "//" <= s[i..];
    assert s[i] == s[i..][0] && s[i + 1] == s[i..][1];
    DoubledSeparator(s, '/', i);
  }

  lemma NoDoubledSlash(id: AgentId)
    requires id.Valid()
    ensures !Contains(DefaultBranch(id), "//")
  {
    ParsesAsItsParts(id);
    assert "" !in Split(DefaultBranch(id), '/')[1..] by {
      assert Split(DefaultBranch(id), '/')[1..] == [id.fleet, id.crew, id.agent];
    }
    if Contains(DefaultBranch(id), "//") {
      DoubledSlash(DefaultBranch(id));
    }
  }

  lemma DefaultBranchChars(id: AgentId)
    requires id.Valid()
    ensures forall i :: 0 <= i < |DefaultBranch(id)| ==> NameChar(DefaultBranch(id)[i]) || DefaultBranch(id)[i] == '/'
    ensures ByteLen(DefaultBranch(id)) <= 255
    ensures DefaultBranch(id)[0] == 'b'
    ensures NameChar(DefaultBranch(id)[|DefaultBranch(id)| - 1])
  {
    var b := DefaultBranch(id);
    assert b[|b| - 1] == id.agent[|id.agent| - 1];
    AsciiByteLen(b);
    AsciiByteLen(id.fleet);
    AsciiByteLen(id.crew);
    AsciiByteLen(id.agent);
  }

  lemma NameCharsOnly(b: string)
    requires forall i :: 0 <= i < |b| ==> NameChar(b[i]) || b[i] == '/'
    ensures !Contains(b, "..") && !Contains(b, "@{")
    ensures forall i :: 0 <= i < |b| ==> BranchChar(b[i])
  {
    if Contains(b, "..") {
      ContainsItsFirst(b, "..");
    }
    if Contains(b, "@{") {
      ContainsItsFirst(b, "@{");
    }
  }

  lemma DefaultBranchComponents(id: AgentId)
    requires id.Valid()
    ensures forall c :: c in Split(DefaultBranch(id), '/') ==> BranchComponent(c)
  {
    ParsesAsItsParts(id);
    forall c | c in Split(DefaultBranch(id), '/') ensures BranchComponent(c) {
      assert c in ["balerix", id.fleet, id.crew, id.agent];
      assert forall i :: 0 <= i < |c| ==> NameChar(c[i]);
      if !BranchComponent(c) {
        ABadComponentHasADot(c);
      }
    }
  }

  // The per-agent branch of every valid id is a branch name git accepts.
  lemma DefaultBranchIsValid(id: AgentId)
    requires id.Valid()
    ensures ValidBranch(DefaultBranch(id))
  {
    DefaultBranchChars(id);
    NoDoubledSlash(id);
    NameCharsOnly(DefaultBranch(id));
    DefaultBranchComponents(id);
  }

  // --- Repositories -----------------------------------------------------------

  datatype RepoRef =
    | GitHub(owner: string, name: string)
    | Url(url: string)
    | Local(path: string)

  const GITHUB_HTTPS: string := "https://github.com/"
  const GITHUB_SSH: string := "git@github.com:"
  const FILE_SCHEME: string := "file://"

  predicate SlugPart(part: string) {
    && part !in {"", ".", ".."}
    && forall i :: 0 <= i < |part| ==>
      var c := part[i];
      'a' <= c <= 'z' || 'A' <= c <= 'Z' || '0' <= c <= '9' || c in {'-', '_', '.'}
  }

  function ParseSlug(s: string): Option<RepoRef> {
    match SplitOnce(s, '/')
    case Some((owner, name)) => if SlugPart(owner) && SlugPart(name) then Some(GitHub(owner, name)) else None
    case None => None
  }

  // Without one trailing `.git`, never more.
  function WithoutGit(s: string): string {
    match StripSuffix(s, ".git")
    case Some(rest) => rest
    case None => s
  }

  function ParseRepo(s: string): Option<RepoRef> {
    if s == "" then None
    else if GITHUB_HTTPS <= s then ParseSlug(WithoutGit(s[|GITHUB_HTTPS|..]))
    else if GITHUB_SSH <= s then ParseSlug(WithoutGit(s[|GITHUB_SSH|..]))
    else if FILE_SCHEME <= s then
      if "/" <= s[|FILE_SCHEME|..] then Some(Local(s[|FILE_SCHEME|..])) else None
    else if Contains(s, "://") || ('@' in s && ':' in s) then Some(Url(s))
    else ParseSlug(WithoutGit(s))
  }

  function CloneUrl(r: RepoRef): string {
    match r
    case GitHub(owner, name) => GITHUB_HTTPS + owner + "/" + name + ".git"
    case Url(url) => url
    case Local(path) => FILE_SCHEME + path
  }

  lemma WithoutGitCuts(s: string)
    ensures WithoutGit(s + ".git") == s
  {
    assert (s + ".git")[|s|..] == ".git" && (s + ".git")[..|s|] == s;
  }

  lemma SlugReadsBack(owner: string, name: string)
    requires SlugPart(owner) && SlugPart(name)
    ensures ParseSlug(owner + "/" + name) == Some(GitHub(owner, name))
  {
    SplitOnceAt(owner, '/', name);
  }

  lemma GitHubUrlReadsBack(owner: string, name: string)
    requires SlugPart(owner) && SlugPart(name)
    ensures ParseRepo(CloneUrl(GitHub(owner, name))) == Some(GitHub(owner, name))
  {
    var slug := owner + "/" + name;
    var url := GITHUB_HTTPS + (slug + ".git");
    assert CloneUrl(GitHub(owner, name)) == url;
    assert url[|GITHUB_HTTPS|..] == slug + ".git";
    assert ParseRepo(url) == ParseSlug(WithoutGit(slug + ".git"));
    WithoutGitCuts(slug);
    SlugReadsBack(owner, name);
  }

  lemma LocalUrlReadsBack(path: string)
    requires "/" <= path
    ensures ParseRepo(CloneUrl(Local(path))) == Some(Local(path))
  {
    var url := FILE_SCHEME + path;
    assert url[0] == 'f';
    assert url[|FILE_SCHEME|..] == path;
  }

  lemma ParsedShape(s: string, r: RepoRef)
    requires ParseRepo(s) == Some(r)
    ensures match r
      case GitHub(owner, name) => SlugPart(owner) && SlugPart(name)
      case Local(path) => "/" <= path && s == FILE_SCHEME + path
      case Url(url) => url == s
  {
  }

  // The ways to write a GitHub repository: bare, or after the HTTPS or the SSH
  // prefix, with `.git` behind it or not.
  lemma GitHubForms(owner: string, name: string)
    requires SlugPart(owner) && SlugPart(name)
    ensures var slug, repo := owner + "/" + name, Some(GitHub(owner, name));
      && ParseRepo(slug + ".git") == repo
      && ParseRepo(GITHUB_HTTPS + (slug + ".git")) == repo
      && ParseRepo(GITHUB_SSH + (slug + ".git")) == repo
    ensures var slug, repo := owner + "/" + name, Some(GitHub(owner, name));
      !EndsWith(name, ".git") ==>
        ParseRepo(slug) == repo && ParseRepo(GITHUB_HTTPS + slug) == repo && ParseRepo(GITHUB_SSH + slug) == repo
  {
    var slug := owner + "/" + name;
    WithoutGitCuts(slug);
    FormsOf(owner, name, ".git");
    assert slug + "" == slug;
    if !EndsWith(name, ".git") {
      NoGitAtTheEnd(owner, name);
      FormsOf(owner, name, "");
    }
  }

  lemma FormsOf(owner: string, name: string, suffix: string)
    requires SlugPart(owner) && SlugPart(name) && (suffix == "" || suffix == ".git")
    requires WithoutGit(owner + "/" + name + suffix) == owner + "/" + name
    ensures var s, repo := owner + "/" + name + suffix, Some(GitHub(owner, name));
      ParseRepo(s) == repo && ParseRepo(GITHUB_HTTPS + s) == repo && ParseRepo(GITHUB_SSH + s) == repo
  {
    var s := owner + "/" + name + suffix;
    SlugReadsBack(owner, name);
    BareSlugs(owner, name, suffix);
    PrefixedForms(s);
  }

  lemma PrefixedForms(s: string)
    ensures ParseRepo(GITHUB_HTTPS + s) == ParseSlug(WithoutGit(s))
    ensures ParseRepo(GITHUB_SSH + s) == ParseSlug(WithoutGit(s))
  {
    PrefixedIsCut(GITHUB_HTTPS, s);
    PrefixedIsCut(GITHUB_SSH, s);
    SshIsNotHttps(s);
  }

  // A tail is within the last part, unless it holds the separator.
  lemma TailIsWithin(a: string, c: char, b: string, tail: string)
    requires EndsWith(a + [c] + b, tail)
    ensures EndsWith(b, tail) || c in tail
  {
    var s := a + [c] + b;
    if |tail| <= |b| {
      assert b[|b| - |tail|..] == s[|s| - |tail|..];
    } else {
      assert s[|a|] == c;
      assert s[|s| - |tail|..][|tail| - |b| - 1] == s[|a|];
    }
  }

  lemma NoGitAtTheEnd(owner: string, name: string)
    requires !EndsWith(name, ".git")
    ensures WithoutGit(owner + "/" + name) == owner + "/" + name
  {
    assert owner + "/" + name == owner + ['/'] + name;
    if EndsWith(owner + "/" + name, ".git") {
      TailIsWithin(owner, '/', name, ".git");
    }
  }

  lemma PrefixedIsCut(prefix: string, s: string)
    ensures prefix <= prefix + s && (prefix + s)[|prefix|..] == s
  {
  }

  lemma SshIsNotHttps(s: string)
    ensures !(GITHUB_HTTPS <= GITHUB_SSH + s)
  {
    assert GITHUB_HTTPS[0] == 'h' && (GITHUB_SSH + s)[0] == 'g';
  }

  // A bare slug is none of the other forms.
  lemma BareSlugs(owner: string, name: string, suffix: string)
    requires SlugPart(owner) && SlugPart(name) && (suffix == "" || suffix == ".git")
    ensures var s := owner + "/" + name + suffix;
      && s != "" && ':' !in s && '@' !in s && !Contains(s, "://")
      && !(GITHUB_HTTPS <= s) && !(GITHUB_SSH <= s) && !(FILE_SCHEME <= s)
  {
    var s := owner + "/" + name + suffix;
    forall i | 0 <= i < |s| ensures s[i] != ':' && s[i] != '@' {
      if i < |owner| {
        assert s[i] == owner[i];
      } else if i > |owner| && i < |owner| + 1 + |name| {
        assert s[i] == name[i - |owner| - 1];
      }
    }
    if Contains(s, "://") {
      ContainsItsFirst(s, "://");
    }
    PrefixesHaveColons(s);
  }

  lemma PrefixesHaveColons(s: string)
    ensures GITHUB_HTTPS <= s ==> ':' in s
    ensures GITHUB_SSH <= s ==> ':' in s
    ensures FILE_SCHEME <= s ==> ':' in s
  {
    assert GITHUB_HTTPS[5] == ':' && GITHUB_SSH[14] == ':' && FILE_SCHEME[4] == ':';
    if GITHUB_HTTPS <= s {
      assert s[5] == ':';
    }
    if GITHUB_SSH <= s {
      assert s[14] == ':';
    }
    if FILE_SCHEME <= s {
      assert s[4] == ':';
    }
  }

  // What `git clone` is handed reads back as the reference it came from.
  lemma CloneUrlReadsBack(s: string, r: RepoRef)
    requires ParseRepo(s) == Some(r)
    ensures ParseRepo(CloneUrl(r)) == Some(r)
  {
    ParsedShape(s, r);
    match r
    case GitHub(owner, name) => GitHubUrlReadsBack(owner, name);
    case Local(path) => LocalUrlReadsBack(path);
    case Url(_) =>
  }
}
