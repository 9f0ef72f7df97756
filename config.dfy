/**
 * The proxy's start-up configuration: the process environment, given as a
 * map from variable names to values, is validated and turned into a
 * configuration record, or into the first configuration error.
 */
module Config {
  import opened Wrappers
  import Lists
  import opened Strings

  type Env = map<string, string>

  datatype Environment = Development | Production

  /** `port` and `cacheTtl` are `parseInt` results: `None` is `NaN`. */
  datatype ProxyConfig = ProxyConfig(
    port: Option<int>,
    jiraDomain: string,
    jiraEmail: string,
    jiraApiToken: string,
    cacheTtl: Option<int>,
    environment: Environment,
    projectKeys: Option<seq<string>>)

  datatype ConfigError =
    | Missing(name: string)
    | InvalidEmail
    | InvalidDomain
    | EmptyToken

  const JiraDomain := "JIRA_DOMAIN"
  const JiraEmail := "JIRA_EMAIL"
  const JiraApiToken := "JIRA_API_TOKEN"
  /** The required variables, in the order they are checked. */
  const RequiredVars: seq<string> := [JiraDomain, JiraEmail, JiraApiToken]
  const DefaultPort := "3001"
  const DefaultCacheTtl := "120"

  // ---------------------------------------------------------------------
  // Validators

  predicate NoSpace(s: string) {
    forall k | 0 <= k < |s| :: !IsSpace(s[k])
  }

  /** `s[lo..hi]` is a run of the regular-expression class `[^\s@]`. */
  predicate SegmentIn(s: string, lo: int, hi: int)
    requires 0 <= lo <= hi <= |s|
  {
    forall k | lo <= k < hi :: !IsSpace(s[k]) && s[k] != '@'
  }

  /**
   * The strings `^[^\s@]+@[^\s@]+\.[^\s@]+$` matches: three non-empty runs
   * without whitespace or '@', joined by an '@' and a '.'.
   */
  ghost predicate MatchesEmailPattern(email: string) {
    exists i, d | 0 < i && i + 1 < d < |email| - 1 ::
      email[i] == '@' && email[d] == '.' &&
      SegmentIn(email, 0, i) && SegmentIn(email, i + 1, d) && SegmentIn(email, d + 1, |email|)
  }

  /** `isValidEmail`: no whitespace, one '@' after a non-empty name, and a '.' inside the host part. */
  function IsValidEmail(email: string): bool {
    var i := IndexOf(email, '@');
    NoSpace(email) && 0 < i < |email| &&
    (forall k | i < k < |email| :: email[k] != '@') &&
    exists d | i + 1 < d < |email| - 1 :: email[d] == '.'
  }

  /** `IndexOf` finds a character exactly where nothing before it matches. */
  lemma IndexOfAt(s: string, c: char, i: nat)
    requires i < |s| && s[i] == c && forall k | 0 <= k < i :: s[k] != c
    ensures IndexOf(s, c) == i
  {
    assert c !in s[..i] by {
      forall k | 0 <= k < i ensures s[..i][k] != c { }
    }
    IndexOfFirst(s, c, i);
  }

  lemma ValidEmailMatches(email: string)
    requires IsValidEmail(email)
    ensures MatchesEmailPattern(email)
  {
    var i := IndexOf(email, '@');
    var d :| i + 1 < d < |email| - 1 && email[d] == '.';
    forall k | 0 <= k < i ensures email[k] != '@' {
      assert email[..i][k] == email[k];
    }
    assert SegmentIn(email, 0, i) && SegmentIn(email, i + 1, d) && SegmentIn(email, d + 1, |email|);
  }

  lemma MatchingEmailValid(email: string)
    requires MatchesEmailPattern(email)
    ensures IsValidEmail(email)
  {
    var i, d :| 0 < i && i + 1 < d < |email| - 1 &&
      email[i] == '@' && email[d] == '.' &&
      SegmentIn(email, 0, i) && SegmentIn(email, i + 1, d) && SegmentIn(email, d + 1, |email|);
    IndexOfAt(email, '@', i);
    forall k | 0 <= k < |email| ensures !IsSpace(email[k]) {
      if k < i {
      } else if i < k < d {
      } else if d < k {
      }
    }
  }

  /** The validator accepts exactly the strings the regular expression matches. */
  lemma IsValidEmailMatchesPattern(email: string)
    ensures IsValidEmail(email) <==> MatchesEmailPattern(email)
  {
    if IsValidEmail(email) {
      ValidEmailMatches(email);
    }
    if MatchesEmailPattern(email) {
      MatchingEmailValid(email);
    }
  }

  /** `isValidDomain`: not blank, and no protocol separator "://". */
  function IsValidDomain(domain: string): (r: bool)
    ensures r <==> !AllSpace(domain) && !Contains(domain, "://")
  {
    TrimEmptyIffAllSpace(domain);
    if domain == [] || |Trim(domain)| == 0 then false
    else if Contains(domain, "://") then false
    else true
  }

  // ---------------------------------------------------------------------
  // Reading the environment

  /** The variable is set to something other than whitespace. */
  predicate Present(env: Env, name: string) {
    name in env && !AllSpace(env[name])
  }

  /** The loop's test: the variable is unset or trims to nothing. */
  function Unset(env: Env, name: string): (b: bool)
    ensures b <==> !Present(env, name)
  {
    if name in env then
      TrimEmptyIffAllSpace(env[name]);
      |Trim(env[name])| == 0
    else true
  }

  /** `process.env[name] || fallback`: the value unless unset or empty. */
  function ValueOr(env: Env, name: string, fallback: string): (r: string)
    ensures name in env && env[name] != [] ==> r == env[name]
    ensures name !in env || env[name] == [] ==> r == fallback
  {
    if name in env && env[name] != [] then env[name] else fallback
  }

  /** The first required variable that is not present, if any. */
  function FirstMissing(env: Env, from: nat := 0): (r: Option<string>)
    requires from <= |RequiredVars|
    ensures r.None? <==> forall j | from <= j < |RequiredVars| :: Present(env, RequiredVars[j])
    ensures r.Some? ==> exists j | from <= j < |RequiredVars| ::
      r.value == RequiredVars[j] && !Present(env, RequiredVars[j]) &&
      forall m | from <= m < j :: Present(env, RequiredVars[m])
    decreases |RequiredVars| - from
  {
    if from == |RequiredVars| then None
    else if !Present(env, RequiredVars[from]) then Some(RequiredVars[from])
    else FirstMissing(env, from + 1)
  }

  /** Every piece of a comma-separated list, trimmed. */
  function TrimAll(parts: seq<string>): (r: seq<string>)
    ensures |r| == |parts| && forall j | 0 <= j < |r| :: r[j] == Trim(parts[j])
  {
    Lists.Map(parts, Trim)
  }

  /** The non-empty strings of a list, in order. */
  function NonEmpty(parts: seq<string>): (r: seq<string>)
    ensures forall j | 0 <= j < |r| :: r[j] != [] && r[j] in parts
    ensures forall p | p in parts && p != [] :: p in r
  {
    if parts == [] then []
    else if parts[0] == [] then NonEmpty(parts[1..])
    else [parts[0]] + NonEmpty(parts[1..])
  }

  /** `s.split(',').map(k => k.trim()).filter(k => k.length > 0)`. */
  function ProjectKeys(s: string): (keys: seq<string>)
  {
    NonEmpty(TrimAll(Split(s, ',')))
  }

  /** Every parsed key is non-empty, comma-free and has no surrounding whitespace. */
  lemma ProjectKeysTidy(s: string)
    ensures forall j | 0 <= j < |ProjectKeys(s)| ::
      ProjectKeys(s)[j] != [] && ',' !in ProjectKeys(s)[j] && Trim(ProjectKeys(s)[j]) == ProjectKeys(s)[j]
  {
    var keys := ProjectKeys(s);
    forall j | 0 <= j < |keys| ensures ',' !in keys[j] && Trim(keys[j]) == keys[j] {
      ProjectKeyShape(s, keys[j]);
    }
  }

  lemma ProjectKeyShape(s: string, k: string)
    requires k in TrimAll(Split(s, ','))
    ensures ',' !in k && Trim(k) == k
  {
    var parts := Split(s, ',');
    var j :| 0 <= j < |parts| && TrimAll(parts)[j] == k;
    TrimIsInfix(parts[j]);
    var a: nat, b: nat :| a <= b <= |parts[j]| && k == parts[j][a..b];
    TrimEnds(parts[j]);
    TrimOfTrimmed(k);
  }

  /** All three required variables are present. */
  predicate AllPresent(env: Env) {
    Present(env, JiraDomain) && Present(env, JiraEmail) && Present(env, JiraApiToken)
  }

  lemma AllPresentIff(env: Env)
    ensures AllPresent(env) <==> FirstMissing(env).None?
  {
    if FirstMissing(env).None? {
      assert Present(env, RequiredVars[0]) && Present(env, RequiredVars[1]) && Present(env, RequiredVars[2]);
    }
  }

  /**
   * The configuration `loadConfig` produces: the first missing required
   * variable, then a malformed email, then a malformed domain, then a blank
   * token, is an error; otherwise the record with its defaults.
   */
  function ConfigFor(env: Env): Result<ProxyConfig, ConfigError> {
    var missing := FirstMissing(env);
    if missing.Some? then Err(Missing(missing.value))
    else
      AllPresentIff(env);
      if !IsValidEmail(env[JiraEmail]) then Err(InvalidEmail)
      else if !IsValidDomain(env[JiraDomain]) then Err(InvalidDomain)
      else if |Trim(env[JiraApiToken])| == 0 then Err(EmptyToken)
      else Ok(Build(env))
  }

  /** The record built once validation passed: values as given, defaults for the optional ones. */
  function Build(env: Env): ProxyConfig
    requires AllPresent(env)
  {
    ProxyConfig(
      ParseInt(ValueOr(env, "PORT", DefaultPort)),
      env[JiraDomain],
      env[JiraEmail],
      env[JiraApiToken],
      ParseInt(ValueOr(env, "CACHE_TTL", DefaultCacheTtl)),
      if "NODE_ENV" in env && env["NODE_ENV"] == "production" then Production else Development,
      if "JIRA_PROJECT_KEYS" in env && env["JIRA_PROJECT_KEYS"] != []
      then Some(ProjectKeys(env["JIRA_PROJECT_KEYS"]))
      else None)
  }

  /** The loop of `loadConfig` over the required variables: the first one absent or blank. */
  method CheckRequired(env: Env) returns (missing: Option<string>)
    ensures missing == FirstMissing(env)
  {
    for n := 0 to |RequiredVars|
      invariant forall j | 0 <= j < n :: Present(env, RequiredVars[j])
    {
      var key := RequiredVars[n];
      if Unset(env, key) {
        FirstMissingAt(env, n);
        return Some(key);
      }
    }
    AllPresentIff(env);
    return None;
  }

  /** `loadConfig`: the check of each required variable in turn, then the format checks. */
  method LoadConfig(env: Env) returns (r: Result<ProxyConfig, ConfigError>)
    ensures r == ConfigFor(env)
  {
    var missing := CheckRequired(env);
    if missing.Some? {
      return Err(Missing(missing.value));
    }
    AllPresentIff(env);
    var jiraDomain := env[JiraDomain];
    var jiraEmail := env[JiraEmail];
    var jiraApiToken := env[JiraApiToken];
    if !IsValidEmail(jiraEmail) {
      return Err(InvalidEmail);
    }
    if !IsValidDomain(jiraDomain) {
      return Err(InvalidDomain);
    }
    if |Trim(jiraApiToken)| == 0 {
      return Err(EmptyToken);
    }
    var port := ParseInt(ValueOr(env, "PORT", DefaultPort));
    var cacheTtl := ParseInt(ValueOr(env, "CACHE_TTL", DefaultCacheTtl));
    var environment := if "NODE_ENV" in env && env["NODE_ENV"] == "production" then Production else Development;
    var projectKeys := if "JIRA_PROJECT_KEYS" in env && env["JIRA_PROJECT_KEYS"] != []
      then Some(ProjectKeys(env["JIRA_PROJECT_KEYS"])) else None;
    r := Ok(ProxyConfig(port, jiraDomain, jiraEmail, jiraApiToken, cacheTtl, environment, projectKeys));
  }

  lemma FirstMissingAt(env: Env, n: nat)
    requires n < |RequiredVars| && !Present(env, RequiredVars[n])
    requires forall j | 0 <= j < n :: Present(env, RequiredVars[j])
    ensures FirstMissing(env) == Some(RequiredVars[n])
  {
    if n > 0 {
      assert Present(env, RequiredVars[0]);
    }
    if n > 1 {
      assert Present(env, RequiredVars[1]);
    }
  }

  // ---------------------------------------------------------------------
  // Properties of loading

  /** A missing variable is reported before any format problem, and it is the first missing one. */
  lemma MissingReportedFirst(env: Env, n: nat)
    requires n < |RequiredVars| && !Present(env, RequiredVars[n])
    requires forall j | 0 <= j < n :: Present(env, RequiredVars[j])
    ensures ConfigFor(env) == Err(Missing(RequiredVars[n]))
  {
    FirstMissingAt(env, n);
  }

  /** With the variables present, a bad email is reported whatever the domain. */
  lemma EmailBeforeDomain(env: Env)
    requires AllPresent(env)
    ensures !IsValidEmail(env[JiraEmail]) ==> ConfigFor(env) == Err(InvalidEmail)
    ensures IsValidEmail(env[JiraEmail]) && !IsValidDomain(env[JiraDomain]) ==>
      ConfigFor(env) == Err(InvalidDomain)
  {
    AllPresentIff(env);
  }

  /** The blank-token error is never produced: a blank token is already "missing". */
  lemma EmptyTokenUnreachable(env: Env)
    ensures ConfigFor(env) != Err(EmptyToken)
  {
    AllPresentIff(env);
    if AllPresent(env) {
      TrimEmptyIffAllSpace(env[JiraApiToken]);
    }
  }

  /** Loading succeeds exactly when all three variables are present and both formats are valid. */
  lemma ConfigOkIff(env: Env)
    ensures ConfigFor(env).Ok? <==>
      AllPresent(env) && IsValidEmail(env[JiraEmail]) && IsValidDomain(env[JiraDomain])
    ensures ConfigFor(env).Ok? ==> ConfigFor(env) == Ok(Build(env))
  {
    AllPresentIff(env);
    EmptyTokenUnreachable(env);
  }

  lemma PortDefault(s: string)
    requires s == DefaultPort
    ensures ParseInt(s) == Some(3001)
  {
    assert NatToString(3001) == s;
    ParseIntNatToString(3001);
  }

  lemma CacheTtlDefault(s: string)
    requires s == DefaultCacheTtl
    ensures ParseInt(s) == Some(120)
  {
    assert NatToString(120) == s;
    ParseIntNatToString(120);
  }

  /** Unset or empty PORT and CACHE_TTL give 3001 and 120 seconds; the environment is production only for "production". */
  lemma BuildDefaults(env: Env)
    requires AllPresent(env)
    ensures "PORT" !in env || env["PORT"] == [] ==> Build(env).port == Some(3001)
    ensures "CACHE_TTL" !in env || env["CACHE_TTL"] == [] ==> Build(env).cacheTtl == Some(120)
    ensures Build(env).environment == Production <==> "NODE_ENV" in env && env["NODE_ENV"] == "production"
    ensures Build(env).projectKeys.None? <==> "JIRA_PROJECT_KEYS" !in env || env["JIRA_PROJECT_KEYS"] == []
  {
    PortDefault(DefaultPort);
    CacheTtlDefault(DefaultCacheTtl);
  }

  /** A key list is what the trimmed, non-blank pieces of the comma-split string are. */
  lemma ProjectKeysContents(s: string, k: string)
    ensures k in ProjectKeys(s) <==> k != [] && exists p | p in Split(s, ',') :: Trim(p) == k
  {
    NonEmptyMapped(Split(s, ','), Trim, k);
  }

  /** The non-empty images of a list are exactly the non-empty values it maps to. */
  lemma NonEmptyMapped<A>(parts: seq<A>, f: A -> string, k: string)
    ensures k in NonEmpty(Lists.Map(parts, f)) <==> k != [] && exists p | p in parts :: f(p) == k
  {
    var mapped := Lists.Map(parts, f);
    Lists.MapMembers(parts, f);
    if k != [] && k in mapped {
      assert k in NonEmpty(mapped);
    }
    if k in NonEmpty(mapped) {
      var j :| 0 <= j < |NonEmpty(mapped)| && NonEmpty(mapped)[j] == k;
      assert k in mapped;
    }
  }

  lemma {:induction false} NonEmptyOfNonEmpty(parts: seq<string>)
    requires forall j | 0 <= j < |parts| :: parts[j] != []
    ensures NonEmpty(parts) == parts
    decreases |parts|
  {
    if parts != [] {
      NonEmptyOfNonEmpty(parts[1..]);
    }
  }

  lemma TrimAllOfTidy(keys: seq<string>)
    requires forall j | 0 <= j < |keys| :: Trim(keys[j]) == keys[j]
    ensures TrimAll(keys) == keys
  {
  }

  lemma SplitEmpty(s: string)
    requires s == ""
    ensures Split(s, ',') == [""]
  {
  }

  /**
   * Writing tidy keys (non-empty, no comma, no surrounding whitespace)
   * comma-separated and parsing them back gives the same keys.
   */
  lemma ProjectKeysRoundTrip(keys: seq<string>)
    requires forall j | 0 <= j < |keys| :: keys[j] != [] && ',' !in keys[j] && Trim(keys[j]) == keys[j]
    ensures ProjectKeys(Join(keys, ",")) == keys
  {
    if keys == [] {
      NoKeysRoundTrip();
    } else {
      SplitJoin(keys, ',');
      TrimAllOfTidy(keys);
      NonEmptyOfNonEmpty(keys);
    }
  }

  lemma NoKeysRoundTrip()
    ensures ProjectKeys(Join([], ",")) == []
  {
    SplitEmpty(Join([], ","));
    assert TrimAll([""]) == [""];
  }

  lemma TrimNothing()
    ensures Trim("") == ""
  {
    assert TrimStart("") == "";
  }

  lemma SplitCommas(s: string)
    requires s == ",,"
    ensures Split(s, ',') == ["", "", ""]
  {
    assert IndexOf(s, ',') == 0 && s[1..] == ",";
    assert IndexOf(s[1..], ',') == 0 && s[1..][1..] == "";
    SplitEmpty(s[1..][1..]);
  }

  /** A string of separators only gives an empty key list, not an absent one. */
  lemma CommasOnlyGiveEmptyList()
    ensures ProjectKeys(",,") == []
  {
    SplitCommas(",,");
    TrimBlanks();
    NonEmptyOfBlanks();
  }

  lemma TrimBlanks()
    ensures TrimAll(["", "", ""]) == ["", "", ""]
  {
    TrimNothing();
  }

  lemma NonEmptyOfBlanks()
    ensures NonEmpty(["", "", ""]) == []
  {
    var blanks := ["", "", ""];
    assert NonEmpty(blanks[2..]) == [];
    assert NonEmpty(blanks[1..]) == NonEmpty(blanks[2..]);
  }
}
