/**
 The argv guards of the GitHub adapter (github_pr_adapter.py): the merge guard,
 which refuses what could merge, and the `gh api` allowlist, which admits only
 the update the adapter issues.
 */
module GhApiGuard {
  import opened Common
  import opened Text

  // ---------------------------------------------------------------- paths

  predicate StartsWith(s: string, p: string)
  {
    p <= s
  }

  predicate EndsWith(s: string, p: string)
  {
    |p| <= |s| && s[|s| - |p|..] == p
  }

  /** The index of the first `c`, or the length. */
  function IndexOf(s: string, c: char): (i: nat)
    ensures i <= |s| && c !in s[..i] && (i < |s| ==> s[i] == c)
  {
    if s == "" || s[0] == c then 0 else 1 + IndexOf(s[1..], c)
  }

  /** Just after the last `/`, or 0. */
  function AfterLastSlash(s: string): (i: nat)
    ensures i <= |s| && '/' !in s[i..] && (i > 0 ==> s[i - 1] == '/')
  {
    if s == "" then 0 else if s[|s| - 1] == '/' then |s| else AfterLastSlash(s[..|s| - 1])
  }

  /** `PurePosixPath(s).name`: the last component, empty and `.` components aside. */
  function Basename(s: string): string
  {
    var i := AfterLastSlash(s);
    if s[i..] != "" && s[i..] != "." then s[i..] else if i == 0 then "" else Basename(s[..i - 1])
  }

  // ---------------------------------------------------------------- argv

  const GhGlobalValueFlags: set<string> := {"-R", "--repo", "--hostname"}
  const GitGlobalValueFlags: set<string> :=
    {"-C", "-c", "--git-dir", "--work-tree", "--namespace", "--config-env", "--exec-path", "--super-prefix"}

  predicate IsMethodFlag(flag: string)
  {
    flag == "-X" || flag == "--method"
  }

  predicate IsFieldFlag(flag: string)
  {
    flag == "-f" || flag == "-F" || flag == "--field" || flag == "--raw-field" || flag == "--input"
  }

  /** `gh` is the first token whose basename is `name`; None when there is none. */
  predicate IsExecutableIndex(tokens: seq<string>, name: string, found: Option<nat>)
  {
    match found
    case None => forall i :: 0 <= i < |tokens| ==> Basename(tokens[i]) != name
    case Some(k) => k < |tokens| && Basename(tokens[k]) == name && forall i :: 0 <= i < k ==> Basename(tokens[i]) != name
  }

  function ExecutableIndex(tokens: seq<string>, name: string): (found: Option<nat>)
    ensures IsExecutableIndex(tokens, name, found)
  {
    if tokens == [] then None
    else if Basename(tokens[0]) == name then Some(0)
    else
      match ExecutableIndex(tokens[1..], name)
      case None => None
      case Some(k) => Some(k + 1)
  }

  function Positionals(tokens: seq<string>, valueFlags: set<string>): (r: seq<string>)
    ensures forall p :: p in r ==> p in tokens && !StartsWith(p, "-")
  {
    if tokens == [] then []
    else if tokens[0] in valueFlags then (if |tokens| == 1 then [] else Positionals(tokens[2..], valueFlags))
    else if StartsWith(tokens[0], "-") then Positionals(tokens[1..], valueFlags)
    else [tokens[0]] + Positionals(tokens[1..], valueFlags)
  }

  /** The method value and the endpoints of the tokens after `api`, from the method found so far. */
  function ScanApi(tokens: seq<string>, found: Option<string>): (Option<string>, seq<string>)
  {
    if tokens == [] then (found, [])
    else
      var token := tokens[0];
      var eq := IndexOf(token, '=');
      var flag := token[..eq];
      if IsMethodFlag(flag) then
        if eq < |token| then ScanApi(tokens[1..], Some(token[eq + 1..]))
        else if |tokens| == 1 then (found, [])
        else ScanApi(tokens[2..], Some(tokens[1]))
      else if IsFieldFlag(flag) then
        if eq < |token| || |tokens| == 1 then ScanApi(tokens[1..], found) else ScanApi(tokens[2..], found)
      else if StartsWith(token, "-") then ScanApi(tokens[1..], found)
      else
        var r := ScanApi(tokens[1..], found);
        (r.0, [token] + r.1)
  }

  // ---------------------------------------------------------------- the merge guard

  /** `(^|/)word/?$`, where `$` also matches before a final newline. */
  predicate EndsInSegment(token: string, word: string)
  {
    var a := if EndsWith(token, "\n") then token[..|token| - 1] else token;
    LastSegment(token, word) || LastSegment(a, word)
  }

  predicate LastSegment(s: string, word: string)
  {
    var t := if EndsWith(s, "/") then s[..|s| - 1] else s;
    t == word || EndsWith(t, "/" + word)
  }

  function DropDigits(s: string, decimal: char -> bool): string
  {
    if s != "" && decimal(s[|s| - 1]) then DropDigits(s[..|s| - 1], decimal) else s
  }

  /** `(^|/)pulls/\d+/merge/?$`; `decimal` is the class `\d`. */
  predicate EndsInPullMerge(token: string, decimal: char -> bool)
  {
    var a := if EndsWith(token, "\n") then token[..|token| - 1] else token;
    PullMerge(token, decimal) || PullMerge(a, decimal)
  }

  predicate PullMerge(s: string, decimal: char -> bool)
  {
    var t := if EndsWith(s, "/") then s[..|s| - 1] else s;
    EndsWith(t, "/merge") && NamesAPull(t[..|t| - 6], decimal)
  }

  predicate NamesAPull(u: string, decimal: char -> bool)
  {
    var v := DropDigits(u, decimal);
    v != u && (v == "pulls/" || EndsWith(v, "/" + "pulls/"))
  }

  predicate MergePath(token: string, decimal: char -> bool)
  {
    EndsInPullMerge(token, decimal) || EndsInSegment(token, "merges") || EndsInSegment(token, "graphql")
  }

  predicate HasPrMerge(positionals: seq<string>)
  {
    exists i :: 0 <= i < |positionals| - 1 && positionals[i] == "pr" && positionals[i + 1] == "merge"
  }

  /** The tokens `gh` itself is given. */
  predicate RefusedAsGh(rest: seq<string>, decimal: char -> bool)
  {
    var positionals := Positionals(rest, GhGlobalValueFlags);
    || HasPrMerge(positionals)
    || (positionals != [] && positionals[0] == "api" && ScansAMergePath(rest, decimal))
  }

  function AfterApi(rest: seq<string>): seq<string>
  {
    if rest != [] && rest[0] == "api" then rest[1..] else rest
  }

  predicate ScansAMergePath(rest: seq<string>, decimal: char -> bool)
  {
    var scanned := ScanApi(AfterApi(rest), None);
    || (scanned.0.Some? && MergePath(scanned.0.value, decimal))
    || exists i :: 0 <= i < |scanned.1| && MergePath(scanned.1[i], decimal)
  }

  predicate RefusedAsGit(rest: seq<string>)
  {
    var positionals := Positionals(rest, GitGlobalValueFlags);
    && positionals != []
    && (|| positionals[0] == "merge"
        || (positionals[0] == "push" && exists i :: 1 <= i < |positionals| && ':' in positionals[i]))
  }

  predicate GhRefused(argv: seq<string>, decimal: char -> bool)
  {
    var gh := ExecutableIndex(argv, "gh");
    gh.Some? && RefusedAsGh(argv[gh.value + 1..], decimal)
  }

  predicate GitRefused(argv: seq<string>)
  {
    var git := ExecutableIndex(argv, "git");
    git.Some? && RefusedAsGit(argv[git.value + 1..])
  }

  predicate MergeRefused(argv: seq<string>, decimal: char -> bool)
  {
    GhRefused(argv, decimal) || GitRefused(argv)
  }

  // ---------------------------------------------------------------- the allowlist

  predicate IsOwnerName(repo: string)
  {
    var slash := IndexOf(repo, '/');
    0 < slash < |repo| - 1 && '/' !in repo[slash + 1..]
  }

  function PullEndpoint(repo: string, n: int): string
  {
    "repos/" + repo + "/pulls/" + Decimal(n)
  }

  /** `repos/<owner>/<name>/pulls/[1-9][0-9]*`, in full. */
  predicate MatchesOwnPull(repo: string, token: string)
  {
    var p := "repos/" + repo + "/pulls/";
    && StartsWith(token, p) && |token| > |p|
    && '1' <= token[|p|] <= '9'
    && forall i :: |p| <= i < |token| ==> IsDigit(token[i])
  }

  /** One argument group of an update. */
  datatype Item = Method(verb: string) | Field(key: string, text: string) | Endpoint(token: string)

  function Tokens(item: Item): seq<string>
  {
    match item
    case Method(verb) => ["-X", verb]
    case Field(key, text) => ["-f", key + "=" + text]
    case Endpoint(token) => [token]
  }

  function Flatten(items: seq<Item>): seq<string>
  {
    if items == [] then [] else Tokens(items[0]) + Flatten(items[1..])
  }

  function Methods(items: seq<Item>): seq<string>
  {
    if items == [] then []
    else (if items[0].Method? then [items[0].verb] else []) + Methods(items[1..])
  }

  function Endpoints(items: seq<Item>): seq<string>
  {
    if items == [] then []
    else (if items[0].Endpoint? then [items[0].token] else []) + Endpoints(items[1..])
  }

  function Keys(items: seq<Item>): seq<string>
  {
    if items == [] then []
    else (if items[0].Field? then [items[0].key] else []) + Keys(items[1..])
  }

  /** One PATCH, one own pull request, and a title, a body or both: in any order. */
  ghost predicate IsUpdate(items: seq<Item>, repo: string)
  {
    && Methods(items) == ["PATCH"]
    && (exists n: nat :: n > 0 && Endpoints(items) == [PullEndpoint(repo, n)])
    && Keys(items) in {["title"], ["body"], ["title", "body"], ["body", "title"]}
  }

  ghost predicate IsUpdateArguments(rest: seq<string>, repo: string)
  {
    exists items :: Flatten(items) == rest && IsUpdate(items, repo)
  }

  predicate IsGhApi(argv: seq<string>)
  {
    var gh := ExecutableIndex(argv, "gh");
    gh.Some? && var positionals := Positionals(argv[gh.value + 1..], GhGlobalValueFlags);
                positionals != [] && positionals[0] == "api"
  }

  /** What the allowlist admits: other commands, and the adapter's own update. */
  ghost predicate Admitted(argv: seq<string>, repo: string)
  {
    IsGhApi(argv) ==>
      var rest := argv[ExecutableIndex(argv, "gh").value + 1..];
      IsOwnerName(repo) && rest != [] && rest[0] == "api" && IsUpdateArguments(rest[1..], repo)
  }

  /** Why the allowlist refuses the arguments of `gh api`. */
  datatype FormError =
    | NoValue(flag: string)
    | MethodTwice
    | FieldNotAllowed(key: string)
    | FieldTwice(key: string)
    | FlagNotAllowed(flag: string)
    | EndpointTwice
    | NotPatch(verb: Option<string>)
    | NotOwnPull(endpoint: Option<string>)
    | NoField

  /** The first objection of `assert_gh_api_allowed` from a partial parse. */
  function Objection(
    rest: seq<string>, verb: Option<string>, endpoint: Option<string>, fields: seq<string>, repo: string)
    : Option<FormError>
  {
    if rest == [] then
      if verb != Some("PATCH") then Some(NotPatch(verb))
      else if endpoint.None? || !MatchesOwnPull(repo, endpoint.value) then Some(NotOwnPull(endpoint))
      else if fields == [] then Some(NoField)
      else None
    else if rest[0] == "-X" || rest[0] == "-f" then
      if |rest| == 1 then Some(NoValue(rest[0]))
      else if rest[0] == "-X" then
        if verb.Some? then Some(MethodTwice) else Objection(rest[2..], Some(rest[1]), endpoint, fields, repo)
      else
        var eq := IndexOf(rest[1], '=');
        var key := rest[1][..eq];
        if eq == |rest[1]| || key !in ["title", "body"] then Some(FieldNotAllowed(key))
        else if key in fields then Some(FieldTwice(key))
        else Objection(rest[2..], verb, endpoint, fields + [key], repo)
    else if StartsWith(rest[0], "-") then Some(FlagNotAllowed(rest[0]))
    else if endpoint.Some? then Some(EndpointTwice)
    else Objection(rest[1..], verb, Some(rest[0]), fields, repo)
  }

  predicate Accepts(rest: seq<string>, verb: Option<string>, endpoint: Option<string>, fields: seq<string>, repo: string)
  {
    Objection(rest, verb, endpoint, fields, repo).None?
  }

  // ---------------------------------------------------------------- decimal endpoints

  function DigitValue(c: char): (n: nat)
    requires IsDigit(c)
    ensures n < 10 && Digit(n) == c
  {
    c as int - '0' as int
  }

  function Value(s: string): (n: nat)
    requires forall i :: 0 <= i < |s| ==> IsDigit(s[i])
  {
    if s == "" then 0 else 10 * Value(s[..|s| - 1]) + DigitValue(s[|s| - 1])
  }

  lemma {:induction false} DigitsAreDecimal(s: string)
    requires s != "" && '1' <= s[0] <= '9' && forall i :: 0 <= i < |s| ==> IsDigit(s[i])
    ensures Value(s) > 0 && DecimalNat(Value(s)) == s
  {
    var n := Value(s);
    var last := DigitValue(s[|s| - 1]);
    assert Digit(last) == s[|s| - 1];
    if |s| == 1 {
      assert s[..0] == "" && s == [s[0]];
    } else {
      DigitsAreDecimal(s[..|s| - 1]);
      assert n / 10 == Value(s[..|s| - 1]) && n % 10 == last;
      assert s == s[..|s| - 1] + [s[|s| - 1]];
    }
  }

  lemma {:induction false} DecimalIsDigits(n: nat)
    requires n > 0
    ensures '1' <= DecimalNat(n)[0] <= '9'
    ensures forall i :: 0 <= i < |DecimalNat(n)| ==> IsDigit(DecimalNat(n)[i])
  {
    if n >= 10 {
      DecimalIsDigits(n / 10);
    }
  }

  /** The pattern admits exactly the endpoints of positive pull request numbers. */
  lemma OwnPullIsPositive(repo: string, token: string)
    ensures MatchesOwnPull(repo, token) <==> exists n: nat :: n > 0 && token == PullEndpoint(repo, n)
  {
    var p := "repos/" + repo + "/pulls/";
    if MatchesOwnPull(repo, token) {
      var s := token[|p|..];
      assert s[0] == token[|p|];
      forall i | 0 <= i < |s| ensures IsDigit(s[i]) { assert s[i] == token[|p| + i]; }
      DigitsAreDecimal(s);
      assert token == p + s && PullEndpoint(repo, Value(s)) == p + s;
    }
    if n: nat :| n > 0 && token == PullEndpoint(repo, n) {
      var s := DecimalNat(n);
      DecimalIsDigits(n);
      assert token == p + s;
      assert token[..|p|] == p;
      forall i | |p| <= i < |token| ensures IsDigit(token[i]) { assert token[i] == s[i - |p|]; }
    }
  }

  /** `str(n)` completes the pattern for positive numbers only. */
  lemma PullEndpointMatches(repo: string, n: int)
    ensures MatchesOwnPull(repo, PullEndpoint(repo, n)) <==> n > 0
  {
    var p := "repos/" + repo + "/pulls/";
    var token := PullEndpoint(repo, n);
    assert token == p + Decimal(n) && token[|p|] == Decimal(n)[0];
    if n > 0 {
      var k: nat := n;
      assert token == PullEndpoint(repo, k);
      OwnPullIsPositive(repo, token);
    }
  }

  // ---------------------------------------------------------------- the loop accepts exactly the updates

  function Given(o: Option<string>): seq<string>
  {
    if o.Some? then [o.value] else []
  }

  /** The groups complete a partial parse to an update. */
  predicate Completes(
    items: seq<Item>, verb: Option<string>, endpoint: Option<string>, fields: seq<string>, repo: string)
  {
    && Given(verb) + Methods(items) == ["PATCH"]
    && |Given(endpoint) + Endpoints(items)| == 1
    && MatchesOwnPull(repo, (Given(endpoint) + Endpoints(items))[0])
    && DistinctKeys(fields + Keys(items)) && fields + Keys(items) != []
  }

  predicate DistinctKeys(fields: seq<string>)
  {
    && (forall i :: 0 <= i < |fields| ==> fields[i] in ["title", "body"])
    && forall i, j :: 0 <= i < j < |fields| ==> fields[i] != fields[j]
  }

  lemma AddKey(fields: seq<string>, key: string)
    requires DistinctKeys(fields) && key in ["title", "body"] && key !in fields
    ensures DistinctKeys(fields + [key])
  {
  }

  lemma KeyLists(fields: seq<string>)
    ensures DistinctKeys(fields) && fields != []
            <==> fields in {["title"], ["body"], ["title", "body"], ["body", "title"]}
  {
    if DistinctKeys(fields) && fields != [] {
      assert |fields| <= 2 by {
        var third := fields[|fields| - 1];
        assert third in ["title", "body"] && fields[0] in ["title", "body"];
        var second := if |fields| > 1 then fields[1] else third;
        assert second in ["title", "body"];
      }
      assert fields == if |fields| == 1 then [fields[0]] else [fields[0], fields[1]];
    }
  }

  lemma FieldSplits(key: string, text: string)
    requires key in ["title", "body"]
    ensures var value := key + "=" + text;
            var eq := IndexOf(value, '=');
            eq < |value| && value[..eq] == key && value[eq + 1..] == text
  {
    var value := key + "=" + text;
    assert value[|key|] == '=' && forall i :: 0 <= i < |key| ==> value[i] == key[i];
    assert IndexOf(value, '=') == |key| by {
      FirstIndex(value, '=', |key|);
    }
  }

  lemma {:induction false} FirstIndex(s: string, c: char, k: nat)
    requires k < |s| && s[k] == c && forall i :: 0 <= i < k ==> s[i] != c
    ensures IndexOf(s, c) == k
  {
    if k > 0 {
      FirstIndex(s[1..], c, k - 1);
    }
  }

  lemma Rejoined(value: string, eq: nat)
    requires eq < |value| && value[eq] == '='
    ensures Tokens(Field(value[..eq], value[eq + 1..])) == ["-f", value]
  {
    assert value == value[..eq] + "=" + value[eq + 1..];
  }

  lemma FlattenCons(item: Item, tail: seq<Item>)
    ensures Flatten([item] + tail) == Tokens(item) + Flatten(tail)
  {
    assert ([item] + tail)[1..] == tail;
  }

  lemma NothingLeft(verb: Option<string>, endpoint: Option<string>, fields: seq<string>, repo: string)
    ensures Completes([], verb, endpoint, fields, repo) <==> Accepts([], verb, endpoint, fields, repo) && DistinctKeys(fields)
  {
    assert Methods([]) == [] && Endpoints([]) == [] && Keys([]) == [];
    assert Given(verb) + [] == Given(verb) && Given(endpoint) + [] == Given(endpoint) && fields + [] == fields;
    assert verb.Some? && verb.value == "PATCH" <==> Given(verb) == ["PATCH"];
  }

  lemma MethodStep(
    v: string, tail: seq<Item>, verb: Option<string>, endpoint: Option<string>, fields: seq<string>, repo: string)
    ensures Completes([Method(v)] + tail, verb, endpoint, fields, repo)
            <==> verb.None? && Completes(tail, Some(v), endpoint, fields, repo)
  {
    var items := [Method(v)] + tail;
    assert items[1..] == tail;
    assert Methods(items) == [v] + Methods(tail) && Endpoints(items) == Endpoints(tail) && Keys(items) == Keys(tail);
    if verb.Some? {
      assert |Given(verb) + Methods(items)| >= 2;
    } else {
      assert Given(verb) + Methods(items) == Given(Some(v)) + Methods(tail);
    }
  }

  lemma FieldStep(
    key: string, text: string, tail: seq<Item>,
    verb: Option<string>, endpoint: Option<string>, fields: seq<string>, repo: string)
    ensures Completes([Field(key, text)] + tail, verb, endpoint, fields, repo)
            <==> Completes(tail, verb, endpoint, fields + [key], repo)
  {
    var items := [Field(key, text)] + tail;
    assert items[1..] == tail;
    assert Methods(items) == Methods(tail) && Endpoints(items) == Endpoints(tail) && Keys(items) == [key] + Keys(tail);
    assert fields + Keys(items) == fields + [key] + Keys(tail);
  }

  lemma EndpointStep(
    token: string, tail: seq<Item>, verb: Option<string>, endpoint: Option<string>, fields: seq<string>, repo: string)
    ensures Completes([Endpoint(token)] + tail, verb, endpoint, fields, repo)
            <==> endpoint.None? && Completes(tail, verb, Some(token), fields, repo)
  {
    var items := [Endpoint(token)] + tail;
    assert items[1..] == tail;
    assert Methods(items) == Methods(tail) && Endpoints(items) == [token] + Endpoints(tail) && Keys(items) == Keys(tail);
    assert endpoint.None? ==> Given(endpoint) + Endpoints(items) == Given(Some(token)) + Endpoints(tail);
  }

  /** A key that completes is an allowed one not given before. */
  lemma FreshKey(key: string, tail: seq<Item>, verb: Option<string>, endpoint: Option<string>, fields: seq<string>, repo: string)
    requires Completes(tail, verb, endpoint, fields + [key], repo)
    ensures key in ["title", "body"] && key !in fields && DistinctKeys(fields)
  {
    var all := fields + [key] + Keys(tail);
    assert all[|fields|] == key && forall i :: 0 <= i < |fields| ==> all[i] == fields[i];
  }

  /** An endpoint that completes is a path, not a flag. */
  lemma OwnPath(token: string, tail: seq<Item>, verb: Option<string>, fields: seq<string>, repo: string)
    requires Completes(tail, verb, Some(token), fields, repo)
    ensures MatchesOwnPull(repo, token) && !StartsWith(token, "-")
  {
    assert (Given(Some(token)) + Endpoints(tail))[0] == token;
    assert token[0] == ("repos/" + repo + "/pulls/")[0] == 'r';
  }

  lemma AcceptsField(
    key: string, text: string, rest: seq<string>,
    verb: Option<string>, endpoint: Option<string>, fields: seq<string>, repo: string)
    requires key in ["title", "body"] && key !in fields && Accepts(rest, verb, endpoint, fields + [key], repo)
    ensures Accepts(["-f", key + "=" + text] + rest, verb, endpoint, fields, repo)
  {
    FieldSplits(key, text);
    assert (["-f", key + "=" + text] + rest)[2..] == rest;
  }

  lemma {:induction false} AcceptsCompletion(
    items: seq<Item>, verb: Option<string>, endpoint: Option<string>, fields: seq<string>, repo: string)
    requires Completes(items, verb, endpoint, fields, repo)
    ensures Accepts(Flatten(items), verb, endpoint, fields, repo)
    decreases |items|
  {
    if items == [] {
      NothingLeft(verb, endpoint, fields, repo);
    } else {
      var rest, tail := Flatten(items), items[1..];
      assert items == [items[0]] + tail && rest[|Tokens(items[0])|..] == Flatten(tail);
      match items[0]
      case Method(v) =>
        MethodStep(v, tail, verb, endpoint, fields, repo);
        AcceptsCompletion(tail, Some(v), endpoint, fields, repo);
      case Field(key, text) =>
        FieldStep(key, text, tail, verb, endpoint, fields, repo);
        FreshKey(key, tail, verb, endpoint, fields, repo);
        AcceptsCompletion(tail, verb, endpoint, fields + [key], repo);
        AcceptsField(key, text, Flatten(tail), verb, endpoint, fields, repo);
      case Endpoint(token) =>
        EndpointStep(token, tail, verb, endpoint, fields, repo);
        OwnPath(token, tail, verb, fields, repo);
        AcceptsCompletion(tail, verb, Some(token), fields, repo);
    }
  }

  lemma FieldPrepended(
    rest: seq<string>, eq: nat, tail: seq<Item>,
    verb: Option<string>, endpoint: Option<string>, fields: seq<string>, repo: string)
    returns (items: seq<Item>)
    requires |rest| > 1 && rest[0] == "-f" && eq < |rest[1]| && rest[1][eq] == '='
    requires Flatten(tail) == rest[2..] && Completes(tail, verb, endpoint, fields + [rest[1][..eq]], repo)
    ensures Flatten(items) == rest && Completes(items, verb, endpoint, fields, repo)
  {
    var value := rest[1];
    items := [Field(value[..eq], value[eq + 1..])] + tail;
    FieldStep(value[..eq], value[eq + 1..], tail, verb, endpoint, fields, repo);
    Rejoined(value, eq);
    FlattenCons(items[0], tail);
  }

  lemma {:induction false} AcceptedCompletes(
    rest: seq<string>, verb: Option<string>, endpoint: Option<string>, fields: seq<string>, repo: string)
    returns (items: seq<Item>)
    requires Accepts(rest, verb, endpoint, fields, repo) && DistinctKeys(fields)
    ensures Flatten(items) == rest && Completes(items, verb, endpoint, fields, repo)
  {
    if rest == [] {
      items := [];
      NothingLeft(verb, endpoint, fields, repo);
    } else if rest[0] == "-X" {
      var tail := AcceptedCompletes(rest[2..], Some(rest[1]), endpoint, fields, repo);
      items := [Method(rest[1])] + tail;
      MethodStep(rest[1], tail, verb, endpoint, fields, repo);
      FlattenCons(items[0], tail);
    } else if rest[0] == "-f" {
      var eq := IndexOf(rest[1], '=');
      var key := rest[1][..eq];
      AddKey(fields, key);
      var tail := AcceptedCompletes(rest[2..], verb, endpoint, fields + [key], repo);
      items := FieldPrepended(rest, eq, tail, verb, endpoint, fields, repo);
    } else {
      var tail := AcceptedCompletes(rest[1..], verb, Some(rest[0]), fields, repo);
      items := [Endpoint(rest[0])] + tail;
      EndpointStep(rest[0], tail, verb, endpoint, fields, repo);
      FlattenCons(items[0], tail);
    }
  }

  /** From the start, completing is being an update. */
  lemma CompletionIsUpdate(items: seq<Item>, repo: string)
    ensures Completes(items, None, None, [], repo) <==> IsUpdate(items, repo)
  {
    assert [] + Keys(items) == Keys(items);
    KeyLists(Keys(items));
    var endpoints := Endpoints(items);
    assert Given(None) + endpoints == endpoints;
    if |endpoints| == 1 {
      OwnPullIsPositive(repo, endpoints[0]);
      assert endpoints == [endpoints[0]];
    }
  }

  /** The index-driven loop accepts exactly the update's groups, in any order. */
  lemma LoopAcceptsUpdates(rest: seq<string>, repo: string)
    ensures Accepts(rest, None, None, [], repo) <==> IsUpdateArguments(rest, repo)
  {
    if Accepts(rest, None, None, [], repo) {
      var items := AcceptedCompletes(rest, None, None, [], repo);
      CompletionIsUpdate(items, repo);
    }
    if items :| Flatten(items) == rest && IsUpdate(items, repo) {
      CompletionIsUpdate(items, repo);
      AcceptsCompletion(items, None, None, [], repo);
    }
  }
}
