/**
 The guards as the adapter runs them (github_pr_adapter.py): the scanning loops,
 and what the two guards together say about every argv the adapter builds.
 */
module GitHubPrAdapter {
  import opened Common
  import opened Text
  import opened GhApiGuard

  datatype Refusal = Merge | NotOwnerName | GlobalFlag | Form(error: FormError)

  // ---------------------------------------------------------------- the loops

  method FindExecutable(tokens: seq<string>, name: string) returns (found: Option<nat>)
    ensures found == ExecutableIndex(tokens, name)
  {
    var index := 0;
    while index < |tokens|
      invariant index <= |tokens|
      invariant forall i :: 0 <= i < index ==> Basename(tokens[i]) != name
    {
      if Basename(tokens[index]) == name {
        return Some(index);
      }
      index := index + 1;
    }
    return None;
  }

  method CollectPositionals(tokens: seq<string>, valueFlags: set<string>) returns (positionals: seq<string>)
    ensures positionals == Positionals(tokens, valueFlags)
  {
    positionals := [];
    var skipNext := false;
    var index := 0;
    while index < |tokens|
      invariant index <= |tokens|
      invariant skipNext && index == |tokens| ==> positionals == Positionals(tokens, valueFlags)
      invariant !(skipNext && index == |tokens|) ==>
          positionals + Positionals(tokens[if skipNext then index + 1 else index..], valueFlags) == Positionals(tokens, valueFlags)
    {
      var token := tokens[index];
      ghost var left := tokens[index..];
      assert left[0] == token && left[1..] == tokens[index + 1..];
      assert |left| > 1 ==> left[2..] == tokens[index + 2..];
      if skipNext {
        skipNext := false;
      } else if token in valueFlags {
        skipNext := true;
      } else if !StartsWith(token, "-") {
        positionals := positionals + [token];
      }
      index := index + 1;
    }
  }

  method ScanMethodAndEndpoints(tokens: seq<string>) returns (verb: Option<string>, endpoints: seq<string>)
    ensures (verb, endpoints) == ScanApi(AfterApi(tokens), None)
  {
    verb, endpoints := None, [];
    var index := if tokens != [] && tokens[0] == "api" then 1 else 0;
    assert tokens[index..] == AfterApi(tokens);
    ghost var all := ScanApi(AfterApi(tokens), None);
    assert [] + all.1 == all.1;
    while index < |tokens|
      invariant index <= |tokens| ==> all.0 == ScanApi(tokens[index..], verb).0
      invariant index <= |tokens| ==> all.1 == endpoints + ScanApi(tokens[index..], verb).1
      invariant index > |tokens| ==> all == (verb, endpoints)
    {
      var token := tokens[index];
      ghost var left := tokens[index..];
      assert left[0] == token && left[1..] == tokens[index + 1..];
      assert |left| > 1 ==> left[1] == tokens[index + 1] && left[2..] == tokens[index + 2..];
      assert endpoints + [] == endpoints;
      var eq := IndexOf(token, '=');
      if IsMethodFlag(token[..eq]) {
        if eq < |token| {
          verb := Some(token[eq + 1..]);
          index := index + 1;
        } else {
          if index + 1 < |tokens| {
            verb := Some(tokens[index + 1]);
          }
          index := index + 2;
        }
      } else if IsFieldFlag(token[..eq]) {
        index := index + if eq < |token| then 1 else 2;
      } else {
        if !StartsWith(token, "-") {
          endpoints := endpoints + [token];
        }
        index := index + 1;
      }
    }
    assert endpoints + [] == endpoints;
  }

  method RefusesAsGh(rest: seq<string>, decimal: char -> bool) returns (refused: bool)
    ensures refused <==> RefusedAsGh(rest, decimal)
  {
    var positionals := CollectPositionals(rest, GhGlobalValueFlags);
    if HasPrMerge(positionals) {
      return true;
    }
    if positionals == [] || positionals[0] != "api" {
      return false;
    }
    var verb, endpoints := ScanMethodAndEndpoints(rest);
    return (verb.Some? && MergePath(verb.value, decimal))
           || exists i :: 0 <= i < |endpoints| && MergePath(endpoints[i], decimal);
  }

  method RefusesAsGit(rest: seq<string>) returns (refused: bool)
    ensures refused <==> RefusedAsGit(rest)
  {
    var positionals := CollectPositionals(rest, GitGlobalValueFlags);
    if positionals == [] {
      return false;
    }
    if positionals[0] == "merge" {
      return true;
    }
    return positionals[0] == "push" && exists i :: 1 <= i < |positionals| && ':' in positionals[i];
  }

  method AssertNotAMergeCommand(argv: seq<string>, decimal: char -> bool) returns (ok: bool)
    ensures ok <==> !MergeRefused(argv, decimal)
  {
    var asGh := RefusesGh(argv, decimal);
    if asGh {
      return false;
    }
    var asGit := RefusesGit(argv);
    return !asGit;
  }

  method RefusesGh(argv: seq<string>, decimal: char -> bool) returns (refused: bool)
    ensures refused <==> GhRefused(argv, decimal)
  {
    var gh := FindExecutable(argv, "gh");
    if gh.None? {
      return false;
    }
    refused := RefusesAsGh(argv[gh.value + 1..], decimal);
  }

  method RefusesGit(argv: seq<string>) returns (refused: bool)
    ensures refused <==> GitRefused(argv)
  {
    var git := FindExecutable(argv, "git");
    if git.None? {
      return false;
    }
    refused := RefusesAsGit(argv[git.value + 1..]);
  }

  /** Admits exactly the adapter's own update, its groups in any order, and every command that is not `gh api`. */
  method AssertGhApiAllowed(argv: seq<string>, repo: string) returns (r: Result<(), Refusal>)
    ensures r.Ok? <==> Admitted(argv, Stripped(repo))
    ensures r == Err(NotOwnerName) <==> IsGhApi(argv) && !IsOwnerName(Stripped(repo))
    ensures r == Err(GlobalFlag)
            <==> IsGhApi(argv) && IsOwnerName(Stripped(repo)) && argv[ExecutableIndex(argv, "gh").value + 1] != "api"
    ensures r.Err? && r.error.Form? ==>
              Objection(argv[ExecutableIndex(argv, "gh").value + 2..], None, None, [], Stripped(repo)) == Some(r.error.error)
    ensures r != Err(Merge)
  {
    var own := Stripped(repo);
    var gh := FindExecutable(argv, "gh");
    if gh.None? {
      return Ok(());
    }
    var positionals := CollectPositionals(argv[gh.value + 1..], GhGlobalValueFlags);
    if positionals == [] || positionals[0] != "api" {
      return Ok(());
    }
    assert positionals[0] in argv[gh.value + 1..];
    if !IsOwnerName(own) {
      return Err(NotOwnerName);
    }
    if argv[gh.value + 1] != "api" {
      return Err(GlobalFlag);
    }
    var rest := argv[gh.value + 2..];
    assert rest == argv[gh.value + 1..][1..];
    LoopAcceptsUpdates(rest, own);
    var objection := ParseUpdate(rest, own);
    return if objection.None? then Ok(()) else Err(Form(objection.value));
  }

  /** The index-driven loop and the checks after it. */
  method ParseUpdate(rest: seq<string>, repo: string) returns (objection: Option<FormError>)
    ensures objection == Objection(rest, None, None, [], repo)
  {
    var verb: Option<string>, endpoint: Option<string>, fields: seq<string> := None, None, [];
    var index := 0;
    while index < |rest|
      invariant index <= |rest|
      invariant Objection(rest[index..], verb, endpoint, fields, repo) == Objection(rest, None, None, [], repo)
    {
      var token := rest[index];
      ghost var left := rest[index..];
      assert left[0] == token && left[1..] == rest[index + 1..];
      assert |left| > 1 ==> left[1] == rest[index + 1] && left[2..] == rest[index + 2..];
      if token == "-X" || token == "-f" {
        if index + 1 >= |rest| {
          return Some(NoValue(token));
        }
        var value := rest[index + 1];
        index := index + 2;
        if token == "-X" {
          if verb.Some? {
            return Some(MethodTwice);
          }
          verb := Some(value);
        } else {
          var eq := IndexOf(value, '=');
          var key := value[..eq];
          if eq == |value| || key !in ["title", "body"] {
            return Some(FieldNotAllowed(key));
          }
          if key in fields {
            return Some(FieldTwice(key));
          }
          fields := fields + [key];
        }
      } else {
        if StartsWith(token, "-") {
          return Some(FlagNotAllowed(token));
        }
        if endpoint.Some? {
          return Some(EndpointTwice);
        }
        endpoint := Some(token);
        index := index + 1;
      }
    }
    assert rest[index..] == [];
    if verb != Some("PATCH") {
      return Some(NotPatch(verb));
    }
    if endpoint.None? || !MatchesOwnPull(repo, endpoint.value) {
      return Some(NotOwnPull(endpoint));
    }
    return if fields == [] then Some(NoField) else None;
  }

  // ---------------------------------------------------------------- an admitted update is no merge

  /** The tokens an update can hold. */
  predicate UpdateToken(repo: string, t: string)
  {
    t in ["-X", "-f", "PATCH"] || MatchesOwnPull(repo, t) || StartsWith(t, "title=") || StartsWith(t, "body=")
  }

  predicate Plain(item: Item, repo: string)
  {
    match item
    case Method(verb) => verb == "PATCH"
    case Field(key, _) => key in ["title", "body"]
    case Endpoint(token) => MatchesOwnPull(repo, token)
  }

  lemma {:induction false} Listed(items: seq<Item>, i: nat)
    requires i < |items|
    ensures items[i].Method? ==> items[i].verb in Methods(items)
    ensures items[i].Endpoint? ==> items[i].token in Endpoints(items)
    ensures items[i].Field? ==> items[i].key in Keys(items)
  {
    if i > 0 {
      Listed(items[1..], i - 1);
    }
  }

  lemma UpdateIsPlain(items: seq<Item>, repo: string)
    requires IsUpdate(items, repo)
    ensures forall i :: 0 <= i < |items| ==> Plain(items[i], repo)
  {
    forall i | 0 <= i < |items|
      ensures Plain(items[i], repo)
    {
      Listed(items, i);
      if items[i].Endpoint? {
        OwnPullIsPositive(repo, items[i].token);
      }
    }
  }

  lemma {:induction false} PlainTokens(items: seq<Item>, repo: string)
    requires forall i :: 0 <= i < |items| ==> Plain(items[i], repo)
    ensures forall t :: t in Flatten(items) ==> UpdateToken(repo, t)
  {
    if items != [] {
      PlainTokens(items[1..], repo);
      forall t | t in Tokens(items[0])
        ensures UpdateToken(repo, t)
      {
        assert Plain(items[0], repo);
      }
    }
  }

  lemma ScanStepMethod(verb: string, rest: seq<string>, found: Option<string>)
    ensures ScanApi(["-X", verb] + rest, found) == ScanApi(rest, Some(verb))
  {
    var all := ["-X", verb] + rest;
    assert all[0] == "-X" && all[2..] == rest;
    assert IndexOf(all[0], '=') == 2 && all[0][..2] == "-X";
  }

  lemma ScanStepField(value: string, rest: seq<string>, found: Option<string>)
    ensures ScanApi(["-f", value] + rest, found) == ScanApi(rest, found)
  {
    var all := ["-f", value] + rest;
    assert all[0] == "-f" && all[2..] == rest;
    assert IndexOf(all[0], '=') == 2 && all[0][..2] == "-f";
  }

  lemma ScanStepEndpoint(repo: string, token: string, rest: seq<string>, found: Option<string>)
    requires MatchesOwnPull(repo, token)
    ensures ScanApi([token] + rest, found) == (ScanApi(rest, found).0, [token] + ScanApi(rest, found).1)
  {
    var all := [token] + rest;
    assert all[0] == token && all[1..] == rest;
    EndpointIsNoFlag(repo, token);
  }

  /** Field values are opaque to the scan: it reads the method and the endpoints, in step with the groups. */
  lemma {:induction false} ScanReadsGroups(items: seq<Item>, repo: string, found: Option<string>)
    requires forall i :: 0 <= i < |items| ==> Plain(items[i], repo)
    ensures ScanApi(Flatten(items), found).1 == Endpoints(items)
    ensures ScanApi(Flatten(items), found).0 == if Methods(items) == [] then found else Some("PATCH")
  {
    if items != [] {
      var tail := items[1..];
      assert Plain(items[0], repo);
      match items[0]
      case Method(verb) =>
        ScanStepMethod(verb, Flatten(tail), found);
        ScanReadsGroups(tail, repo, Some(verb));
      case Field(key, text) =>
        ScanStepField(key + "=" + text, Flatten(tail), found);
        ScanReadsGroups(tail, repo, found);
      case Endpoint(token) =>
        ScanStepEndpoint(repo, token, Flatten(tail), found);
        ScanReadsGroups(tail, repo, found);
    }
  }

  lemma EndpointIsNoFlag(repo: string, token: string)
    requires MatchesOwnPull(repo, token)
    ensures !StartsWith(token, "-") && !IsMethodFlag(token[..IndexOf(token, '=')]) && !IsFieldFlag(token[..IndexOf(token, '=')])
    ensures IsDigit(token[|token| - 1])
  {
    var p := "repos/" + repo + "/pulls/";
    assert p[0] == 'r' && token[0] == p[0];
    var flag := token[..IndexOf(token, '=')];
    assert flag != [] ==> flag[0] == 'r';
  }

  lemma EndsDifferently(token: string, word: string)
    requires token != "" && word != "" && token[|token| - 1] != word[|word| - 1]
    ensures !EndsWith(token, word) && token != word
  {
    assert |word| <= |token| ==> token[|token| - |word|..][|word| - 1] == token[|token| - 1];
  }

  lemma NotTheLastSegment(token: string, word: string)
    requires token != "" && word != "" && token[|token| - 1] !in [word[|word| - 1], '/', '\n']
    ensures !EndsInSegment(token, word)
  {
    EndsDifferently(token, "\n");
    EndsDifferently(token, "/");
    EndsDifferently(token, word);
    EndsDifferently(token, "/" + word);
  }

  /** A path that ends in none of these characters names no merge. */
  lemma NoMergePath(token: string, decimal: char -> bool)
    requires token != "" && token[|token| - 1] !in ['e', 's', 'l', '/', '\n']
    ensures !MergePath(token, decimal)
  {
    assert "merges"[5] == 's' && "graphql"[6] == 'l' && "/merge"[5] == 'e';
    NotTheLastSegment(token, "merges");
    NotTheLastSegment(token, "graphql");
    EndsDifferently(token, "\n");
    EndsDifferently(token, "/");
    EndsDifferently(token, "/merge");
  }

  lemma NotASubcommand(repo: string, t: string)
    requires UpdateToken(repo, t)
    ensures t != "pr" && t != "merge" && t != "push"
  {
    if MatchesOwnPull(repo, t) {
      EndpointIsNoFlag(repo, t);
    }
  }

  predicate NoSubcommand(rest: seq<string>)
  {
    forall t :: t in rest ==> t != "pr" && t != "merge" && t != "push"
  }

  lemma UpdateHasNoSubcommand(rest: seq<string>, items: seq<Item>, repo: string)
    requires rest != [] && rest[0] == "api" && rest[1..] == Flatten(items) && IsUpdate(items, repo)
    ensures NoSubcommand(rest)
  {
    UpdateIsPlain(items, repo);
    PlainTokens(items, repo);
    forall t | t in rest
      ensures t != "pr" && t != "merge" && t != "push"
    {
      if t in rest[1..] {
        NotASubcommand(repo, t);
      }
    }
  }

  lemma NoSubcommandNoMerge(rest: seq<string>)
    requires NoSubcommand(rest)
    ensures !RefusedAsGit(rest)
    ensures !HasPrMerge(Positionals(rest, GhGlobalValueFlags))
  {
    var asGh, asGit := Positionals(rest, GhGlobalValueFlags), Positionals(rest, GitGlobalValueFlags);
    assert asGit != [] ==> asGit[0] in rest;
    assert forall i :: 0 <= i < |asGh| ==> asGh[i] in rest;
  }

  /**
   The allowlist refuses every `gh` merge vector on its own: an admitted `gh api` argv is
   refused by the merge guard only for a `git` command it finds before `gh`.
   */
  lemma AdmittedIsNoMerge(argv: seq<string>, gh: nat, repo: string, decimal: char -> bool)
    requires ExecutableIndex(argv, "gh") == Some(gh) && IsGhApi(argv) && Admitted(argv, repo)
    ensures !RefusedAsGh(argv[gh + 1..], decimal)
    ensures MergeRefused(argv, decimal) ==> exists i :: 0 <= i < gh && Basename(argv[i]) == "git"
  {
    AdmittedRest(argv, repo);
    UpdateCommandIsNoMerge(argv, gh, repo, decimal);
  }

  lemma UpdateCommandIsNoMerge(argv: seq<string>, gh: nat, repo: string, decimal: char -> bool)
    requires ExecutableIndex(argv, "gh") == Some(gh)
    requires var rest := argv[gh + 1..]; rest != [] && rest[0] == "api" && IsUpdateArguments(rest[1..], repo)
    ensures !RefusedAsGh(argv[gh + 1..], decimal)
    ensures MergeRefused(argv, decimal) ==> exists i :: 0 <= i < gh && Basename(argv[i]) == "git"
  {
    UpdateIsNoMerge(argv[gh + 1..], repo, decimal);
    OnlyGitBefore(argv, gh);
    assert !GhRefused(argv, decimal);
  }

  lemma AdmittedRest(argv: seq<string>, repo: string)
    requires IsGhApi(argv) && Admitted(argv, repo)
    ensures var rest := argv[ExecutableIndex(argv, "gh").value + 1..];
            rest != [] && rest[0] == "api" && IsUpdateArguments(rest[1..], repo)
  {
  }

  lemma OnlyGitBefore(argv: seq<string>, gh: nat)
    requires ExecutableIndex(argv, "gh") == Some(gh) && NoSubcommand(argv[gh + 1..])
    ensures GitRefused(argv) ==> exists i :: 0 <= i < gh && Basename(argv[i]) == "git"
  {
    var git := ExecutableIndex(argv, "git");
    if git.Some? {
      assert Basename(argv[git.value]) == "git" && Basename(argv[gh]) == "gh";
      assert "git"[1] != "gh"[1];
      if git.value > gh {
        LaterIsNoMerge(argv, gh, git.value);
      }
    }
  }

  lemma LaterIsNoMerge(argv: seq<string>, gh: nat, git: nat)
    requires gh < git < |argv| && NoSubcommand(argv[gh + 1..])
    ensures !RefusedAsGit(argv[git + 1..])
  {
    var later := argv[git + 1..];
    forall t | t in later
      ensures t in argv[gh + 1..]
    {
      var i :| 0 <= i < |later| && later[i] == t;
      assert argv[gh + 1..][i + git - gh] == t;
    }
    NoSubcommandNoMerge(later);
  }

  lemma UpdateIsNoMerge(rest: seq<string>, repo: string, decimal: char -> bool)
    requires rest != [] && rest[0] == "api" && IsUpdateArguments(rest[1..], repo)
    ensures !RefusedAsGh(rest, decimal) && NoSubcommand(rest)
  {
    var items :| Flatten(items) == rest[1..] && IsUpdate(items, repo);
    UpdateHasNoSubcommand(rest, items, repo);
    NoSubcommandNoMerge(rest);
    NoMergeScan(rest, items, repo, decimal);
  }

  lemma NoMergeScan(rest: seq<string>, items: seq<Item>, repo: string, decimal: char -> bool)
    requires rest != [] && rest[0] == "api" && rest[1..] == Flatten(items) && IsUpdate(items, repo)
    ensures !ScansAMergePath(rest, decimal)
  {
    var endpoint := ScannedUpdate(items, repo);
    PlainIsNoMerge(repo, endpoint, decimal);
    assert AfterApi(rest) == Flatten(items);
  }

  lemma ScannedUpdate(items: seq<Item>, repo: string) returns (endpoint: string)
    requires IsUpdate(items, repo)
    ensures ScanApi(Flatten(items), None) == (Some("PATCH"), [endpoint]) && MatchesOwnPull(repo, endpoint)
  {
    UpdateIsPlain(items, repo);
    ScanReadsGroups(items, repo, None);
    endpoint := Endpoints(items)[0];
    OwnPullIsPositive(repo, endpoint);
  }

  lemma PlainIsNoMerge(repo: string, endpoint: string, decimal: char -> bool)
    requires MatchesOwnPull(repo, endpoint)
    ensures !MergePath("PATCH", decimal) && !MergePath(endpoint, decimal)
  {
    EndpointIsNoFlag(repo, endpoint);
    NoMergePath("PATCH", decimal);
    NoMergePath(endpoint, decimal);
  }

  // ---------------------------------------------------------------- what the adapter builds

  /** The fields of `update_pr`: raw strings, a title before a body. */
  function UpdateFields(title: Option<string>, body: Option<string>): seq<string>
  {
    (if title.Some? then ["-f", "title" + "=" + title.value] else [])
    + (if body.Some? then ["-f", "body" + "=" + body.value] else [])
  }

  /** The argv of `update_pr`. */
  function UpdateArgv(ghBin: string, repo: string, n: int, title: Option<string>, body: Option<string>): seq<string>
  {
    [ghBin, "api", "-X", "PATCH", PullEndpoint(repo, n)] + UpdateFields(title, body)
  }

  /**
   Whatever the title and the body say, an update passes both guards exactly for a proper repository
   and number, or when the configured executable is not named `gh`, which the guards do not judge.
   */
  lemma UpdatePasses(
    ghBin: string, repo: string, n: int, title: Option<string>, body: Option<string>, decimal: char -> bool)
    requires title.Some? || body.Some?
    ensures var argv := UpdateArgv(ghBin, repo, n, title, body);
            !MergeRefused(argv, decimal) && Admitted(argv, repo)
            <==> Basename(ghBin) != "gh" || (IsOwnerName(repo) && n > 0)
  {
    if Basename(ghBin) == "gh" {
      GhUpdatePasses(ghBin, repo, n, title, body, decimal);
    } else {
      OtherUpdatePasses(ghBin, repo, n, title, body, decimal);
    }
  }

  lemma GhUpdatePasses(
    ghBin: string, repo: string, n: int, title: Option<string>, body: Option<string>, decimal: char -> bool)
    requires Basename(ghBin) == "gh" && (title.Some? || body.Some?)
    ensures var argv := UpdateArgv(ghBin, repo, n, title, body);
            !MergeRefused(argv, decimal) && Admitted(argv, repo) <==> IsOwnerName(repo) && n > 0
  {
    var argv := UpdateArgv(ghBin, repo, n, title, body);
    var groups := ["-X", "PATCH", PullEndpoint(repo, n)] + UpdateFields(title, body);
    var rest := ["api"] + groups;
    assert argv == [] + [ghBin] + rest;
    FoundAt([], ghBin, rest);
    GhFlags();
    Subcommand("api", groups, GhGlobalValueFlags);
    assert IsGhApi(argv) && rest[1..] == groups;
    ParsedUpdate(repo, n, title, body);
    LoopAcceptsUpdates(groups, repo);
    if Admitted(argv, repo) {
      AdmittedIsNoMerge(argv, 0, repo, decimal);
    }
  }

  /** A token that ends in an ordinary character keeps that end as a basename. */
  lemma BasenameEnd(t: string)
    requires t != "" && t[|t| - 1] != '/' && t[|t| - 1] != '.'
    ensures Basename(t) != "" && Basename(t)[|Basename(t)| - 1] == t[|t| - 1]
  {
    var i := AfterLastSlash(t);
    assert i < |t|;
    assert t[i..][|t| - i - 1] == t[|t| - 1];
  }

  /** The fixed tokens of an update are no executable's name. */
  lemma NotAnExecutable(repo: string, n: int, t: string)
    requires t in ["api", "-X", "PATCH", "-f"] || t == PullEndpoint(repo, n)
    ensures Basename(t) != "gh" && Basename(t) != "git"
  {
    assert "api"[2] == 'i' && "-X"[1] == 'X' && "PATCH"[4] == 'H' && "-f"[1] == 'f' && "gh"[1] == 'h' && "git"[2] == 't';
    assert t == PullEndpoint(repo, n) ==> t[|t| - 1] == Decimal(n)[|Decimal(n)| - 1];
    BasenameEnd(t);
  }

  predicate FieldToken(t: string)
  {
    t == "-f" || StartsWith(t, "title=") || StartsWith(t, "body=")
  }

  lemma FieldTokens(title: Option<string>, body: Option<string>)
    ensures forall t :: t in UpdateFields(title, body) ==> FieldToken(t)
  {
    assert title.Some? ==> StartsWith("title" + "=" + title.value, "title=");
    assert body.Some? ==> StartsWith("body" + "=" + body.value, "body=");
  }

  lemma NoCommandWord(repo: string, n: int, t: string)
    requires t in ["api", "-X", "PATCH"] || t == PullEndpoint(repo, n) || FieldToken(t)
    ensures t != "pr" && t != "merge" && t != "push"
    ensures FieldToken(t) ==> t != "api"
  {
    assert "merge"[4] == 'e' && "push"[3] == 'h' && "pr"[1] == 'r' && "api"[0] == 'a';
    if t == PullEndpoint(repo, n) {
      assert IsDigit(t[|t| - 1]) by { assert t[|t| - 1] == Decimal(n)[|Decimal(n)| - 1]; }
    } else if StartsWith(t, "title=") {
      assert t[0] == "title="[0] == 't';
    } else if StartsWith(t, "body=") {
      assert t[0] == "body="[0] == 'b';
    }
    assert "merge"[0] == 'm' && "push"[0] == 'p' && "pr"[0] == 'p';
  }

  /** What follows the executable in an update. */
  function UpdateTail(repo: string, n: int, title: Option<string>, body: Option<string>): seq<string>
  {
    ["api", "-X", "PATCH", PullEndpoint(repo, n)] + UpdateFields(title, body)
  }

  lemma TailHasNoSubcommand(repo: string, n: int, title: Option<string>, body: Option<string>)
    ensures NoSubcommand(UpdateTail(repo, n, title, body))
  {
    FieldTokens(title, body);
    forall t | t in UpdateTail(repo, n, title, body)
      ensures t != "pr" && t != "merge" && t != "push"
    {
      NoCommandWord(repo, n, t);
    }
  }

  /** A `gh` or `git` the guards find in the tail is in a field, and only fields follow it. */
  lemma FoundInFields(ghBin: string, repo: string, n: int, title: Option<string>, body: Option<string>, name: string, k: nat)
    requires name == "gh" || name == "git"
    requires ExecutableIndex(UpdateArgv(ghBin, repo, n, title, body), name) == Some(k) && k > 0
    ensures forall t :: t in UpdateArgv(ghBin, repo, n, title, body)[k + 1..] ==> FieldToken(t)
  {
    var argv := UpdateArgv(ghBin, repo, n, title, body);
    FieldTokens(title, body);
    if k < 5 {
      NotAnExecutable(repo, n, argv[k]);
    }
    assert argv[k + 1..] == UpdateFields(title, body)[k - 4..];
  }

  /** Without `gh` in front, the guards find no `gh` command to refuse, whatever the texts say. */
  lemma OtherUpdatePasses(
    ghBin: string, repo: string, n: int, title: Option<string>, body: Option<string>, decimal: char -> bool)
    requires Basename(ghBin) != "gh"
    ensures var argv := UpdateArgv(ghBin, repo, n, title, body);
            !MergeRefused(argv, decimal) && Admitted(argv, repo)
  {
    NoGhCommand(ghBin, repo, n, title, body, decimal);
    NoGitCommand(ghBin, repo, n, title, body, decimal);
  }

  lemma NoGhCommand(
    ghBin: string, repo: string, n: int, title: Option<string>, body: Option<string>, decimal: char -> bool)
    requires Basename(ghBin) != "gh"
    ensures var argv := UpdateArgv(ghBin, repo, n, title, body);
            !IsGhApi(argv) && !GhRefused(argv, decimal)
  {
    var argv := UpdateArgv(ghBin, repo, n, title, body);
    assert argv[0] == ghBin;
    var gh := ExecutableIndex(argv, "gh");
    if gh.Some? {
      FoundInFields(ghBin, repo, n, title, body, "gh", gh.value);
      FieldsAreNoCommand(argv[gh.value + 1..], decimal);
    }
  }

  lemma NoGitCommand(
    ghBin: string, repo: string, n: int, title: Option<string>, body: Option<string>, decimal: char -> bool)
    ensures !GitRefused(UpdateArgv(ghBin, repo, n, title, body))
  {
    var argv := UpdateArgv(ghBin, repo, n, title, body);
    var git := ExecutableIndex(argv, "git");
    if git == Some(0) {
      TailHasNoSubcommand(repo, n, title, body);
      assert argv[1..] == UpdateTail(repo, n, title, body);
      NoSubcommandNoMerge(argv[1..]);
    } else if git.Some? {
      FoundInFields(ghBin, repo, n, title, body, "git", git.value);
      FieldsAreNoCommand(argv[git.value + 1..], decimal);
    }
  }

  lemma FieldsAreNoCommand(rest: seq<string>, decimal: char -> bool)
    requires forall t :: t in rest ==> FieldToken(t)
    ensures !RefusedAsGh(rest, decimal) && !RefusedAsGit(rest)
    ensures var positionals := Positionals(rest, GhGlobalValueFlags); positionals == [] || positionals[0] != "api"
  {
    forall t | t in rest
      ensures t != "pr" && t != "merge" && t != "push" && t != "api"
    {
      NoCommandWord("", 1, t);
    }
    NoSubcommandNoMerge(rest);
    var positionals := Positionals(rest, GhGlobalValueFlags);
    assert positionals != [] ==> positionals[0] in rest;
  }

  lemma ParsedUpdate(repo: string, n: int, title: Option<string>, body: Option<string>)
    requires title.Some? || body.Some?
    ensures Accepts(["-X", "PATCH", PullEndpoint(repo, n)] + UpdateFields(title, body), None, None, [], repo) <==> n > 0
  {
    var endpoint, fields := PullEndpoint(repo, n), UpdateFields(title, body);
    PullEndpointMatches(repo, n);
    ReadEndpoint(endpoint, fields, repo);
    var before := if title.Some? then ["title"] else [];
    var second := if body.Some? then ["-f", "body" + "=" + body.value] else [];
    if title.Some? {
      FieldRead("title", title.value, second, endpoint, [], repo);
      assert [] + ["title"] == before && fields == ["-f", "title" + "=" + title.value] + second;
    } else {
      assert fields == second;
    }
    if body.Some? {
      FieldRead("body", body.value, [], endpoint, before, repo);
      assert second == second + [];
    }
  }

  lemma ReadEndpoint(endpoint: string, fields: seq<string>, repo: string)
    requires endpoint != "" && endpoint[0] != '-'
    ensures Accepts(["-X", "PATCH", endpoint] + fields, None, None, [], repo)
            == Accepts(fields, Some("PATCH"), Some(endpoint), [], repo)
  {
    var all := ["-X", "PATCH", endpoint] + fields;
    assert all[2..] == [endpoint] + fields && all[2..][1..] == fields;
    assert "-X"[0] == "-f"[0] == "-"[0] == '-';
    assert endpoint != "-X" && endpoint != "-f" && !StartsWith(endpoint, "-");
    assert Accepts(all, None, None, [], repo) == Accepts(all[2..], Some("PATCH"), None, [], repo);
  }

  lemma FieldRead(key: string, text: string, rest: seq<string>, endpoint: string, fields: seq<string>, repo: string)
    requires key in ["title", "body"] && key !in fields
    ensures Accepts(["-f", key + "=" + text] + rest, Some("PATCH"), Some(endpoint), fields, repo)
            == Accepts(rest, Some("PATCH"), Some(endpoint), fields + [key], repo)
  {
    FieldSplits(key, text);
    var all := ["-f", key + "=" + text] + rest;
    assert all[2..] == rest;
  }

  /** `update_pr` of an adapter made for `repo`, up to the call: the argv to run, or the guard's refusal. None means nothing to update. */
  method UpdatePr(
    ghBin: string, repo: string, n: int, title: Option<string>, body: Option<string>, decimal: char -> bool)
    returns (r: Result<Option<seq<string>>, Refusal>)
    ensures title.None? && body.None? <==> r == Ok(None)
    ensures title.Some? || body.Some? ==> 
              (r.Ok? <==> Basename(ghBin) != "gh" || (IsOwnerName(Stripped(repo)) && n > 0))
    ensures r.Ok? && r.value.Some? ==>
              r.value.value == [ghBin, "api", "-X", "PATCH", "repos/" + Stripped(repo) + "/pulls/" + Decimal(n)]
                               + (if title.Some? then ["-f", "title" + "=" + title.value] else [])
                               + (if body.Some? then ["-f", "body" + "=" + body.value] else [])
  {
    var own := Stripped(repo);
    var fields := UpdateFields(title, body);
    if fields == [] {
      return Ok(None);
    }
    StrippedTwice(repo);
    UpdatePasses(ghBin, own, n, title, body, decimal);
    var argv := [ghBin, "api", "-X", "PATCH", PullEndpoint(own, n)] + fields;
    var clear := AssertNotAMergeCommand(argv, decimal);
    if !clear {
      return Err(Merge);
    }
    var allowed := AssertGhApiAllowed(argv, own);
    return if allowed.Ok? then Ok(Some(argv)) else Err(allowed.error);
  }

  // ---------------------------------------------------------------- pr merge is unreachable

  /** A global flag, with its value when it takes one. */
  datatype GlobalFlag = Valued(flag: string, value: string) | Bare(flag: string)

  predicate IsFlag(g: GlobalFlag, valueFlags: set<string>)
  {
    if g.Valued? then g.flag in valueFlags else StartsWith(g.flag, "-") && g.flag !in valueFlags
  }

  function OneFlag(g: GlobalFlag): seq<string>
  {
    if g.Valued? then [g.flag, g.value] else [g.flag]
  }

  function FlagTokens(flags: seq<GlobalFlag>): seq<string>
  {
    if flags == [] then [] else OneFlag(flags[0]) + FlagTokens(flags[1..])
  }

  lemma FlagIsSkipped(g: GlobalFlag, rest: seq<string>, valueFlags: set<string>)
    requires IsFlag(g, valueFlags)
    ensures Positionals(OneFlag(g) + rest, valueFlags) == Positionals(rest, valueFlags)
  {
    var all := OneFlag(g) + rest;
    assert all[0] == g.flag && all[|OneFlag(g)|..] == rest;
  }

  lemma {:induction false} FlagsAreSkipped(flags: seq<GlobalFlag>, rest: seq<string>, valueFlags: set<string>)
    requires forall i :: 0 <= i < |flags| ==> IsFlag(flags[i], valueFlags)
    ensures Positionals(FlagTokens(flags) + rest, valueFlags) == Positionals(rest, valueFlags)
  {
    if flags == [] {
      assert FlagTokens(flags) + rest == rest;
    } else {
      FlagIsSkipped(flags[0], FlagTokens(flags[1..]) + rest, valueFlags);
      FlagsAreSkipped(flags[1..], rest, valueFlags);
      assert FlagTokens(flags) + rest == OneFlag(flags[0]) + (FlagTokens(flags[1..]) + rest);
    }
  }

  lemma GhFlags()
    ensures GhGlobalValueFlags == {"-R", "--repo", "--hostname"}
    ensures forall f :: f in GhGlobalValueFlags ==> StartsWith(f, "-")
  {
  }

  lemma Subcommand(word: string, rest: seq<string>, valueFlags: set<string>)
    requires word != "" && word[0] != '-' && forall f :: f in valueFlags ==> StartsWith(f, "-")
    ensures Positionals([word] + rest, valueFlags) == [word] + Positionals(rest, valueFlags)
  {
    assert ([word] + rest)[1..] == rest;
  }

  /** `gh ... pr merge` is refused whatever the executable path and whatever global flags precede or split it. */
  lemma PrMergeIsRefused(
    before: seq<string>, ghBin: string, flags: seq<GlobalFlag>, between: seq<GlobalFlag>, after: seq<string>,
    decimal: char -> bool)
    requires Basename(ghBin) == "gh" && forall i :: 0 <= i < |before| ==> Basename(before[i]) != "gh"
    requires forall i :: 0 <= i < |flags| ==> IsFlag(flags[i], {"-R", "--repo", "--hostname"})
    requires forall i :: 0 <= i < |between| ==> IsFlag(between[i], {"-R", "--repo", "--hostname"})
    ensures MergeRefused(
              before + [ghBin] + (FlagTokens(flags) + (["pr"] + (FlagTokens(between) + (["merge"] + after)))), decimal)
  {
    var tail := ["merge"] + after;
    var middle := FlagTokens(between) + tail;
    var rest := FlagTokens(flags) + (["pr"] + middle);
    var argv := before + [ghBin] + rest;
    FoundAt(before, ghBin, rest);
    GhFlags();
    var positionals := Positionals(rest, GhGlobalValueFlags);
    assert positionals == ["pr"] + (["merge"] + Positionals(after, GhGlobalValueFlags)) by {
      FlagsAreSkipped(flags, ["pr"] + middle, GhGlobalValueFlags);
      Subcommand("pr", middle, GhGlobalValueFlags);
      FlagsAreSkipped(between, tail, GhGlobalValueFlags);
      Subcommand("merge", after, GhGlobalValueFlags);
    }
    assert positionals[0] == "pr" && positionals[1] == "merge";
    assert RefusedAsGh(rest, decimal);
  }

  lemma FoundAt(before: seq<string>, ghBin: string, rest: seq<string>)
    requires Basename(ghBin) == "gh" && forall i :: 0 <= i < |before| ==> Basename(before[i]) != "gh"
    ensures var argv := before + [ghBin] + rest;
            ExecutableIndex(argv, "gh") == Some(|before|) && argv[|before| + 1..] == rest
  {
    var argv := before + [ghBin] + rest;
    assert argv[|before|] == ghBin && forall i :: 0 <= i < |before| ==> argv[i] == before[i];
  }
}
