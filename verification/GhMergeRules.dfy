/**
 What the merge guard refuses, written out: the paths its patterns match, and
 every `gh` and `git` command line that could merge.
 */
module GhMergeRules {
  import opened Common
  import opened Text
  import opened GhApiGuard
  import opened GitHubPrAdapter

  // ---------------------------------------------------------------- names

  /** `owner/name`: two parts, neither empty, and no further slash. */
  lemma OwnerNameMeans(repo: string)
    ensures IsOwnerName(repo)
            <==> exists owner, name ::
                   owner != "" && name != "" && '/' !in owner && '/' !in name && repo == owner + "/" + name
  {
    var slash := IndexOf(repo, '/');
    if IsOwnerName(repo) {
      var owner, name := repo[..slash], repo[slash + 1..];
      assert repo == owner + "/" + name;
    }
    if owner, name :| owner != "" && name != "" && '/' !in owner && '/' !in name && repo == owner + "/" + name {
      assert repo[|owner|] == '/' && forall i :: 0 <= i < |owner| ==> repo[i] == owner[i];
      FirstIndex(repo, '/', |owner|);
      assert repo[|owner| + 1..] == name;
    }
  }

  /** A file's basename is its last component, whatever the directory; a trailing slash or `.` changes nothing. */
  lemma BasenameOfPath(dir: string, name: string)
    requires name != "" && name != "." && '/' !in name
    ensures Basename(name) == name && Basename(dir + "/" + name) == name
    ensures Basename(dir + "/" + name + "/") == name && Basename(dir + "/" + name + "/.") == name
  {
    var path := dir + "/" + name;
    NoSlash(name);
    LastSlash(dir, name);
    LastSlash(path, "");
    assert (path + "/" + "")[..|path|] == path && path + "/" + "" == path + "/";
    LastSlash(path, ".");
    assert (path + "/" + ".")[..|path|] == path && path + "/" + "." == path + "/.";
    assert path[|dir| + 1..] == name;
  }

  lemma {:induction false} NoSlash(s: string)
    requires '/' !in s
    ensures AfterLastSlash(s) == 0
  {
    if s != "" {
      NoSlash(s[..|s| - 1]);
    }
  }

  lemma {:induction false} LastSlash(dir: string, name: string)
    requires '/' !in name
    ensures AfterLastSlash(dir + "/" + name) == |dir| + 1
  {
    var path := dir + "/" + name;
    if name == "" {
      assert path[|path| - 1] == '/';
    } else {
      LastSlash(dir, name[..|name| - 1]);
      assert path[..|path| - 1] == dir + "/" + name[..|name| - 1];
      assert path[|path| - 1] == name[|name| - 1];
    }
  }

  // ---------------------------------------------------------------- paths

  /** What may follow the last segment: nothing, a slash, and a final newline. */
  predicate IsTail(tail: string)
  {
    tail == "" || tail == "/" || tail == "\n" || tail == "/\n"
  }

  predicate IsHead(head: string)
  {
    head == "" || EndsWith(head, "/")
  }

  /** `token` is `core` after whole segments and before such a tail. */
  predicate Frames(token: string, head: string, core: string, tail: string)
  {
    IsHead(head) && IsTail(tail) && token == head + core + tail
  }

  /** `core` with a tail, and what the pattern strips of it. */
  lemma TailStrips(body: string, tail: string)
    requires IsTail(tail) && body != "" && body[|body| - 1] != '/' && body[|body| - 1] != '\n'
    ensures var token := body + tail;
            var a := if EndsWith(token, "\n") then token[..|token| - 1] else token;
            (if EndsWith(a, "/") then a[..|a| - 1] else a) == body
  {
    var token := body + tail;
    assert token[..|body|] == body;
    assert forall i :: 0 <= i < |tail| ==> token[|body| + i] == tail[i];
    if tail == "/\n" {
      assert token[..|token| - 1] == body + "/";
      assert (body + "/")[..|body|] == body;
    }
  }

  lemma Joined(head: string, core: string)
    requires IsHead(head)
    ensures head + core == core || EndsWith(head + core, "/" + core)
  {
    if head != "" {
      var all := head + core;
      assert head[|head| - 1] == '/' by { assert head[|head| - 1..] == "/"; }
      assert all[|head| - 1..] == "/" + core;
    }
  }

  /** A token in whole segments that ends in `word` matches its pattern. */
  lemma SegmentMatches(token: string, head: string, word: string, tail: string)
    requires Frames(token, head, word, tail) && word != "" && word[|word| - 1] != '/' && word[|word| - 1] != '\n'
    ensures EndsInSegment(token, word)
  {
    TailStrips(head + word, tail);
    Joined(head, word);
  }

  lemma {:induction false} DigitsDrop(head: string, digits: string, decimal: char -> bool)
    requires forall i :: 0 <= i < |digits| ==> decimal(digits[i])
    requires head != "" && !decimal(head[|head| - 1])
    ensures DropDigits(head + digits, decimal) == head
  {
    var all := head + digits;
    if digits == "" {
      assert all == head;
    } else {
      assert all[|all| - 1] == digits[|digits| - 1];
      assert all[..|all| - 1] == head + digits[..|digits| - 1];
      DigitsDrop(head, digits[..|digits| - 1], decimal);
    }
  }

  lemma Regrouped(a: string, b: string, c: string, d: string)
    ensures a + (b + c + d) == (a + b + c) + d
  {
  }

  lemma SplitsAtEnd(u: string, end: string)
    ensures EndsWith(u + end, end) && (u + end)[..|u + end| - |end|] == u
  {
  }

  /** `pulls/<digits>` in whole segments, as the pattern takes it apart. */
  lemma PullIsNamed(head: string, digits: string, decimal: char -> bool)
    requires IsHead(head) && digits != "" && (forall i :: 0 <= i < |digits| ==> decimal(digits[i])) && !decimal('/')
    ensures NamesAPull(head + "pulls/" + digits, decimal)
  {
    var v := head + "pulls/";
    assert v[|v| - 1] == "pulls/"[5] == '/';
    DigitsDrop(v, digits, decimal);
    Joined(head, "pulls/");
  }

  /** The merge endpoint of any pull request of any repository matches, whatever precedes and ends it. */
  lemma PullMergeMatches(token: string, head: string, digits: string, tail: string, decimal: char -> bool)
    requires Frames(token, head, "pulls/" + digits + "/merge", tail)
    requires digits != "" && (forall i :: 0 <= i < |digits| ==> decimal(digits[i])) && !decimal('/')
    ensures EndsInPullMerge(token, decimal)
  {
    var u := head + "pulls/" + digits;
    Regrouped(head, "pulls/", digits, "/merge");
    PullIsNamed(head, digits, decimal);
    PullEnds(token, u, tail, decimal);
  }

  lemma PullEnds(token: string, u: string, tail: string, decimal: char -> bool)
    requires IsTail(tail) && token == u + "/merge" + tail && NamesAPull(u, decimal)
    ensures EndsInPullMerge(token, decimal)
  {
    var body := u + "/merge";
    SplitsAtEnd(u, "/merge");
    assert body[|body| - 1] == "/merge"[5] == 'e';
    TailStrips(body, tail);
    var a := if EndsWith(token, "\n") then token[..|token| - 1] else token;
    assert PullMerge(a, decimal);
  }

  // The patterns match nothing else.

  /** Taking a tail off, as the patterns do. */
  lemma TailOf(token: string, a: string, t: string) returns (tail: string)
    requires a == token || (EndsWith(token, "\n") && a == token[..|token| - 1])
    requires t == if EndsWith(a, "/") then a[..|a| - 1] else a
    ensures IsTail(tail) && token == t + tail
  {
    var slash := if EndsWith(a, "/") then "/" else "";
    assert a == t + slash;
    var newline := if a == token then "" else "\n";
    assert token == a + newline;
    tail := slash + newline;
    assert token == t + tail;
  }

  lemma HeadOf(t: string, word: string) returns (head: string)
    requires t == word || EndsWith(t, "/" + word)
    ensures IsHead(head) && t == head + word
  {
    if t == word {
      head := "";
    } else {
      head := t[..|t| - |word|];
      var k := |t| - |word| - 1;
      assert t[k..] == "/" + word;
      assert t[k] == '/' && t[k + 1..] == word;
      assert head[|head| - 1..] == "/";
    }
  }

  lemma SegmentFrames(token: string, word: string) returns (head: string, tail: string)
    requires EndsInSegment(token, word)
    ensures Frames(token, head, word, tail)
  {
    var a := if LastSegment(token, word) then token else token[..|token| - 1];
    var t := if EndsWith(a, "/") then a[..|a| - 1] else a;
    tail := TailOf(token, a, t);
    head := HeadOf(t, word);
  }

  lemma {:induction false} DropSplits(u: string, decimal: char -> bool) returns (digits: string)
    ensures u == DropDigits(u, decimal) + digits && forall i :: 0 <= i < |digits| ==> decimal(digits[i])
  {
    if u != "" && decimal(u[|u| - 1]) {
      var rest := DropSplits(u[..|u| - 1], decimal);
      digits := rest + [u[|u| - 1]];
      assert u == u[..|u| - 1] + [u[|u| - 1]];
    } else {
      digits := "";
    }
  }

  lemma NamedPull(u: string, decimal: char -> bool) returns (head: string, digits: string)
    requires NamesAPull(u, decimal)
    ensures IsHead(head) && u == head + "pulls/" + digits
    ensures digits != "" && forall i :: 0 <= i < |digits| ==> decimal(digits[i])
  {
    digits := DropSplits(u, decimal);
    head := HeadOf(DropDigits(u, decimal), "pulls/");
  }

  lemma PullMergeFrames(token: string, decimal: char -> bool) returns (head: string, digits: string, tail: string)
    requires EndsInPullMerge(token, decimal)
    ensures Frames(token, head, "pulls/" + digits + "/merge", tail)
    ensures digits != "" && forall i :: 0 <= i < |digits| ==> decimal(digits[i])
  {
    var a := if PullMerge(token, decimal) then token else token[..|token| - 1];
    var t := if EndsWith(a, "/") then a[..|a| - 1] else a;
    tail := TailOf(token, a, t);
    var u := t[..|t| - 6];
    EndSplits(t, "/merge");
    head, digits := NamedPull(u, decimal);
    Regrouped(head, "pulls/", digits, "/merge");
  }

  lemma EndSplits(t: string, end: string)
    requires EndsWith(t, end)
    ensures t == t[..|t| - |end|] + end
  {
  }

  // A merging path is exactly one of these, in whole segments.

  ghost predicate EndsAt(token: string, core: string)
  {
    exists head, tail :: Frames(token, head, core, tail)
  }

  predicate AreDigits(digits: string, decimal: char -> bool)
  {
    digits != "" && forall i :: 0 <= i < |digits| ==> decimal(digits[i])
  }

  ghost predicate IsMergingPath(token: string, decimal: char -> bool)
  {
    || EndsAt(token, "merges") || EndsAt(token, "graphql")
    || exists digits :: AreDigits(digits, decimal) && EndsAt(token, "pulls/" + digits + "/merge")
  }

  lemma SegmentMeans(token: string, word: string)
    requires word != "" && word[|word| - 1] != '/' && word[|word| - 1] != '\n'
    ensures EndsInSegment(token, word) <==> EndsAt(token, word)
  {
    if EndsInSegment(token, word) {
      var head, tail := SegmentFrames(token, word);
    }
    if head, tail :| Frames(token, head, word, tail) {
      SegmentMatches(token, head, word, tail);
    }
  }

  lemma PullMergeMeans(token: string, decimal: char -> bool)
    requires !decimal('/')
    ensures EndsInPullMerge(token, decimal)
            <==> exists digits :: AreDigits(digits, decimal) && EndsAt(token, "pulls/" + digits + "/merge")
  {
    if EndsInPullMerge(token, decimal) {
      var head, digits, tail := PullMergeFrames(token, decimal);
      assert AreDigits(digits, decimal) && EndsAt(token, "pulls/" + digits + "/merge");
    }
    if digits :| AreDigits(digits, decimal) && EndsAt(token, "pulls/" + digits + "/merge") {
      var head, tail :| Frames(token, head, "pulls/" + digits + "/merge", tail);
      PullMergeMatches(token, head, digits, tail, decimal);
    }
  }

  /** The guard's patterns match exactly the merging paths. */
  lemma MergePathMeans(token: string, decimal: char -> bool)
    requires !decimal('/')
    ensures MergePath(token, decimal) <==> IsMergingPath(token, decimal)
  {
    assert "merges"[5] == 's' && "graphql"[6] == 'l';
    SegmentMeans(token, "merges");
    SegmentMeans(token, "graphql");
    PullMergeMeans(token, decimal);
  }

  // ---------------------------------------------------------------- gh pr merge

  /** `pr` directly followed by `merge` among the positionals is refused, wherever it stands. */
  lemma AdjacentPrMergeIsRefused(before: seq<string>, ghBin: string, rest: seq<string>, i: nat, decimal: char -> bool)
    requires Basename(ghBin) == "gh" && forall j :: 0 <= j < |before| ==> Basename(before[j]) != "gh"
    requires i + 1 < |Positionals(rest, {"-R", "--repo", "--hostname"})|
    requires Positionals(rest, {"-R", "--repo", "--hostname"})[i] == "pr"
    requires Positionals(rest, {"-R", "--repo", "--hostname"})[i + 1] == "merge"
    ensures MergeRefused(before + [ghBin] + rest, decimal)
  {
    FoundAt(before, ghBin, rest);
    GhFlags();
    var positionals := Positionals(rest, GhGlobalValueFlags);
    assert positionals[i] == "pr" && positionals[i + 1] == "merge";
    assert RefusedAsGh(rest, decimal);
    assert GhRefused(before + [ghBin] + rest, decimal);
  }

  // ---------------------------------------------------------------- gh api

  /** An argument group of any `gh api` call. */
  datatype Group = Flagged(flag: string, value: string) | Switch(token: string) | Path(token: string)

  predicate IsGroup(g: Group)
  {
    match g
    case Flagged(flag, _) => flag in ["-X", "--method", "-f", "-F", "--field", "--raw-field", "--input"]
    case Switch(token) =>
      StartsWith(token, "-") && '=' !in token
      && token !in ["-X", "--method", "-f", "-F", "--field", "--raw-field", "--input"]
    case Path(token) => token == "" || token[0] != '-'
  }

  function GroupTokens(groups: seq<Group>): seq<string>
  {
    if groups == [] then [] else OneGroup(groups[0]) + GroupTokens(groups[1..])
  }

  function OneGroup(g: Group): seq<string>
  {
    match g
    case Flagged(flag, value) => [flag, value]
    case Switch(token) => [token]
    case Path(token) => [token]
  }

  lemma PlainFlag(flag: string)
    requires '=' !in flag
    ensures IndexOf(flag, '=') == |flag| && flag[..|flag|] == flag
  {
    assert forall i :: 0 <= i < |flag| ==> flag[i] in flag;
  }

  lemma ScanFlagged(g: Group, rest: seq<string>, found: Option<string>)
    requires g.Flagged? && IsGroup(g)
    ensures exists next :: ScanApi(OneGroup(g) + rest, found) == ScanApi(rest, next)
  {
    var all := OneGroup(g) + rest;
    assert all[0] == g.flag && all[1] == g.value && all[2..] == rest;
    PlainFlag(g.flag);
    if IsMethodFlag(g.flag) {
      assert ScanApi(all, found) == ScanApi(rest, Some(g.value));
    } else {
      assert IsFieldFlag(g.flag);
      assert ScanApi(all, found) == ScanApi(rest, found);
    }
  }

  lemma ScanSwitch(g: Group, rest: seq<string>, found: Option<string>)
    requires g.Switch? && IsGroup(g)
    ensures ScanApi(OneGroup(g) + rest, found) == ScanApi(rest, found)
  {
    var all := OneGroup(g) + rest;
    assert all[0] == g.token && all[1..] == rest;
    PlainFlag(g.token);
  }

  lemma ScanPath(g: Group, rest: seq<string>, found: Option<string>)
    requires g.Path? && IsGroup(g)
    ensures ScanApi(OneGroup(g) + rest, found).1 == [g.token] + ScanApi(rest, found).1
  {
    var all := OneGroup(g) + rest;
    assert all[0] == g.token && all[1..] == rest;
    var flag := g.token[..IndexOf(g.token, '=')];
    assert flag != "" ==> flag[0] == g.token[0];
    assert "-X"[0] == "--method"[0] == "-f"[0] == "-F"[0] == "--field"[0] == "--raw-field"[0] == "--input"[0] == '-';
    assert "-"[0] == '-';
  }

  /** Every path is among the endpoints the guard scans, wherever it stands among flags and fields. */
  lemma {:induction false} PathsAreScanned(groups: seq<Group>, found: Option<string>, i: nat)
    requires i < |groups| && groups[i].Path? && forall j :: 0 <= j < |groups| ==> IsGroup(groups[j])
    ensures groups[i].token in ScanApi(GroupTokens(groups), found).1
    decreases |groups|
  {
    var g, rest := groups[0], GroupTokens(groups[1..]);
    assert IsGroup(g);
    match g
    case Flagged(_, _) =>
      ScanFlagged(g, rest, found);
      var next :| ScanApi(OneGroup(g) + rest, found) == ScanApi(rest, next);
      PathsAreScanned(groups[1..], next, i - 1);
    case Switch(_) =>
      ScanSwitch(g, rest, found);
      PathsAreScanned(groups[1..], found, i - 1);
    case Path(_) =>
      ScanPath(g, rest, found);
      if i > 0 {
        PathsAreScanned(groups[1..], found, i - 1);
      }
  }

  /** `gh api` with a merging path among its arguments is refused, whatever its other arguments say. */
  lemma RestMergeIsRefused(before: seq<string>, ghBin: string, groups: seq<Group>, i: nat, decimal: char -> bool)
    requires Basename(ghBin) == "gh" && forall j :: 0 <= j < |before| ==> Basename(before[j]) != "gh"
    requires i < |groups| && groups[i].Path? && forall j :: 0 <= j < |groups| ==> IsGroup(groups[j])
    requires IsMergingPath(groups[i].token, decimal) && !decimal('/')
    ensures MergeRefused(before + [ghBin] + (["api"] + GroupTokens(groups)), decimal)
  {
    var rest := ["api"] + GroupTokens(groups);
    FoundAt(before, ghBin, rest);
    MergePathMeans(groups[i].token, decimal);
    PathsAreScanned(groups, None, i);
    ApiRefused(rest, GroupTokens(groups), groups[i].token, decimal);
    assert GhRefused(before + [ghBin] + rest, decimal);
  }

  lemma ApiRefused(rest: seq<string>, tokens: seq<string>, path: string, decimal: char -> bool)
    requires rest == ["api"] + tokens && path in ScanApi(tokens, None).1 && MergePath(path, decimal)
    ensures RefusedAsGh(rest, decimal)
  {
    GhFlags();
    Subcommand("api", tokens, GhGlobalValueFlags);
    assert AfterApi(rest) == tokens;
    assert ScansAMergePath(rest, decimal);
  }

  // ---------------------------------------------------------------- git

  lemma GitFlags()
    ensures GitGlobalValueFlags == {"-C", "-c", "--git-dir", "--work-tree", "--namespace", "--config-env",
                                    "--exec-path", "--super-prefix"}
    ensures forall f :: f in GitGlobalValueFlags ==> StartsWith(f, "-")
  {
  }

  lemma GitFoundAt(before: seq<string>, gitBin: string, rest: seq<string>)
    requires Basename(gitBin) == "git" && forall i :: 0 <= i < |before| ==> Basename(before[i]) != "git"
    ensures var argv := before + [gitBin] + rest;
            ExecutableIndex(argv, "git") == Some(|before|) && argv[|before| + 1..] == rest
  {
    var argv := before + [gitBin] + rest;
    assert argv[|before|] == gitBin && forall i :: 0 <= i < |before| ==> argv[i] == before[i];
  }

  /** `git merge` is refused, and `git push` with a colon in any later argument, whatever global flags precede. */
  lemma GitMergeIsRefused(
    before: seq<string>, gitBin: string, flags: seq<GlobalFlag>, command: string, after: seq<string>, refspec: string,
    decimal: char -> bool)
    requires Basename(gitBin) == "git" && forall i :: 0 <= i < |before| ==> Basename(before[i]) != "git"
    requires forall i :: 0 <= i < |flags| ==>
               IsFlag(flags[i], {"-C", "-c", "--git-dir", "--work-tree", "--namespace", "--config-env",
                                 "--exec-path", "--super-prefix"})
    requires command == "merge" ||
             (command == "push" && ':' in refspec && refspec in Positionals(after, GitGlobalValueFlags))
    ensures MergeRefused(before + [gitBin] + (FlagTokens(flags) + ([command] + after)), decimal)
  {
    var rest := FlagTokens(flags) + ([command] + after);
    GitFoundAt(before, gitBin, rest);
    GitFlags();
    FlagsAreSkipped(flags, [command] + after, GitGlobalValueFlags);
    assert "merge"[0] == 'm' && "push"[0] == 'p';
    Subcommand(command, after, GitGlobalValueFlags);
    GitCommandRefused(rest, command, Positionals(after, GitGlobalValueFlags), refspec);
    assert GitRefused(before + [gitBin] + rest);
  }

  lemma GitCommandRefused(rest: seq<string>, command: string, later: seq<string>, refspec: string)
    requires Positionals(rest, GitGlobalValueFlags) == [command] + later
    requires command == "merge" || (command == "push" && ':' in refspec && refspec in later)
    ensures RefusedAsGit(rest)
  {
    var positionals := Positionals(rest, GitGlobalValueFlags);
    if command == "push" {
      var i :| 0 <= i < |later| && later[i] == refspec;
      assert positionals[i + 1] == refspec;
    }
  }
}
