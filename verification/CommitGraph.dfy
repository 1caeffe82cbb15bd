/**
 Git commits as content-addressed values: a commit carries its parents, so its
 history is fixed when it is made and no later write can change it.
 */
module CommitGraph {
  datatype Commit = Commit(id: nat, parents: seq<Commit>)

  /** `d` is `c` or an ancestor of it (`git merge-base --is-ancestor d c`). */
  predicate Reaches(c: Commit, d: Commit)
  {
    c == d || exists i :: 0 <= i < |c.parents| && Reaches(c.parents[i], d)
  }

  /** Everything reachable from an ancestor is reachable from the descendant. */
  lemma {:induction false} ReachesTransitive(a: Commit, b: Commit, c: Commit)
    requires Reaches(a, b) && Reaches(b, c)
    ensures Reaches(a, c)
    decreases a
  {
    if a != b {
      var i :| 0 <= i < |a.parents| && Reaches(a.parents[i], b);
      ReachesTransitive(a.parents[i], b, c);
    }
  }

  /** Each commit of the list is a parent of the one before it. */
  predicate IsLine(line: seq<Commit>)
  {
    line != [] && forall i :: 0 < i < |line| ==> line[i] in line[i - 1].parents
  }

  /** Reaching is following parents. */
  lemma {:induction false} ReachesFindsLine(c: Commit, d: Commit) returns (line: seq<Commit>)
    requires Reaches(c, d)
    ensures IsLine(line) && line[0] == c && line[|line| - 1] == d
    decreases c
  {
    if c == d {
      line := [c];
    } else {
      var i :| 0 <= i < |c.parents| && Reaches(c.parents[i], d);
      var rest := ReachesFindsLine(c.parents[i], d);
      line := [c] + rest;
    }
  }

  lemma {:induction false} LineIsReached(line: seq<Commit>)
    requires IsLine(line)
    ensures Reaches(line[0], line[|line| - 1])
  {
    if |line| > 1 {
      var rest := line[1..];
      assert forall i :: 0 < i < |rest| ==> rest[i] == line[i + 1] && rest[i - 1] == line[i];
      LineIsReached(rest);
      var i :| 0 <= i < |line[0].parents| && line[0].parents[i] == line[1];
    }
  }

  /** `d` is in the history of `c` exactly when parents lead from `c` to `d`. */
  lemma ReachesMeansHistory(c: Commit, d: Commit)
    ensures Reaches(c, d) <==> exists line :: IsLine(line) && line[0] == c && line[|line| - 1] == d
  {
    if Reaches(c, d) {
      var line := ReachesFindsLine(c, d);
    }
    if line :| IsLine(line) && line[0] == c && line[|line| - 1] == d {
      LineIsReached(line);
    }
  }
}
