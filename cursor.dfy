/** The single-track cursor machine of `scheduleBuilds` in ci-open.js: a
    project cursor and a commit cursor over a list of per-project commit
    lists, one trigger at a time, each issued only after the previous one was
    acknowledged. */
module Cursor {

  /** One trigger request: a project name and a commit to build. */
  datatype Trigger = Trigger(project: string, commit: string)

  /** The triggers for one project: `(project, c)` for each commit `c`, in order. */
  function Pairs(project: string, commits: seq<string>): (r: seq<Trigger>)
  {
    seq(|commits|, j requires 0 <= j < |commits| => Trigger(project, commits[j]))
  }

  /** The in-order flattening of `(projects[i], commitLists[i][j])`. */
  function Flatten(projects: seq<string>, commitLists: seq<seq<string>>): (r: seq<Trigger>)
    requires |commitLists| <= |projects|
    decreases |commitLists|
  {
    if commitLists == [] then []
    else
      var n := |commitLists| - 1;
      Flatten(projects, commitLists[..n]) + Pairs(projects[n], commitLists[n])
  }

  /** The number of commits over all projects. */
  function TotalCommits(commitLists: seq<seq<string>>): nat
    decreases |commitLists|
  {
    if commitLists == [] then 0
    else TotalCommits(commitLists[..|commitLists| - 1]) + |commitLists[|commitLists| - 1]|
  }

  lemma PairsExtend(project: string, commits: seq<string>, j: nat)
    requires j < |commits|
    ensures Pairs(project, commits[..j + 1]) == Pairs(project, commits[..j]) + [Trigger(project, commits[j])]
  {
  }

  lemma {:induction false} FlattenExtend(projects: seq<string>, commitLists: seq<seq<string>>, i: nat)
    requires i < |commitLists| <= |projects|
    ensures Flatten(projects, commitLists[..i + 1]) == Flatten(projects, commitLists[..i]) + Pairs(projects[i], commitLists[i])
  {
    assert commitLists[..i + 1][..i] == commitLists[..i];
  }

  /** Flattening the first `i` projects gives a prefix of the whole flattening. */
  lemma {:induction false} FlattenPrefix(projects: seq<string>, commitLists: seq<seq<string>>, i: nat)
    requires i <= |commitLists| <= |projects|
    ensures Flatten(projects, commitLists[..i]) <= Flatten(projects, commitLists)
    decreases |commitLists| - i
  {
    if i == |commitLists| {
      assert commitLists[..i] == commitLists;
    } else {
      FlattenExtend(projects, commitLists, i);
      FlattenPrefix(projects, commitLists, i + 1);
      assert commitLists[..i + 1][..] == commitLists[..i + 1];
    }
  }

  /** The triggers before cursor `(i, j)`: all of the first `i` projects and
      the first `j` commits of project `i`. */
  function Done(projects: seq<string>, commitLists: seq<seq<string>>, i: nat, j: nat): (r: seq<Trigger>)
    requires i <= |commitLists| <= |projects|
    requires i < |commitLists| ==> j <= |commitLists[i]|
  {
    Flatten(projects, commitLists[..i]) +
    (if i < |commitLists| then Pairs(projects[i], commitLists[i][..j]) else [])
  }

  /** Every cursor position marks a prefix of the whole flattening. */
  lemma DoneIsPrefix(projects: seq<string>, commitLists: seq<seq<string>>, i: nat, j: nat)
    requires i <= |commitLists| <= |projects|
    requires i < |commitLists| ==> j <= |commitLists[i]|
    ensures Done(projects, commitLists, i, j) <= Flatten(projects, commitLists)
  {
    if i < |commitLists| {
      FlattenExtend(projects, commitLists, i);
      FlattenPrefix(projects, commitLists, i + 1);
      assert Pairs(projects[i], commitLists[i][..j]) <= Pairs(projects[i], commitLists[i]);
    } else {
      FlattenPrefix(projects, commitLists, i);
    }
  }

  /** The flattening holds one trigger per commit. */
  lemma {:induction false} FlattenLength(projects: seq<string>, commitLists: seq<seq<string>>)
    requires |commitLists| <= |projects|
    ensures |Flatten(projects, commitLists)| == TotalCommits(commitLists)
    decreases |commitLists|
  {
    if commitLists != [] {
      FlattenLength(projects, commitLists[..|commitLists| - 1]);
    }
  }

  /** A trigger is in the flattening exactly when it pairs some project with
      one of that project's commits. */
  lemma {:induction false} FlattenMembers(projects: seq<string>, commitLists: seq<seq<string>>, t: Trigger)
    requires |commitLists| <= |projects|
    ensures t in Flatten(projects, commitLists) <==>
            exists i, j :: 0 <= i < |commitLists| && 0 <= j < |commitLists[i]| &&
                           t == Trigger(projects[i], commitLists[i][j])
    decreases |commitLists|
  {
    if commitLists != [] {
      var n := |commitLists| - 1;
      var front := commitLists[..n];
      FlattenMembers(projects, front, t);
      if t in Flatten(projects, commitLists) {
        if t in Flatten(projects, front) {
          var i, j :| 0 <= i < |front| && 0 <= j < |front[i]| && t == Trigger(projects[i], front[i][j]);
          assert commitLists[i] == front[i];
        } else {
          assert t in Pairs(projects[n], commitLists[n]);
          var j :| 0 <= j < |commitLists[n]| && Pairs(projects[n], commitLists[n])[j] == t;
          assert t == Trigger(projects[n], commitLists[n][j]);
        }
      } else {
        forall i, j | 0 <= i < |commitLists| && 0 <= j < |commitLists[i]|
          ensures t != Trigger(projects[i], commitLists[i][j])
        {
          if i < n {
            assert commitLists[i] == front[i];
          } else {
            assert Pairs(projects[n], commitLists[n])[j] == Trigger(projects[n], commitLists[n][j]);
          }
        }
      }
    }
  }

  /** Projects `["A", "B"]` with commits `[["c1", "c2"], ["c3"]]` give exactly
      `(A, c1)`, `(A, c2)`, `(B, c3)`. */
  lemma FlattenExample()
    ensures Flatten(["A", "B"], [["c1", "c2"], ["c3"]]) ==
            [Trigger("A", "c1"), Trigger("A", "c2"), Trigger("B", "c3")]
  {
    var ps: seq<string> := ["A", "B"];
    var cs: seq<seq<string>> := [["c1", "c2"], ["c3"]];
    assert cs[..1][..0] == [];
    assert Flatten(ps, cs[..1]) == Pairs("A", ["c1", "c2"]);
    assert cs[..1] == [["c1", "c2"]];
  }

  /** Runs the cursor machine. `accepted(k)` is whether the k-th trigger
      (counting from 0) is acknowledged. Empty or exhausted projects are
      skipped without a trigger; each trigger advances the commit cursor by
      one and the next trigger waits for its acknowledgement; the first
      rejected trigger stops the run. */
  method RunTrack(projectNames: seq<string>, projectCommits: seq<seq<string>>, accepted: nat -> bool)
    returns (sent: seq<Trigger>, completed: bool)
    requires |projectCommits| <= |projectNames|
    ensures sent <= Flatten(projectNames, projectCommits)
    ensures forall k :: 0 <= k < |sent| - 1 ==> accepted(k)
    ensures completed <==> sent == Flatten(projectNames, projectCommits) && forall k :: 0 <= k < |sent| ==> accepted(k)
    ensures !completed ==> |sent| > 0 && !accepted(|sent| - 1)
  {
    var projectIndex, commitIndex := 0, 0;
    var rejected := false;
    sent := [];
    while projectIndex < |projectCommits| && !rejected
      invariant projectIndex <= |projectCommits|
      invariant projectIndex < |projectCommits| ==> commitIndex <= |projectCommits[projectIndex]|
      invariant sent == Done(projectNames, projectCommits, projectIndex, commitIndex)
      invariant forall k :: 0 <= k < |sent| - 1 ==> accepted(k)
      invariant rejected <==> |sent| > 0 && !accepted(|sent| - 1)
      decreases |projectCommits| - projectIndex,
                if projectIndex < |projectCommits| then |projectCommits[projectIndex]| - commitIndex else 0
    {
      var gitCommits := projectCommits[projectIndex];
      if commitIndex >= |gitCommits| {
        // Done with this project: move on to the next one.
        assert gitCommits[..commitIndex] == gitCommits;
        FlattenExtend(projectNames, projectCommits, projectIndex);
        projectIndex, commitIndex := projectIndex + 1, 0;
      } else {
        var projectName := projectNames[projectIndex];
        var commitSHA := gitCommits[commitIndex];
        PairsExtend(projectName, gitCommits, commitIndex);
        commitIndex := commitIndex + 1;
        sent := sent + [Trigger(projectName, commitSHA)];
        rejected := !accepted(|sent| - 1);
      }
    }
    DoneIsPrefix(projectNames, projectCommits, projectIndex, commitIndex);
    if !rejected {
      assert projectCommits[..projectIndex] == projectCommits;
    }
    completed := !rejected;
  }
}
