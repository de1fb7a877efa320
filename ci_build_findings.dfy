/** Concrete runs of ci-build.js's `scheduleBuilds` as written, and the
    schedule its two tracks evidently intend. */
module CiBuildFindings {
  import opened Wrappers
  import opened Protocol
  import opened Cursor
  import opened CiBuild

  /** The shared `commitIndex`: the dev step's trigger moves the open track's
      commit cursor, so the first pass sends the open project's second
      commit and never its first. */
  lemma SharedCommitIndexSkipsCommit()
    ensures var lists := Lists(["A"], [["d1"]], ["X"], [["o1", "o2"]]);
            Cascade(lists, Shared(0, 0, 0), [Dev, Open], []) ==
            Synced(Shared(0, 0, 2), [Issued(Dev, Trigger("A", "d1")), Issued(Open, Trigger("X", "o2"))], false)
  {
    var lists := Lists(["A"], [["d1"]], ["X"], [["o1", "o2"]]);
    var log1 := [Issued(Dev, Trigger("A", "d1"))];
    assert DevStep(lists, Shared(0, 0, 0)) == Stepped(Started(log1[0]), Shared(0, 0, 1));
    assert OpenStep(lists, Shared(0, 0, 1)) == Stepped(Started(Issued(Open, Trigger("X", "o2"))), Shared(0, 0, 2));
  }

  /** The open step reads at the dev cursor: with no dev projects, the open
      track sends its first project's commit twice and finishes without
      ever sending the second project's commit. */
  lemma OpenStepReadsDevCursor()
    ensures var lists := Lists([], [], ["X", "Y"], [["o1"], ["o2"]]);
            var first := Cascade(lists, Shared(0, 0, 0), [Dev, Open], []);
            var second := Cascade(lists, first.state, [Open], first.log);
            var third := Cascade(lists, second.state, [Open], second.log);
            first == Synced(Shared(0, 0, 1), [Issued(Open, Trigger("X", "o1"))], false) &&
            second == Synced(Shared(0, 1, 1), [Issued(Open, Trigger("X", "o1")), Issued(Open, Trigger("X", "o1"))], false) &&
            third == Synced(Shared(0, 2, 0), second.log, false) &&
            OpenStep(lists, third.state).result.Finished?
  {
    var lists := Lists([], [], ["X", "Y"], [["o1"], ["o2"]]);
    var o1 := Issued(Open, Trigger("X", "o1"));
    assert OpenStep(lists, Shared(0, 0, 0)) == Stepped(Started(o1), Shared(0, 0, 1));
    assert OpenStep(lists, Shared(0, 0, 1)) == Stepped(Advanced, Shared(0, 1, 0));
    assert OpenStep(lists, Shared(0, 1, 0)) == Stepped(Started(o1), Shared(0, 1, 1));
    assert OpenStep(lists, Shared(0, 1, 1)) == Stepped(Advanced, Shared(0, 2, 0));
    assert Cascade(lists, Shared(0, 1, 0), [Dev, Open], [o1]) == Synced(Shared(0, 1, 1), [o1, o1], false);
    assert Cascade(lists, Shared(0, 2, 0), [Dev, Open], [o1, o1]) == Synced(Shared(0, 2, 0), [o1, o1], false);
  }

  /** A second effect of reading at the dev cursor: an empty first dev
      project advances the dev cursor past the only open commit list, and the
      open step then reads the length of an undefined list, so the first
      synchronous pass throws before anything is sent. */
  lemma EmptyDevProjectThrows()
    ensures var lists := Lists(["A"], [[]], ["X"], [["o1"]]);
            Cascade(lists, Shared(0, 0, 0), [Dev, Open], []) == Synced(Shared(1, 0, 0), [], true)
  {
    var lists := Lists(["A"], [[]], ["X"], [["o1"]]);
    assert DevStep(lists, Shared(0, 0, 0)) == Stepped(Advanced, Shared(1, 0, 0));
    assert DevStep(lists, Shared(1, 0, 0)) == Stepped(Finished, Shared(1, 0, 0));
    assert OpenStep(lists, Shared(1, 0, 0)) == Stepped(Threw, Shared(1, 0, 0));
    assert [Dev, Open] + [Dev, Open][1..] == [Dev, Open, Open];
    assert [Open, Open][1..] == [Open];
  }

  /** The re-entry on an advance: the open step's advance calls
      `startNextBuild`, whose dev step sends the dev commit a second time while
      the first trigger for it is still in flight; the open commit is never
      sent. */
  lemma AdvanceReentersBothTracks()
    ensures var lists := Lists(["A"], [["d1"]], ["X"], [["o1"]]);
            Cascade(lists, Shared(0, 0, 0), [Dev, Open], []) ==
            Synced(Shared(0, 1, 1), [Issued(Dev, Trigger("A", "d1")), Issued(Dev, Trigger("A", "d1"))], false)
  {
    var lists := Lists(["A"], [["d1"]], ["X"], [["o1"]]);
    var d1 := Issued(Dev, Trigger("A", "d1"));
    assert DevStep(lists, Shared(0, 0, 0)) == Stepped(Started(d1), Shared(0, 0, 1));
    assert OpenStep(lists, Shared(0, 0, 1)) == Stepped(Advanced, Shared(0, 1, 0));
    assert DevStep(lists, Shared(0, 1, 0)) == Stepped(Started(d1), Shared(0, 1, 1));
    assert OpenStep(lists, Shared(0, 1, 1)) == Stepped(Finished, Shared(0, 1, 1));
    assert [Dev, Open][1..] == [Open] && [Open][1..] == [] && [Dev, Open] + [Open][1..] == [Dev, Open];
    assert [d1] + [d1] == [d1, d1];
    assert Cascade(lists, Shared(0, 1, 1), [Open], [d1, d1]) == Synced(Shared(0, 1, 1), [d1, d1], false);
    assert Cascade(lists, Shared(0, 1, 0), [Dev, Open], [d1]) == Synced(Shared(0, 1, 1), [d1, d1], false);
    assert Cascade(lists, Shared(0, 0, 1), [Open], [d1]) == Synced(Shared(0, 1, 1), [d1, d1], false);
  }

  /** The same re-entry later in a run: acknowledging the open triggers
      drives the open track to its advance, which re-enters the dev step and
      sends the dev commit again. Each acknowledgement continues from the
      cursors and log as they stand, whatever became of the dev trigger. */
  lemma OpenAdvanceResendsDevCommit()
    ensures var lists := Lists(["A"], [["d1"]], ["X"], [["o1", "o2", "o3"]]);
            var d1 := Issued(Dev, Trigger("A", "d1"));
            var o2 := Issued(Open, Trigger("X", "o2"));
            var o3 := Issued(Open, Trigger("X", "o3"));
            Cascade(lists, Shared(0, 0, 0), [Dev, Open], []) == Synced(Shared(0, 0, 2), [d1, o2], false) &&
            Cascade(lists, Shared(0, 0, 2), [Open], [d1, o2]) == Synced(Shared(0, 0, 3), [d1, o2, o3], false) &&
            Cascade(lists, Shared(0, 0, 3), [Open], [d1, o2, o3]) == Synced(Shared(0, 1, 1), [d1, o2, o3, d1], false)
  {
    var lists := Lists(["A"], [["d1"]], ["X"], [["o1", "o2", "o3"]]);
    var d1 := Issued(Dev, Trigger("A", "d1"));
    var o2 := Issued(Open, Trigger("X", "o2"));
    var o3 := Issued(Open, Trigger("X", "o3"));
    assert DevStep(lists, Shared(0, 0, 0)) == Stepped(Started(d1), Shared(0, 0, 1));
    assert OpenStep(lists, Shared(0, 0, 1)) == Stepped(Started(o2), Shared(0, 0, 2));
    assert OpenStep(lists, Shared(0, 0, 2)) == Stepped(Started(o3), Shared(0, 0, 3));
    assert OpenStep(lists, Shared(0, 0, 3)) == Stepped(Advanced, Shared(0, 1, 0));
    assert DevStep(lists, Shared(0, 1, 0)) == Stepped(Started(d1), Shared(0, 1, 1));
    assert OpenStep(lists, Shared(0, 1, 1)) == Stepped(Finished, Shared(0, 1, 1));
    assert [Dev, Open][1..] == [Open] && [Open][1..] == [] && [Dev, Open] + [Open][1..] == [Dev, Open];
    assert [d1] + [o2] == [d1, o2] && [d1, o2] + [o3] == [d1, o2, o3] && [d1, o2, o3] + [d1] == [d1, o2, o3, d1];
    assert Cascade(lists, Shared(0, 1, 1), [Open], [d1, o2, o3, d1]) == Synced(Shared(0, 1, 1), [d1, o2, o3, d1], false);
    assert Cascade(lists, Shared(0, 1, 0), [Dev, Open], [d1, o2, o3]) == Synced(Shared(0, 1, 1), [d1, o2, o3, d1], false);
    assert Cascade(lists, Shared(0, 0, 1), [Open], [d1]) == Synced(Shared(0, 0, 2), [d1, o2], false);
  }

  /** The run above on a `Scheduler`: the dev trigger is rejected first, and
      the dev commit is still sent a second time once the open track
      advances, so a rejection does not stop its own track. */
  method RejectedDevCommitIsResent() returns (rejection: Result<()>, log: seq<Issued>, inFlight: seq<Issued>)
    ensures rejection == Err(StartBuildFailure("A", "d1"))
    ensures log == [Issued(Dev, Trigger("A", "d1")), Issued(Open, Trigger("X", "o2")),
                    Issued(Open, Trigger("X", "o3")), Issued(Dev, Trigger("A", "d1"))]
    ensures inFlight == [Issued(Dev, Trigger("A", "d1"))]
  {
    var lists := Lists(["A"], [["d1"]], ["X"], [["o1", "o2", "o3"]]);
    OpenAdvanceResendsDevCommit();
    var s, threw := ScheduleBuilds(lists);
    var outcome;
    rejection, threw := s.Acknowledge(0, PostReply(500));
    outcome, threw := s.Acknowledge(0, PostReply(200));
    outcome, threw := s.Acknowledge(0, PostReply(200));
    log, inFlight := s.log, s.inFlight;
  }

  /** The schedule the two tracks evidently intend: each track runs the
      cursor machine over its own projects with its own project and commit
      cursors, and a rejection stops that track only. `devAccepted(k)` and
      `openAccepted(k)` say whether the k-th trigger of that track is
      acknowledged. Neither track reads the other's cursors or acknowledgements,
      so each log is determined by its own track alone. */
  method ScheduleTracks(lists: Lists, devAccepted: nat -> bool, openAccepted: nat -> bool)
    returns (devLog: seq<Trigger>, devCompleted: bool, openLog: seq<Trigger>, openCompleted: bool)
    requires lists.Wellformed()
    ensures devLog <= Flatten(lists.devProjects, lists.devCommits)
    ensures openLog <= Flatten(lists.openProjects, lists.openCommits)
    ensures forall k :: 0 <= k < |devLog| - 1 ==> devAccepted(k)
    ensures forall k :: 0 <= k < |openLog| - 1 ==> openAccepted(k)
    ensures devCompleted <==> devLog == Flatten(lists.devProjects, lists.devCommits) &&
                              forall k :: 0 <= k < |devLog| ==> devAccepted(k)
    ensures openCompleted <==> openLog == Flatten(lists.openProjects, lists.openCommits) &&
                               forall k :: 0 <= k < |openLog| ==> openAccepted(k)
    ensures !devCompleted ==> |devLog| > 0 && !devAccepted(|devLog| - 1)
    ensures !openCompleted ==> |openLog| > 0 && !openAccepted(|openLog| - 1)
  {
    devLog, devCompleted := RunTrack(lists.devProjects, lists.devCommits, devAccepted);
    openLog, openCompleted := RunTrack(lists.openProjects, lists.openCommits, openAccepted);
  }

  /** On the inputs of the three runs above, the intended schedule sends
      every commit once, in order, when every trigger is acknowledged. */
  lemma IntendedLogs()
    ensures Flatten(["X"], [["o1", "o2"]]) == [Trigger("X", "o1"), Trigger("X", "o2")]
    ensures Flatten(["X", "Y"], [["o1"], ["o2"]]) == [Trigger("X", "o1"), Trigger("Y", "o2")]
    ensures Flatten(["A"], [["d1"]]) == [Trigger("A", "d1")]
  {
    var xy: seq<seq<string>> := [["o1"], ["o2"]];
    assert xy[..1] == [["o1"]];
    assert [["o1"]][..0] == [];
    assert [["o1", "o2"]][..0] == [];
    assert [["d1"]][..0] == [];
  }
}
