/**
 * packages/runtime/src/mockllm.ts: the deterministic stand-in for a language
 * model. The reply depends only on the role and the input: a fixed plan for
 * the Planner, a pseudo artifact quoting the first 40 characters of the input
 * for the Worker, a score for the Critic that ends the run unless the input
 * mentions TODO or stub, and an echo for any other role.
 */
module MockLlm {

  import opened Text

  /** The plan the Planner role always answers with, as JSON text. */
  const PlanText: string :=
    "{\"plan\":[\"Define requirements\",\"Choose services\",\"Design data flow\",\"Outline scaling\",\"List risks\"]}"

  const ArtifactHead: string := "Artifact: Drafted section for \""
  const ArtifactTail: string := "...\" with bullet points and a diagram stub."

  /** The revision score, written as the score and the advice so that its letters can be checked piece by piece. */
  const ScoreHead: string := "Score: 6/10. "
  const ReviseAdvice: string := "Improve specifics and remove TODOs."
  const ReviseScore: string := ScoreHead + ReviseAdvice
  const AcceptScore: string := "Score: 9/10. Looks solid. control:done"

  /** The Worker reply: the quoted input prefix inside a fixed frame. */
  function Artifact(input: string, width: nat): string {
    ArtifactHead + Take(input, width) + ArtifactTail
  }

  /** /TODO|stub/i.test(input) */
  predicate NeedsRevision(input: string) {
    ContainsIgnoreCase(input, "TODO") || ContainsIgnoreCase(input, "stub")
  }

  /** mockLLM(role, input): the reply for a role. */
  function Reply(role: string, input: string): string {
    if role == "Planner" then PlanText
    else if role == "Worker" then Artifact(input, 40)
    else if role == "Critic" then (if NeedsRevision(input) then ReviseScore else AcceptScore)
    else "Echo(" + role + "): " + input
  }

  // ---------------------------------------------------------------- facts about the literals

  /** The frame's tail names a stub, so every artifact does. */
  lemma ArtifactMentionsStub(input: string, width: nat)
    ensures Contains(Artifact(input, width), "stub")
    ensures ContainsIgnoreCase(Artifact(input, width), "stub")
  {
    assert ArtifactTail[38..42] == "stub";
    ContainsAt(ArtifactTail, "stub", 38);
    ContainsRight(ArtifactHead + Take(input, width), ArtifactTail, "stub");
    ContainsThenIgnoreCase(Artifact(input, width), "stub");
  }

  /** The artifact quotes the input prefix right after the head. */
  lemma ArtifactQuotes(input: string, width: nat)
    ensures |Artifact(input, width)| == |ArtifactHead| + |Take(input, width)| + |ArtifactTail|
    ensures Artifact(input, width)[|ArtifactHead|..|ArtifactHead| + |Take(input, width)|] == Take(input, width)
    ensures Contains(Artifact(input, width), Take(input, width))
  {
    var a := Artifact(input, width);
    var t := Take(input, width);
    assert a[|ArtifactHead|..|ArtifactHead| + |t|] == t;
    ContainsAt(a, t, |ArtifactHead|);
  }

  /** Lower-case text is its own case fold. */
  lemma LowerOfLowercase(s: string)
    requires forall c | c in s :: !('A' <= c <= 'Z')
    ensures Lower(s) == s
  {
    forall i | 0 <= i < |s| ensures Lower(s)[i] == s[i] {
      assert s[i] in s;
    }
  }

  /** A letter missing from s in both cases is missing from its case fold. */
  lemma LowerMissing(s: string)
    requires 'l' !in s && 'L' !in s
    ensures 'l' !in Lower(s)
  {
    forall i | 0 <= i < |s| ensures Lower(s)[i] != 'l' {
      assert s[i] in s;
    }
  }

  lemma ReviseScoreHasNoLower()
    ensures 'l' !in ReviseScore
  {
    assert 'l' !in ScoreHead;
    assert 'l' !in ReviseAdvice;
  }

  lemma ReviseScoreHasNoUpper()
    ensures 'L' !in ReviseScore
  {
    assert 'L' !in ScoreHead;
    assert 'L' !in ReviseAdvice;
  }

  /** 'l' never occurs in the revision score, in either case. */
  lemma ReviseScoreHasNoL()
    ensures 'l' !in ReviseScore && 'l' !in Lower(ReviseScore)
  {
    ReviseScoreHasNoLower();
    ReviseScoreHasNoUpper();
    LowerMissing(ReviseScore);
  }

  /** The pattern /control:done/i in its canonical lower-case form. */
  lemma ControlDoneLower()
    ensures Lower("control:done") == "control:done"
    ensures 'l' in "control:done"
  {
    assert forall c | c in "control:done" :: !('A' <= c <= 'Z');
    LowerOfLowercase("control:done");
  }

  lemma AcceptScoreEnds()
    ensures Contains(AcceptScore, "control:done")
    ensures ContainsIgnoreCase(AcceptScore, "control:done")
  {
    assert AcceptScore[26..38] == "control:done";
    ContainsAt(AcceptScore, "control:done", 26);
    ContainsThenIgnoreCase(AcceptScore, "control:done");
  }

  lemma ReviseScoreContinues()
    ensures !Contains(ReviseScore, "control:done")
    ensures !ContainsIgnoreCase(ReviseScore, "control:done")
  {
    ReviseScoreHasNoL();
    ControlDoneLower();
    NotContainsMissingChar(ReviseScore, "control:done", 'l');
    NotContainsMissingChar(Lower(ReviseScore), "control:done", 'l');
  }

  // ---------------------------------------------------------------- the roles

  /** The Planner's reply is the same plan whatever the input. */
  lemma PlannerIgnoresInput(a: string, b: string)
    ensures Reply("Planner", a) == Reply("Planner", b) == PlanText
  {
  }

  /** The Worker's reply for any input mentions a stub and quotes the input's first 40 characters. */
  lemma WorkerReply(input: string)
    ensures Reply("Worker", input) == Artifact(input, 40)
    ensures ContainsIgnoreCase(Reply("Worker", input), "stub")
    ensures Contains(Reply("Worker", input), Take(input, 40))
  {
    var w := Reply("Worker", input);
    assert w == Artifact(input, 40);
    ArtifactMentionsStub(input, 40);
    ArtifactQuotes(input, 40);
  }

  /** The Critic's reply signals control:done exactly when the input mentions neither TODO nor stub. */
  lemma CriticSignalsDone(input: string)
    ensures ContainsIgnoreCase(Reply("Critic", input), "control:done") <==> !NeedsRevision(input)
    ensures Contains(Reply("Critic", input), "control:done") <==> !NeedsRevision(input)
  {
    if NeedsRevision(input) {
      assert Reply("Critic", input) == ReviseScore;
      ReviseScoreContinues();
    } else {
      assert Reply("Critic", input) == AcceptScore;
      AcceptScoreEnds();
    }
  }

  /** Reviewing any Worker reply asks for a revision: the mocked pair never finishes on its own. */
  lemma CriticRejectsWorker(input: string)
    ensures NeedsRevision(Reply("Worker", input))
    ensures Reply("Critic", Reply("Worker", input)) == ReviseScore
    ensures !ContainsIgnoreCase(Reply("Critic", Reply("Worker", input)), "control:done")
  {
    WorkerReply(input);
    CriticSignalsDone(Reply("Worker", input));
  }

  /** Any role other than the three named ones gets its input echoed back behind its name. */
  lemma OtherRolesEcho(role: string, input: string)
    requires role != "Planner" && role != "Worker" && role != "Critic"
    ensures Reply(role, input) == "Echo(" + role + "): " + input
    ensures |Reply(role, input)| == |role| + |input| + 8
  {
  }
}
