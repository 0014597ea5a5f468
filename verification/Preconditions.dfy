/** What makes an action impossible right now, for the goal's target and for a weak prerequisite:
    the subjects of a round, the facts each one sees, and the reason a skill is blocked. */
module Preconditions {
  import opened Wrappers
  import opened Gain

  predicate HeavyByNature(c: Capability) {
    c == ContentLessonIntro || c == ContentDeck || c == ContentVisual
  }

  datatype World = World(target: View, targets: seq<View>, prerequisites: seq<View>, anythingDue: bool, requested: set<string>,
                         hasOpenQuiz: bool, hasUngraded: bool, artifacts: set<string>, openQuestions: nat,
                         directQuestion: bool, allowHeavy: bool, now: int)

  /** A registry row; its tags are in the order they are declared. */
  datatype Skill = Skill(id: string, tags: seq<string>, enabled: bool, provider: string, heavy: bool, latencyWeight: Option<real>)

  /** A knowledge point worth acting on this round. */
  datatype Subject = Subject(view: View, isTarget: bool)

  // ----- Subjects -----

  function Weak(views: seq<View>): seq<Subject> {
    if views == [] then []
    else Weak(views[..|views| - 1]) + if views[|views| - 1].IsWeak() then [Subject(views[|views| - 1], false)] else []
  }

  function Marked(views: seq<View>): seq<Subject> {
    seq(|views|, i requires 0 <= i < |views| => Subject(views[i], true))
  }

  function Targets(w: World): (targets: seq<View>)
    ensures targets != []
  {
    if w.targets == [] then [w.target] else w.targets
  }

  function Subjects(w: World): seq<Subject> {
    Marked(Targets(w)) + Weak(w.prerequisites)
  }

  lemma {:induction false} WeakAre(views: seq<View>, s: Subject)
    ensures s in Weak(views) <==> !s.isTarget && s.view in views && s.view.IsWeak()
  {
    if views != [] {
      WeakAre(views[..|views| - 1], s);
      assert views == views[..|views| - 1] + [views[|views| - 1]];
    }
  }

  /** A subject is a target of the goal or a prerequisite that the learner has not met; the first
      subject is always a target. */
  lemma {:induction false} SubjectsAre(w: World, s: Subject)
    ensures s in Subjects(w) <==> if s.isTarget then s.view in Targets(w) else s.view in w.prerequisites && s.view.IsWeak()
    ensures Subjects(w) != [] && Subjects(w)[0].isTarget
  {
    var targets := Targets(w);
    WeakAre(w.prerequisites, s);
    if s.isTarget && s.view in targets {
      var i :| 0 <= i < |targets| && targets[i] == s.view;
      assert Marked(targets)[i] == s;
    }
    assert Subjects(w)[0] == Marked(targets)[0];
  }

  /** Artifacts, quizzes and questions belong to the target only. */
  function Enriched(w: World, v: View, isTarget: bool): View {
    v.(hasLessonIntro := isTarget && "lesson-intro" in w.artifacts,
       hasDeck := isTarget && "lecture-deck" in w.artifacts,
       hasVisual := isTarget && "visual" in w.artifacts,
       hasOpenQuiz := isTarget && w.hasOpenQuiz,
       openQuestions := if isTarget then w.openQuestions else 0)
  }

  // ----- Blocking -----

  /** The first reason that applies, in the order of the checks. */
  datatype Reason =
    | Disabled | NoProvider | NoArtifactRequest | AnalysisNotNeeded | AnswerFirst
    | NothingToGrade | NoEvidence | AlreadyThere | OpenQuiz | NoQuestion | NoNeedToProbe | UnfinishedQuiz
    | TargetOnly | NothingDue | NeverScheduled

  function Block(c: Capability, k: Skill, w: World, v: View, isTarget: bool): Option<Reason> {
    if !k.enabled then Some(Disabled)
    else if k.provider == "" then Some(NoProvider)
    else if !w.allowHeavy && (HeavyByNature(c) || k.heavy) then Some(NoArtifactRequest)
    else if w.directQuestion && c == GraphPrerequisite then Some(AnalysisNotNeeded)
    else if w.directQuestion && c != DialogAnswer && c != DialogConverse && c != TeachExplain then Some(AnswerFirst)
    else StateBlock(c, w, v, isTarget)
  }

  function StateBlock(c: Capability, w: World, v: View, isTarget: bool): Option<Reason> {
    match c
    case AssessGrade => if isTarget && w.hasUngraded then None else Some(NothingToGrade)
    case AssessInterpret => if v.evidenceCount == 0 then Some(NoEvidence) else None
    case ContentLessonIntro => if v.hasLessonIntro then Some(AlreadyThere) else None
    case ContentDeck => if v.hasDeck then Some(AlreadyThere) else None
    case ContentVisual => if v.hasVisual then Some(AlreadyThere) else None
    case AssessGenerate => if v.hasOpenQuiz then Some(OpenQuiz) else None
    case DialogAnswer => if v.openQuestions == 0 then Some(NoQuestion) else None
    case DialogProbe =>
      if !isTarget || !(0.25 <= v.mastery <= 0.75 || v.misconceptions != []) then Some(NoNeedToProbe)
      else if w.hasOpenQuiz || w.hasUngraded then Some(UnfinishedQuiz)
      else None
    case MetaReport => if !isTarget then Some(TargetOnly) else if v.evidenceCount == 0 then Some(NoEvidence) else None
    case ReviewSchedule =>
      if !isTarget then Some(TargetOnly) else if !w.anythingDue && v.reviewPriority < 0.3 then Some(NothingDue) else None
    case MetaAuthorSkill => Some(NeverScheduled)
    case MetaEvaluate => Some(NeverScheduled)
    case DialogNegotiate => Some(NeverScheduled)
    case _ => None
  }

  function Verdict(c: Capability, k: Skill, w: World, v: View, isTarget: bool): Option<Reason> {
    Block(c, k, w, Enriched(w, v, isTarget), isTarget)
  }
}
