/** The ranked list of everything the planner may choose from: one candidate for every subject,
    skill and known capability tag, scored by gain over cost. */
module Candidates {
  import opened Wrappers
  import opened Rounding
  import opened Gain
  import opened Preconditions
  import opened Ordering

  /** What a ranking is made from; the vocabulary gives the capability of every spelling of a tag. */
  datatype Round = Round(world: World, vocabulary: map<string, Capability>, skills: seq<Skill>)

  datatype Exclusion = Impossible(reason: Reason) | LowGain

  datatype Candidate = Candidate(capability: string, skillId: string, point: string, aboutPrerequisite: bool,
                                 gain: real, cost: real, utility: real, blockedBy: Option<Exclusion>)
  {
    predicate Eligible() {
      blockedBy.None?
    }
  }

  const MIN_UTILITY := 0.05

  function CostOf(k: Skill, c: Capability): (cost: real)
    ensures cost >= 0.25
  {
    var weight := if k.latencyWeight.Some? && k.latencyWeight.value != 0.0 then k.latencyWeight.value else 1.0;
    var spent := weight + if k.heavy || HeavyByNature(c) then 1.5 else 0.0;
    if spent > 0.25 then spent else 0.25
  }

  /** Only a target is judged against prerequisites, and only for a target are requests heard. */
  function GainOf(w: World, c: Capability, s: Subject, requested: bool): real {
    EstimateOf(c, Enriched(w, s.view, s.isTarget), if s.isTarget then w.prerequisites else [], s.isTarget && requested, w.now).value
  }

  function Make(d: Round, s: Subject, k: Skill, tag: string): Candidate
    requires tag in d.vocabulary
  {
    var c := d.vocabulary[tag];
    var gain, cost := GainOf(d.world, c, s, tag in d.world.requested), CostOf(k, c);
    var utility, verdict := Round4(gain / cost), Verdict(c, k, d.world, s.view, s.isTarget);
    Candidate(tag, k.id, s.view.point, !s.isTarget, gain, cost, utility,
              if verdict.Some? then Some(Impossible(verdict.value)) else if utility < MIN_UTILITY then Some(LowGain) else None)
  }

  function Names(c: Candidate): seq<string> {
    [c.capability, c.point, c.skillId]
  }

  function EligibleKey(c: Candidate): Key {
    Key(c.utility, Names(c))
  }

  function ExcludedKey(c: Candidate): Key {
    Key(0.0, Names(c))
  }

  // ----- In the order of the loops -----

  function ForSkill(d: Round, s: Subject, k: Skill, n: nat): seq<Candidate>
    requires n <= |k.tags|
  {
    if n == 0 then []
    else ForSkill(d, s, k, n - 1) + if k.tags[n - 1] in d.vocabulary then [Make(d, s, k, k.tags[n - 1])] else []
  }

  function ForSubject(d: Round, s: Subject, n: nat): seq<Candidate>
    requires n <= |d.skills|
  {
    if n == 0 then [] else ForSubject(d, s, n - 1) + ForSkill(d, s, d.skills[n - 1], |d.skills[n - 1].tags|)
  }

  function ForAll(d: Round, subjects: seq<Subject>, n: nat): seq<Candidate>
    requires n <= |subjects|
  {
    if n == 0 then [] else ForAll(d, subjects, n - 1) + ForSubject(d, subjects[n - 1], |d.skills|)
  }

  function All(d: Round): seq<Candidate> {
    ForAll(d, Subjects(d.world), |Subjects(d.world)|)
  }

  // ----- Which candidates there are -----

  /** The candidate is the one for this subject and this skill. */
  predicate From(d: Round, s: Subject, k: Skill, c: Candidate) {
    c.capability in k.tags && c.capability in d.vocabulary && c == Make(d, s, k, c.capability)
  }

  ghost predicate FromSome(d: Round, s: Subject, n: nat, c: Candidate)
    requires n <= |d.skills|
  {
    exists i :: 0 <= i < n && From(d, s, d.skills[i], c)
  }

  ghost predicate FromAny(d: Round, subjects: seq<Subject>, n: nat, c: Candidate)
    requires n <= |subjects|
  {
    exists i :: 0 <= i < n && FromSome(d, subjects[i], |d.skills|, c)
  }

  ghost predicate Wanted(d: Round, c: Candidate) {
    FromAny(d, Subjects(d.world), |Subjects(d.world)|, c)
  }

  lemma {:induction false} SkillMembers(d: Round, s: Subject, k: Skill, n: nat, c: Candidate)
    requires n <= |k.tags|
    ensures c in ForSkill(d, s, k, n) <==> c.capability in k.tags[..n] && c.capability in d.vocabulary && c == Make(d, s, k, c.capability)
  {
    if n > 0 {
      SkillMembers(d, s, k, n - 1, c);
      assert k.tags[..n] == k.tags[..n - 1] + [k.tags[n - 1]];
    }
  }

  lemma {:induction false} SubjectMembers(d: Round, s: Subject, n: nat, c: Candidate)
    requires n <= |d.skills|
    ensures c in ForSubject(d, s, n) <==> FromSome(d, s, n, c)
  {
    if n > 0 {
      var k := d.skills[n - 1];
      SubjectMembers(d, s, n - 1, c);
      SkillMembers(d, s, k, |k.tags|, c);
      assert k.tags[..|k.tags|] == k.tags;
      OneMoreSkill(d, s, n, c);
    }
  }

  lemma {:induction false} OneMoreSkill(d: Round, s: Subject, n: nat, c: Candidate)
    requires 0 < n <= |d.skills|
    ensures FromSome(d, s, n, c) <==> FromSome(d, s, n - 1, c) || From(d, s, d.skills[n - 1], c)
  {
    if From(d, s, d.skills[n - 1], c) {
      assert FromSome(d, s, n, c);
    }
  }

  lemma {:induction false} OneMoreSubject(d: Round, subjects: seq<Subject>, n: nat, c: Candidate)
    requires 0 < n <= |subjects|
    ensures FromAny(d, subjects, n, c) <==> FromAny(d, subjects, n - 1, c) || FromSome(d, subjects[n - 1], |d.skills|, c)
  {
    if FromSome(d, subjects[n - 1], |d.skills|, c) {
      assert FromAny(d, subjects, n, c);
    }
  }

  lemma {:induction false} AllMembers(d: Round, subjects: seq<Subject>, n: nat, c: Candidate)
    requires n <= |subjects|
    ensures c in ForAll(d, subjects, n) <==> FromAny(d, subjects, n, c)
  {
    if n > 0 {
      AllMembers(d, subjects, n - 1, c);
      SubjectMembers(d, subjects[n - 1], |d.skills|, c);
      OneMoreSubject(d, subjects, n, c);
    }
  }

  // ----- How often -----

  predicate NoRepeats<T(==)>(s: seq<T>) {
    forall i, j :: 0 <= i < j < |s| ==> s[i] != s[j]
  }

  lemma {:induction false} JoinedNoRepeats(a: seq<Candidate>, b: seq<Candidate>)
    requires NoRepeats(a) && NoRepeats(b) && forall c :: c in a ==> c !in b
    ensures NoRepeats(a + b)
  {
    forall i, j | 0 <= i < j < |a + b| ensures (a + b)[i] != (a + b)[j] {
      assert i < |a| ==> a[i] in a;
      assert j >= |a| ==> b[j - |a|] in b;
    }
  }

  lemma {:induction false} SkillOnce(d: Round, s: Subject, k: Skill, n: nat)
    requires n <= |k.tags| && NoRepeats(k.tags)
    ensures NoRepeats(ForSkill(d, s, k, n))
  {
    if n > 0 {
      SkillOnce(d, s, k, n - 1);
      var before := ForSkill(d, s, k, n - 1);
      forall c | c in before ensures c.capability != k.tags[n - 1] {
        SkillMembers(d, s, k, n - 1, c);
      }
      JoinedNoRepeats(before, if k.tags[n - 1] in d.vocabulary then [Make(d, s, k, k.tags[n - 1])] else []);
    }
  }

  ghost predicate SkillsDiffer(d: Round) {
    && (forall i, j :: 0 <= i < j < |d.skills| ==> d.skills[i].id != d.skills[j].id)
    && (forall i :: 0 <= i < |d.skills| ==> NoRepeats(d.skills[i].tags))
  }

  lemma {:induction false} SubjectOnce(d: Round, s: Subject, n: nat)
    requires n <= |d.skills| && SkillsDiffer(d)
    ensures NoRepeats(ForSubject(d, s, n))
  {
    if n > 0 {
      var k, before := d.skills[n - 1], ForSubject(d, s, n - 1);
      SubjectOnce(d, s, n - 1);
      SkillOnce(d, s, k, |k.tags|);
      forall c | c in before ensures c !in ForSkill(d, s, k, |k.tags|) {
        SubjectMembers(d, s, n - 1, c);
        SkillMembers(d, s, k, |k.tags|, c);
      }
      JoinedNoRepeats(before, ForSkill(d, s, k, |k.tags|));
    }
  }

  ghost predicate SubjectsDiffer(subjects: seq<Subject>) {
    forall i, j :: 0 <= i < j < |subjects| ==>
      subjects[i].view.point != subjects[j].view.point || subjects[i].isTarget != subjects[j].isTarget
  }

  lemma {:induction false} AllOnce(d: Round, subjects: seq<Subject>, n: nat)
    requires n <= |subjects| && SkillsDiffer(d) && SubjectsDiffer(subjects)
    ensures NoRepeats(ForAll(d, subjects, n))
  {
    if n > 0 {
      var s, before := subjects[n - 1], ForAll(d, subjects, n - 1);
      AllOnce(d, subjects, n - 1);
      SubjectOnce(d, s, |d.skills|);
      forall c | c in before ensures c !in ForSubject(d, s, |d.skills|) {
        OtherSubject(d, subjects, n, c);
      }
      JoinedNoRepeats(before, ForSubject(d, s, |d.skills|));
    }
  }

  lemma {:induction false} OtherSubject(d: Round, subjects: seq<Subject>, n: nat, c: Candidate)
    requires 0 < n <= |subjects| && SubjectsDiffer(subjects) && c in ForAll(d, subjects, n - 1)
    ensures c !in ForSubject(d, subjects[n - 1], |d.skills|)
  {
    AllMembers(d, subjects, n - 1, c);
    SubjectMembers(d, subjects[n - 1], |d.skills|, c);
    var i :| 0 <= i < n - 1 && FromSome(d, subjects[i], |d.skills|, c);
  }

  // ----- The order of a ranking -----

  /** One key for the whole list: an eligible candidate's utility is at least MIN_UTILITY. Where
      everything else ties, a target's candidate comes before a prerequisite's. */
  function RankKey(c: Candidate): Key {
    Key(if c.Eligible() then c.utility else 0.0, Names(c) + [if c.aboutPrerequisite then "1" else "0"])
  }

  /** Every candidate that the loops make, in order. */
  ghost predicate IsRanking(d: Round, r: seq<Candidate>) {
    Sorted(r, RankKey) && multiset(r) == multiset(All(d))
  }

  lemma {:induction false} Ranked(d: Round, r: seq<Candidate>, c: Candidate)
    requires IsRanking(d, r)
    ensures c in r <==> Wanted(d, c)
  {
    AllMembers(d, Subjects(d.world), |Subjects(d.world)|, c);
    assert c in r <==> c in multiset(r);
    assert c in All(d) <==> c in multiset(All(d));
  }

  /** Rows that differ in their keys, and tags declared once, give every candidate once. */
  lemma {:induction false} RankedOnce(d: Round, r: seq<Candidate>, c: Candidate)
    requires IsRanking(d, r) && SkillsDiffer(d) && SubjectsDiffer(Subjects(d.world))
    ensures multiset(r)[c] == if Wanted(d, c) then 1 else 0
  {
    var made := All(d);
    AllOnce(d, Subjects(d.world), |Subjects(d.world)|);
    Ranked(d, r, c);
    CountedOnce(made, c);
    assert c in r <==> multiset(r)[c] > 0;
  }

  lemma {:induction false} CountedOnce(s: seq<Candidate>, c: Candidate)
    requires NoRepeats(s)
    ensures multiset(s)[c] <= 1
  {
    if s != [] {
      var init, last := s[..|s| - 1], s[|s| - 1];
      CountedOnce(init, c);
      assert s == init + [last];
      assert last !in init;
    }
  }

  /** Where a candidate of the list comes from. */
  lemma {:induction false} Source(d: Round, r: seq<Candidate>, c: Candidate) returns (s: Subject, k: Skill)
    requires IsRanking(d, r) && c in r
    ensures s in Subjects(d.world) && k in d.skills && From(d, s, k, c)
  {
    Ranked(d, r, c);
    var subjects := Subjects(d.world);
    var i :| 0 <= i < |subjects| && FromSome(d, subjects[i], |d.skills|, c);
    var j :| 0 <= j < |d.skills| && From(d, subjects[i], d.skills[j], c);
    s, k := subjects[i], d.skills[j];
  }

  lemma {:induction false} Listed(d: Round, r: seq<Candidate>, s: Subject, k: Skill, c: Candidate)
    requires IsRanking(d, r) && s in Subjects(d.world) && k in d.skills && From(d, s, k, c)
    ensures c in r
  {
    var subjects := Subjects(d.world);
    var i :| 0 <= i < |subjects| && subjects[i] == s;
    var j :| 0 <= j < |d.skills| && d.skills[j] == k;
    assert FromSome(d, subjects[i], |d.skills|, c);
    Ranked(d, r, c);
  }

  /** The eligible candidates come first, by descending utility; equals are ordered by name. */
  lemma {:induction false} EligibleFirst(d: Round, r: seq<Candidate>, i: nat, j: nat)
    requires IsRanking(d, r) && i < j < |r|
    ensures r[j].Eligible() ==> r[i].Eligible() && r[i].utility >= r[j].utility >= MIN_UTILITY
    ensures r[i].Eligible() == r[j].Eligible() && (r[i].Eligible() ==> r[i].utility == r[j].utility) ==>
      NamesLe(Names(r[i]), Names(r[j]))
  {
    assert r[i] in multiset(r) && r[j] in multiset(r);
    WorthChoosing(d, r[i]);
    WorthChoosing(d, r[j]);
    assert Le(RankKey(r[i]), RankKey(r[j]));
    if RankKey(r[i]).rank == RankKey(r[j]).rank {
      NamesInit(Names(r[i]), Names(r[j]), RankKey(r[i]).names[3], RankKey(r[j]).names[3]);
    }
  }

  lemma {:induction false} WorthChoosing(d: Round, c: Candidate)
    requires c in All(d)
    ensures c.Eligible() ==> c.utility >= MIN_UTILITY
  {
    var subjects := Subjects(d.world);
    AllMembers(d, subjects, |subjects|, c);
    var i :| 0 <= i < |subjects| && FromSome(d, subjects[i], |d.skills|, c);
    var j :| 0 <= j < |d.skills| && From(d, subjects[i], d.skills[j], c);
  }

  lemma {:induction false} NamesInit(a: seq<string>, b: seq<string>, x: string, y: string)
    requires |a| == |b| && NamesLe(a + [x], b + [y])
    ensures NamesLe(a, b)
    decreases |a|
  {
    if a != [] {
      assert (a + [x])[1..] == a[1..] + [x] && (b + [y])[1..] == b[1..] + [y];
      if a[0] == b[0] {
        NamesInit(a[1..], b[1..], x, y);
      }
    }
  }

  // ----- Generating -----

  /** The eligible or the other candidates among those made, in the order they were made. */
  function Part(made: seq<Candidate>, eligible: bool): seq<Candidate> {
    if made == [] then []
    else Part(made[..|made| - 1], eligible) + if made[|made| - 1].Eligible() == eligible then [made[|made| - 1]] else []
  }

  ghost predicate Holds(made: seq<Candidate>, eligible: seq<Candidate>, excluded: seq<Candidate>) {
    eligible == Part(made, true) && excluded == Part(made, false)
  }

  lemma {:induction false} PartCounts(made: seq<Candidate>, eligible: bool, c: Candidate)
    ensures multiset(Part(made, eligible))[c] == if c.Eligible() == eligible then multiset(made)[c] else 0
  {
    if made != [] {
      PartCounts(made[..|made| - 1], eligible, c);
      assert made == made[..|made| - 1] + [made[|made| - 1]];
    }
  }

  lemma {:induction false} PartMembers(made: seq<Candidate>, eligible: bool, c: Candidate)
    ensures c in Part(made, eligible) <==> c in made && c.Eligible() == eligible
  {
    PartCounts(made, eligible, c);
    assert c in Part(made, eligible) <==> multiset(Part(made, eligible))[c] > 0;
    assert c in made <==> multiset(made)[c] > 0;
  }

  method AddSkill(d: Round, s: Subject, k: Skill, eligible: seq<Candidate>, excluded: seq<Candidate>, ghost made: seq<Candidate>)
    returns (eligible': seq<Candidate>, excluded': seq<Candidate>)
    requires Holds(made, eligible, excluded)
    ensures Holds(made + ForSkill(d, s, k, |k.tags|), eligible', excluded')
  {
    eligible', excluded' := eligible, excluded;
    ghost var now := made;
    for n := 0 to |k.tags|
      invariant now == made + ForSkill(d, s, k, n) && Holds(now, eligible', excluded')
    {
      NextTag(d, s, k, n, made);
      if k.tags[n] in d.vocabulary {
        var c := Make(d, s, k, k.tags[n]);
        OneMore(now, eligible', excluded', c);
        now := now + [c];
        if c.Eligible() {
          eligible' := eligible' + [c];
        } else {
          excluded' := excluded' + [c];
        }
      }
    }
  }

  lemma {:induction false} NextTag(d: Round, s: Subject, k: Skill, n: nat, made: seq<Candidate>)
    requires n < |k.tags|
    ensures made + ForSkill(d, s, k, n + 1) ==
      if k.tags[n] in d.vocabulary then made + ForSkill(d, s, k, n) + [Make(d, s, k, k.tags[n])] else made + ForSkill(d, s, k, n)
  {
    assert ForSkill(d, s, k, n) + [] == ForSkill(d, s, k, n);
  }

  lemma {:induction false} OneMore(made: seq<Candidate>, eligible: seq<Candidate>, excluded: seq<Candidate>, c: Candidate)
    requires Holds(made, eligible, excluded)
    ensures c.Eligible() ==> Holds(made + [c], eligible + [c], excluded)
    ensures !c.Eligible() ==> Holds(made + [c], eligible, excluded + [c])
  {
    assert (made + [c])[..|made|] == made;
  }

  lemma {:induction false} NextSkill(d: Round, s: Subject, n: nat, made: seq<Candidate>)
    requires n < |d.skills|
    ensures made + ForSubject(d, s, n + 1) == made + ForSubject(d, s, n) + ForSkill(d, s, d.skills[n], |d.skills[n].tags|)
  {
  }

  method AddSubject(d: Round, s: Subject, eligible: seq<Candidate>, excluded: seq<Candidate>, ghost made: seq<Candidate>)
    returns (eligible': seq<Candidate>, excluded': seq<Candidate>)
    requires Holds(made, eligible, excluded)
    ensures Holds(made + ForSubject(d, s, |d.skills|), eligible', excluded')
  {
    eligible', excluded' := eligible, excluded;
    assert made + [] == made;
    for n := 0 to |d.skills|
      invariant Holds(made + ForSubject(d, s, n), eligible', excluded')
    {
      NextSkill(d, s, n, made);
      eligible', excluded' := AddSkill(d, s, d.skills[n], eligible', excluded', made + ForSubject(d, s, n));
    }
  }

  method Generate(d: Round) returns (r: seq<Candidate>)
    ensures IsRanking(d, r)
  {
    var eligible, excluded: seq<Candidate> := [], [];
    var subjects := Subjects(d.world);
    for n := 0 to |subjects|
      invariant Holds(ForAll(d, subjects, n), eligible, excluded)
    {
      eligible, excluded := AddSubject(d, subjects[n], eligible, excluded, ForAll(d, subjects, n));
    }
    SortedLists(d, eligible, excluded);
    r := Sort(eligible, EligibleKey) + Sort(excluded, ExcludedKey);
  }

  /** Targets come first among the subjects, so their candidates are made first. */
  ghost predicate TargetsFirst(made: seq<Candidate>) {
    forall i, j :: 0 <= i < j < |made| && made[i].aboutPrerequisite ==> made[j].aboutPrerequisite
  }

  lemma {:induction false} SubjectsInOrder(w: World)
    ensures forall i :: 0 <= i < |Subjects(w)| ==> (Subjects(w)[i].isTarget <==> i < |Targets(w)|)
  {
    var targets, weak := Marked(Targets(w)), Weak(w.prerequisites);
    forall i | 0 <= i < |weak| ensures !weak[i].isTarget {
      WeakAre(w.prerequisites, weak[i]);
    }
  }

  lemma {:induction false} MadeTargetsFirst(d: Round, n: nat)
    requires n <= |Subjects(d.world)|
    ensures TargetsFirst(ForAll(d, Subjects(d.world), n))
    ensures n > 0 && Subjects(d.world)[n - 1].isTarget ==> forall c :: c in ForAll(d, Subjects(d.world), n) ==> !c.aboutPrerequisite
  {
    if n > 0 {
      MadeTargetsFirst(d, n - 1);
      SubjectsInOrder(d.world);
      var before, s := ForAll(d, Subjects(d.world), n - 1), Subjects(d.world)[n - 1];
      var now := ForSubject(d, s, |d.skills|);
      forall c | c in now ensures c.aboutPrerequisite == !s.isTarget {
        SubjectMembers(d, s, |d.skills|, c);
      }
      forall i, j | 0 <= i < j < |before + now| && (before + now)[i].aboutPrerequisite ensures (before + now)[j].aboutPrerequisite {
        assert i < |before| ==> (before + now)[i] == before[i] && before[i] in before;
        assert j >= |before| ==> (before + now)[j] == now[j - |before|] && now[j - |before|] in now;
      }
    }
  }

  lemma {:induction false} PartTargetsFirst(made: seq<Candidate>, eligible: bool)
    requires TargetsFirst(made)
    ensures TargetsFirst(Part(made, eligible))
  {
    if made != [] {
      var init, last := made[..|made| - 1], made[|made| - 1];
      PartTargetsFirst(init, eligible);
      var part := Part(init, eligible);
      forall i | 0 <= i < |part| && part[i].aboutPrerequisite ensures last.aboutPrerequisite {
        PartMembers(init, eligible, part[i]);
        var k :| 0 <= k < |init| && init[k] == part[i];
        assert made[k].aboutPrerequisite;
      }
    }
  }

  /** A stable sort of one of the lists by its own key sorts it by the one key. */
  lemma {:induction false} PartIsSorted(part: seq<Candidate>, key: Candidate -> Key)
    requires TargetsFirst(part) && forall c :: c in part ==> key(c) == Key(RankKey(c).rank, Names(c))
    ensures Sorted(Sort(part, key), RankKey)
  {
    forall x, y | x in part && y in part && key(x) != key(y) && Le(key(x), key(y)) ensures Le(RankKey(x), RankKey(y)) {
      FinerKey(x, y);
    }
    forall i, j | 0 <= i < j < |part| && key(part[i]) == key(part[j]) ensures Le(RankKey(part[i]), RankKey(part[j])) {
      assert part[i] in part && part[j] in part;
      FinerKey(part[i], part[j]);
    }
    SortIsStable(part, key, RankKey);
  }

  lemma {:induction false} FinerKey(x: Candidate, y: Candidate)
    requires RankKey(x).rank >= RankKey(y).rank
    requires RankKey(x).rank == RankKey(y).rank ==> NamesLe(Names(x), Names(y)) || Names(x) == Names(y)
    requires RankKey(x).rank == RankKey(y).rank && Names(x) == Names(y) ==> (x.aboutPrerequisite ==> y.aboutPrerequisite)
    ensures Le(RankKey(x), RankKey(y))
  {
    if RankKey(x).rank == RankKey(y).rank {
      NamesOrder(Names(x), Names(y), Names(x));
      NamesSnoc(Names(x), Names(y), if x.aboutPrerequisite then "1" else "0", if y.aboutPrerequisite then "1" else "0");
      assert StringLe("0", "1") && StringLe("0", "0") && StringLe("1", "1");
    }
  }

  lemma {:induction false} SortedPart(d: Round, eligible: bool, key: Candidate -> Key) returns (part: seq<Candidate>)
    requires key == (if eligible then EligibleKey else ExcludedKey)
    ensures part == Sort(Part(All(d), eligible), key) && Sorted(part, RankKey)
    ensures multiset(part) == multiset(Part(All(d), eligible))
    ensures forall c :: c in part ==> c.Eligible() == eligible && (eligible ==> c.utility >= MIN_UTILITY)
  {
    var made := All(d);
    var kept := Part(made, eligible);
    part := Sort(kept, key);
    MadeTargetsFirst(d, |Subjects(d.world)|);
    PartTargetsFirst(made, eligible);
    forall c | c in kept ensures c in made && c.Eligible() == eligible {
      PartMembers(made, eligible, c);
    }
    PartIsSorted(kept, key);
    SortSorts(kept, key);
    forall c | c in part ensures c.Eligible() == eligible && (eligible ==> c.utility >= MIN_UTILITY) {
      SortedMembers(kept, key, c);
      WorthChoosing(d, c);
    }
  }

  lemma {:induction false} SortedLists(d: Round, eligible: seq<Candidate>, excluded: seq<Candidate>)
    requires Holds(All(d), eligible, excluded)
    ensures IsRanking(d, Sort(eligible, EligibleKey) + Sort(excluded, ExcludedKey))
  {
    var a := SortedPart(d, true, EligibleKey);
    var b := SortedPart(d, false, ExcludedKey);
    Reunited(All(d), a, b);
    OneOrder(a, b);
  }

  lemma {:induction false} SortedMembers(part: seq<Candidate>, key: Candidate -> Key, c: Candidate)
    ensures c in Sort(part, key) <==> c in part
  {
    SortSorts(part, key);
    assert c in Sort(part, key) <==> c in multiset(part);
  }

  /** The two sorted lists one after the other are sorted. */
  lemma {:induction false} OneOrder(a: seq<Candidate>, b: seq<Candidate>)
    requires Sorted(a, RankKey) && Sorted(b, RankKey)
    requires forall c :: c in a ==> c.Eligible() && c.utility >= MIN_UTILITY
    requires forall c :: c in b ==> !c.Eligible()
    ensures Sorted(a + b, RankKey)
  {
    forall i, j | 0 <= i < j < |a + b| ensures Le(RankKey((a + b)[i]), RankKey((a + b)[j])) {
      if j < |a| {
        assert Le(RankKey(a[i]), RankKey(a[j]));
      } else if i >= |a| {
        assert Le(RankKey(b[i - |a|]), RankKey(b[j - |a|]));
      } else {
        assert (a + b)[i] in a && (a + b)[j] in b;
      }
    }
  }

  lemma {:induction false} Reunited(made: seq<Candidate>, a: seq<Candidate>, b: seq<Candidate>)
    requires multiset(a) == multiset(Part(made, true)) && multiset(b) == multiset(Part(made, false))
    ensures multiset(a + b) == multiset(made)
  {
    forall c ensures multiset(a + b)[c] == multiset(made)[c] {
      PartCounts(made, true, c);
      PartCounts(made, false, c);
      assert multiset(a + b)[c] == multiset(a)[c] + multiset(b)[c];
    }
  }

  // ----- The list does not depend on the order of anything -----

  /** The same rows, in any order: of targets, of prerequisites and of skills. */
  ghost predicate Permuted(d: Round, e: Round) {
    && e.world == d.world.(targets := e.world.targets, prerequisites := e.world.prerequisites)
    && e.vocabulary == d.vocabulary
    && multiset(e.world.targets) == multiset(d.world.targets)
    && multiset(e.world.prerequisites) == multiset(d.world.prerequisites)
    && multiset(e.skills) == multiset(d.skills)
  }

  lemma {:induction false} SameMake(d: Round, e: Round, s: Subject, k: Skill, tag: string)
    requires Permuted(d, e) && tag in d.vocabulary
    ensures Make(d, s, k, tag) == Make(e, s, k, tag)
  {
    var c := d.vocabulary[tag];
    if s.isTarget {
      ValueForgetsOrder(c, Enriched(d.world, s.view, true), d.world.prerequisites, e.world.prerequisites,
                        tag in d.world.requested, d.world.now);
    }
  }

  lemma {:induction false} SameForSkill(d: Round, e: Round, s: Subject, k: Skill, n: nat)
    requires Permuted(d, e) && n <= |k.tags|
    ensures ForSkill(d, s, k, n) == ForSkill(e, s, k, n)
  {
    if n > 0 {
      SameForSkill(d, e, s, k, n - 1);
      if k.tags[n - 1] in d.vocabulary {
        SameMake(d, e, s, k, k.tags[n - 1]);
      }
    }
  }

  function SkillBag(d: Round, s: Subject): Skill -> multiset<Candidate> {
    (k: Skill) => multiset(ForSkill(d, s, k, |k.tags|))
  }

  function SubjectBag(d: Round): Subject -> multiset<Candidate> {
    (s: Subject) => multiset(ForSubject(d, s, |d.skills|))
  }

  lemma {:induction false} SubjectBagIs(d: Round, s: Subject, n: nat)
    requires n <= |d.skills|
    ensures multiset(ForSubject(d, s, n)) == Bag(d.skills[..n], SkillBag(d, s))
  {
    if n > 0 {
      SubjectBagIs(d, s, n - 1);
      assert d.skills[..n][..n - 1] == d.skills[..n - 1];
    }
  }

  lemma {:induction false} AllBagIs(d: Round, subjects: seq<Subject>, n: nat)
    requires n <= |subjects|
    ensures multiset(ForAll(d, subjects, n)) == Bag(subjects[..n], SubjectBag(d))
  {
    if n > 0 {
      AllBagIs(d, subjects, n - 1);
      assert subjects[..n][..n - 1] == subjects[..n - 1];
    }
  }

  lemma {:induction false} SameSubjectBag(d: Round, e: Round, s: Subject)
    requires Permuted(d, e)
    ensures SubjectBag(d)(s) == SubjectBag(e)(s)
  {
    SubjectBagIs(d, s, |d.skills|);
    SubjectBagIs(e, s, |e.skills|);
    assert d.skills[..|d.skills|] == d.skills && e.skills[..|e.skills|] == e.skills;
    forall k: Skill ensures SkillBag(d, s)(k) == SkillBag(e, s)(k) {
      SameForSkill(d, e, s, k, |k.tags|);
    }
    SameBags(d.skills, SkillBag(d, s), SkillBag(e, s));
    BagForgetsOrder(d.skills, e.skills, SkillBag(e, s));
  }

  function TargetBag(): View -> multiset<Subject> {
    (v: View) => multiset{Subject(v, true)}
  }

  function WeakBag(): View -> multiset<Subject> {
    (v: View) => if v.IsWeak() then multiset{Subject(v, false)} else multiset{}
  }

  lemma {:induction false} MarkedBagIs(views: seq<View>)
    ensures multiset(Marked(views)) == Bag(views, TargetBag())
  {
    if views != [] {
      var init, last := views[..|views| - 1], views[|views| - 1];
      MarkedBagIs(init);
      assert Marked(views) == Marked(init) + [Subject(last, true)];
    }
  }

  lemma {:induction false} WeakBagIs(views: seq<View>)
    ensures multiset(Weak(views)) == Bag(views, WeakBag())
  {
    if views != [] {
      WeakBagIs(views[..|views| - 1]);
    }
  }

  lemma {:induction false} SameSubjects(w: World, x: World)
    requires multiset(w.targets) == multiset(x.targets) && w.target == x.target
    requires multiset(w.prerequisites) == multiset(x.prerequisites)
    ensures multiset(Subjects(w)) == multiset(Subjects(x))
  {
    assert |multiset(w.targets)| == |multiset(x.targets)|;
    MarkedBagIs(Targets(w));
    MarkedBagIs(Targets(x));
    WeakBagIs(w.prerequisites);
    WeakBagIs(x.prerequisites);
    BagForgetsOrder(Targets(w), Targets(x), TargetBag());
    BagForgetsOrder(w.prerequisites, x.prerequisites, WeakBag());
  }

  lemma {:induction false} SameAll(d: Round, e: Round)
    requires Permuted(d, e)
    ensures multiset(All(d)) == multiset(All(e))
  {
    var subjects, others := Subjects(d.world), Subjects(e.world);
    SameSubjects(d.world, e.world);
    AllBagIs(d, subjects, |subjects|);
    AllBagIs(e, others, |others|);
    assert subjects[..|subjects|] == subjects && others[..|others|] == others;
    forall s ensures SubjectBag(d)(s) == SubjectBag(e)(s) {
      SameSubjectBag(d, e, s);
    }
    SameBags(subjects, SubjectBag(d), SubjectBag(e));
    BagForgetsOrder(subjects, others, SubjectBag(e));
  }

  /** Profile rows are keyed by point and registry rows by id. */
  ghost predicate Keyed(d: Round) {
    && (forall v, u :: v in Targets(d.world) && u in Targets(d.world) && v.point == u.point ==> v == u)
    && (forall v, u :: v in d.world.prerequisites && u in d.world.prerequisites && v.point == u.point ==> v == u)
    && (forall k, l :: k in d.skills && l in d.skills && k.id == l.id ==> k == l)
  }

  /** Candidates of one rank and one name are one candidate. */
  lemma {:induction false} SameName(d: Round, r: seq<Candidate>, a: Candidate, b: Candidate)
    requires Keyed(d) && IsRanking(d, r) && a in r && b in r && RankKey(a) == RankKey(b)
    ensures a == b
  {
    var s, k := Source(d, r, a);
    var t, l := Source(d, r, b);
    var x, y := RankKey(a).names, RankKey(b).names;
    assert x[0] == y[0] && x[1] == y[1] && x[2] == y[2] && x[3] == y[3];
    assert a.aboutPrerequisite == b.aboutPrerequisite by {
      assert "1"[0] != "0"[0];
    }
    SubjectsAre(d.world, s);
    SubjectsAre(d.world, t);
  }

  /** Any order of the targets, of the prerequisites and of the skill rows gives the same list. */
  lemma {:induction false} RankingForgetsOrder(d: Round, r: seq<Candidate>, e: Round, r': seq<Candidate>)
    requires Keyed(d) && Permuted(d, e) && IsRanking(d, r) && IsRanking(e, r')
    ensures r == r'
  {
    SameAll(d, e);
    forall a, b | a in r && b in r && RankKey(a) == RankKey(b) ensures a == b {
      SameName(d, r, a, b);
    }
    SortedIsUnique(r, r', RankKey);
  }

  // ----- What may be chosen -----

  /** A direct question leaves three capabilities, without an artifact request nothing heavy is
      offered, an open quiz closes quizzes and probing for the target, and eight capabilities are
      never offered for a prerequisite. */
  lemma {:induction false} EligibleAreAllowed(d: Round, r: seq<Candidate>, c: Candidate)
    requires IsRanking(d, r) && c in r && c.Eligible()
    ensures c.capability in d.vocabulary
    ensures var capability, w := d.vocabulary[c.capability], d.world;
      && (w.directQuestion ==> capability in {DialogAnswer, DialogConverse, TeachExplain})
      && (!w.allowHeavy ==> !HeavyByNature(capability))
      && (w.hasOpenQuiz && !c.aboutPrerequisite ==> capability !in {AssessGenerate, DialogProbe})
      && (capability == AssessGrade ==> w.hasUngraded)
      && (c.aboutPrerequisite ==>
            capability !in {AssessGrade, DialogAnswer, DialogProbe, MetaReport, ReviewSchedule, MetaAuthorSkill, MetaEvaluate,
                            DialogNegotiate})
  {
    var s, k := Source(d, r, c);
    assert Verdict(d.vocabulary[c.capability], k, d.world, s.view, s.isTarget).None?;
  }

  /** The candidates for a prerequisite are the same whatever happened for the target: artifacts,
      quizzes, questions, submissions, requests, due reviews and the targets themselves. */
  lemma {:induction false} PrerequisitesSeeNoTaskFacts(d: Round, r: seq<Candidate>, e: Round, r': seq<Candidate>, c: Candidate)
    requires IsRanking(d, r) && IsRanking(e, r') && e.vocabulary == d.vocabulary && e.skills == d.skills
    requires e.world.prerequisites == d.world.prerequisites && e.world.now == d.world.now
    requires e.world.allowHeavy == d.world.allowHeavy && e.world.directQuestion == d.world.directQuestion
    requires c in r && c.aboutPrerequisite
    ensures c in r'
  {
    var s, k := Source(d, r, c);
    SubjectsAre(d.world, s);
    SubjectsAre(e.world, s);
    PrerequisiteVerdict(d.vocabulary[c.capability], k, d.world, e.world, s.view);
    Listed(e, r', s, k, c);
  }

  lemma {:induction false} PrerequisiteVerdict(c: Capability, k: Skill, w: World, x: World, v: View)
    requires w.allowHeavy == x.allowHeavy && w.directQuestion == x.directQuestion
    ensures Verdict(c, k, w, v, false) == Verdict(c, k, x, v, false)
  {
  }

  /** A direct question and a missing artifact request only ever take candidates away: what is left
      is offered unchanged without them. */
  lemma {:induction false} RestrictionsOnlyRestrict(d: Round, r: seq<Candidate>, e: Round, r': seq<Candidate>, c: Candidate)
    requires IsRanking(d, r) && IsRanking(e, r')
    requires e == d.(world := d.world.(directQuestion := e.world.directQuestion, allowHeavy := e.world.allowHeavy))
    requires (d.world.directQuestion ==> e.world.directQuestion) && (e.world.allowHeavy ==> d.world.allowHeavy)
    requires c in r' && c.Eligible()
    ensures c in r
  {
    var s, k := Source(e, r', c);
    LessRestricted(d.vocabulary[c.capability], k, d.world, e.world, s);
    Listed(d, r, s, k, c);
  }

  lemma {:induction false} LessRestricted(c: Capability, k: Skill, w: World, x: World, s: Subject)
    requires x == w.(directQuestion := x.directQuestion, allowHeavy := x.allowHeavy)
    requires (w.directQuestion ==> x.directQuestion) && (x.allowHeavy ==> w.allowHeavy)
    requires Verdict(c, k, x, s.view, s.isTarget).None?
    ensures Verdict(c, k, w, s.view, s.isTarget).None? && Subjects(w) == Subjects(x)
  {
  }
}
