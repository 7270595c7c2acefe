/** The survey screen: six sections of four questions, an answer store keyed by
    section and question index (the keys `section_k` and `question_q` of the source),
    and Previous / Next navigation that completes the survey from the last section. */
module Survey {
  import opened Js

  /** `answers[section_k][question_q]`, with k and q as indices. */
  type Answers = map<nat, map<nat, int>>

  const SectionCount: nat := 6
  const QuestionsPerSection: nat := 4

  /** Every question offers five options whose values are 0 .. 4, in this order. */
  const OptionValues: seq<int> := [0, 1, 2, 3, 4]

  /** The stored answer to question q of section s, or None when it is undefined. */
  function Lookup(a: Answers, s: nat, q: nat): Option<int> {
    if s in a && q in a[s] then Some(a[s][q]) else None
  }

  /** handleAnswerChange's functional update: the entry (s, q) becomes v, a missing
      section map is created, and every other entry keeps its value or stays undefined. */
  function WithAnswer(a: Answers, s: nat, q: nat, v: int): (r: Answers)
    ensures r.Keys == a.Keys + {s}
    ensures Lookup(r, s, q) == Some(v)
    ensures forall t, p :: (t != s || p != q) ==> Lookup(r, t, p) == Lookup(a, t, p)
  {
    a[s := (if s in a then a[s] else map[])[q := v]]
  }

  /** Recording the same answer twice is the same as recording it once, and a later
      answer to the same question replaces an earlier one. */
  lemma WithAnswerOverwrites(a: Answers, s: nat, q: nat, v: int, w: int)
    ensures WithAnswer(WithAnswer(a, s, q, v), s, q, v) == WithAnswer(a, s, q, v)
    ensures WithAnswer(WithAnswer(a, s, q, v), s, q, w) == WithAnswer(a, s, q, w)
  {
    var once := WithAnswer(a, s, q, v);
    assert WithAnswer(once, s, q, v)[s] == once[s];
    assert WithAnswer(once, s, q, w)[s] == WithAnswer(a, s, q, w)[s];
  }

  /** Recording an answer never removes one: every answered question stays answered. */
  lemma WithAnswerKeepsAnswers(a: Answers, s: nat, q: nat, v: int, t: nat, p: nat)
    requires Lookup(a, t, p).Some?
    ensures Lookup(WithAnswer(a, s, q, v), t, p).Some?
  {
  }

  /** `every` over question indices q .. n-1 of one section's answers. */
  function AnsweredFrom(sectionAnswers: map<nat, int>, q: nat, n: nat): (b: bool)
    decreases n - q
    ensures b <==> forall p :: q <= p < n ==> p in sectionAnswers
  {
    if q >= n then true
    else q in sectionAnswers && AnsweredFrom(sectionAnswers, q + 1, n)
  }

  /** isCurrentSectionComplete for section s: the section map exists and each of its
      four question slots is defined. */
  function SectionComplete(a: Answers, s: nat): (b: bool)
    ensures b <==> s in a && forall q :: 0 <= q < QuestionsPerSection ==> q in a[s]
  {
    s in a && AnsweredFrom(a[s], 0, QuestionsPerSection)
  }

  predicate AllComplete(a: Answers) {
    forall s :: 0 <= s < SectionCount ==> SectionComplete(a, s)
  }

  /** What the survey screen can store: section indices 0..5, question indices 0..3,
      and option values. */
  ghost predicate WellFormed(a: Answers) {
    forall s :: s in a ==>
      && s < SectionCount
      && forall q :: q in a[s] ==> q < QuestionsPerSection && a[s][q] in OptionValues
  }

  /** Every option value is an answer in [0, 4]. */
  lemma OptionValuesInRange(v: int)
    requires v in OptionValues
    ensures 0 <= v <= 4
  {
  }

  /** A complete well-formed answer set holds exactly the 24 answers: sections 0..5,
      each with questions 0..3. */
  lemma CompleteAnswersShape(a: Answers)
    requires WellFormed(a) && AllComplete(a)
    ensures forall s: nat :: s in a <==> s < SectionCount
    ensures forall s: nat, q: nat :: s in a ==> (q in a[s] <==> q < QuestionsPerSection)
  {
    forall s: nat | s < SectionCount ensures s in a {
      assert SectionComplete(a, s);
    }
    forall s: nat, q: nat | s in a ensures q in a[s] <==> q < QuestionsPerSection {
      assert s < SectionCount;
      assert SectionComplete(a, s);
    }
  }

  /** So a complete well-formed answer set has 6 sections of 4 answers each. */
  lemma CompleteAnswersCount(a: Answers)
    requires WellFormed(a) && AllComplete(a)
    ensures |a| == SectionCount
    ensures forall s :: s in a ==> |a[s]| == QuestionsPerSection
  {
    CompleteAnswersShape(a);
    CardRange(a.Keys, SectionCount);
    forall s | s in a ensures |a[s]| == QuestionsPerSection {
      CardRange(a[s].Keys, QuestionsPerSection);
    }
  }

  /** A set of naturals below n has at most n elements. */
  lemma {:induction false} CardBelow(s: set<nat>, n: nat)
    requires forall x :: x in s ==> x < n
    ensures |s| <= n
  {
    if n > 0 {
      var rest := s - {n - 1};
      CardBelow(rest, n - 1);
      assert s <= rest + {n - 1};
    } else {
      assert s == {};
    }
  }

  /** The set of all naturals below n has n elements. */
  lemma {:induction false} CardRange(s: set<nat>, n: nat)
    requires forall x: nat :: x in s <==> x < n
    ensures |s| == n
  {
    if n > 0 {
      var rest := s - {n - 1};
      CardRange(rest, n - 1);
      assert s == rest + {n - 1};
    } else {
      assert s == {};
    }
  }

  /** The Survey component's state. */
  class SurveyScreen {
    var currentSection: nat
    var answers: Answers

    /** currentSection stays within the six sections, the store holds only what the
        option buttons can record, and every section before the current one is
        complete (Next is disabled until the current section is). */
    ghost predicate Valid()
      reads this
    {
      currentSection < SectionCount
      && WellFormed(answers)
      && forall s :: 0 <= s < currentSection ==> SectionComplete(answers, s)
    }

    constructor ()
      ensures Valid()
      ensures currentSection == 0 && answers == map[]
    {
      currentSection := 0;
      answers := map[];
    }

    function IsCurrentSectionComplete(): bool
      reads this
    {
      SectionComplete(answers, currentSection)
    }

    /** handleAnswerChange(sectionIndex, questionIndex, value). Its only caller is an
        option button of the current section, which passes a question index below 4
        and one of the option values. */
    method HandleAnswerChange(sectionIndex: nat, questionIndex: nat, value: int)
      requires Valid()
      requires sectionIndex < SectionCount && questionIndex < QuestionsPerSection
      requires value in OptionValues
      modifies this
      ensures Valid()
      ensures answers == WithAnswer(old(answers), sectionIndex, questionIndex, value)
      ensures currentSection == old(currentSection)
    {
      var previous := if sectionIndex in answers then answers[sectionIndex] else map[];
      answers := answers[sectionIndex := previous[questionIndex := value]];
      forall s | 0 <= s < currentSection ensures SectionComplete(answers, s) {
        assert SectionComplete(old(answers), s);
      }
    }

    /** The Next / Complete Survey button: disabled (no effect) until the current
        section is complete; otherwise handleNext moves one section on, or, on the
        last section, hands the answers to onComplete without moving. */
    method PressNext() returns (completed: Option<Answers>)
      requires Valid()
      modifies this
      ensures Valid()
      ensures answers == old(answers)
      ensures !old(IsCurrentSectionComplete()) ==>
                currentSection == old(currentSection) && completed == None
      ensures old(IsCurrentSectionComplete()) && old(currentSection) < SectionCount - 1 ==>
                currentSection == old(currentSection) + 1 && completed == None
      ensures old(IsCurrentSectionComplete()) && old(currentSection) == SectionCount - 1 ==>
                currentSection == old(currentSection) && completed == Some(answers)
      ensures completed.Some? ==> AllComplete(completed.value) && WellFormed(completed.value)
    {
      completed := None;
      if !IsCurrentSectionComplete() {
        return;
      }
      if currentSection < SectionCount - 1 {
        currentSection := currentSection + 1;
      } else {
        completed := Some(answers);
      }
    }

    /** The Previous button (disabled on the first section) and handlePrevious, which
        only moves back when the section index is above 0. */
    method PressPrevious()
      requires Valid()
      modifies this
      ensures Valid()
      ensures answers == old(answers)
      ensures currentSection == if old(currentSection) > 0 then old(currentSection) - 1 else old(currentSection)
    {
      if currentSection > 0 {
        currentSection := currentSection - 1;
      }
    }
  }
}
