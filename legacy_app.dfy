/** The legacy server-rendered funnel (legacy_python/main.py).
    The relational store is three tables held as sequences in insertion
    (row) order; `.first()` is the first matching row. The read-only handlers
    are functions of the tables; the handlers that insert or update rows are
    methods of the `Store` class; every handler returns the page it renders
    or the page it redirects to. */
module LegacyApp {
  import opened Common
  import opened Strings
  import opened Sorting

  datatype Quiz = Quiz(id: int, slug: string, name: string, description: Option<string>, isActive: bool)

  /** One `{value, label}` entry of a question's `answers` JSON column. */
  datatype AnswerOption = AnswerOption(value: string, labelText: string)

  datatype Question = Question(
    quizId: int, text: string, questionType: string, order: int,
    answers: seq<AnswerOption>, isActive: bool)

  /** `submittedAt` is the clock reading the database default supplies. */
  datatype Lead = Lead(quizId: int, email: string, firstName: Option<string>, lastName: Option<string>, submittedAt: int)

  /** Redirect targets of the funnel and of the admin forms. */
  datatype Page =
    | Dashboard
    | QuestionListPage(slug: string)
    | QuestionPage(slug: string, order: int)
    | LeadFormPage(slug: string)
    | ResultsPage(slug: string)

  /** What a handler answers: the plain-text 404, a 303 redirect, a rendered
      template (with the values the template receives), or the server error
      the unique slug constraint raises. */
  datatype Response =
    | NotFound
    | ServerError
    | Redirect(to: Page)
    | RenderIntro(quiz: Quiz)
    | RenderQuestion(quiz: Quiz, question: Question, progress: real)
    | RenderLeadForm(quiz: Quiz)
    | RenderResults(quiz: Quiz)

  // ---------------------------------------------------------------------
  // Lookups

  /** Index of the first quiz row with this slug. */
  function QuizIndex(quizzes: seq<Quiz>, slug: string): (r: Option<nat>)
    ensures r.Some? ==> r.value < |quizzes| && quizzes[r.value].slug == slug
    ensures r.Some? ==> forall j :: 0 <= j < r.value ==> quizzes[j].slug != slug
    ensures r.None? <==> forall j :: 0 <= j < |quizzes| ==> quizzes[j].slug != slug
  {
    if quizzes == [] then None
    else if quizzes[0].slug == slug then Some(0)
    else match QuizIndex(quizzes[1..], slug)
      case None => None
      case Some(i) => Some(i + 1)
  }

  /** `db.query(Quiz).filter(Quiz.slug == slug).first()`. */
  function QuizBySlug(quizzes: seq<Quiz>, slug: string): Option<Quiz> {
    match QuizIndex(quizzes, slug)
    case None => None
    case Some(i) => Some(quizzes[i])
  }

  /** Index of the first question row of this quiz at this order. */
  function QuestionIndex(questions: seq<Question>, quizId: int, order: int): (r: Option<nat>)
    ensures r.Some? ==> r.value < |questions| && questions[r.value].quizId == quizId && questions[r.value].order == order
    ensures r.Some? ==> forall j :: 0 <= j < r.value ==> !(questions[j].quizId == quizId && questions[j].order == order)
    ensures r.None? <==> forall j :: 0 <= j < |questions| ==> !(questions[j].quizId == quizId && questions[j].order == order)
  {
    if questions == [] then None
    else if questions[0].quizId == quizId && questions[0].order == order then Some(0)
    else match QuestionIndex(questions[1..], quizId, order)
      case None => None
      case Some(i) => Some(i + 1)
  }

  function QuestionAt(questions: seq<Question>, quizId: int, order: int): Option<Question> {
    match QuestionIndex(questions, quizId, order)
    case None => None
    case Some(i) => Some(questions[i])
  }

  /** `count()` of the question rows of a quiz, active or not. */
  function CountQuestions(questions: seq<Question>, quizId: int): nat {
    if questions == [] then 0
    else (if questions[0].quizId == quizId then 1 else 0) + CountQuestions(questions[1..], quizId)
  }

  /** `count()` of the lead rows of a quiz. */
  function LeadCount(leads: seq<Lead>, quizId: int): nat {
    if leads == [] then 0
    else (if leads[0].quizId == quizId then 1 else 0) + LeadCount(leads[1..], quizId)
  }

  // ---------------------------------------------------------------------
  // The funnel

  /** The progress bar: the share of questions before `order`, in percent,
      guarded against a quiz with no questions. */
  function Progress(order: int, total: nat): real {
    if total > 0 then ((order - 1) as real / total as real) * 100.0 else 0.0
  }

  /** `GET /quiz/{slug}`. */
  function QuizIntro(quizzes: seq<Quiz>, slug: string): Response {
    match QuizBySlug(quizzes, slug)
    case None => NotFound
    case Some(quiz) => RenderIntro(quiz)
  }

  /** `GET /quiz/{slug}/start`: no lookup and no session. */
  function StartQuiz(slug: string): Response {
    Redirect(QuestionPage(slug, 1))
  }

  /** `GET /quiz/{slug}/question/{order}`: a missing question row is the
      completion signal, not an error. */
  function ShowQuestion(quizzes: seq<Quiz>, questions: seq<Question>, slug: string, order: int): Response {
    match QuizBySlug(quizzes, slug)
    case None => NotFound
    case Some(quiz) =>
      match QuestionAt(questions, quiz.id, order)
      case None => Redirect(LeadFormPage(slug))
      case Some(question) => RenderQuestion(quiz, question, Progress(order, CountQuestions(questions, quiz.id)))
  }

  /** `POST /quiz/{slug}/question/{order}`: the answer is logged and dropped. */
  function SubmitAnswer(slug: string, order: int, answer: string): Response {
    Redirect(QuestionPage(slug, order + 1))
  }

  /** `GET /quiz/{slug}/lead-form`. */
  function ShowLeadForm(quizzes: seq<Quiz>, slug: string): Response {
    match QuizBySlug(quizzes, slug)
    case None => NotFound
    case Some(quiz) => RenderLeadForm(quiz)
  }

  /** `GET /quiz/{slug}/results`. */
  function ShowResults(quizzes: seq<Quiz>, slug: string): Response {
    match QuizBySlug(quizzes, slug)
    case None => NotFound
    case Some(quiz) => RenderResults(quiz)
  }

  /** The quiz's question rows are exactly one per order 1..n. */
  ghost predicate Contiguous(questions: seq<Question>, quizId: int, n: nat) {
    && CountQuestions(questions, quizId) == n
    && (forall k :: 1 <= k <= n ==> QuestionAt(questions, quizId, k).Some?)
    && (forall j :: 0 <= j < |questions| && questions[j].quizId == quizId ==> 1 <= questions[j].order <= n)
  }

  /** Every non-`NotFound` funnel page needs the quiz; an unknown slug is
      `NotFound` on each of them. */
  lemma UnknownSlugIsNotFound(quizzes: seq<Quiz>, questions: seq<Question>, slug: string, order: int, answer: string)
    requires forall j :: 0 <= j < |quizzes| ==> quizzes[j].slug != slug
    ensures QuizIntro(quizzes, slug) == NotFound
    ensures ShowQuestion(quizzes, questions, slug, order) == NotFound
    ensures ShowLeadForm(quizzes, slug) == NotFound
    ensures ShowResults(quizzes, slug) == NotFound
    ensures StartQuiz(slug).Redirect? && ShowQuestion(quizzes, questions, slug, StartQuiz(slug).to.order) == NotFound
    ensures SubmitAnswer(slug, order, answer).Redirect? &&
      ShowQuestion(quizzes, questions, slug, SubmitAnswer(slug, order, answer).to.order) == NotFound
  {
  }

  /** A known slug renders its quiz row on the intro, the
      lead form and the results page; start leads to order 1 and an answer
      to the next order of the same quiz, whatever the answer. */
  lemma KnownSlugPages(quizzes: seq<Quiz>, slug: string, quiz: Quiz, order: int, answer: string)
    requires QuizBySlug(quizzes, slug) == Some(quiz)
    ensures quiz.slug == slug && quiz in quizzes
    ensures QuizIntro(quizzes, slug) == RenderIntro(quiz)
    ensures ShowLeadForm(quizzes, slug) == RenderLeadForm(quiz)
    ensures ShowResults(quizzes, slug) == RenderResults(quiz)
    ensures StartQuiz(slug).to == QuestionPage(slug, 1)
    ensures SubmitAnswer(slug, order, answer).to == QuestionPage(slug, order + 1)
  {
  }

  /** With orders 1..n, every order 1..n renders its own question with
      progress (k-1)/n*100, which lies in [0, 100). */
  lemma QuestionRenders(quizzes: seq<Quiz>, questions: seq<Question>, slug: string, quiz: Quiz, n: nat, k: int)
    requires QuizBySlug(quizzes, slug) == Some(quiz)
    requires Contiguous(questions, quiz.id, n)
    requires 1 <= k <= n
    ensures ShowQuestion(quizzes, questions, slug, k).RenderQuestion?
    ensures ShowQuestion(quizzes, questions, slug, k).question.order == k
    ensures ShowQuestion(quizzes, questions, slug, k).progress == ((k - 1) as real / n as real) * 100.0
    ensures 0.0 <= ShowQuestion(quizzes, questions, slug, k).progress < 100.0
  {
    ShareBelowOne((k - 1) as real, n as real);
  }

  /** With orders 1..n, the order after the last (and order 1 of an empty
      quiz) redirects to the lead form. */
  lemma PastLastGoesToLeadForm(quizzes: seq<Quiz>, questions: seq<Question>, slug: string, quiz: Quiz, n: nat)
    requires QuizBySlug(quizzes, slug) == Some(quiz)
    requires Contiguous(questions, quiz.id, n)
    ensures ShowQuestion(quizzes, questions, slug, n + 1) == Redirect(LeadFormPage(slug))
  {
    assert QuestionIndex(questions, quiz.id, n + 1).None?;
  }

  /** The reference values of the progress bar. */
  lemma ProgressExamples()
    ensures Progress(1, 5) == 0.0 && Progress(3, 5) == 40.0 && Progress(5, 5) == 80.0
    ensures Progress(1, 0) == 0.0
  {
  }

  /** Where a respondent ends up who keeps answering from `order` on. */
  datatype WalkEnd = ReachedLeadForm | QuizMissing | OutOfSteps
  datatype Walk = Walk(rendered: seq<int>, end: WalkEnd)

  /** Follows the funnel: render the question at `order`, submit any answer,
      follow the redirect; stops at the lead form, at a 404, or after `fuel`
      rendered questions. */
  function WalkFunnel(quizzes: seq<Quiz>, questions: seq<Question>, slug: string, order: int, fuel: nat): Walk
    decreases fuel
  {
    match ShowQuestion(quizzes, questions, slug, order)
    case RenderQuestion(_, _, _) =>
      if fuel == 0 then Walk([], OutOfSteps)
      else
        var next := SubmitAnswer(slug, order, "");
        var rest := WalkFunnel(quizzes, questions, slug, next.to.order, fuel - 1);
        Walk([order] + rest.rendered, rest.end)
    case Redirect(_) => Walk([], ReachedLeadForm)
    case _ => Walk([], QuizMissing)
  }

  function Range(lo: int, hi: int): seq<int>
    decreases if lo <= hi then hi - lo + 1 else 0
  {
    if lo > hi then [] else [lo] + Range(lo + 1, hi)
  }

  /** The funnel of a quiz with orders 1..n shows the questions k..n, each
      once and in order, and then reaches the lead form. */
  lemma {:induction false} WalkFromOrder(quizzes: seq<Quiz>, questions: seq<Question>, slug: string, quiz: Quiz, n: nat, k: int)
    requires QuizBySlug(quizzes, slug) == Some(quiz)
    requires Contiguous(questions, quiz.id, n)
    requires 1 <= k <= n + 1
    ensures WalkFunnel(quizzes, questions, slug, k, n + 1 - k) == Walk(Range(k, n), ReachedLeadForm)
    decreases n + 1 - k
  {
    if k == n + 1 {
      PastLastGoesToLeadForm(quizzes, questions, slug, quiz, n);
    } else {
      QuestionRenders(quizzes, questions, slug, quiz, n, k);
      assert SubmitAnswer(slug, k, "").to.order == k + 1;
      WalkFromOrder(quizzes, questions, slug, quiz, n, k + 1);
      assert Range(k, n) == [k] + Range(k + 1, n);
    }
  }

  /** From the start redirect, the whole quiz is shown, then the lead form. */
  lemma StartWalksWholeQuiz(quizzes: seq<Quiz>, questions: seq<Question>, slug: string, quiz: Quiz, n: nat)
    requires QuizBySlug(quizzes, slug) == Some(quiz)
    requires Contiguous(questions, quiz.id, n)
    ensures WalkFunnel(quizzes, questions, slug, StartQuiz(slug).to.order, n) == Walk(Range(1, n), ReachedLeadForm)
  {
    WalkFromOrder(quizzes, questions, slug, quiz, n, 1);
  }

  // ---------------------------------------------------------------------
  // Answer labels

  /** The stored entry for one label. */
  function AnswerEntry(text: string): AnswerOption {
    AnswerOption(SpacesToUnderscores(Lower(text)), text)
  }

  predicate NotBlank(segment: string) {
    Trim(Python, segment) != ""
  }

  /** The entry a segment contributes: none when it is blank once trimmed. */
  function SegmentEntries(segment: string): seq<AnswerOption> {
    var trimmed := Trim(Python, segment);
    if trimmed != "" then [AnswerEntry(trimmed)] else []
  }

  /** One entry per segment that is not blank once trimmed, in order. */
  function ParseSegments(segments: seq<string>): seq<AnswerOption> {
    FlatMap(segments, SegmentEntries)
  }

  /** The `answers` list of `create_question` for a raw comma-separated text. */
  function ParsedAnswers(answers: string): seq<AnswerOption> {
    if answers == "" then [] else ParseSegments(Split(answers, ','))
  }

  /** The parse loop of `create_question`. */
  method ParseAnswers(answers: string) returns (answerList: seq<AnswerOption>)
    ensures answerList == ParsedAnswers(answers)
  {
    answerList := [];
    if answers != "" {
      var segments := Split(answers, ',');
      for i := 0 to |segments|
        invariant answerList == FlatMap(segments[..i], SegmentEntries)
      {
        var trimmed := Trim(Python, segments[i]);
        AppendSegment(segments, i);
        if trimmed != "" {
          answerList := answerList + [AnswerEntry(trimmed)];
        } else {
          assert answerList + [] == answerList;
        }
      }
      assert segments[..|segments|] == segments;
    }
  }

  lemma AppendSegment(segments: seq<string>, i: nat)
    requires i < |segments|
    ensures FlatMap(segments[..i + 1], SegmentEntries) == FlatMap(segments[..i], SegmentEntries) + SegmentEntries(segments[i])
  {
    assert segments[..i + 1] == segments[..i] + [segments[i]];
    FlatMapAppend(segments[..i], segments[i], SegmentEntries);
  }

  function Labels(entries: seq<AnswerOption>): seq<string> {
    if entries == [] then [] else [entries[0].labelText] + Labels(entries[1..])
  }

  function TrimAll(segments: seq<string>): seq<string> {
    if segments == [] then [] else [Trim(Python, segments[0])] + TrimAll(segments[1..])
  }

  /** The labels are the trimmed non-blank segments, in input order. */
  lemma {:induction false} ParsedLabels(segments: seq<string>)
    ensures Labels(ParseSegments(segments)) == TrimAll(Filter(segments, NotBlank))
  {
    if segments != [] {
      ParsedLabels(segments[1..]);
      var rest := ParseSegments(segments[1..]);
      if NotBlank(segments[0]) {
        var entries := [AnswerEntry(Trim(Python, segments[0]))] + rest;
        assert entries[1..] == rest;
        var kept := [segments[0]] + Filter(segments[1..], NotBlank);
        assert kept[1..] == Filter(segments[1..], NotBlank);
      } else {
        assert [] + rest == rest;
      }
    }
  }

  /** Every entry has a non-empty label without outer whitespace and without
      commas, and its value is the label lower-cased with each space made an
      underscore. */
  lemma {:induction false} ParsedEntriesWellFormed(segments: seq<string>)
    requires forall k, i :: 0 <= k < |segments| && 0 <= i < |segments[k]| ==> segments[k][i] != ','
    ensures forall e :: e in ParseSegments(segments) ==> WellFormedEntry(e)
  {
    if segments != [] {
      ParsedEntriesWellFormed(segments[1..]);
      assert forall i :: 0 <= i < |segments[0]| ==> segments[0][i] != ',';
      SegmentEntryWellFormed(segments[0]);
      assert ParseSegments(segments) == SegmentEntries(segments[0]) + ParseSegments(segments[1..]);
    }
  }

  /** A non-empty label without outer whitespace or commas, whose value is
      the label lower-cased with each space made an underscore. */
  predicate WellFormedEntry(e: AnswerOption) {
    && e.labelText != ""
    && Trim(Python, e.labelText) == e.labelText
    && e.value == SpacesToUnderscores(Lower(e.labelText))
    && ',' !in e.labelText
  }

  lemma SegmentEntryWellFormed(segment: string)
    requires forall i :: 0 <= i < |segment| ==> segment[i] != ','
    ensures forall e :: e in SegmentEntries(segment) ==> WellFormedEntry(e)
  {
    TrimIdempotent(Python, segment);
    TrimKeepsCharacters(Python, segment);
  }

  /** The whole parse of a text: the entries of its comma segments. */
  lemma ParsedAnswersWellFormed(answers: string)
    ensures forall e :: e in ParsedAnswers(answers) ==>
      e.labelText != "" && Trim(Python, e.labelText) == e.labelText &&
      e.value == SpacesToUnderscores(Lower(e.labelText)) && ',' !in e.labelText
    ensures answers != "" ==> Labels(ParsedAnswers(answers)) == TrimAll(Filter(Split(answers, ','), NotBlank))
  {
    if answers != "" {
      var segments := Split(answers, ',');
      ParsedEntriesWellFormed(segments);
      ParsedLabels(segments);
    }
  }

  /** The `if answers:` guard changes nothing: the empty text splits into
      one blank segment, which is dropped anyway. */
  lemma EmptyGuardIsRedundant()
    ensures ParseSegments(Split("", ',')) == ParsedAnswers("") == []
  {
    assert Trim(Python, "") == "";
  }

  /** Blankness follows Python's `strip()`: a segment made of Python
      whitespace, such as the information separator U+001F that
      JavaScript's `trim()` keeps, contributes no entry wherever it sits. */
  lemma BlankSegmentDropped(before: seq<string>, blank: string, after: seq<string>)
    requires AllSpace(Python, blank)
    ensures ParseSegments(before + [blank] + after) == ParseSegments(before + after)
  {
    TrimEmptyIffAllSpace(Python, blank);
    assert SegmentEntries(blank) == [];
    assert FlatMap([blank], SegmentEntries) == [] by {
      assert [blank][1..] == [];
    }
    FlatMapConcat(before + [blank], after, SegmentEntries);
    FlatMapConcat(before, [blank], SegmentEntries);
    FlatMapConcat(before, after, SegmentEntries);
    assert FlatMap(before, SegmentEntries) + [] == FlatMap(before, SegmentEntries);
  }

  // ---------------------------------------------------------------------
  // Analytics

  datatype QuizStat = QuizStat(name: string, leadCount: nat)

  /** Sort key of `sort(key=lead_count, reverse=True)`: ascending on the negation. */
  function StatKey(s: QuizStat): int {
    -(s.leadCount as int)
  }

  /** The per-quiz rows, in quiz order. */
  function Stats(quizzes: seq<Quiz>, leads: seq<Lead>): (r: seq<QuizStat>)
    ensures |r| == |quizzes|
    ensures forall i :: 0 <= i < |quizzes| ==> r[i] == QuizStat(quizzes[i].name, LeadCount(leads, quizzes[i].id))
  {
    if quizzes == [] then []
    else Stats(quizzes[..|quizzes| - 1], leads) + [QuizStat(quizzes[|quizzes| - 1].name, LeadCount(leads, quizzes[|quizzes| - 1].id))]
  }

  function Min(a: int, b: int): int {
    if a <= b then a else b
  }

  /** `quiz_stats[:5]` after the in-place sort. */
  function TopQuizzes(quizzes: seq<Quiz>, leads: seq<Lead>): seq<QuizStat> {
    TopRows(Stats(quizzes, leads))
  }

  /** The first five rows of a table once it is ranked by lead count. */
  function TopRows(stats: seq<QuizStat>): (r: seq<QuizStat>)
    ensures |r| == Min(5, |stats|)
  {
    var ranked := SortBy(stats, StatKey);
    ranked[..Min(5, |ranked|)]
  }

  /** `GET /admin/analytics`: one count query per quiz, then sort and cut. */
  method AnalyticsDashboard(quizzes: seq<Quiz>, leads: seq<Lead>) returns (topQuizzes: seq<QuizStat>)
    ensures topQuizzes == TopQuizzes(quizzes, leads)
  {
    var quizStats := [];
    var i := 0;
    while i < |quizzes|
      invariant 0 <= i <= |quizzes|
      invariant quizStats == Stats(quizzes[..i], leads)
    {
      var leadCount := LeadCount(leads, quizzes[i].id);
      quizStats := quizStats + [QuizStat(quizzes[i].name, leadCount)];
      assert quizzes[..i + 1][..i] == quizzes[..i];
      i := i + 1;
    }
    assert quizzes[..|quizzes|] == quizzes;
    quizStats := SortBy(quizStats, StatKey);
    topQuizzes := quizStats[..Min(5, |quizStats|)];
  }

  /** At most five rows, by non-increasing lead count. */
  lemma TopQuizzesOrdered(quizzes: seq<Quiz>, leads: seq<Lead>)
    ensures |TopQuizzes(quizzes, leads)| == Min(5, |quizzes|)
    ensures forall i, j :: 0 <= i < j < |TopQuizzes(quizzes, leads)| ==>
      TopQuizzes(quizzes, leads)[i].leadCount >= TopQuizzes(quizzes, leads)[j].leadCount
  {
    StatsSortSorted(Stats(quizzes, leads));
  }

  /** Each row shown is the name and lead count of a quiz, and no quiz
      shows up more often than it is in the table. */
  lemma TopQuizzesFromTable(quizzes: seq<Quiz>, leads: seq<Lead>)
    ensures multiset(TopQuizzes(quizzes, leads)) <= multiset(Stats(quizzes, leads))
    ensures forall s :: s in TopQuizzes(quizzes, leads) ==>
      exists q :: q in quizzes && s == QuizStat(q.name, LeadCount(leads, q.id))
  {
    var stats := Stats(quizzes, leads);
    var top := TopQuizzes(quizzes, leads);
    CutIsSubTable(stats);
    forall s | s in top ensures exists q :: q in quizzes && s == QuizStat(q.name, LeadCount(leads, q.id)) {
      assert s in multiset(top);
      var i :| 0 <= i < |stats| && stats[i] == s;
      assert quizzes[i] in quizzes;
    }
  }

  /** The first five rows of the ranking are rows of the table. */
  lemma CutIsSubTable(stats: seq<QuizStat>)
    ensures multiset(TopRows(stats)) <= multiset(stats)
  {
    PrefixMultiset(SortBy(stats, StatKey), Min(5, |stats|));
  }

  /** Every row left out has no more leads than the last one shown. */
  lemma TopQuizzesAreTop(quizzes: seq<Quiz>, leads: seq<Lead>)
    ensures forall s :: s in multiset(Stats(quizzes, leads)) - multiset(TopQuizzes(quizzes, leads)) ==>
      s.leadCount <= TopQuizzes(quizzes, leads)[|TopQuizzes(quizzes, leads)| - 1].leadCount
  {
    TopOfStats(Stats(quizzes, leads));
  }

  lemma TopOfStats(stats: seq<QuizStat>)
    ensures forall s :: s in multiset(stats) - multiset(TopRows(stats)) ==>
      s.leadCount <= TopRows(stats)[|TopRows(stats)| - 1].leadCount
  {
    var ranked := SortBy(stats, StatKey);
    StatsSortSorted(stats);
    CutIsTop(ranked, Min(5, |ranked|));
  }

  /** In a ranking by the sort key, whatever lies past a cut has no more
      leads than the last row before it. */
  lemma CutIsTop(ranked: seq<QuizStat>, n: nat)
    requires n <= |ranked| && (n == 0 ==> ranked == [])
    requires forall i, j :: 0 <= i < j < |ranked| ==> StatKey(ranked[i]) <= StatKey(ranked[j])
    ensures forall s :: s in multiset(ranked) - multiset(ranked[..n]) ==> s.leadCount <= ranked[n - 1].leadCount
  {
    assert ranked == ranked[..n] + ranked[n..];
    assert multiset(ranked) == multiset(ranked[..n]) + multiset(ranked[n..]);
    forall s | s in multiset(ranked) - multiset(ranked[..n])
      ensures s.leadCount <= ranked[n - 1].leadCount
    {
      assert s in multiset(ranked[n..]);
      var j :| n <= j < |ranked| && ranked[j] == s;
      assert StatKey(ranked[n - 1]) <= StatKey(ranked[j]);
    }
  }

  /** Ties keep the quizzes' order: the rows that share a sort key, that
      is one lead count, appear in the ranking in the order of the quiz
      table. */
  lemma RankingIsStable(quizzes: seq<Quiz>, leads: seq<Lead>, key: int)
    ensures Filter(SortBy(Stats(quizzes, leads), StatKey), KeyIs(StatKey, key)) == Filter(Stats(quizzes, leads), KeyIs(StatKey, key))
  {
    StatsSortStable(Stats(quizzes, leads), key);
  }

  /** The sorting lemmas at the row type, which keeps the table's own
      definition out of their proofs. */
  lemma StatsSortStable(stats: seq<QuizStat>, k: int)
    ensures Filter(SortBy(stats, StatKey), KeyIs(StatKey, k)) == Filter(stats, KeyIs(StatKey, k))
  {
    SortByStable(stats, StatKey, k);
  }

  lemma StatsSortSorted(stats: seq<QuizStat>)
    ensures forall i, j :: 0 <= i < j < |stats| ==> StatKey(SortBy(stats, StatKey)[i]) <= StatKey(SortBy(stats, StatKey)[j])
  {
    SortBySorted(stats, StatKey);
  }

  /** One more lead of a quiz adds one to its count and to no other. */
  lemma {:induction false} LeadCountAppend(leads: seq<Lead>, lead: Lead, quizId: int)
    ensures LeadCount(leads + [lead], quizId) == LeadCount(leads, quizId) + (if lead.quizId == quizId then 1 else 0)
  {
    if leads != [] {
      assert (leads + [lead])[1..] == leads[1..] + [lead];
      LeadCountAppend(leads[1..], lead, quizId);
    }
  }

  // ---------------------------------------------------------------------
  // Writes

  /** The rows of `update_quiz` after editing: only the first slug match
      changes, and only its name, description and active flag. */
  function UpdatedQuizzes(quizzes: seq<Quiz>, slug: string, name: string, description: Option<string>, isActive: bool): seq<Quiz> {
    match QuizIndex(quizzes, slug)
    case None => quizzes
    case Some(i) => quizzes[i := quizzes[i].(name := name, description := description, isActive := isActive)]
  }

  /** An edit keeps every row's id and slug, hence every slug lookup. */
  lemma UpdateKeepsIdentity(quizzes: seq<Quiz>, slug: string, name: string, description: Option<string>, isActive: bool, other: string)
    ensures |UpdatedQuizzes(quizzes, slug, name, description, isActive)| == |quizzes|
    ensures forall j :: 0 <= j < |quizzes| ==>
      UpdatedQuizzes(quizzes, slug, name, description, isActive)[j].slug == quizzes[j].slug &&
      UpdatedQuizzes(quizzes, slug, name, description, isActive)[j].id == quizzes[j].id
    ensures QuizIndex(UpdatedQuizzes(quizzes, slug, name, description, isActive), other) == QuizIndex(quizzes, other)
  {
    var updated := UpdatedQuizzes(quizzes, slug, name, description, isActive);
    SameSlugsSameIndex(quizzes, updated, other);
  }

  lemma {:induction false} SameSlugsSameIndex(a: seq<Quiz>, b: seq<Quiz>, slug: string)
    requires |a| == |b|
    requires forall j :: 0 <= j < |a| ==> a[j].slug == b[j].slug
    ensures QuizIndex(a, slug) == QuizIndex(b, slug)
  {
    if a != [] {
      SameSlugsSameIndex(a[1..], b[1..], slug);
    }
  }

  /** Deactivating (or renaming) a quiz hides none of its funnel: the same
      pages render the same questions with the same progress. */
  lemma EditDoesNotCascade(quizzes: seq<Quiz>, questions: seq<Question>, slug: string, name: string,
                           description: Option<string>, isActive: bool, other: string, order: int)
    ensures
      var before := ShowQuestion(quizzes, questions, other, order);
      var after := ShowQuestion(UpdatedQuizzes(quizzes, slug, name, description, isActive), questions, other, order);
      before.RenderQuestion? == after.RenderQuestion? && before.Redirect? == after.Redirect? &&
      (before.RenderQuestion? ==> before.question == after.question && before.progress == after.progress)
  {
    UpdateKeepsIdentity(quizzes, slug, name, description, isActive, other);
  }

  /** The tables behind the legacy app. */
  class Store {
    var quizzes: seq<Quiz>
    var questions: seq<Question>
    var leads: seq<Lead>

    /** An empty store; the mock-data seeding at start-up is not modelled. */
    constructor ()
      ensures quizzes == [] && questions == [] && leads == []
    {
      quizzes, questions, leads := [], [], [];
    }

    /** `POST /admin/quizzes/new`. `id` is the fresh key the database assigns;
        a second quiz with a taken slug violates the unique constraint. */
    method CreateQuiz(id: int, name: string, slug: string, description: Option<string>, isActive: bool) returns (r: Response)
      requires forall j :: 0 <= j < |quizzes| ==> quizzes[j].id != id
      modifies this`quizzes
      ensures QuizIndex(old(quizzes), slug).Some? ==> r == ServerError && quizzes == old(quizzes)
      ensures QuizIndex(old(quizzes), slug).None? ==>
        r == Redirect(Dashboard) && quizzes == old(quizzes) + [Quiz(id, slug, name, description, isActive)]
    {
      if QuizIndex(quizzes, slug).Some? {
        return ServerError;
      }
      quizzes := quizzes + [Quiz(id, slug, name, description, isActive)];
      r := Redirect(Dashboard);
    }

    /** `POST /admin/quizzes/{slug}/edit`: redirects whether or not the slug is known. */
    method UpdateQuiz(slug: string, name: string, description: Option<string>, isActive: bool) returns (r: Response)
      modifies this`quizzes
      ensures r == Redirect(Dashboard)
      ensures quizzes == UpdatedQuizzes(old(quizzes), slug, name, description, isActive)
      ensures QuizIndex(old(quizzes), slug).None? ==> quizzes == old(quizzes)
    {
      var found := QuizIndex(quizzes, slug);
      if found.Some? {
        var quiz := quizzes[found.value];
        quizzes := quizzes[found.value := quiz.(name := name, description := description, isActive := isActive)];
      }
      r := Redirect(Dashboard);
    }

    /** `POST /admin/quizzes/{slug}/questions/new`. */
    method CreateQuestion(slug: string, questionText: string, questionType: string, questionOrder: int, answers: string)
      returns (r: Response)
      modifies this`questions
      ensures QuizBySlug(quizzes, slug).None? ==> r == NotFound && questions == old(questions)
      ensures QuizBySlug(quizzes, slug).Some? ==>
        r == Redirect(QuestionListPage(slug)) &&
        questions == old(questions) + [Question(QuizBySlug(quizzes, slug).value.id, questionText, questionType,
                                                questionOrder, ParsedAnswers(answers), true)]
    {
      var quiz := QuizBySlug(quizzes, slug);
      if quiz.None? {
        return NotFound;
      }
      var answerList := ParseAnswers(answers);
      questions := questions + [Question(quiz.value.id, questionText, questionType, questionOrder, answerList, true)];
      r := Redirect(QuestionListPage(slug));
    }

    /** `POST /quiz/{slug}/lead-form`: one new row per submission, never
        deduplicated; `now` is the submission time. */
    method SubmitLeadForm(slug: string, email: string, firstName: Option<string>, lastName: Option<string>, now: int)
      returns (r: Response)
      modifies this`leads
      ensures QuizBySlug(quizzes, slug).None? ==> r == NotFound && leads == old(leads)
      ensures QuizBySlug(quizzes, slug).Some? ==>
        r == Redirect(ResultsPage(slug)) &&
        leads == old(leads) + [Lead(QuizBySlug(quizzes, slug).value.id, email, firstName, lastName, now)]
    {
      var quiz := QuizBySlug(quizzes, slug);
      if quiz.None? {
        return NotFound;
      }
      leads := leads + [Lead(quiz.value.id, email, firstName, lastName, now)];
      r := Redirect(ResultsPage(slug));
    }
  }

  /** Two submissions with the same email are two rows of the same quiz. */
  method SameEmailTwice(store: Store, slug: string, email: string, t1: int, t2: int)
    requires QuizBySlug(store.quizzes, slug).Some?
    modifies store`leads
    ensures |store.leads| == |old(store.leads)| + 2
    ensures LeadCount(store.leads, QuizBySlug(store.quizzes, slug).value.id)
         == LeadCount(old(store.leads), QuizBySlug(store.quizzes, slug).value.id) + 2
  {
    var id := QuizBySlug(store.quizzes, slug).value.id;
    var r1 := store.SubmitLeadForm(slug, email, None, None, t1);
    LeadCountAppend(old(store.leads), Lead(id, email, None, None, t1), id);
    var mid := store.leads;
    var r2 := store.SubmitLeadForm(slug, email, None, None, t2);
    LeadCountAppend(mid, Lead(id, email, None, None, t2), id);
  }
}
