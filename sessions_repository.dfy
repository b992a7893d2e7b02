// The session store of the interview-driven practice log: sessions with their
// defaults, completing a session, batches of interview questions, answers,
// the complete view of a session and the question/answer pairs.

module SessionsRepository {
  import opened Common
  import Sorting

  datatype SessionStatus = Draft | Completed | OtherStatus(name: string)

  datatype Session = Session(
    id: string,
    userId: string,
    sessionType: string,
    title: string,
    userShortNote: string,
    projectId: Option<string>,
    projectName: Option<string>,
    isPublic: bool,
    shareWithMentor: bool,
    status: SessionStatus,
    completedAt: Option<int>)

  datatype CreateSessionInput = CreateSessionInput(
    userId: string,
    sessionType: string,
    title: string,
    userShortNote: string,
    projectId: Option<string>,
    projectName: Option<string>,
    isPublic: Option<bool>,
    shareWithMentor: Option<bool>)

  /** The fields an update sets; None leaves a field as it is. */
  datatype SessionUpdate = SessionUpdate(
    title: Option<string>,
    userShortNote: Option<string>,
    status: Option<SessionStatus>,
    isPublic: Option<bool>,
    shareWithMentor: Option<bool>,
    completedAt: Option<int>)

  /** The row `createSession` inserts: a private draft shared with the mentor unless the input says otherwise. */
  function NewSession(id: string, input: CreateSessionInput): (s: Session)
    ensures s.status == Draft && s.completedAt.None?
    ensures s.isPublic == (input.isPublic == Some(true))
    ensures s.shareWithMentor == (input.shareWithMentor != Some(false))
    ensures s.id == id && s.userId == input.userId && s.title == input.title
  {
    Session(id, input.userId, input.sessionType, input.title, input.userShortNote, input.projectId,
            input.projectName,
            if input.isPublic.Some? then input.isPublic.value else false,
            if input.shareWithMentor.Some? then input.shareWithMentor.value else true,
            Draft, None)
  }

  function ApplyUpdate(s: Session, u: SessionUpdate): Session
  {
    s.(title := if u.title.Some? then u.title.value else s.title,
       userShortNote := if u.userShortNote.Some? then u.userShortNote.value else s.userShortNote,
       status := if u.status.Some? then u.status.value else s.status,
       isPublic := if u.isPublic.Some? then u.isPublic.value else s.isPublic,
       shareWithMentor := if u.shareWithMentor.Some? then u.shareWithMentor.value else s.shareWithMentor,
       completedAt := if u.completedAt.Some? then u.completedAt else s.completedAt)
  }

  /** `completeSession`'s update: completed, at `now`. */
  function CompleteUpdate(now: int): SessionUpdate
  {
    SessionUpdate(None, None, Some(Completed), None, None, Some(now))
  }

  /** Completing a session marks it completed at `now` and changes nothing else. */
  lemma CompleteChangesOnlyStatus(s: Session, now: int)
    ensures ApplyUpdate(s, CompleteUpdate(now)) == s.(status := Completed, completedAt := Some(now))
  {
  }

  // ----- questions and answers -----

  datatype Question = Question(
    id: string,
    sessionId: string,
    text: string,
    focus: string,
    depth: string,
    order: int,
    generatedBy: string,
    templateId: Option<string>)

  datatype QuestionInput = QuestionInput(
    sessionId: string,
    text: string,
    focus: string,
    depth: string,
    order: Option<int>,
    generatedBy: Option<string>,
    templateId: Option<string>)

  /** A batch question's row: its order defaults to its place in the batch, its author to "ai". */
  function NewQuestion(id: string, input: QuestionInput, index: int): (q: Question)
    ensures q.order == (if input.order.Some? then input.order.value else index)
    ensures q.generatedBy == (if input.generatedBy.Some? then input.generatedBy.value else "ai")
    ensures q.id == id && q.sessionId == input.sessionId && q.text == input.text
  {
    Question(id, input.sessionId, input.text, input.focus, input.depth,
             if input.order.Some? then input.order.value else index,
             if input.generatedBy.Some? then input.generatedBy.value else "ai",
             input.templateId)
  }

  /** The rows `createSessionQuestions` inserts for a batch, under the ids the store assigns. */
  function QuestionRows(inputs: seq<QuestionInput>, ids: seq<string>): (r: seq<Question>)
    requires |ids| == |inputs|
    ensures |r| == |inputs|
    ensures forall i :: 0 <= i < |inputs| ==> r[i] == NewQuestion(ids[i], inputs[i], i)
  {
    seq(|inputs|, i requires 0 <= i < |inputs| => NewQuestion(ids[i], inputs[i], i))
  }

  /** A batch with no order given anywhere numbers its questions 0, 1, 2, … in batch order. */
  lemma BatchOrderDefaultsToIndex(inputs: seq<QuestionInput>, ids: seq<string>)
    requires |ids| == |inputs|
    requires forall i :: 0 <= i < |inputs| ==> inputs[i].order.None?
    ensures var r := QuestionRows(inputs, ids);
      Sorting.SortedBy(r, (q: Question) => q.order)
      && forall i :: 0 <= i < |r| ==> r[i].order == i
  {
  }

  datatype Answer = Answer(id: string, sessionId: string, questionId: string, text: string)

  /** The answer at `i` is for `questionId` and no later answer is. */
  predicate LastAnswerAt(answers: seq<Answer>, i: int, questionId: string)
  {
    0 <= i < |answers| && answers[i].questionId == questionId
    && forall j :: i < j < |answers| ==> answers[j].questionId != questionId
  }

  /** Where the last answer for a question sits. */
  function LastAnswerIndex(answers: seq<Answer>, questionId: string): (r: Option<nat>)
    ensures r.None? <==> forall i :: 0 <= i < |answers| ==> answers[i].questionId != questionId
    ensures r.Some? ==> LastAnswerAt(answers, r.value, questionId)
  {
    if answers == [] then None
    else if answers[|answers| - 1].questionId == questionId then Some(|answers| - 1)
    else LastAnswerIndex(answers[..|answers| - 1], questionId)
  }

  /** `new Map(answers.map(a => [a.questionId, a]))`: entries in list order, a later one replacing an earlier. */
  function AnswerMap(answers: seq<Answer>): map<string, Answer>
  {
    if answers == [] then map[]
    else AnswerMap(answers[..|answers| - 1])[answers[|answers| - 1].questionId := answers[|answers| - 1]]
  }

  /** The map holds an answer for a question exactly when the list does, and it is the last one. */
  lemma {:induction false} AnswerMapLastWins(answers: seq<Answer>, questionId: string)
    ensures var k := LastAnswerIndex(answers, questionId);
      (questionId in AnswerMap(answers) <==> k.Some?)
      && (k.Some? ==> AnswerMap(answers)[questionId] == answers[k.value])
  {
    if answers != [] {
      AnswerMapLastWins(answers[..|answers| - 1], questionId);
    }
  }

  datatype QAPair = QAPair(question: Question, answer: Option<Answer>)

  /** `getSessionQAPairs` over the session's questions and answers as fetched. */
  function QAPairs(questions: seq<Question>, answers: seq<Answer>): (r: seq<QAPair>)
    ensures |r| == |questions|
    ensures forall i :: 0 <= i < |questions| ==> r[i].question == questions[i]
  {
    var m := AnswerMap(answers);
    seq(|questions|, i requires 0 <= i < |questions| =>
      QAPair(questions[i], if questions[i].id in m then Some(m[questions[i].id]) else None))
  }

  /**
   * One pair per question, in the questions' order; a pair's answer is the last answer for that
   * question, and there is none exactly when no answer names it.
   */
  lemma QAPairsMeaning(questions: seq<Question>, answers: seq<Answer>, i: int)
    requires 0 <= i < |questions|
    ensures var p := QAPairs(questions, answers)[i];
      (p.answer.None? <==> forall j :: 0 <= j < |answers| ==> answers[j].questionId != questions[i].id)
      && (p.answer.Some? ==> exists j :: LastAnswerAt(answers, j, questions[i].id) && answers[j] == p.answer.value)
  {
    AnswerMapLastWins(answers, questions[i].id);
    var k := LastAnswerIndex(answers, questions[i].id);
    if k.Some? {
      assert LastAnswerAt(answers, k.value, questions[i].id);
    }
  }

  // ----- the store -----

  datatype Analysis = Analysis(sessionId: string, analysisVersion: string, confidence: real)

  datatype SessionDetail = SessionDetail(
    session: Session,
    analysis: Option<Analysis>,
    questions: seq<Question>,
    answers: seq<Answer>)

  function OrderOf(q: Question): int
  {
    q.order
  }

  /** `getSessionQuestions`: the session's questions in ascending `order`. */
  function SessionQuestions(questions: seq<Question>, sessionId: string): (r: seq<Question>)
  {
    Sorting.SortBy(Filter(questions, (q: Question) => q.sessionId == sessionId), OrderOf)
  }

  /** `getSessionAnswers`: the session's answers. */
  function SessionAnswers(answers: seq<Answer>, sessionId: string): (r: seq<Answer>)
    ensures forall a :: a in r <==> a in answers && a.sessionId == sessionId
  {
    Filter(answers, (a: Answer) => a.sessionId == sessionId)
  }

  /** The fetched questions are the session's, every one of them, in ascending order. */
  lemma SessionQuestionsMeaning(questions: seq<Question>, sessionId: string)
    ensures var r := SessionQuestions(questions, sessionId);
      Sorting.SortedBy(r, OrderOf)
      && forall q :: q in r <==> q in questions && q.sessionId == sessionId
  {
    var f := Filter(questions, (q: Question) => q.sessionId == sessionId);
    Sorting.SortByProperties(f, OrderOf);
    Sorting.SortByMembers(f, OrderOf);
  }

  function FirstAnalysis(analyses: seq<Analysis>, sessionId: string): (r: Option<Analysis>)
    ensures r.Some? ==> r.value in analyses && r.value.sessionId == sessionId
    ensures r.None? <==> forall a :: a in analyses ==> a.sessionId != sessionId
  {
    if analyses == [] then None
    else if analyses[0].sessionId == sessionId then Some(analyses[0])
    else FirstAnalysis(analyses[1..], sessionId)
  }

  class SessionRepository {
    var sessions: map<string, Session>
    var analyses: seq<Analysis>
    var questions: seq<Question>
    var answers: seq<Answer>

    constructor ()
      ensures sessions == map[] && analyses == [] && questions == [] && answers == []
    {
      sessions := map[];
      analyses := [];
      questions := [];
      answers := [];
    }

    /** `createSession`, with `id` the fresh id the store assigns. */
    method CreateSession(input: CreateSessionInput, id: string) returns (s: Session)
      requires id !in sessions
      modifies this
      ensures s == NewSession(id, input) && sessions == old(sessions)[id := s]
      ensures analyses == old(analyses) && questions == old(questions) && answers == old(answers)
    {
      s := NewSession(id, input);
      sessions := sessions[id := s];
    }

    /** `updateSession`: the named fields of the session change; None for an unknown id. */
    method UpdateSession(id: string, u: SessionUpdate) returns (r: Option<Session>)
      modifies this
      ensures id in old(sessions) ==> r == Some(ApplyUpdate(old(sessions)[id], u)) && sessions == old(sessions)[id := r.value]
      ensures id !in old(sessions) ==> r.None? && sessions == old(sessions)
      ensures analyses == old(analyses) && questions == old(questions) && answers == old(answers)
    {
      if id !in sessions {
        return None;
      }
      var updated := ApplyUpdate(sessions[id], u);
      sessions := sessions[id := updated];
      r := Some(updated);
    }

    /** `completeSession`, with `now` the time it is called. */
    method CompleteSession(id: string, now: int) returns (r: Option<Session>)
      modifies this
      ensures id in old(sessions) ==> r == Some(old(sessions)[id].(status := Completed, completedAt := Some(now)))
                                      && sessions == old(sessions)[id := r.value]
      ensures id !in old(sessions) ==> r.None? && sessions == old(sessions)
      ensures analyses == old(analyses) && questions == old(questions) && answers == old(answers)
    {
      if id in sessions {
        CompleteChangesOnlyStatus(sessions[id], now);
      }
      r := UpdateSession(id, CompleteUpdate(now));
    }

    /** `createSessionQuestions`: an empty batch writes nothing; otherwise every question is inserted. */
    method CreateSessionQuestions(inputs: seq<QuestionInput>, ids: seq<string>) returns (created: seq<Question>)
      requires |ids| == |inputs|
      modifies this
      ensures created == QuestionRows(inputs, ids) && questions == old(questions) + created
      ensures sessions == old(sessions) && analyses == old(analyses) && answers == old(answers)
    {
      if |inputs| == 0 {
        return [];
      }
      created := QuestionRows(inputs, ids);
      questions := questions + created;
    }

    /** `createInterviewAnswer`. */
    method CreateInterviewAnswer(a: Answer)
      modifies this
      ensures answers == old(answers) + [a]
      ensures sessions == old(sessions) && analyses == old(analyses) && questions == old(questions)
    {
      answers := answers + [a];
    }

    /** `getCompleteSession`: None for an unknown session, else the session with its analysis, questions and answers. */
    function GetCompleteSession(id: string): (r: Option<SessionDetail>)
      reads this
      ensures r.None? <==> id !in sessions
      ensures r.Some? ==> (r.value.session == sessions[id]
        && r.value.analysis == FirstAnalysis(analyses, id)
        && r.value.questions == SessionQuestions(questions, id) && r.value.answers == SessionAnswers(answers, id))
    {
      if id !in sessions then None
      else Some(SessionDetail(sessions[id], FirstAnalysis(analyses, id), SessionQuestions(questions, id), SessionAnswers(answers, id)))
    }

    /** `getSessionQAPairs`. */
    function GetSessionQAPairs(id: string): (r: seq<QAPair>)
      reads this
      ensures var qs := SessionQuestions(questions, id);
        |r| == |qs| && forall i :: 0 <= i < |r| ==> r[i].question == qs[i]
    {
      QAPairs(SessionQuestions(questions, id), SessionAnswers(answers, id))
    }
  }
}
