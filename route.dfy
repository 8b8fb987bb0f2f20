/**
 * The `POST` handler of the generation route: validation, generation, and the JSON answer.
 * The body fields the handler reads are modelled as already parsed: a missing subject is the
 * empty string, missing skills are `None`, a missing quantity is `0`.
 */
module Route {
  import opened Wrappers
  import opened Text
  import opened Templates
  import opened Generator

  /** The parsed request body. */
  datatype Body = Body(
    disciplina: string, habilidades: Option<seq<string>>, quantidade: int, dificuldade: string, ano: string)

  /** The exam the handler returns; its id and generation date come from the clock and are left out. */
  datatype Prova = Prova(
    disciplina: string, ano: string, habilidades: seq<string>, dificuldade: string,
    questoes: seq<Question>, gabarito: map<string, string>)

  datatype Payload = Failure(error: string) | Success(prova: Prova, message: string)

  datatype Response = Response(status: int, payload: Payload)

  const MissingFields := "Disciplina e habilidades são obrigatórias"
  const BadQuantity := "Quantidade deve ser entre 1 e 50"
  const NothingGenerated := "Não foi possível gerar questões para as habilidades selecionadas"
  const InternalError := "Erro interno do servidor ao gerar questões"

  /** `Prova gerada com sucesso! ${n} questões criadas.` */
  function SuccessMessage(n: nat): string {
    "Prova gerada com sucesso! " + NatToString(n) + " questões criadas."
  }

  /** The first check: subject present, skills present and non-empty. */
  predicate HasFields(body: Body) {
    body.disciplina != "" && body.habilidades.Some? && |body.habilidades.value| > 0
  }

  /** The second check: `!quantidade || quantidade < 1 || quantidade > 50` rejects. */
  predicate QuantityOk(body: Body) {
    body.quantidade != 0 && 1 <= body.quantidade <= 50
  }

  function Request(body: Body): QuestionRequest
    requires body.habilidades.Some?
  {
    QuestionRequest(body.disciplina, body.habilidades.value, body.quantidade, body.dificuldade, body.ano)
  }

  /** The answer the handler gives for this body and these draws. */
  function Respond(cat: map<string, SubjectTemplates>, body: Body, draws: nat -> QuestionDraw): Response
    requires CatalogueOk(cat) && ValidDraws(body.dificuldade, draws)
  {
    if !HasFields(body) then Response(400, Failure(MissingFields))
    else if !QuantityOk(body) then Response(400, Failure(BadQuantity))
    else
      match Generated(cat, Request(body), draws)
      case Thrown => Response(500, Failure(InternalError))
      case Returned(qs) =>
        if |qs| == 0 then Response(422, Failure(NothingGenerated))
        else
          var prova := Prova(body.disciplina, body.ano, body.habilidades.value, body.dificuldade, qs, AnswerKey(qs));
          Response(200, Success(prova, SuccessMessage(|qs|)))
  }

  /** `POST(request)`: validate, generate, and answer. */
  method Post(cat: map<string, SubjectTemplates>, body: Body, draws: nat -> QuestionDraw) returns (r: Response)
    requires CatalogueOk(cat) && ValidDraws(body.dificuldade, draws)
    ensures r == Respond(cat, body, draws)
  {
    if body.disciplina == "" || body.habilidades.None? || |body.habilidades.value| == 0 {
      return Response(400, Failure(MissingFields));
    }
    if body.quantidade == 0 || body.quantidade < 1 || body.quantidade > 50 {
      return Response(400, Failure(BadQuantity));
    }
    var outcome := GenerateQuestionsFromTemplates(cat, Request(body), draws);
    if outcome.Thrown? {
      return Response(500, Failure(InternalError));
    }
    var questions := outcome.questoes;
    if |questions| == 0 {
      return Response(422, Failure(NothingGenerated));
    }
    var prova := Prova(body.disciplina, body.ano, body.habilidades.value, body.dificuldade, questions, AnswerKey(questions));
    r := Response(200, Success(prova, SuccessMessage(|questions|)));
  }

  /** The route's own catalogue meets the handler's precondition. */
  lemma RouteCatalogueOk()
    ensures CatalogueOk(QuestionTemplates)
  {
    CatalogueWellFormed();
  }

  /** Missing fields are reported first, whatever the quantity. */
  lemma FieldsCheckedFirst(cat: map<string, SubjectTemplates>, body: Body, draws: nat -> QuestionDraw)
    requires CatalogueOk(cat) && ValidDraws(body.dificuldade, draws)
    ensures (Respond(cat, body, draws) == Response(400, Failure(MissingFields))) <==> !HasFields(body)
  {
  }

  /** With the fields present, a quantity outside 1..50 is the second rejection. */
  lemma QuantityChecked(cat: map<string, SubjectTemplates>, body: Body, draws: nat -> QuestionDraw)
    requires CatalogueOk(cat) && ValidDraws(body.dificuldade, draws) && HasFields(body)
    ensures (Respond(cat, body, draws) == Response(400, Failure(BadQuantity))) <==> !(1 <= body.quantidade <= 50)
  {
  }

  /** A valid body whose subject the catalogue lacks makes the assembler throw: the handler answers 500. */
  lemma UnknownSubject(cat: map<string, SubjectTemplates>, body: Body, draws: nat -> QuestionDraw)
    requires CatalogueOk(cat) && ValidDraws(body.dificuldade, draws) && HasFields(body) && QuantityOk(body)
    ensures Respond(cat, body, draws).status == 500 <==> body.disciplina !in cat
  {
    if body.disciplina in cat {
      GeneratedCount(cat, Request(body), draws);
    }
  }

  /** A valid body for a known subject is answered 422 exactly when no requested skill has templates at the difficulty. */
  lemma NoTemplates(cat: map<string, SubjectTemplates>, body: Body, draws: nat -> QuestionDraw)
    requires CatalogueOk(cat) && ValidDraws(body.dificuldade, draws) && HasFields(body) && QuantityOk(body)
    requires body.disciplina in cat
    ensures Respond(cat, body, draws).status == 422 <==>
      forall i :: 0 <= i < |body.habilidades.value| ==> !HasTemplates(cat[body.disciplina], body.habilidades.value[i], body.dificuldade)
  {
    GeneratedEmpty(cat, Request(body), draws);
  }

  /**
   * A success carries between 1 and `quantidade` questions, an answer key with one entry per
   * question id, every entry `a`, and the count in its message.
   */
  lemma SuccessAnswer(cat: map<string, SubjectTemplates>, body: Body, draws: nat -> QuestionDraw)
    requires CatalogueOk(cat) && ValidDraws(body.dificuldade, draws)
    requires Respond(cat, body, draws).status == 200
    ensures var p := Respond(cat, body, draws).payload;
      p.Success? && 1 <= |p.prova.questoes| <= body.quantidade &&
      p.prova.gabarito.Keys == (set q | q in p.prova.questoes :: q.id) &&
      |p.prova.gabarito| == |p.prova.questoes| &&
      (forall id | id in p.prova.gabarito :: p.prova.gabarito[id] == "a") &&
      p.message == SuccessMessage(|p.prova.questoes|)
  {
    var params := Request(body);
    GeneratedCount(cat, params, draws);
    GeneratedQuestions(cat, params, draws);
    GeneratedDistinctIds(cat, params, draws);
    var qs := Generated(cat, params, draws).questoes;
    AnswerKeyEntries(qs);
    AnswerKeySize(qs);
  }
}
