/**
 * The exam page: the skill list offered for a subject, the skill toggle, the subject change that
 * clears the selection, the guard in front of the generation request, saving the generated exam,
 * the quantity field, and the plain-text export. React state is a value the handlers replace, so
 * each handler is a function from the old state to the new one.
 */
module Provas {
  import opened Wrappers
  import opened Text
  import opened Selection
  import opened Generator
  import opened Route

  /** One skill of the SAEB catalogue, as the page lists it. */
  datatype SaebSkill = SaebSkill(codigo: string, habilidade: string, descricao: string)

  /** One value of a subject's catalogue entry: an array of skills, or anything else. */
  datatype Categoria = Lista(itens: seq<SaebSkill>) | Outro

  /** The SAEB catalogue: subject -> the values of its entry, in `Object.values` order. */
  type Saeb = map<string, seq<Categoria>>

  datatype Visualizacao = Configurar | Preview | ListaProvas

  datatype Configuracao = Configuracao(
    disciplina: string, ano: string, quantidade: int, dificuldade: string, habilidadesSelecionadas: seq<string>)

  datatype ProvasState = ProvasState(
    configuracao: Configuracao, provaGerada: Option<Prova>, provasSalvas: seq<Prova>, visualizacao: Visualizacao)

  /** The skills of the array-valued categories, concatenated in order; other values add nothing. */
  function Flatten(cats: seq<Categoria>): (r: seq<SaebSkill>)
    decreases |cats|
  {
    if cats == [] then []
    else
      var last := cats[|cats| - 1];
      Flatten(cats[..|cats| - 1]) + (if last.Lista? then last.itens else [])
  }

  /** Flattening works piecewise: the skills of earlier categories come first. */
  lemma {:induction false} FlattenConcat(a: seq<Categoria>, b: seq<Categoria>)
    ensures Flatten(a + b) == Flatten(a) + Flatten(b)
    decreases |b|
  {
    if b == [] {
      assert a + b == a;
    } else {
      var init := b[..|b| - 1];
      assert (a + b)[..|a + b| - 1] == a + init;
      FlattenConcat(a, init);
    }
  }

  /** A skill is offered exactly when some array-valued category holds it. */
  lemma {:induction false} FlattenMember(cats: seq<Categoria>, s: SaebSkill)
    ensures s in Flatten(cats) <==> exists i :: 0 <= i < |cats| && cats[i].Lista? && s in cats[i].itens
    decreases |cats|
  {
    if cats != [] {
      var init := cats[..|cats| - 1];
      FlattenMember(init, s);
      assert forall i | 0 <= i < |init| :: init[i] == cats[i];
      if s in Flatten(init) {
        var i :| 0 <= i < |init| && init[i].Lista? && s in init[i].itens;
        assert cats[i] == init[i];
      }
    }
  }

  /** The skills offered for a subject: none for an empty or unknown subject. */
  function SkillsFor(saeb: Saeb, disciplina: string): seq<SaebSkill> {
    if disciplina == "" || disciplina !in saeb then [] else Flatten(saeb[disciplina])
  }

  /** `getHabilidadesPorDisciplina`: push the items of every array-valued category, in order. */
  method GetHabilidadesPorDisciplina(saeb: Saeb, disciplina: string) returns (habilidades: seq<SaebSkill>)
    ensures habilidades == SkillsFor(saeb, disciplina)
    ensures disciplina == "" || disciplina !in saeb ==> habilidades == []
  {
    if disciplina == "" || disciplina !in saeb {
      return [];
    }
    var dados := saeb[disciplina];
    habilidades := [];
    for i := 0 to |dados|
      invariant habilidades == Flatten(dados[..i])
    {
      assert dados[..i + 1][..i] == dados[..i];
      if dados[i].Lista? {
        habilidades := habilidades + dados[i].itens;
      }
    }
    assert dados[..|dados|] == dados;
  }

  /** `handleToggleHabilidade`: only the selection changes. */
  function ToggleHabilidade(st: ProvasState, codigo: string): (st': ProvasState)
    ensures st'.configuracao.habilidadesSelecionadas == Toggle(st.configuracao.habilidadesSelecionadas, codigo)
    ensures st' == st.(configuracao := st'.configuracao)
    ensures st'.configuracao == st.configuracao.(habilidadesSelecionadas := st'.configuracao.habilidadesSelecionadas)
  {
    st.(configuracao := st.configuracao.(habilidadesSelecionadas := Toggle(st.configuracao.habilidadesSelecionadas, codigo)))
  }

  /** Choosing a subject sets it and clears the selected skills. */
  function SelecionarDisciplina(st: ProvasState, value: string): (st': ProvasState)
    ensures st'.configuracao.disciplina == value && st'.configuracao.habilidadesSelecionadas == []
    ensures st'.configuracao.ano == st.configuracao.ano && st'.configuracao.quantidade == st.configuracao.quantidade
    ensures st'.configuracao.dificuldade == st.configuracao.dificuldade
    ensures st'.provaGerada == st.provaGerada && st'.provasSalvas == st.provasSalvas
    ensures st' == st.(configuracao := st'.configuracao)
  {
    st.(configuracao := st.configuracao.(disciplina := value, habilidadesSelecionadas := []))
  }

  /** The guard of `handleGerarProva`: a subject and at least one skill. */
  predicate CanGenerate(c: Configuracao) {
    c.disciplina != "" && |c.habilidadesSelecionadas| > 0
  }

  /** The body `handleGerarProva` posts, or nothing when the guard stops it. */
  function RequestBody(c: Configuracao): (body: Option<Body>)
    ensures body.Some? <==> CanGenerate(c)
    ensures body.Some? ==> (HasFields(body.value) && body.value.habilidades == Some(c.habilidadesSelecionadas) &&
                            body.value.disciplina == c.disciplina && body.value.quantidade == c.quantidade)
  {
    if !CanGenerate(c) then None
    else Some(Body(c.disciplina, Some(c.habilidadesSelecionadas), c.quantidade, c.dificuldade, c.ano))
  }

  /** Right after a subject change nothing can be generated until a skill is chosen. */
  lemma NoRequestAfterSubjectChange(st: ProvasState, value: string)
    ensures RequestBody(SelecionarDisciplina(st, value).configuracao) == None
  {
  }

  /**
   * `handleGerarProva` with the server's answer `resposta`: an ok, successful answer becomes the
   * generated exam and opens the preview; anything else (an alert) changes nothing.
   */
  function GerarProva(st: ProvasState, resposta: Response): (st': ProvasState)
    ensures !CanGenerate(st.configuracao) ==> st' == st
    ensures st'.configuracao == st.configuracao && st'.provasSalvas == st.provasSalvas
    ensures CanGenerate(st.configuracao) && 200 <= resposta.status <= 299 && resposta.payload.Success? ==>
      st'.provaGerada == Some(resposta.payload.prova) && st'.visualizacao == Preview
    ensures !(200 <= resposta.status <= 299 && resposta.payload.Success?) ==> st' == st
    ensures st'.provaGerada != st.provaGerada ==>
      resposta.payload.Success? && st'.provaGerada == Some(resposta.payload.prova)
  {
    if !CanGenerate(st.configuracao) then st
    else if 200 <= resposta.status <= 299 && resposta.payload.Success? then
      st.(provaGerada := Some(resposta.payload.prova), visualizacao := Preview)
    else st
  }

  /**
   * Against the route itself, a 200 answer is kept, and an exam the page keeps has between 1 and `quantidade` questions,
   * with an answer key of one `a` per question id.
   */
  lemma GeneratedExamShape(cat: map<string, Templates.SubjectTemplates>, st: ProvasState, draws: nat -> QuestionDraw)
    requires CatalogueOk(cat) && ValidDraws(st.configuracao.dificuldade, draws)
    requires CanGenerate(st.configuracao)
    ensures var resposta := Respond(cat, RequestBody(st.configuracao).value, draws);
      resposta.status == 200 ==> GerarProva(st, resposta).provaGerada == Some(resposta.payload.prova)
    ensures var st' := GerarProva(st, Respond(cat, RequestBody(st.configuracao).value, draws));
      st'.provaGerada != st.provaGerada ==>
        var p := st'.provaGerada.value;
        1 <= |p.questoes| <= st.configuracao.quantidade &&
        |p.gabarito| == |p.questoes| && forall id | id in p.gabarito :: p.gabarito[id] == "a"
  {
    var body := RequestBody(st.configuracao).value;
    var resposta := Respond(cat, body, draws);
    if resposta.status == 200 {
      SuccessAnswer(cat, body, draws);
    } else {
      StatusOfSuccess(cat, body, draws);
    }
  }

  /** Only a 200 answer carries an exam. */
  lemma StatusOfSuccess(cat: map<string, Templates.SubjectTemplates>, body: Body, draws: nat -> QuestionDraw)
    requires CatalogueOk(cat) && ValidDraws(body.dificuldade, draws)
    ensures Respond(cat, body, draws).payload.Success? ==> Respond(cat, body, draws).status == 200
  {
  }

  /** `handleSalvarProva`: the generated exam, if any, is appended to the saved list. */
  function SalvarProva(st: ProvasState): (st': ProvasState)
    ensures st.provaGerada.None? ==> st' == st
    ensures st.provaGerada.Some? ==>
      st'.provasSalvas == st.provasSalvas + [st.provaGerada.value] && st'.visualizacao == ListaProvas &&
      st'.configuracao == st.configuracao && st'.provaGerada == st.provaGerada
  {
    if st.provaGerada.None? then st
    else st.(provasSalvas := st.provasSalvas + [st.provaGerada.value], visualizacao := ListaProvas)
  }

  /** `parseInt(text) || 10`: the number typed, with 10 for text that reads as 0 or as no number. */
  function QuantidadeInput(text: string): (q: int)
    ensures q != 0
    ensures ParseInt(text).None? ==> q == 10
    ensures ParseInt(text).Some? ==> q == if ParseInt(text).value == 0 then 10 else ParseInt(text).value
  {
    match ParseInt(text)
    case None => 10
    case Some(n) => if n == 0 then 10 else n
  }

  /** The decimal text of a positive number gives that number; `0` and empty text give 10. */
  lemma QuantidadeOfNumber(n: nat)
    ensures QuantidadeInput(NatToString(n)) == if n == 0 then 10 else n
    ensures QuantidadeInput("") == 10
  {
    ParseIntOfNatToString(n);
  }

  /** The header of the export: subject in upper case, year, difficulty and the date. */
  function ExportHeader(c: Configuracao, data: string): string {
    "PROVA DE " + Upper(c.disciplina) + "\n\n" +
    "Ano: " + c.ano + " | Dificuldade: " + c.dificuldade + "\n" +
    "Data: " + data + "\n\n"
  }

  /** The block of the question at 0-based position `i`. */
  function ExportBlock(i: nat, q: Question): string {
    NatToString(i + 1) + ". " + q.enunciado + "\n\n" +
    "a) " + q.alternativas.a + "\n" +
    "b) " + q.alternativas.b + "\n" +
    "c) " + q.alternativas.c + "\n" +
    "d) " + q.alternativas.d + "\n\n"
  }

  /** The blocks of all questions, numbered by position. */
  function ExportBlocks(qs: seq<Question>): string
    decreases |qs|
  {
    if qs == [] then "" else ExportBlocks(qs[..|qs| - 1]) + ExportBlock(|qs| - 1, qs[|qs| - 1])
  }

  /** The export text, or nothing without a generated exam; `data` is today's date. */
  function ExportText(st: ProvasState, data: string): Option<string> {
    if st.provaGerada.None? then None
    else Some(ExportHeader(st.configuracao, data) + ExportBlocks(st.provaGerada.value.questoes))
  }

  /** One more question adds its block at the end. */
  lemma ExportBlocksSnoc(qs: seq<Question>, i: nat)
    requires i < |qs|
    ensures ExportBlocks(qs[..i + 1]) == ExportBlocks(qs[..i]) + ExportBlock(i, qs[i])
  {
    assert qs[..i + 1][..i] == qs[..i];
  }

  /** `+` on strings is associative. */
  lemma ConcatAssoc(a: string, b: string, c: string)
    ensures (a + b) + c == a + (b + c)
  {
  }

  /** The blocks of the first questions come first, each followed by the next question's block. */
  lemma {:induction false} ExportBlocksPrefix(qs: seq<Question>, i: nat)
    requires i < |qs|
    ensures ExportBlocks(qs[..i]) + ExportBlock(i, qs[i]) <= ExportBlocks(qs)
    decreases |qs|
  {
    var n := |qs| - 1;
    assert qs[..n + 1] == qs;
    ExportBlocksSnoc(qs, n);
    if i < n {
      var init := qs[..n];
      ExportBlocksPrefix(init, i);
      assert init[..i] == qs[..i] && init[i] == qs[i];
      PrefixExtend(ExportBlocks(qs[..i]) + ExportBlock(i, qs[i]), ExportBlocks(init), ExportBlock(n, qs[n]));
    } else {
      assert qs[..n] == qs[..i];
    }
  }

  /** A prefix of a string is a prefix of any extension of it. */
  lemma PrefixExtend(p: string, s: string, t: string)
    requires p <= s
    ensures p <= s + t
  {
    assert (s + t)[..|s|] == s;
  }

  /** The first three lines of the export, appended one after the other. */
  method HeaderLines(c: Configuracao, data: string) returns (texto: string)
    ensures texto == ExportHeader(c, data)
  {
    texto := "PROVA DE " + Upper(c.disciplina) + "\n\n";
    texto := texto + "Ano: " + c.ano + " | Dificuldade: " + c.dificuldade + "\n";
    texto := texto + "Data: " + data + "\n\n";
  }

  /** One pass of the export loop: the question's lines, appended one after the other. */
  method AppendBlock(antes: string, index: nat, questao: Question) returns (texto: string)
    ensures texto == antes + ExportBlock(index, questao)
  {
    texto := antes + NatToString(index + 1) + ". " + questao.enunciado + "\n\n";
    texto := texto + "a) " + questao.alternativas.a + "\n";
    texto := texto + "b) " + questao.alternativas.b + "\n";
    texto := texto + "c) " + questao.alternativas.c + "\n";
    texto := texto + "d) " + questao.alternativas.d + "\n\n";
  }

  /** `exportarParaPDF`: the header, then one block per question, accumulated line by line. */
  method ExportarParaPDF(st: ProvasState, data: string) returns (conteudo: Option<string>)
    ensures conteudo == ExportText(st, data)
    ensures st.provaGerada.None? <==> conteudo.None?
  {
    if st.provaGerada.None? {
      return None;
    }
    var questoes := st.provaGerada.value.questoes;
    var texto := HeaderLines(st.configuracao, data);
    ghost var header := texto;
    for index := 0 to |questoes|
      invariant texto == header + ExportBlocks(questoes[..index])
    {
      ExportBlocksSnoc(questoes, index);
      ConcatAssoc(header, ExportBlocks(questoes[..index]), ExportBlock(index, questoes[index]));
      texto := AppendBlock(texto, index, questoes[index]);
    }
    assert questoes[..|questoes|] == questoes;
    conteudo := Some(texto);
  }
}
