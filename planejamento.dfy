/**
 * The lesson-plan page: the BNCC skills offered for a subject and school year, the skill toggle,
 * the subject and year changes that clear the selection, and saving a plan. A field of the draft
 * plan that was never filled in is the empty string, which the page treats exactly as `undefined`.
 */
module Planejamento {
  import opened Wrappers
  import opened Selection

  /** One BNCC skill, as the page lists it. */
  datatype BnccSkill = BnccSkill(codigo: string, descricao: string)

  /** A thematic unit; its skill list may be missing. */
  datatype Unidade = Unidade(habilidades: Option<seq<BnccSkill>>)

  /** The data of one school year; its list of thematic units may be missing. */
  datatype AnoDados = AnoDados(unidadesTematicas: Option<seq<Unidade>>)

  /**
   * The parts of the BNCC catalogue the page reads: the years of the Portuguese component of the
   * language area (the component itself may be missing) and the years of the mathematics area.
   */
  datatype Bncc = Bncc(linguaPortuguesa: Option<map<string, AnoDados>>, matematica: map<string, AnoDados>)

  /** The year entry the page reads: Portuguese for `lingua_portuguesa`, mathematics for any other subject. */
  function AnoDadosFor(bncc: Bncc, disciplina: string, ano: string): (r: Option<AnoDados>)
    ensures disciplina != "lingua_portuguesa" ==> (r.Some? <==> ano in bncc.matematica)
    ensures disciplina == "lingua_portuguesa" ==>
      (r.Some? <==> bncc.linguaPortuguesa.Some? && ano in bncc.linguaPortuguesa.value)
  {
    if disciplina == "lingua_portuguesa" then
      if bncc.linguaPortuguesa.Some? && ano in bncc.linguaPortuguesa.value then Some(bncc.linguaPortuguesa.value[ano])
      else None
    else if ano in bncc.matematica then Some(bncc.matematica[ano])
    else None
  }

  /** `ut.habilidades || []`. */
  function UnitSkills(u: Unidade): seq<BnccSkill> {
    if u.habilidades.Some? then u.habilidades.value else []
  }

  /** The skills of the units, concatenated in order. */
  function Concat(units: seq<Unidade>): seq<BnccSkill>
    decreases |units|
  {
    if units == [] then [] else Concat(units[..|units| - 1]) + UnitSkills(units[|units| - 1])
  }

  /** Concatenation works piecewise: the skills of earlier units come first. */
  lemma {:induction false} ConcatAppend(a: seq<Unidade>, b: seq<Unidade>)
    ensures Concat(a + b) == Concat(a) + Concat(b)
    decreases |b|
  {
    if b == [] {
      assert a + b == a;
    } else {
      var init := b[..|b| - 1];
      assert (a + b)[..|a + b| - 1] == a + init;
      ConcatAppend(a, init);
    }
  }

  /** A skill is offered exactly when some unit lists it; a unit without a list adds nothing. */
  lemma {:induction false} ConcatMember(units: seq<Unidade>, s: BnccSkill)
    ensures s in Concat(units) <==>
      exists i :: 0 <= i < |units| && units[i].habilidades.Some? && s in units[i].habilidades.value
    decreases |units|
  {
    if units != [] {
      var init := units[..|units| - 1];
      ConcatMember(init, s);
      assert forall i | 0 <= i < |init| :: init[i] == units[i];
      if s in Concat(init) {
        var i :| 0 <= i < |init| && init[i].habilidades.Some? && s in init[i].habilidades.value;
        assert units[i] == init[i];
      }
    }
  }

  /** The skills offered for a subject and a year. */
  function SkillsFor(bncc: Bncc, disciplina: string, ano: string): seq<BnccSkill> {
    if disciplina == "" || ano == "" then []
    else
      match AnoDadosFor(bncc, disciplina, ano)
      case None => []
      case Some(d) => if d.unidadesTematicas.None? then [] else Concat(d.unidadesTematicas.value)
  }

  /** `getHabilidadesPorDisciplinaAno`: concatenate the skill lists of the year's thematic units. */
  method GetHabilidadesPorDisciplinaAno(bncc: Bncc, disciplina: string, ano: string) returns (habilidades: seq<BnccSkill>)
    ensures habilidades == SkillsFor(bncc, disciplina, ano)
    ensures disciplina == "" || ano == "" ==> habilidades == []
  {
    if disciplina == "" || ano == "" {
      return [];
    }
    habilidades := [];
    var dadosAno := AnoDadosFor(bncc, disciplina, ano);
    if dadosAno.Some? && dadosAno.value.unidadesTematicas.Some? {
      var unidades := dadosAno.value.unidadesTematicas.value;
      for i := 0 to |unidades|
        invariant habilidades == Concat(unidades[..i])
      {
        assert unidades[..i + 1][..i] == unidades[..i];
        var ut := unidades[i];
        habilidades := habilidades + (if ut.habilidades.Some? then ut.habilidades.value else []);
      }
      assert unidades[..|unidades|] == unidades;
    }
  }

  /** Any subject other than `lingua_portuguesa`, a misspelt one included, is offered the mathematics skills. */
  lemma OtherSubjectsReadMathematics(bncc: Bncc, disciplina: string, ano: string)
    requires disciplina != "" && disciplina != "lingua_portuguesa"
    ensures SkillsFor(bncc, disciplina, ano) == SkillsFor(bncc, "matematica", ano)
  {
  }

  /** The draft plan (`Partial<PlanoAula>`); the empty string stands for a field never filled in. */
  datatype Rascunho = Rascunho(
    titulo: string, disciplina: string, ano: string, objetivo: string, conteudo: string,
    metodologia: string, recursos: string, avaliacao: string, duracao: string)

  const RascunhoVazio := Rascunho("", "", "", "", "", "", "", "", "")

  /** A saved plan; its id and creation date come from the clock and are left out. */
  datatype PlanoAula = PlanoAula(
    titulo: string, disciplina: string, ano: string, objetivo: string, habilidades: seq<string>,
    conteudo: string, metodologia: string, recursos: string, avaliacao: string, duracao: string)

  datatype Modo = Criar | ListaPlanos

  datatype PlanejamentoState = PlanejamentoState(
    planoAtual: Rascunho, habilidadesSelecionadas: seq<string>, planosSalvos: seq<PlanoAula>, modo: Modo)

  /** `toggleHabilidade`: only the selection changes. */
  function ToggleHabilidade(st: PlanejamentoState, codigo: string): (st': PlanejamentoState)
    ensures st'.habilidadesSelecionadas == Toggle(st.habilidadesSelecionadas, codigo)
    ensures st' == st.(habilidadesSelecionadas := st'.habilidadesSelecionadas)
  {
    st.(habilidadesSelecionadas := Toggle(st.habilidadesSelecionadas, codigo))
  }

  /** Choosing a subject sets it in the draft and clears the selection. */
  function SelecionarDisciplina(st: PlanejamentoState, value: string): (st': PlanejamentoState)
    ensures st'.planoAtual == st.planoAtual.(disciplina := value) && st'.habilidadesSelecionadas == []
    ensures st'.planosSalvos == st.planosSalvos && st'.modo == st.modo
  {
    st.(planoAtual := st.planoAtual.(disciplina := value), habilidadesSelecionadas := [])
  }

  /** Choosing a year sets it in the draft and clears the selection. */
  function SelecionarAno(st: PlanejamentoState, value: string): (st': PlanejamentoState)
    ensures st'.planoAtual == st.planoAtual.(ano := value) && st'.habilidadesSelecionadas == []
    ensures st'.planosSalvos == st.planosSalvos && st'.modo == st.modo
  {
    st.(planoAtual := st.planoAtual.(ano := value), habilidadesSelecionadas := [])
  }

  /** The guard of `handleSalvarPlano`: title, subject and year all filled in. */
  predicate CanSave(p: Rascunho) {
    p.titulo != "" && p.disciplina != "" && p.ano != ""
  }

  /** The plan built from the draft: each field as written (`|| ''`) and the current selection. */
  function NovoPlano(p: Rascunho, selecionadas: seq<string>): (plano: PlanoAula)
    ensures plano.titulo == p.titulo && plano.disciplina == p.disciplina && plano.ano == p.ano
    ensures plano.objetivo == p.objetivo && plano.conteudo == p.conteudo && plano.metodologia == p.metodologia
    ensures plano.recursos == p.recursos && plano.avaliacao == p.avaliacao && plano.duracao == p.duracao
    ensures plano.habilidades == selecionadas
  {
    PlanoAula(p.titulo, p.disciplina, p.ano, p.objetivo, selecionadas, p.conteudo, p.metodologia, p.recursos, p.avaliacao, p.duracao)
  }

  /**
   * `handleSalvarPlano`: with a title, a subject and a year, append the plan and clear the draft
   * and the selection; otherwise (an alert) change nothing.
   */
  function SalvarPlano(st: PlanejamentoState): (st': PlanejamentoState)
    ensures !CanSave(st.planoAtual) ==> st' == st
    ensures CanSave(st.planoAtual) ==>
      st'.planosSalvos == st.planosSalvos + [NovoPlano(st.planoAtual, st.habilidadesSelecionadas)] &&
      st'.planoAtual == RascunhoVazio && st'.habilidadesSelecionadas == [] && st'.modo == ListaPlanos
  {
    if !CanSave(st.planoAtual) then st
    else
      st.(planosSalvos := st.planosSalvos + [NovoPlano(st.planoAtual, st.habilidadesSelecionadas)],
          planoAtual := RascunhoVazio, habilidadesSelecionadas := [], modo := ListaPlanos)
  }

  /**
   * Saving keeps every earlier plan in place, adds at most one plan, and every saved plan has a
   * title, a subject and a year.
   */
  lemma SavedPlansComplete(st: PlanejamentoState)
    requires forall i | 0 <= i < |st.planosSalvos| ::
      st.planosSalvos[i].titulo != "" && st.planosSalvos[i].disciplina != "" && st.planosSalvos[i].ano != ""
    ensures var st' := SalvarPlano(st);
      st.planosSalvos <= st'.planosSalvos && |st'.planosSalvos| <= |st.planosSalvos| + 1 &&
      forall i | 0 <= i < |st'.planosSalvos| ::
        st'.planosSalvos[i].titulo != "" && st'.planosSalvos[i].disciplina != "" && st'.planosSalvos[i].ano != ""
  {
  }

  /** After a save the form cannot be saved again until it is filled in anew. */
  lemma SaveThenBlocked(st: PlanejamentoState)
    requires CanSave(st.planoAtual)
    ensures SalvarPlano(SalvarPlano(st)) == SalvarPlano(st)
  {
  }
}
