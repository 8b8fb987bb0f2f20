/**
 * The static question-template catalogue of the generation route, indexed by
 * subject (`portugues`, `matematica`), then skill code, then difficulty.
 */
module Templates {

  /**
   * A question blueprint: a statement pattern, four alternative patterns
   * (by convention the first one is the correct answer) and an explanation pattern.
   * Placeholders are written `[NAME]` inside the three texts.
   */
  datatype Template = Template(pattern: string, alternatives: seq<string>, explanation: string)

  /** Difficulty -> templates, for one skill. */
  type SkillTemplates = map<string, seq<Template>>

  /** Skill code -> its templates, for one subject. */
  type SubjectTemplates = map<string, SkillTemplates>

  const PortuguesH01: SkillTemplates := map[
    "facil" := [
      Template("Leia o texto e responda: [TEXTO_CURTO] Onde acontece a história?",
               ["Na escola", "Em casa", "No parque", "Na rua"],
               "A informação sobre o local está explícita no texto."),
      Template("No texto '[TEXTO_CURTO]', qual é o nome do personagem principal?",
               ["João", "Maria", "Pedro", "Ana"],
               "O nome do personagem está claramente mencionado no início do texto.")
    ],
    "medio" := [
      Template("Segundo o texto, [CONTEXTO], qual informação pode ser encontrada diretamente?",
               ["Dado A", "Dado B", "Dado C", "Dado D"],
               "Esta informação está explicitamente declarada no segundo parágrafo.")
    ],
    "dificil" := [
      Template("Com base na leitura completa do texto, identifique qual das seguintes informações está explicitamente apresentada:",
               ["Informação complexa A", "Informação complexa B", "Informação complexa C", "Informação complexa D"],
               "Embora o texto seja mais complexo, esta informação está diretamente mencionada.")
    ]
  ]

  const PortuguesH02: SkillTemplates := map[
    "facil" := [
      Template("No contexto da frase '[FRASE]', a palavra '[PALAVRA]' significa:",
               ["Significado A", "Significado B", "Significado C", "Significado D"],
               "O contexto da frase nos ajuda a entender o significado da palavra.")
    ],
    "medio" := [
      Template("Na expressão '[EXPRESSAO]' usada no texto, o sentido é de:",
               ["Sentido A", "Sentido B", "Sentido C", "Sentido D"],
               "O contexto em que a expressão é utilizada indica este significado.")
    ]
  ]

  const PortuguesH03: SkillTemplates := map[
    "facil" := [
      Template("O que podemos concluir sobre [PERSONAGEM] a partir de suas ações no texto?",
               ["Característica A", "Característica B", "Característica C", "Característica D"],
               "As ações do personagem nos permitem inferir esta característica.")
    ]
  ]

  const PortuguesH04: SkillTemplates := map[
    "facil" := [
      Template("O assunto principal do texto é:",
               ["Tema A", "Tema B", "Tema C", "Tema D"],
               "Todo o texto gira em torno deste tema central.")
    ]
  ]

  const Portugues: SubjectTemplates := map["H01" := PortuguesH01, "H02" := PortuguesH02, "H03" := PortuguesH03, "H04" := PortuguesH04]

  const MatematicaH01: SkillTemplates := map[
    "facil" := [
      Template("No número [NUMERO], o algarismo [ALGARISMO] ocupa a posição das:",
               ["unidades", "dezenas", "centenas", "unidades de milhar"],
               "Analisando o valor posicional no sistema decimal.")
    ],
    "medio" := [
      Template("O número [NUMERO_GRANDE] pode ser decomposto como:",
               ["Decomposição A", "Decomposição B", "Decomposição C", "Decomposição D"],
               "Cada posição representa uma potência de 10.")
    ]
  ]

  const MatematicaH02: SkillTemplates := map[
    "facil" := [
      Template("Na reta numérica, o número [NUMERO] está localizado entre:",
               ["[A] e [B]", "[C] e [D]", "[E] e [F]", "[G] e [H]"],
               "Comparando com os números vizinhos na reta.")
    ]
  ]

  const MatematicaH04: SkillTemplates := map[
    "facil" := [
      Template("[NOME] tinha [QTD1] [OBJETO]. Ganhou mais [QTD2]. Com quantos [OBJETO] ficou?",
               ["[RESULTADO1]", "[RESULTADO2]", "[RESULTADO3]", "[RESULTADO4]"],
               "Situação de adição: [QTD1] + [QTD2] = [RESULTADO_CORRETO]")
    ],
    "medio" := [
      Template("Em uma escola há [QTD1] salas com [QTD2] alunos cada uma. Quantos alunos há no total?",
               ["[RESULTADO1]", "[RESULTADO2]", "[RESULTADO3]", "[RESULTADO4]"],
               "Multiplicação: [QTD1] × [QTD2] = [RESULTADO_CORRETO]")
    ]
  ]

  const MatematicaH11: SkillTemplates := map[
    "facil" := [
      Template("O perímetro de um retângulo com [LARGURA] cm de largura e [ALTURA] cm de altura é:",
               ["[RESULTADO1] cm", "[RESULTADO2] cm", "[RESULTADO3] cm", "[RESULTADO4] cm"],
               "Perímetro = 2 × (largura + altura) = 2 × ([LARGURA] + [ALTURA]) = [RESULTADO_CORRETO] cm")
    ]
  ]

  const Matematica: SubjectTemplates := map["H01" := MatematicaH01, "H02" := MatematicaH02, "H04" := MatematicaH04, "H11" := MatematicaH11]

  /** `questionTemplates`: subject -> skill -> difficulty -> templates. */
  const QuestionTemplates: map<string, SubjectTemplates> := map["portugues" := Portugues, "matematica" := Matematica]

  /** Every template list of a skill is non-empty and every template has exactly four alternatives. */
  ghost predicate SkillWellFormed(st: SkillTemplates) {
    forall d | d in st :: |st[d]| > 0 && forall t | t in st[d] :: |t.alternatives| == 4
  }

  ghost predicate WellFormed(cat: SubjectTemplates) {
    forall h | h in cat :: SkillWellFormed(cat[h])
  }

  /** The templates of one skill at one difficulty, if the catalogue has an entry for both. */
  function Lookup(cat: SubjectTemplates, habilidade: string, dificuldade: string): (r: seq<Template>)
    ensures r != [] ==> habilidade in cat && dificuldade in cat[habilidade] && r == cat[habilidade][dificuldade]
    ensures WellFormed(cat) ==> (r == [] <==> !(habilidade in cat && dificuldade in cat[habilidade]))
  {
    if habilidade in cat && dificuldade in cat[habilidade] then cat[habilidade][dificuldade] else []
  }

  lemma PortuguesH01WellFormed()
    ensures SkillWellFormed(PortuguesH01)
  {
    assert PortuguesH01.Keys == {"facil", "medio", "dificil"};
  }

  lemma PortuguesH02WellFormed()
    ensures SkillWellFormed(PortuguesH02)
  {
    assert PortuguesH02.Keys == {"facil", "medio"};
  }

  lemma PortuguesH03WellFormed()
    ensures SkillWellFormed(PortuguesH03)
  {
    assert PortuguesH03.Keys == {"facil"};
  }

  lemma PortuguesH04WellFormed()
    ensures SkillWellFormed(PortuguesH04)
  {
    assert PortuguesH04.Keys == {"facil"};
  }

  lemma MatematicaH01WellFormed()
    ensures SkillWellFormed(MatematicaH01)
  {
    assert MatematicaH01.Keys == {"facil", "medio"};
  }

  lemma MatematicaH02WellFormed()
    ensures SkillWellFormed(MatematicaH02)
  {
    assert MatematicaH02.Keys == {"facil"};
  }

  lemma MatematicaH04WellFormed()
    ensures SkillWellFormed(MatematicaH04)
  {
    assert MatematicaH04.Keys == {"facil", "medio"};
  }

  lemma MatematicaH11WellFormed()
    ensures SkillWellFormed(MatematicaH11)
  {
    assert MatematicaH11.Keys == {"facil"};
  }

  /** A subject with four skills is well formed when each of its four skills is. */
  lemma FourSkillsWellFormed(cat: SubjectTemplates, k1: string, k2: string, k3: string, k4: string,
                             s1: SkillTemplates, s2: SkillTemplates, s3: SkillTemplates, s4: SkillTemplates)
    requires cat == map[k1 := s1, k2 := s2, k3 := s3, k4 := s4]
    requires SkillWellFormed(s1) && SkillWellFormed(s2) && SkillWellFormed(s3) && SkillWellFormed(s4)
    ensures WellFormed(cat)
  {
  }

  lemma PortuguesWellFormed()
    ensures WellFormed(Portugues)
  {
    PortuguesH01WellFormed();
    PortuguesH02WellFormed();
    PortuguesH03WellFormed();
    PortuguesH04WellFormed();
    FourSkillsWellFormed(Portugues, "H01", "H02", "H03", "H04", PortuguesH01, PortuguesH02, PortuguesH03, PortuguesH04);
  }

  lemma MatematicaWellFormed()
    ensures WellFormed(Matematica)
  {
    MatematicaH01WellFormed();
    MatematicaH02WellFormed();
    MatematicaH04WellFormed();
    MatematicaH11WellFormed();
    FourSkillsWellFormed(Matematica, "H01", "H02", "H04", "H11", MatematicaH01, MatematicaH02, MatematicaH04, MatematicaH11);
  }

  /** The catalogue itself is well formed, so the round-robin index never divides by zero. */
  lemma CatalogueWellFormed()
    ensures forall s | s in QuestionTemplates :: WellFormed(QuestionTemplates[s])
  {
    PortuguesWellFormed();
    MatematicaWellFormed();
    TwoSubjectsWellFormed(QuestionTemplates, "portugues", "matematica", Portugues, Matematica);
  }

  /** A catalogue of two subjects is well formed when both subjects are. */
  lemma TwoSubjectsWellFormed(all: map<string, SubjectTemplates>, k1: string, k2: string, c1: SubjectTemplates, c2: SubjectTemplates)
    requires all == map[k1 := c1, k2 := c2]
    requires WellFormed(c1) && WellFormed(c2)
    ensures forall s | s in all :: WellFormed(all[s])
  {
  }

  /** The addition, multiplication and perimeter templates all put `[RESULTADO1]` in the first slot. */
  lemma ResultTemplates()
    ensures |Lookup(Matematica, "H04", "facil")| == 1 && Lookup(Matematica, "H04", "facil")[0].alternatives[0] == "[RESULTADO1]"
    ensures |Lookup(Matematica, "H04", "medio")| == 1 && Lookup(Matematica, "H04", "medio")[0].alternatives[0] == "[RESULTADO1]"
    ensures |Lookup(Matematica, "H11", "facil")| == 1 && Lookup(Matematica, "H11", "facil")[0].alternatives[0] == "[RESULTADO1] cm"
  {
    assert Lookup(Matematica, "H04", "facil") == MatematicaH04["facil"];
    assert Lookup(Matematica, "H04", "medio") == MatematicaH04["medio"];
    assert Lookup(Matematica, "H11", "facil") == MatematicaH11["facil"];
  }
}
