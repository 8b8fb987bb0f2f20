/**
 * The question assembler (`generateQuestionsFromTemplates`) and the `POST` handler of the
 * generation route. The template catalogue is a parameter; the route uses `QuestionTemplates`,
 * which `CatalogueWellFormed` shows satisfies the assembler's precondition.
 * The random draws of the n-th generated question (0-based) are `draws(n)`.
 */
module Generator {
  import opened Wrappers
  import opened Text
  import opened Templates
  import opened Values
  import opened Render
  import opened Shuffle

  datatype Alternativas = Alternativas(a: string, b: string, c: string, d: string)

  datatype Question = Question(
    id: string, habilidade: string, enunciado: string, alternativas: Alternativas,
    gabarito: string, explicacao: string, dificuldade: string)

  /** A request that passed validation: subject, skill codes, quantity, difficulty and school year. */
  datatype QuestionRequest = QuestionRequest(
    disciplina: string, habilidades: seq<string>, quantidade: int, dificuldade: string, ano: string)

  /** The draws one generated question consumes: its value bag, then its shuffle. */
  datatype QuestionDraw = QuestionDraw(values: ValueDraws, shuffle: ShuffleDraw)

  ghost predicate ValidDraw(dificuldade: string, d: QuestionDraw) {
    ValidValueDraws(dificuldade, d.values) && ValidShuffleDraw(d.shuffle)
  }

  /** The draws of the n-th question are in range. */
  ghost predicate DrawOk(dificuldade: string, draws: nat -> QuestionDraw, n: nat) {
    ValidDraw(dificuldade, draws(n))
  }

  ghost predicate ValidDraws(dificuldade: string, draws: nat -> QuestionDraw) {
    forall n: nat :: DrawOk(dificuldade, draws, n)
  }

  /** Every subject of the catalogue is well formed. */
  ghost predicate CatalogueOk(cat: map<string, SubjectTemplates>) {
    forall s | s in cat :: WellFormed(cat[s])
  }

  /** `Q` followed by the sequence number, zero-padded to three digits. */
  function QuestionId(n: nat): string {
    "Q" + PadStart(NatToString(n), 3, '0')
  }

  /** The number can be read back from the id, so different numbers give different ids. */
  lemma QuestionIdNumber(n: nat)
    ensures QuestionId(n)[0] == 'Q'
    ensures AllDigits(QuestionId(n)[1..]) && DigitsValue(QuestionId(n)[1..]) == n
    ensures ParseInt(QuestionId(n)[1..]) == Some(n)
    ensures (|QuestionId(n)| == 4) == (n < 1000)
  {
    var p := PadStart(NatToString(n), 3, '0');
    assert QuestionId(n) == "Q" + p;
    assert ("Q" + p)[1..] == p;
    PaddedNumber(n);
  }

  /** The zero-padded number is a digit string of at least three digits that reads back as the number. */
  lemma PaddedNumber(n: nat)
    ensures var p := PadStart(NatToString(n), 3, '0');
      AllDigits(p) && DigitsValue(p) == n && ParseInt(p) == Some(n) && (|p| == 3) == (n < 1000)
  {
    var s := NatToString(n);
    PadStartZerosValue(s, 3);
    DigitsValueOfNatToString(n);
    NatToStringShort(n);
    ParseIntOfDigits(PadStart(s, 3, '0'));
  }

  lemma QuestionIdInjective(m: nat, n: nat)
    ensures QuestionId(m) == QuestionId(n) ==> m == n
  {
    QuestionIdNumber(m);
    QuestionIdNumber(n);
  }

  /** `Math.ceil(q / n)` for a positive `n`. */
  function CeilDiv(q: int, n: int): (r: int)
    requires n > 0
    ensures n * (r - 1) < q <= n * r
  {
    if q % n == 0 then q / n else q / n + 1
  }

  /** A position of the run: a skill code and the template it uses. */
  datatype Slot = Slot(habilidade: string, template: Template)

  /** The first `count` questions of a skill reuse its templates round-robin. */
  function SkillRun(h: string, ts: seq<Template>, count: nat): (r: seq<Slot>)
    requires |ts| > 0
    ensures |r| == count
    ensures forall s | s in r :: s.habilidade == h && s.template in ts
  {
    seq(count, i requires 0 <= i < count => Slot(h, ts[i % |ts|]))
  }

  /** Whether a skill entry has templates at the difficulty (`habilidadeTemplates` and `difficultyTemplates` both set). */
  predicate HasTemplates(subj: SubjectTemplates, h: string, dificuldade: string) {
    h in subj && dificuldade in subj[h]
  }

  /** The number of skill entries, duplicates included, that have templates at the difficulty. */
  function CountWithTemplates(subj: SubjectTemplates, hs: seq<string>, dificuldade: string): (k: nat)
    ensures k <= |hs|
    ensures k == 0 <==> forall i :: 0 <= i < |hs| ==> !HasTemplates(subj, hs[i], dificuldade)
    decreases |hs|
  {
    if hs == [] then 0
    else CountWithTemplates(subj, hs[..|hs| - 1], dificuldade) + (if HasTemplates(subj, hs[|hs| - 1], dificuldade) then 1 else 0)
  }

  /**
   * Every slot the loops would fill without the quantity bound: per skill entry with templates,
   * in input order, `per` slots using its templates round-robin.
   */
  function AllSlots(subj: SubjectTemplates, hs: seq<string>, dificuldade: string, per: nat): (r: seq<Slot>)
    requires WellFormed(subj)
    ensures |r| == per * CountWithTemplates(subj, hs, dificuldade)
    ensures forall s | s in r ::
      s.habilidade in hs && HasTemplates(subj, s.habilidade, dificuldade) &&
      s.template in subj[s.habilidade][dificuldade] && |s.template.alternatives| == 4
    decreases |hs|
  {
    if hs == [] then []
    else
      var h := hs[|hs| - 1];
      var init := AllSlots(subj, hs[..|hs| - 1], dificuldade, per);
      assert forall x | x in hs[..|hs| - 1] :: x in hs;
      if HasTemplates(subj, h, dificuldade) then
        MulSucc(per, CountWithTemplates(subj, hs[..|hs| - 1], dificuldade));
        init + SkillRun(h, subj[h][dificuldade], per)
      else init
  }

  lemma MulSucc(per: nat, k: nat)
    ensures per * (k + 1) == per * k + per
  {
  }

  /** `questions.slice(0, quantidade)` on a list the loop keeps no longer than `quantidade`. */
  function Take<T>(s: seq<T>, q: int): (r: seq<T>)
    ensures |r| == if q <= 0 then 0 else if q < |s| then q else |s|
    ensures r == s[..|r|]
  {
    if q <= 0 then [] else if q < |s| then s[..q] else s
  }

  /** Every slot's template has the four alternatives the record needs. */
  predicate FourAlternatives(slots: seq<Slot>) {
    forall s | s in slots :: |s.template.alternatives| == 4
  }

  /** The question the loop builds on one slot: values, substitution, shuffle, and the record. */
  function MakeQuestion(disciplina: string, dificuldade: string, slot: Slot, number: nat, d: QuestionDraw): (q: Question)
    requires |slot.template.alternatives| == 4
    requires ValidDraw(dificuldade, d)
    ensures q.id == QuestionId(number) && q.habilidade == slot.habilidade && q.dificuldade == dificuldade
    ensures q.gabarito == "a"
  {
    var valores := RandomValues(disciplina, dificuldade, d.values);
    var t := slot.template;
    var alts := Shuffled(SubstituteEach(t.alternatives, valores), d.shuffle);
    Question(QuestionId(number), slot.habilidade, Substitute(t.pattern, valores),
      Alternativas(alts[0], alts[1], alts[2], alts[3]), "a", Substitute(t.explanation, valores), dificuldade)
  }

  /** The questions on these slots, numbered from 1 and each with the draws of its position. */
  function Questions(disciplina: string, dificuldade: string, slots: seq<Slot>, draws: nat -> QuestionDraw): (qs: seq<Question>)
    requires ValidDraws(dificuldade, draws) && FourAlternatives(slots)
    ensures |qs| == |slots|
  {
    seq(|slots|, n requires 0 <= n < |slots| =>
      assert slots[n] in slots && DrawOk(dificuldade, draws, n);
      MakeQuestion(disciplina, dificuldade, slots[n], n + 1, draws(n)))
  }

  /** The n-th question (0-based) is built on the n-th slot, numbered n + 1, with the n-th draws. */
  lemma QuestionsAt(disciplina: string, dificuldade: string, slots: seq<Slot>, draws: nat -> QuestionDraw, n: nat)
    requires ValidDraws(dificuldade, draws) && FourAlternatives(slots) && n < |slots|
    ensures assert DrawOk(dificuldade, draws, n);
      Questions(disciplina, dificuldade, slots, draws)[n] == MakeQuestion(disciplina, dificuldade, slots[n], n + 1, draws(n))
  {
  }

  /** The assembler either throws (it dereferences an unknown subject) or returns its questions. */
  datatype Outcome = Thrown | Returned(questoes: seq<Question>)

  /** The subject's templates, or none for an unknown subject. */
  function SubjectOf(cat: map<string, SubjectTemplates>, disciplina: string): SubjectTemplates {
    if disciplina in cat then cat[disciplina] else map[]
  }

  function Per(params: QuestionRequest): nat
    requires |params.habilidades| > 0
  {
    var p := CeilDiv(params.quantidade, |params.habilidades|);
    if p < 0 then 0 else p
  }

  /** What `generateQuestionsFromTemplates(params)` produces for these draws. */
  function Generated(cat: map<string, SubjectTemplates>, params: QuestionRequest, draws: nat -> QuestionDraw): Outcome
    requires CatalogueOk(cat) && ValidDraws(params.dificuldade, draws)
  {
    if params.habilidades == [] then Returned([])
    else if params.disciplina !in cat then Thrown
    else
      var slots := Take(AllSlots(cat[params.disciplina], params.habilidades, params.dificuldade, Per(params)), params.quantidade);
      Returned(Questions(params.disciplina, params.dificuldade, slots, draws))
  }

  /** One loop iteration: draw the values, substitute, shuffle in place, and build the record. */
  method BuildQuestion(disciplina: string, dificuldade: string, habilidade: string, template: Template, questionId: nat, d: QuestionDraw)
    returns (q: Question)
    requires |template.alternatives| == 4
    requires ValidDraw(dificuldade, d)
    ensures q == MakeQuestion(disciplina, dificuldade, Slot(habilidade, template), questionId, d)
  {
    var valores := GenerateRandomValues(disciplina, habilidade, dificuldade, d.values);
    var enunciado, alternativas, explicacao := RenderShuffled(template, valores, d.shuffle);
    q := Question(QuestionId(questionId), habilidade, enunciado,
      Alternativas(alternativas[0], alternativas[1], alternativas[2], alternativas[3]), "a", explicacao, dificuldade);
    MakeQuestionOf(disciplina, dificuldade, Slot(habilidade, template), questionId, d, valores, alternativas);
  }

  /** Substitute the values into the template, then shuffle a copy of the alternatives in place. */
  method RenderShuffled(template: Template, valores: Bag, sd: ShuffleDraw)
    returns (enunciado: string, alternativas: seq<string>, explicacao: string)
    requires |template.alternatives| == 4 && ValidShuffleDraw(sd)
    ensures enunciado == Substitute(template.pattern, valores)
    ensures explicacao == Substitute(template.explanation, valores)
    ensures alternativas == Shuffled(SubstituteEach(template.alternatives, valores), sd)
  {
    var rendered;
    enunciado, rendered, explicacao := RenderTemplate(template.pattern, template.alternatives, template.explanation, valores);
    assert rendered == SubstituteEach(template.alternatives, valores);
    var slots := new string[4];
    slots[0], slots[1], slots[2], slots[3] := rendered[0], rendered[1], rendered[2], rendered[3];
    assert slots[..] == rendered;
    var _ := ShuffleAlternatives(slots, sd);
    alternativas := slots[..];
  }

  /** `MakeQuestion` spelt out for given values and shuffled alternatives. */
  lemma MakeQuestionOf(disciplina: string, dificuldade: string, slot: Slot, number: nat, d: QuestionDraw,
                       valores: Bag, alts: seq<string>)
    requires |slot.template.alternatives| == 4 && ValidDraw(dificuldade, d)
    requires valores == RandomValues(disciplina, dificuldade, d.values)
    requires alts == Shuffled(SubstituteEach(slot.template.alternatives, valores), d.shuffle)
    ensures MakeQuestion(disciplina, dificuldade, slot, number, d) ==
      Question(QuestionId(number), slot.habilidade, Substitute(slot.template.pattern, valores),
        Alternativas(alts[0], alts[1], alts[2], alts[3]), "a", Substitute(slot.template.explanation, valores), dificuldade)
  {
  }

  /** Appending a slot leaves the earlier questions as they were. */
  lemma QuestionsPrefixAt(disciplina: string, dificuldade: string, slots: seq<Slot>, s: Slot, draws: nat -> QuestionDraw, n: nat)
    requires ValidDraws(dificuldade, draws) && FourAlternatives(slots) && |s.template.alternatives| == 4 && n < |slots|
    ensures FourAlternatives(slots + [s])
    ensures Questions(disciplina, dificuldade, slots + [s], draws)[n] == Questions(disciplina, dificuldade, slots, draws)[n]
  {
    assert (slots + [s])[n] == slots[n];
  }

  /** The appended slot's question is numbered after the others and uses the next draws. */
  lemma QuestionsLast(disciplina: string, dificuldade: string, slots: seq<Slot>, s: Slot, draws: nat -> QuestionDraw)
    requires ValidDraws(dificuldade, draws) && FourAlternatives(slots) && |s.template.alternatives| == 4
    ensures FourAlternatives(slots + [s])
    ensures assert DrawOk(dificuldade, draws, |slots|);
      Questions(disciplina, dificuldade, slots + [s], draws)[|slots|] == MakeQuestion(disciplina, dificuldade, s, |slots| + 1, draws(|slots|))
  {
    assert (slots + [s])[|slots|] == s;
    QuestionsAt(disciplina, dificuldade, slots + [s], draws, |slots|);
  }

  /** Appending a slot appends its question, numbered after the others. */
  lemma QuestionsSnoc(disciplina: string, dificuldade: string, slots: seq<Slot>, s: Slot, draws: nat -> QuestionDraw)
    requires ValidDraws(dificuldade, draws) && FourAlternatives(slots) && |s.template.alternatives| == 4
    ensures FourAlternatives(slots + [s])
    ensures assert DrawOk(dificuldade, draws, |slots|);
      Questions(disciplina, dificuldade, slots + [s], draws) ==
      Questions(disciplina, dificuldade, slots, draws) + [MakeQuestion(disciplina, dificuldade, s, |slots| + 1, draws(|slots|))]
  {
    var longer := Questions(disciplina, dificuldade, slots + [s], draws);
    var shorter := Questions(disciplina, dificuldade, slots, draws);
    forall n | 0 <= n < |slots|
      ensures longer[n] == shorter[n]
    {
      QuestionsPrefixAt(disciplina, dificuldade, slots, s, draws, n);
    }
    SplitLast(longer, shorter);
    QuestionsLast(disciplina, dificuldade, slots, s, draws);
  }

  /** A list one longer than another, agreeing with it below its length, is that list plus its last element. */
  lemma SplitLast<T>(longer: seq<T>, shorter: seq<T>)
    requires |longer| == |shorter| + 1
    requires forall n | 0 <= n < |shorter| :: longer[n] == shorter[n]
    ensures longer == shorter + [longer[|shorter|]]
  {
  }

  /** Once the quantity is reached, a longer list has the same first `q` elements. */
  lemma TakeFull<T>(x: seq<T>, y: seq<T>, q: int)
    requires |x| == (if q < 0 then 0 else q) && x <= y
    ensures Take(y, q) == x
  {
  }

  /** Cutting a list to `q` before appending to it does not change the first `q` elements. */
  lemma TakeAppend<T>(x: seq<T>, y: seq<T>, q: int)
    ensures Take(Take(x, q) + y, q) == Take(x + y, q)
  {
    if 0 < q < |x| {
      assert (Take(x, q) + y)[..q] == x[..q];
    }
  }

  /** One more round-robin slot extends the run by the next template. */
  lemma RunStep(before: seq<Slot>, h: string, ts: seq<Template>, i: nat)
    requires |ts| > 0
    ensures before + SkillRun(h, ts, i + 1) == (before + SkillRun(h, ts, i)) + [Slot(h, ts[i % |ts|])]
  {
    assert SkillRun(h, ts, i + 1) == SkillRun(h, ts, i) + [Slot(h, ts[i % |ts|])];
  }

  /** A shorter run is a prefix of a longer one. */
  lemma RunPrefix(before: seq<Slot>, h: string, ts: seq<Template>, i: nat, k: nat)
    requires |ts| > 0 && i <= k
    ensures before + SkillRun(h, ts, i) <= before + SkillRun(h, ts, k)
  {
    assert SkillRun(h, ts, i) == SkillRun(h, ts, k)[..i];
  }

  /** Building the question of one more slot and numbering it after the others. */
  method AppendQuestion(disciplina: string, dificuldade: string, h: string, template: Template,
                        draws: nat -> QuestionDraw, ghost slots: seq<Slot>, questions0: seq<Question>, questionId0: nat)
    returns (questions: seq<Question>, questionId: nat)
    requires ValidDraws(dificuldade, draws) && FourAlternatives(slots) && |template.alternatives| == 4
    requires questions0 == Questions(disciplina, dificuldade, slots, draws) && questionId0 == |questions0| + 1
    ensures FourAlternatives(slots + [Slot(h, template)])
    ensures questions == Questions(disciplina, dificuldade, slots + [Slot(h, template)], draws)
    ensures questionId == |questions| + 1
  {
    QuestionsSnoc(disciplina, dificuldade, slots, Slot(h, template), draws);
    assert DrawOk(dificuldade, draws, |questions0|);
    var question := BuildQuestion(disciplina, dificuldade, h, template, questionId0, draws(|questions0|));
    questions := questions0 + [question];
    questionId := questionId0 + 1;
  }

  /**
   * The inner loop stops after the full run or once the quantity is reached; either way its
   * slots are the first `q` of the full run.
   */
  lemma FillDone(slots0: seq<Slot>, h: string, ts: seq<Template>, full: nat, q: int, i: nat, slots: seq<Slot>)
    requires |ts| > 0 && FourEach(ts) && FourAlternatives(slots0)
    requires i <= full && slots == slots0 + SkillRun(h, ts, i) && |slots| <= (if q < 0 then 0 else q)
    requires i == full || |slots| >= q
    ensures FourAlternatives(slots0 + SkillRun(h, ts, full))
    ensures slots == Take(slots0 + SkillRun(h, ts, full), q)
  {
    if i < full {
      RunPrefix(slots0, h, ts, i, full);
      TakeFull(slots, slots0 + SkillRun(h, ts, full), q);
    }
  }

  /** Templates with the four alternatives the record needs. */
  predicate FourEach(ts: seq<Template>) {
    forall t | t in ts :: |t.alternatives| == 4
  }

  /**
   * The inner loop (lines 164-210 of the route): at most `per` questions of one skill, while the
   * list is shorter than `q`, templates taken round-robin, each numbered by the running counter.
   * `slots0` are the slots of the questions built so far.
   */
  method FillSkill(disciplina: string, dificuldade: string, h: string, ts: seq<Template>, per: int, q: int,
                   draws: nat -> QuestionDraw, ghost slots0: seq<Slot>, questions0: seq<Question>, questionId0: nat)
    returns (questions: seq<Question>, questionId: nat)
    requires ValidDraws(dificuldade, draws) && |ts| > 0 && FourEach(ts) && FourAlternatives(slots0)
    requires |slots0| <= if q < 0 then 0 else q
    requires questions0 == Questions(disciplina, dificuldade, slots0, draws) && questionId0 == |questions0| + 1
    ensures FourAlternatives(slots0 + SkillRun(h, ts, if per < 0 then 0 else per))
    ensures questions == Questions(disciplina, dificuldade, Take(slots0 + SkillRun(h, ts, if per < 0 then 0 else per), q), draws)
    ensures questionId == |questions| + 1
  {
    questions, questionId := questions0, questionId0;
    ghost var slots := slots0;
    var i := 0;
    while i < per && |questions| < q
      invariant 0 <= i <= if per < 0 then 0 else per
      invariant slots == slots0 + SkillRun(h, ts, i) && |slots| <= if q < 0 then 0 else q
      invariant FourAlternatives(slots)
      invariant questions == Questions(disciplina, dificuldade, slots, draws)
      invariant questionId == |questions| + 1
    {
      RunStep(slots0, h, ts, i);
      questions, questionId := AppendQuestion(disciplina, dificuldade, h, ts[i % |ts|], draws, slots, questions, questionId);
      slots := slots + [Slot(h, ts[i % |ts|])];
      i := i + 1;
    }
    FillDone(slots0, h, ts, if per < 0 then 0 else per, q, i, slots);
  }

  /** One more skill entry appends its run, or nothing when it has no templates at the difficulty. */
  lemma AllSlotsSnoc(subj: SubjectTemplates, hs: seq<string>, j: nat, dificuldade: string, per: nat)
    requires WellFormed(subj) && j < |hs|
    ensures AllSlots(subj, hs[..j + 1], dificuldade, per) ==
      AllSlots(subj, hs[..j], dificuldade, per) +
      (if HasTemplates(subj, hs[j], dificuldade) then SkillRun(hs[j], subj[hs[j]][dificuldade], per) else [])
  {
    assert hs[..j + 1][..j] == hs[..j];
  }

  /**
   * One pass of the outer loop, for the skill entry `hs[j]`: its run when it has templates at the
   * difficulty, nothing otherwise. `per` is `Math.ceil(quantidade / habilidades.length)`.
   */
  method FillEntry(disciplina: string, dificuldade: string, templates: SubjectTemplates, hs: seq<string>, j: nat,
                   per: int, q: int, draws: nat -> QuestionDraw, questions0: seq<Question>, questionId0: nat)
    returns (questions: seq<Question>, questionId: nat)
    requires WellFormed(templates) && ValidDraws(dificuldade, draws) && j < |hs|
    requires questions0 == Questions(disciplina, dificuldade, Take(AllSlots(templates, hs[..j], dificuldade, if per < 0 then 0 else per), q), draws)
    requires questionId0 == |questions0| + 1
    ensures questions == Questions(disciplina, dificuldade, Take(AllSlots(templates, hs[..j + 1], dificuldade, if per < 0 then 0 else per), q), draws)
    ensures questionId == |questions| + 1
  {
    questions, questionId := questions0, questionId0;
    var h := hs[j];
    ghost var full: nat := if per < 0 then 0 else per;
    ghost var before := AllSlots(templates, hs[..j], dificuldade, full);
    AllSlotsSnoc(templates, hs, j, dificuldade, full);
    if h in templates && dificuldade in templates[h] {
      var ts := templates[h][dificuldade];
      questions, questionId := FillSkill(disciplina, dificuldade, h, ts, per, q, draws, Take(before, q), questions, questionId);
      TakeAppend(before, SkillRun(h, ts, full), q);
    } else {
      assert AllSlots(templates, hs[..j + 1], dificuldade, full) == before;
    }
  }

  /** The loops of `generateQuestionsFromTemplates` (lines 147-214 of the route). */
  method GenerateQuestionsFromTemplates(cat: map<string, SubjectTemplates>, params: QuestionRequest, draws: nat -> QuestionDraw)
    returns (outcome: Outcome)
    requires CatalogueOk(cat) && ValidDraws(params.dificuldade, draws)
    ensures outcome == Generated(cat, params, draws)
  {
    var hs, q, dif := params.habilidades, params.quantidade, params.dificuldade;
    var known := params.disciplina in cat;
    ghost var subj := SubjectOf(cat, params.disciplina);
    ghost var perN: nat := if hs == [] then 0 else Per(params);
    var questions: seq<Question> := [];
    var questionId := 1;
    var j := 0;
    assert AllSlots(subj, hs[..0], dif, perN) == [];
    while j < |hs|
      invariant 0 <= j <= |hs|
      invariant j > 0 ==> known
      invariant WellFormed(subj)
      invariant questionId == |questions| + 1
      invariant questions == Questions(params.disciplina, dif, Take(AllSlots(subj, hs[..j], dif, perN), q), draws)
    {
      if !known {
        outcome := Thrown;
        return;
      }
      var templates, per := cat[params.disciplina], CeilDiv(q, |hs|);
      assert subj == templates && perN == if per < 0 then 0 else per;
      questions, questionId := FillEntry(params.disciplina, dif, templates, hs, j, per, q, draws, questions, questionId);
      j := j + 1;
    }
    assert hs[..j] == hs;
    assert Take(questions, q) == questions;
    outcome := Returned(Take(questions, q));
  }

  /** Every question built on these slots is numbered by its position, records `a` and keeps its slot's skill. */
  lemma QuestionsFacts(disciplina: string, dificuldade: string, slots: seq<Slot>, draws: nat -> QuestionDraw)
    requires ValidDraws(dificuldade, draws) && FourAlternatives(slots)
    ensures forall n :: 0 <= n < |slots| ==>
      var qs := Questions(disciplina, dificuldade, slots, draws);
      qs[n].id == QuestionId(n + 1) && qs[n].habilidade == slots[n].habilidade &&
      qs[n].gabarito == "a" && qs[n].dificuldade == dificuldade
  {
    forall n | 0 <= n < |slots|
      ensures var qs := Questions(disciplina, dificuldade, slots, draws);
        qs[n].id == QuestionId(n + 1) && qs[n].habilidade == slots[n].habilidade &&
        qs[n].gabarito == "a" && qs[n].dificuldade == dificuldade
    {
      QuestionsAt(disciplina, dificuldade, slots, draws, n);
    }
  }

  /** `gabarito: questions.reduce((acc, q) => ({...acc, [q.id]: q.gabarito}), {})`: a later id overrides an earlier one. */
  function AnswerKey(qs: seq<Question>): (key: map<string, string>)
    decreases |qs|
  {
    if qs == [] then map[]
    else AnswerKey(qs[..|qs| - 1])[qs[|qs| - 1].id := qs[|qs| - 1].gabarito]
  }

  /** The answer key has exactly the ids of the questions as keys, and each maps to the answer of its last question. */
  lemma {:induction false} AnswerKeyEntries(qs: seq<Question>)
    ensures AnswerKey(qs).Keys == set q | q in qs :: q.id
    ensures forall id | id in AnswerKey(qs) :: exists n :: 0 <= n < |qs| && qs[n].id == id && AnswerKey(qs)[id] == qs[n].gabarito
    decreases |qs|
  {
    if qs != [] {
      var k := |qs| - 1;
      AnswerKeyEntries(qs[..k]);
      assert qs == qs[..k] + [qs[k]];
      forall id | id in AnswerKey(qs)
        ensures exists n :: 0 <= n < |qs| && qs[n].id == id && AnswerKey(qs)[id] == qs[n].gabarito
      {
        if id != qs[k].id {
          var n :| 0 <= n < k && qs[..k][n].id == id && AnswerKey(qs[..k])[id] == qs[..k][n].gabarito;
          assert qs[n] == qs[..k][n];
        }
      }
    }
  }

  /** With distinct ids the key has one entry per question. */
  lemma {:induction false} AnswerKeySize(qs: seq<Question>)
    requires forall i, j | 0 <= i < j < |qs| :: qs[i].id != qs[j].id
    ensures |AnswerKey(qs)| == |qs|
    decreases |qs|
  {
    if qs != [] {
      var k := |qs| - 1;
      AnswerKeySize(qs[..k]);
      AnswerKeyEntries(qs[..k]);
      assert qs[k].id !in AnswerKey(qs[..k]);
    }
  }

  /** `Math.ceil(q / n)` is at least one for a positive quantity. */
  lemma PerPositive(params: QuestionRequest)
    requires |params.habilidades| > 0 && params.quantidade >= 1
    ensures Per(params) >= 1
  {
  }

  /** The questions on any slots carry pairwise different ids. */
  lemma QuestionsDistinctIds(disciplina: string, dificuldade: string, slots: seq<Slot>, draws: nat -> QuestionDraw)
    requires ValidDraws(dificuldade, draws) && FourAlternatives(slots)
    ensures var qs := Questions(disciplina, dificuldade, slots, draws);
      forall m, n | 0 <= m < n < |qs| :: qs[m].id != qs[n].id
  {
    QuestionsFacts(disciplina, dificuldade, slots, draws);
    var qs := Questions(disciplina, dificuldade, slots, draws);
    forall m, n | 0 <= m < n < |qs| ensures qs[m].id != qs[n].id {
      QuestionIdInjective(m + 1, n + 1);
    }
  }

  /** The slots the assembler fills for a known subject. */
  ghost function SlotsFor(cat: map<string, SubjectTemplates>, params: QuestionRequest): (slots: seq<Slot>)
    requires CatalogueOk(cat) && params.habilidades != [] && params.disciplina in cat
    ensures FourAlternatives(slots)
    ensures forall s | s in slots :: s.habilidade in params.habilidades
    ensures var total := Per(params) * CountWithTemplates(cat[params.disciplina], params.habilidades, params.dificuldade);
      |slots| == (if params.quantidade <= 0 then 0 else if params.quantidade < total then params.quantidade else total)
  {
    var all := AllSlots(cat[params.disciplina], params.habilidades, params.dificuldade, Per(params));
    var slots := Take(all, params.quantidade);
    assert forall s | s in slots :: s in all;
    slots
  }

  /** For a known subject the assembler returns the questions on those slots. */
  lemma GeneratedOnSlots(cat: map<string, SubjectTemplates>, params: QuestionRequest, draws: nat -> QuestionDraw)
    requires CatalogueOk(cat) && ValidDraws(params.dificuldade, draws)
    requires params.habilidades != [] && params.disciplina in cat
    ensures Generated(cat, params, draws) == Returned(Questions(params.disciplina, params.dificuldade, SlotsFor(cat, params), draws))
  {
  }

  /**
   * For a known subject the assembler returns `min(quantidade, per * k)` questions, where `k` counts
   * the skill entries, duplicates included, with templates at the difficulty.
   */
  lemma GeneratedCount(cat: map<string, SubjectTemplates>, params: QuestionRequest, draws: nat -> QuestionDraw)
    requires CatalogueOk(cat) && ValidDraws(params.dificuldade, draws)
    requires params.habilidades != [] && params.disciplina in cat
    ensures Generated(cat, params, draws).Returned?
    ensures var qs := Generated(cat, params, draws).questoes;
      var total := Per(params) * CountWithTemplates(cat[params.disciplina], params.habilidades, params.dificuldade);
      |qs| == (if params.quantidade <= 0 then 0 else if params.quantidade < total then params.quantidade else total)
  {
    GeneratedOnSlots(cat, params, draws);
  }

  /**
   * The n-th generated question is numbered `Q` + n + 1 zero-padded, belongs to one of the requested
   * skills, has the requested difficulty and records `a`.
   */
  lemma GeneratedQuestions(cat: map<string, SubjectTemplates>, params: QuestionRequest, draws: nat -> QuestionDraw)
    requires CatalogueOk(cat) && ValidDraws(params.dificuldade, draws)
    requires params.habilidades != [] && params.disciplina in cat
    ensures Generated(cat, params, draws).Returned?
    ensures var qs := Generated(cat, params, draws).questoes;
      forall n :: 0 <= n < |qs| ==>
        qs[n].id == QuestionId(n + 1) && qs[n].habilidade in params.habilidades &&
        qs[n].gabarito == "a" && qs[n].dificuldade == params.dificuldade
  {
    var slots := SlotsFor(cat, params);
    GeneratedOnSlots(cat, params, draws);
    var qs := Questions(params.disciplina, params.dificuldade, slots, draws);
    forall n | 0 <= n < |qs|
      ensures qs[n].id == QuestionId(n + 1) && qs[n].habilidade in params.habilidades
      ensures qs[n].gabarito == "a" && qs[n].dificuldade == params.dificuldade
    {
      QuestionsAt(params.disciplina, params.dificuldade, slots, draws, n);
      assert slots[n] in slots;
    }
  }

  /** No two generated questions share an id. */
  lemma GeneratedDistinctIds(cat: map<string, SubjectTemplates>, params: QuestionRequest, draws: nat -> QuestionDraw)
    requires CatalogueOk(cat) && ValidDraws(params.dificuldade, draws)
    requires params.habilidades != [] && params.disciplina in cat
    ensures Generated(cat, params, draws).Returned?
    ensures var qs := Generated(cat, params, draws).questoes;
      forall m, n | 0 <= m < n < |qs| :: qs[m].id != qs[n].id
  {
    GeneratedOnSlots(cat, params, draws);
    QuestionsDistinctIds(params.disciplina, params.dificuldade, SlotsFor(cat, params), draws);
  }

  /**
   * For a known subject and a positive quantity, no question comes out exactly when no skill
   * entry has templates at the difficulty: the case the handler answers with 422.
   */
  lemma GeneratedEmpty(cat: map<string, SubjectTemplates>, params: QuestionRequest, draws: nat -> QuestionDraw)
    requires CatalogueOk(cat) && ValidDraws(params.dificuldade, draws)
    requires params.habilidades != [] && params.disciplina in cat && params.quantidade >= 1
    ensures Generated(cat, params, draws).Returned?
    ensures Generated(cat, params, draws).questoes == [] <==>
      forall i :: 0 <= i < |params.habilidades| ==> !HasTemplates(cat[params.disciplina], params.habilidades[i], params.dificuldade)
  {
    GeneratedCount(cat, params, draws);
    PerPositive(params);
    CappedEmpty(params.quantidade, Per(params), CountWithTemplates(cat[params.disciplina], params.habilidades, params.dificuldade));
  }

  /** With a positive quantity and a positive run length, the capped count is zero only when no entry has templates. */
  lemma CappedEmpty(q: int, per: nat, k: nat)
    requires q >= 1 && per >= 1
    ensures ((if q <= 0 then 0 else if q < per * k then q else per * k) == 0) <==> k == 0
  {
    if k > 0 {
      assert per * k >= k;
    }
  }
}
