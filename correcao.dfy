/**
 * The answer-sheet correction page: the simulated reading of a sheet, its grading against the
 * answer key, the record appended to the correction history, the example answer key, and the
 * badge shown beside a percentage. The answer key is a record indexed by question number; its
 * keys are integer-like, so `Object.keys` lists them in ascending numeric order.
 */
module Correcao {
  import opened Wrappers

  /** The options a mark can take. */
  const Opcoes: seq<string> := ["a", "b", "c", "d"]

  /** One graded question; `resposta` is `None` where the sheet has no mark for that number. */
  datatype Resultado = Resultado(questao: nat, resposta: Option<string>, gabarito: string, correto: bool)

  /** One correction of the history; its id and date come from the clock and are left out. */
  datatype AlunoCorrecao = AlunoCorrecao(
    nome: string, turma: string, prova: string, resultados: seq<Resultado>, nota: nat, percentual: Option<int>)

  /** The page state the correction reads and writes; `imagem` is the captured image, if any. */
  datatype CorrecaoState = CorrecaoState(
    gabarito: map<nat, string>, nomeAluno: string, turmaAluno: string, provaId: string,
    imagem: Option<string>, historico: seq<AlunoCorrecao>)

  /** `m` is the least element of `s`. */
  predicate IsLeast(s: set<nat>, m: nat) {
    m in s && forall k | k in s :: m <= k
  }

  /** Every non-empty set of question numbers has a least element. */
  lemma {:induction false} HasLeast(s: set<nat>)
    requires s != {}
    ensures exists m :: IsLeast(s, m)
    decreases |s|
  {
    var x :| x in s;
    if s == {x} {
      assert IsLeast(s, x);
    } else {
      HasLeast(s - {x});
      var y :| IsLeast(s - {x}, y);
      var m := if x < y then x else y;
      forall k | k in s
        ensures m <= k
      {
        if k != x {
          assert k in s - {x};
        }
      }
      assert IsLeast(s, m);
    }
  }
  /** The least element of a non-empty set of question numbers. */
  function Least(s: set<nat>): (m: nat)
    requires s != {}
    ensures IsLeast(s, m)
  {
    HasLeast(s);
    var m :| IsLeast(s, m);
    m
  }
  /** A lower bound of a set that belongs to it is its least element. */
  lemma LeastUnique(s: set<nat>, q: nat)
    requires IsLeast(s, q)
    ensures Least(s) == q
  {
  }

  /** The keys of the answer key in the order `Object.keys` lists them: ascending. */
  function SortedKeys(s: set<nat>): (ks: seq<nat>)
    ensures |ks| == |s|
    ensures forall k :: k in ks <==> k in s
    ensures forall i, j | 0 <= i < j < |ks| :: ks[i] < ks[j]
    decreases |s|
  {
    if s == {} then []
    else
      var m := Least(s);
      var rest := SortedKeys(s - {m});
      LeastBelowRest(s, m, rest);
      ConsAscending(m, rest);
      [m] + rest
  }

  /** The least element is below every element of a listing of the others. */
  lemma LeastBelowRest(s: set<nat>, m: nat, rest: seq<nat>)
    requires IsLeast(s, m)
    requires forall k :: k in rest <==> k in s - {m}
    ensures forall j | 0 <= j < |rest| :: m < rest[j]
  {
    forall j | 0 <= j < |rest| ensures m < rest[j] {
      assert rest[j] in s - {m};
    }
  }

  /** Putting a smaller element in front keeps a list ascending. */
  lemma ConsAscending(m: nat, rest: seq<nat>)
    requires forall j | 0 <= j < |rest| :: m < rest[j]
    requires forall i, j | 0 <= i < j < |rest| :: rest[i] < rest[j]
    ensures forall i, j | 0 <= i < j < |[m] + rest| :: ([m] + rest)[i] < ([m] + rest)[j]
  {
  }

  /** The question numbers 1..n. */
  function Numbers(n: nat): (r: set<nat>)
    ensures forall k :: k in r <==> 1 <= k <= n
  {
    if n == 0 then {} else Numbers(n - 1) + {n}
  }

  /** The detected answers: options drawn for the numbers 1..n, `picks[i - 1]` for number `i`. */
  function Marks(n: nat, picks: seq<nat>): (m: map<nat, string>)
    requires |picks| >= n && forall i | 0 <= i < |picks| :: picks[i] < 4
    ensures m.Keys == Numbers(n)
    ensures forall i | i in m :: m[i] in Opcoes
  {
    map i | i in Numbers(n) :: Opcoes[picks[i - 1]]
  }

  /**
   * The loop that fills a record with one random option per number from 1 to `n`; it reads the
   * sheet (lines 111-115) and builds the example key (lines 181-185).
   */
  method FillMarks(n: nat, picks: seq<nat>) returns (m: map<nat, string>)
    requires |picks| >= n && forall i | 0 <= i < |picks| :: picks[i] < 4
    ensures m == Marks(n, picks)
  {
    m := map[];
    var i := 1;
    while i <= n
      invariant 1 <= i <= n + 1
      invariant m.Keys == Numbers(i - 1)
      invariant forall k | k in m :: 1 <= k <= n && m[k] == Opcoes[picks[k - 1]]
    {
      m := m[i := Opcoes[picks[i - 1]]];
      i := i + 1;
    }
    assert m.Keys == Marks(n, picks).Keys;
  }

  /** The record for question `q`: the detected answer, the key's answer, and whether they agree. */
  function ResultFor(q: nat, gabarito: map<nat, string>, detectadas: map<nat, string>): Resultado
    requires q in gabarito
  {
    var resposta := if q in detectadas then Some(detectadas[q]) else None;
    Resultado(q, resposta, gabarito[q], resposta == Some(gabarito[q]))
  }

  /** The graded sheet: the record of each key question, taken in ascending question order. */
  function Grade(gabarito: map<nat, string>, detectadas: map<nat, string>): (rs: seq<Resultado>)
    ensures |rs| == |gabarito|
  {
    var ks := SortedKeys(gabarito.Keys);
    seq(|ks|, i requires 0 <= i < |ks| => ResultFor(ks[i], gabarito, detectadas))
  }

  /**
   * Grading gives exactly one record per key question, in strictly ascending question order;
   * each carries the detected answer (none where the sheet has no mark) and the key's answer,
   * and is correct exactly when the two agree.
   */
  lemma GradeSpec(gabarito: map<nat, string>, detectadas: map<nat, string>)
    ensures var rs := Grade(gabarito, detectadas);
      |rs| == |gabarito| &&
      (forall i, j | 0 <= i < j < |rs| :: rs[i].questao < rs[j].questao) &&
      (forall q | q in gabarito :: exists i :: 0 <= i < |rs| && rs[i].questao == q) &&
      (forall i | 0 <= i < |rs| ::
        rs[i].questao in gabarito && rs[i].gabarito == gabarito[rs[i].questao] &&
        rs[i].resposta == (if rs[i].questao in detectadas then Some(detectadas[rs[i].questao]) else None) &&
        (rs[i].correto <==> rs[i].resposta == Some(rs[i].gabarito)))
  {
    var ks := SortedKeys(gabarito.Keys);
    var rs := Grade(gabarito, detectadas);
    forall i, j | 0 <= i < j < |rs|
      ensures rs[i].questao < rs[j].questao
    {
      GradeAt(gabarito, detectadas, i);
      GradeAt(gabarito, detectadas, j);
    }
    forall q | q in gabarito
      ensures exists i :: 0 <= i < |rs| && rs[i].questao == q
    {
      assert q in ks;
      var i :| 0 <= i < |ks| && ks[i] == q;
      GradeAt(gabarito, detectadas, i);
    }
    forall i | 0 <= i < |rs|
      ensures rs[i].questao in gabarito && rs[i].gabarito == gabarito[rs[i].questao]
      ensures rs[i].resposta == (if rs[i].questao in detectadas then Some(detectadas[rs[i].questao]) else None)
      ensures rs[i].correto <==> rs[i].resposta == Some(rs[i].gabarito)
    {
      GradeAt(gabarito, detectadas, i);
    }
  }

  /** The i-th record is the one of the i-th key in ascending order. */
  lemma GradeAt(gabarito: map<nat, string>, detectadas: map<nat, string>, i: nat)
    requires i < |gabarito|
    ensures var ks := SortedKeys(gabarito.Keys);
      |ks| == |gabarito| && ks[i] in gabarito &&
      Grade(gabarito, detectadas)[i] == ResultFor(ks[i], gabarito, detectadas)
  {
  }

  /** The number of correct records. */
  function Hits(rs: seq<Resultado>): (h: nat)
    ensures h <= |rs|
  {
    if rs == [] then 0
    else Hits(rs[..|rs| - 1]) + (if rs[|rs| - 1].correto then 1 else 0)
  }

  lemma HitsSnoc(rs: seq<Resultado>, r: Resultado)
    ensures Hits(rs + [r]) == Hits(rs) + (if r.correto then 1 else 0)
  {
    assert (rs + [r])[..|rs|] == rs;
  }

  /** Every record is correct exactly when the count reaches the number of records. */
  lemma {:induction false} HitsAll(rs: seq<Resultado>)
    ensures Hits(rs) == |rs| <==> forall i | 0 <= i < |rs| :: rs[i].correto
  {
    if rs != [] {
      var init := rs[..|rs| - 1];
      HitsAll(init);
      assert forall i | 0 <= i < |init| :: init[i] == rs[i];
    }
  }

  /** No record is correct exactly when the count is zero. */
  lemma {:induction false} HitsNone(rs: seq<Resultado>)
    ensures Hits(rs) == 0 <==> forall i | 0 <= i < |rs| :: !rs[i].correto
  {
    if rs != [] {
      var init := rs[..|rs| - 1];
      HitsNone(init);
      assert forall i | 0 <= i < |init| :: init[i] == rs[i];
    }
  }

  /**
   * `Math.round(acertos / total * 100)`, rounding halves up; `None` stands for the `NaN` an
   * empty key gives.
   */
  function Percent(acertos: nat, total: nat): Option<int> {
    if total == 0 then None else Some((200 * acertos + total) / (2 * total))
  }

  /** `d * a <= d * b` for a non-negative factor. */
  lemma MulMonotone(d: int, a: int, b: int)
    requires d >= 0 && a <= b
    ensures d * a <= d * b
  {
    assert d * b - d * a == d * (b - a);
  }

  /** The quotient of a number between two multiples of `d` lies between the two factors. */
  lemma DivBetween(x: int, d: int, lo: int, hi: int)
    requires d > 0 && d * lo <= x < d * hi
    ensures lo <= x / d < hi
  {
    var q, r := x / d, x % d;
    assert x == d * q + r && 0 <= r < d;
    if q < lo {
      MulMonotone(d, q + 1, lo);
    }
    if q >= hi {
      MulMonotone(d, hi, q);
    }
  }

  /** `d * (p + 1) == d * p + d`. */
  lemma MulSucc(d: int, p: int)
    ensures d * (p + 1) == d * p + d
  {
  }

  /**
   * For a non-empty key the percentage is the nearest integer to `100 * acertos / total`, halves
   * rounded up; it lies in 0..100, is 0 when nothing is right and 100 when everything is.
   */
  lemma PercentRounds(acertos: nat, total: nat)
    requires 0 < total && acertos <= total
    ensures Percent(acertos, total).Some?
    ensures var p := Percent(acertos, total).value;
      2 * total * p <= 200 * acertos + total < 2 * total * (p + 1) &&
      0 <= p <= 100 &&
      (acertos == 0 ==> p == 0) && (acertos == total ==> p == 100)
  {
    DivBracket(200 * acertos + total, 2 * total);
    PercentRange(acertos, total);
  }

  /** The quotient is the factor of the largest multiple of `d` not above `x`. */
  lemma DivBracket(x: int, d: int)
    requires d > 0
    ensures d * (x / d) <= x < d * (x / d + 1)
  {
    MulSucc(d, x / d);
  }

  /** The rounded percentage lies in 0..100, is 0 with no hit and 100 with all hits. */
  lemma PercentRange(acertos: nat, total: nat)
    requires 0 < total && acertos <= total
    ensures var p := (200 * acertos + total) / (2 * total);
      0 <= p <= 100 && (acertos == 0 ==> p == 0) && (acertos == total ==> p == 100)
  {
    var d, x := 2 * total, 200 * acertos + total;
    assert d * 101 == 202 * total && d * 100 == 200 * total && d * 1 == d && d * 0 == 0;
    DivBetween(x, d, 0, 101);
    if acertos == total {
      DivBetween(x, d, 100, 101);
    }
    if acertos == 0 {
      DivBetween(x, d, 0, 1);
    }
  }

  /**
   * With fewer than 200 questions the percentage is 100 only for a full score; from 200 on, one
   * mistake can round up to 100.
   */
  lemma PercentFull(acertos: nat, total: nat)
    requires 0 < total < 200 && acertos <= total
    ensures Percent(acertos, total) == Some(100) <==> acertos == total
  {
    PercentRounds(acertos, total);
    if acertos < total {
      DivBetween(200 * acertos + total, 2 * total, 0, 100);
    }
  }

  /**
   * For the ten-question key `configurarGabarito` builds, the percentage is exactly ten per hit:
   * no ratio there lies near a half, so the floating-point product rounds the same way.
   */
  lemma PercentOfTen(acertos: nat)
    requires acertos <= 10
    ensures Percent(acertos, 10) == Some(10 * acertos)
  {
    DivBetween(200 * acertos + 10, 20, 10 * acertos, 10 * acertos + 1);
  }

  lemma PercentNearlyFull()
    ensures Percent(199, 200) == Some(100)
  {
  }

  /**
   * Lines 118-135: the `forEach` over the key's numbers, in ascending order, that pushes one
   * record per question and counts the hits.
   */
  method GradeSheet(gabarito: map<nat, string>, detectadas: map<nat, string>) returns (resultados: seq<Resultado>, acertos: nat)
    ensures resultados == Grade(gabarito, detectadas)
    ensures acertos == Hits(resultados)
  {
    var chaves := SortedKeys(gabarito.Keys);
    resultados, acertos := GradeKeys(gabarito, detectadas, chaves);
    RecordsAreGrade(gabarito, detectadas, resultados);
  }

  /** The `forEach` itself, over the given key numbers in their order. */
  method GradeKeys(gabarito: map<nat, string>, detectadas: map<nat, string>, chaves: seq<nat>)
    returns (resultados: seq<Resultado>, acertos: nat)
    requires forall j | 0 <= j < |chaves| :: chaves[j] in gabarito
    ensures |resultados| == |chaves|
    ensures forall j | 0 <= j < |chaves| :: resultados[j] == ResultFor(chaves[j], gabarito, detectadas)
    ensures acertos == Hits(resultados)
  {
    resultados := [];
    acertos := 0;
    for n := 0 to |chaves|
      invariant |resultados| == n
      invariant forall j | 0 <= j < n :: resultados[j] == ResultFor(chaves[j], gabarito, detectadas)
      invariant acertos == Hits(resultados)
    {
      var r := GradeQuestion(gabarito, detectadas, chaves[n]);
      HitsSnoc(resultados, r);
      if r.correto {
        acertos := acertos + 1;
      }
      resultados := resultados + [r];
    }
  }

  /** Records that follow the ascending keys one by one are the graded sheet. */
  lemma RecordsAreGrade(gabarito: map<nat, string>, detectadas: map<nat, string>, resultados: seq<Resultado>)
    requires |resultados| == |SortedKeys(gabarito.Keys)|
    requires forall j | 0 <= j < |resultados| ::
      SortedKeys(gabarito.Keys)[j] in gabarito && resultados[j] == ResultFor(SortedKeys(gabarito.Keys)[j], gabarito, detectadas)
    ensures resultados == Grade(gabarito, detectadas)
  {
    forall j | 0 <= j < |resultados|
      ensures resultados[j] == Grade(gabarito, detectadas)[j]
    {
      GradeAt(gabarito, detectadas, j);
    }
  }

  /** One pass of the `forEach`: the detected answer, the key's answer, and whether they agree. */
  method GradeQuestion(gabarito: map<nat, string>, detectadas: map<nat, string>, questao: nat) returns (r: Resultado)
    requires questao in gabarito
    ensures r == ResultFor(questao, gabarito, detectadas)
    ensures r.correto <==> questao in detectadas && detectadas[questao] == gabarito[questao]
  {
    var resposta := if questao in detectadas then Some(detectadas[questao]) else None;
    var gabaritoCorreto := gabarito[questao];
    var correto := resposta == Some(gabaritoCorreto);
    r := Resultado(questao, resposta, gabaritoCorreto, correto);
  }

  /** The record a correction appends for the current student and this reading of the sheet. */
  function Correction(st: CorrecaoState, detectadas: map<nat, string>): (c: AlunoCorrecao)
    ensures c.nome == st.nomeAluno && c.turma == st.turmaAluno && c.prova == st.provaId
    ensures c.resultados == Grade(st.gabarito, detectadas)
    ensures c.nota == Hits(c.resultados) <= |st.gabarito|
    ensures c.percentual == Percent(c.nota, |st.gabarito|)
  {
    var rs := Grade(st.gabarito, detectadas);
    AlunoCorrecao(st.nomeAluno, st.turmaAluno, st.provaId, rs, Hits(rs), Percent(Hits(rs), |st.gabarito|))
  }

  /**
   * `processarCartaoResposta`: read one mark per number 1..N (N the key's size), grade, append
   * the correction to the history, and clear the student's name, class and image.
   */
  method ProcessarCartaoResposta(st: CorrecaoState, picks: seq<nat>) returns (st': CorrecaoState)
    requires |picks| >= |st.gabarito| && forall i | 0 <= i < |picks| :: picks[i] < 4
    ensures st'.historico == st.historico + [Correction(st, Marks(|st.gabarito|, picks))]
    ensures st'.nomeAluno == "" && st'.turmaAluno == "" && st'.imagem == None
    ensures st'.gabarito == st.gabarito && st'.provaId == st.provaId
  {
    var detectadas := FillMarks(|st.gabarito|, picks);
    var resultados, acertos := GradeSheet(st.gabarito, detectadas);
    var percentual := Percent(acertos, |st.gabarito|);
    var novaCorrecao := AlunoCorrecao(st.nomeAluno, st.turmaAluno, st.provaId, resultados, acertos, percentual);
    st' := st.(historico := st.historico + [novaCorrecao], nomeAluno := "", turmaAluno := "", imagem := None);
  }

  /** A question number outside 1..N has no mark on the sheet, so it always counts as wrong. */
  lemma UnreadQuestionWrong(gabarito: map<nat, string>, picks: seq<nat>, i: nat)
    requires |picks| >= |gabarito| && forall k | 0 <= k < |picks| :: picks[k] < 4
    requires i < |gabarito|
    requires !(1 <= Grade(gabarito, Marks(|gabarito|, picks))[i].questao <= |gabarito|)
    ensures Grade(gabarito, Marks(|gabarito|, picks))[i].resposta == None
    ensures !Grade(gabarito, Marks(|gabarito|, picks))[i].correto
  {
  }

  /** A key whose numbers are exactly 1..N gets a mark read for every question. */
  lemma EveryQuestionRead(gabarito: map<nat, string>, picks: seq<nat>, i: nat)
    requires |picks| >= |gabarito| && forall k | 0 <= k < |picks| :: picks[k] < 4
    requires gabarito.Keys == Numbers(|gabarito|)
    requires i < |gabarito|
    ensures Grade(gabarito, Marks(|gabarito|, picks))[i].resposta.Some?
  {
    var rs := Grade(gabarito, Marks(|gabarito|, picks));
    assert rs[i].questao in gabarito;
  }

  /**
   * The record a correction appends scores between 0 and the key's size, and its percentage is
   * missing exactly for an empty key and otherwise lies in 0..100.
   */
  lemma CorrectionScore(st: CorrecaoState, picks: seq<nat>)
    requires |picks| >= |st.gabarito| && forall i | 0 <= i < |picks| :: picks[i] < 4
    ensures var c := Correction(st, Marks(|st.gabarito|, picks));
      c.nota <= |st.gabarito| && (c.percentual.None? <==> |st.gabarito| == 0) &&
      (c.percentual.Some? ==> 0 <= c.percentual.value <= 100)
  {
    var c := Correction(st, Marks(|st.gabarito|, picks));
    if |st.gabarito| > 0 {
      PercentRounds(c.nota, |st.gabarito|);
    }
  }

  /** `configurarGabarito`: the example key, one random option for each of the numbers 1..10. */
  method ConfigurarGabarito(st: CorrecaoState, picks: seq<nat>) returns (st': CorrecaoState)
    requires |picks| >= 10 && forall i | 0 <= i < |picks| :: picks[i] < 4
    ensures st'.gabarito.Keys == Numbers(10)
    ensures forall i | i in st'.gabarito :: st'.gabarito[i] in Opcoes
    ensures st' == st.(gabarito := Marks(10, picks))
  {
    var novoGabarito := FillMarks(10, picks);
    st' := st.(gabarito := novoGabarito);
  }

  /** The badge variants, weakest first. */
  datatype Variant = Destructive | Secondary | Default

  function Rank(v: Variant): nat {
    match v
    case Destructive => 0
    case Secondary => 1
    case Default => 2
  }

  /** Lines 545-546: 70 and above is `default`, 50 and above `secondary`, anything else (`NaN` too) `destructive`. */
  function BadgeVariant(percentual: Option<int>): (v: Variant)
    ensures v == Default <==> percentual.Some? && percentual.value >= 70
    ensures v == Secondary <==> percentual.Some? && 50 <= percentual.value < 70
    ensures percentual.None? ==> v == Destructive
  {
    if percentual.Some? && percentual.value >= 70 then Default
    else if percentual.Some? && percentual.value >= 50 then Secondary
    else Destructive
  }

  /** A higher percentage never gets a weaker badge. */
  lemma BadgeMonotone(p: int, q: int)
    requires p <= q
    ensures Rank(BadgeVariant(Some(p))) <= Rank(BadgeVariant(Some(q)))
  {
  }

  /** A full score on a non-empty key earns `default`; no hit at all earns `destructive`. */
  lemma BadgeOfScore(st: CorrecaoState, detectadas: map<nat, string>)
    requires |st.gabarito| > 0
    ensures var c := Correction(st, detectadas);
      ((forall i | 0 <= i < |c.resultados| :: c.resultados[i].correto) ==> BadgeVariant(c.percentual) == Default) &&
      ((forall i | 0 <= i < |c.resultados| :: !c.resultados[i].correto) ==> BadgeVariant(c.percentual) == Destructive)
  {
    var c := Correction(st, detectadas);
    HitsAll(c.resultados);
    HitsNone(c.resultados);
    PercentRounds(c.nota, |st.gabarito|);
  }
}
