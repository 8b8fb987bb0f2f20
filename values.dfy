/**
 * The value-bag synthesiser of the generation route (`generateRandomValues`):
 * a record of placeholder values, filled key by key. Each `Math.random()` draw
 * is an explicit natural below the width of the range it is scaled to.
 */
module Values {
  import opened Wrappers
  import opened Text

  /** A placeholder value: a JavaScript number (always an integer here) or a string. */
  datatype Value = Num(n: int) | Str(s: string)

  /** `value.toString()`. */
  function ValueText(v: Value): string {
    match v
    case Num(n) => IntToString(n)
    case Str(s) => s
  }

  /** The property names `generateRandomValues` assigns; `Name` gives each one's text. */
  datatype Key =
    | Numero | NumeroGrande | Qtd1 | Qtd2 | Largura | Altura
    | ResultadoCorreto | Resultado1 | Resultado2 | Resultado3 | Resultado4 | Algarismo
    | Nome | Objeto | TextoCurto | Personagem | Palavra | Frase

  function Name(k: Key): string {
    match k
    case Numero => "numero"
    case NumeroGrande => "numero_grande"
    case Qtd1 => "qtd1"
    case Qtd2 => "qtd2"
    case Largura => "largura"
    case Altura => "altura"
    case ResultadoCorreto => "resultado_correto"
    case Resultado1 => "resultado1"
    case Resultado2 => "resultado2"
    case Resultado3 => "resultado3"
    case Resultado4 => "resultado4"
    case Algarismo => "algarismo"
    case Nome => "nome"
    case Objeto => "objeto"
    case TextoCurto => "texto_curto"
    case Personagem => "personagem"
    case Palavra => "palavra"
    case Frase => "frase"
  }

  /** The record of values, as its entries in insertion order (the order `Object.entries` yields). */
  type Bag = seq<(Key, Value)>

  function Keys(b: Bag): (ks: seq<Key>)
    ensures |ks| == |b| && forall i :: 0 <= i < |b| ==> ks[i] == b[i].0
  {
    seq(|b|, i requires 0 <= i < |b| => b[i].0)
  }

  /** The value stored under `key`, if any. */
  function Find(b: Bag, key: Key): Option<Value>
  {
    if b == [] then None else if b[0].0 == key then Some(b[0].1) else Find(b[1..], key)
  }

  /** The first entry with the key is the one `Find` returns. */
  lemma {:induction false} FindAt(b: Bag, key: Key, i: nat)
    requires i < |b| && b[i].0 == key
    requires forall j | 0 <= j < i :: b[j].0 != key
    ensures Find(b, key) == Some(b[i].1)
  {
    if i > 0 {
      FindAt(b[1..], key, i - 1);
    }
  }

  function NumOf(b: Bag, key: Key): Option<int> {
    match Find(b, key)
    case Some(Num(n)) => Some(n)
    case _ => None
  }

  /** One call's random draws: each field is `Math.floor(Math.random() * width)` for its width. */
  datatype ValueDraws = ValueDraws(
    numero: nat, numeroGrande: nat, qtd1: nat, qtd2: nat, largura: nat, altura: nat,
    delta2: nat, delta3: nat, delta4: nat, algarismo: nat,
    nome: nat, objeto: nat, texto: nat, palavra: nat)

  /** The inclusive range `numero` is drawn from. */
  function NumeroRange(dificuldade: string): (int, int) {
    if dificuldade == "facil" then (1, 50)
    else if dificuldade == "medio" then (10, 500)
    else (50, 9999)
  }

  function NumeroValue(dificuldade: string, d: ValueDraws): int {
    NumeroRange(dificuldade).0 + d.numero
  }

  const Nomes: seq<string> := ["Ana", "João", "Maria", "Pedro", "Lucas", "Sofia"]
  const Objetos: seq<string> := ["livros", "brinquedos", "figurinhas", "lápis", "canetas"]
  const Textos: seq<string> := [
    "Era uma vez uma menina chamada Clara que morava em uma casa azul.",
    "O gato subiu no telhado para pegar um pássaro.",
    "Na escola, os alunos estavam muito animados para a festa junina."
  ]
  const Palavras: seq<string> := ["casa", "azul", "animados", "festa"]
  const FrasePadrao: string := "A menina estava muito feliz com o presente."

  /**
   * Every draw lies below the width of its range, as `Math.random() < 1` guarantees; the word
   * draws lie below the sizes of their vocabularies (6, 5, 3 and 4 entries).
   */
  ghost predicate ValidValueDraws(dificuldade: string, d: ValueDraws) {
    var range := NumeroRange(dificuldade);
    && d.numero < range.1 - range.0 + 1
    && d.numeroGrande < 8999 && d.qtd1 < 20 && d.qtd2 < 15 && d.largura < 20 && d.altura < 15
    && d.delta2 < 5 && d.delta3 < 5 && d.delta4 < 10
    && d.algarismo < |IntToString(NumeroValue(dificuldade, d))|
    && d.nome < 6 && d.objeto < 5 && d.texto < 3 && d.palavra < 4
  }

  const MathKeys: seq<Key> := [
    Numero, NumeroGrande, Qtd1, Qtd2, Largura, Altura,
    ResultadoCorreto, Resultado1, Resultado2, Resultado3, Resultado4, Algarismo]

  const PortKeys: seq<Key> := [Nome, Objeto, TextoCurto, Personagem, Palavra, Frase]

  /** The numbers and the digit one maths call assigns, field by field. */
  datatype MathValues = MathValues(
    numero: int, numeroGrande: int, qtd1: int, qtd2: int, largura: int, altura: int,
    resultadoCorreto: int, resultado1: int, resultado2: int, resultado3: int, resultado4: int,
    algarismo: string)

  /** The words one language call assigns. */
  datatype PortValues = PortValues(
    nome: string, objeto: string, textoCurto: string, personagem: string, palavra: string, frase: string)

  function MathBag(m: MathValues): (b: Bag)
  {
    [(Numero, Num(m.numero)),
     (NumeroGrande, Num(m.numeroGrande)),
     (Qtd1, Num(m.qtd1)),
     (Qtd2, Num(m.qtd2)),
     (Largura, Num(m.largura)),
     (Altura, Num(m.altura)),
     (ResultadoCorreto, Num(m.resultadoCorreto)),
     (Resultado1, Num(m.resultado1)),
     (Resultado2, Num(m.resultado2)),
     (Resultado3, Num(m.resultado3)),
     (Resultado4, Num(m.resultado4)),
     (Algarismo, Str(m.algarismo))]
  }

  function PortBag(p: PortValues): (b: Bag)
  {
    [(Nome, Str(p.nome)),
     (Objeto, Str(p.objeto)),
     (TextoCurto, Str(p.textoCurto)),
     (Personagem, Str(p.personagem)),
     (Palavra, Str(p.palavra)),
     (Frase, Str(p.frase))]
  }

  /**
   * The maths values for these draws: every number lies in its range, the correct result is
   * `qtd1 + qtd2`, the first alternative is that result, the three decoys lie in disjoint ranges
   * around it (so all four alternatives differ) and `algarismo` is one character of `numero`'s text.
   */
  function DrawMath(dificuldade: string, d: ValueDraws): (m: MathValues)
    requires ValidValueDraws(dificuldade, d)
    ensures NumeroRange(dificuldade).0 <= m.numero <= NumeroRange(dificuldade).1
    ensures 1000 <= m.numeroGrande <= 9998
    ensures 5 <= m.qtd1 <= 24 && 3 <= m.qtd2 <= 17 && 3 <= m.largura <= 22 && 4 <= m.altura <= 18
    ensures m.resultadoCorreto == m.qtd1 + m.qtd2 && m.resultado1 == m.resultadoCorreto
    ensures m.resultadoCorreto + 1 <= m.resultado2 <= m.resultadoCorreto + 5
    ensures m.resultadoCorreto - 5 <= m.resultado3 <= m.resultadoCorreto - 1
    ensures m.resultadoCorreto + 6 <= m.resultado4 <= m.resultadoCorreto + 15
    ensures m.resultado1 != m.resultado2 && m.resultado1 != m.resultado3 && m.resultado1 != m.resultado4
    ensures m.resultado2 != m.resultado3 && m.resultado2 != m.resultado4 && m.resultado3 != m.resultado4
    ensures exists k :: 0 <= k < |IntToString(m.numero)| && m.algarismo == [IntToString(m.numero)[k]]
  {
    var numero := NumeroValue(dificuldade, d);
    var qtd1 := d.qtd1 + 5;
    var qtd2 := d.qtd2 + 3;
    var correto := qtd1 + qtd2;
    MathValues(numero, d.numeroGrande + 1000, qtd1, qtd2, d.largura + 3, d.altura + 4,
      correto, correto, correto + d.delta2 + 1, correto - d.delta3 - 1, correto + d.delta4 + 6,
      [IntToString(numero)[d.algarismo]])
  }

  /** The language values for these draws: each word comes from its vocabulary and `personagem` repeats `nome`. */
  function DrawPort(d: ValueDraws): (p: PortValues)
    requires d.nome < 6 && d.objeto < 5 && d.texto < 3 && d.palavra < 4
    ensures p.nome in Nomes && p.objeto in Objetos && p.textoCurto in Textos && p.palavra in Palavras
    ensures p.personagem == p.nome && p.frase == FrasePadrao
  {
    var nome := Nomes[d.nome];
    PortValues(nome, Objetos[d.objeto], Textos[d.texto], nome, Palavras[d.palavra], FrasePadrao)
  }

  /** The bag `generateRandomValues` returns for these draws: maths for `matematica`, words otherwise. */
  function RandomValues(disciplina: string, dificuldade: string, d: ValueDraws): Bag
    requires ValidValueDraws(dificuldade, d)
  {
    if disciplina == "matematica" then MathBag(DrawMath(dificuldade, d)) else PortBag(DrawPort(d))
  }

  /** `generateRandomValues(disciplina, _habilidade, dificuldade)`: fills the record key by key. */
  method GenerateRandomValues(disciplina: string, habilidade: string, dificuldade: string, d: ValueDraws)
    returns (valores: Bag)
    requires ValidValueDraws(dificuldade, d)
    ensures valores == RandomValues(disciplina, dificuldade, d)
  {
    valores := [];
    if disciplina == "matematica" {
      var range := NumeroRange(dificuldade);
      var numero := d.numero + range.0;
      valores := valores + [(Numero, Num(numero))];
      valores := valores + [(NumeroGrande, Num(d.numeroGrande + 1000))];
      var qtd1 := d.qtd1 + 5;
      valores := valores + [(Qtd1, Num(qtd1))];
      var qtd2 := d.qtd2 + 3;
      valores := valores + [(Qtd2, Num(qtd2))];
      valores := valores + [(Largura, Num(d.largura + 3))];
      valores := valores + [(Altura, Num(d.altura + 4))];
      var correto := qtd1 + qtd2;
      valores := valores + [(ResultadoCorreto, Num(correto))];
      valores := valores + [(Resultado1, Num(correto))];
      valores := valores + [(Resultado2, Num(correto + d.delta2 + 1))];
      valores := valores + [(Resultado3, Num(correto - d.delta3 - 1))];
      valores := valores + [(Resultado4, Num(correto + d.delta4 + 6))];
      var texto := IntToString(numero);
      valores := valores + [(Algarismo, Str([texto[d.algarismo]]))];
    } else {
      var nome := Nomes[d.nome];
      valores := valores + [(Nome, Str(nome))];
      valores := valores + [(Objeto, Str(Objetos[d.objeto]))];
      valores := valores + [(TextoCurto, Str(Textos[d.texto]))];
      valores := valores + [(Personagem, Str(nome))];
      valores := valores + [(Palavra, Str(Palavras[d.palavra]))];
      valores := valores + [(Frase, Str(FrasePadrao))];
    }
  }

  /** The key set and its order depend only on the subject, never on the draws. */
  lemma BagShape(disciplina: string, dificuldade: string, d: ValueDraws)
    requires ValidValueDraws(dificuldade, d)
    ensures Keys(RandomValues(disciplina, dificuldade, d)) == if disciplina == "matematica" then MathKeys else PortKeys
  {
  }

  /** The field of a maths record that `key` names, if it names one. */
  function MathField(m: MathValues, key: Key): Option<Value> {
    match key
    case Numero => Some(Num(m.numero))
    case NumeroGrande => Some(Num(m.numeroGrande))
    case Qtd1 => Some(Num(m.qtd1))
    case Qtd2 => Some(Num(m.qtd2))
    case Largura => Some(Num(m.largura))
    case Altura => Some(Num(m.altura))
    case ResultadoCorreto => Some(Num(m.resultadoCorreto))
    case Resultado1 => Some(Num(m.resultado1))
    case Resultado2 => Some(Num(m.resultado2))
    case Resultado3 => Some(Num(m.resultado3))
    case Resultado4 => Some(Num(m.resultado4))
    case Algarismo => Some(Str(m.algarismo))
    case _ => None
  }

  /** The field of a language record that `key` names, if it names one. */
  function PortField(p: PortValues, key: Key): Option<Value> {
    match key
    case Nome => Some(Str(p.nome))
    case Objeto => Some(Str(p.objeto))
    case TextoCurto => Some(Str(p.textoCurto))
    case Personagem => Some(Str(p.personagem))
    case Palavra => Some(Str(p.palavra))
    case Frase => Some(Str(p.frase))
    case _ => None
  }

  /** A key that no entry carries is not found. */
  lemma {:induction false} FindAbsent(b: Bag, key: Key)
    requires key !in Keys(b)
    ensures Find(b, key) == None
  {
    if b != [] {
      assert Keys(b[1..]) == Keys(b)[1..];
      FindAbsent(b[1..], key);
    }
  }

  /** Looking a key up in a maths bag gives the field of the same name. */
  lemma FindInMathBag(m: MathValues, key: Key)
    ensures Find(MathBag(m), key) == MathField(m, key)
  {
    if key in MathKeys {
      FindMathKey(m, key);
    } else {
      assert Keys(MathBag(m)) == MathKeys;
      FindAbsent(MathBag(m), key);
    }
  }

  /** A maths key is found at its own position of the bag. */
  lemma FindMathKey(m: MathValues, key: Key)
    requires key in MathKeys
    ensures Find(MathBag(m), key) == MathField(m, key)
  {
    if key in MathKeys[..6] {
      FindMathKeyFirst(m, key);
    } else if key in MathKeys[6..9] {
      FindMathKeyResults(m, key);
    } else {
      assert key in MathKeys[9..];
      FindMathKeyLast(m, key);
    }
  }

  /** The first six maths keys: the drawn numbers and the two quantities. */
  lemma FindMathKeyFirst(m: MathValues, key: Key)
    requires key in MathKeys[..6]
    ensures Find(MathBag(m), key) == MathField(m, key)
  {
    var b := MathBag(m);
    if key == Numero { FindAt(b, key, 0); }
    else if key == NumeroGrande { FindAt(b, key, 1); }
    else if key == Qtd1 { FindAt(b, key, 2); }
    else if key == Qtd2 { FindAt(b, key, 3); }
    else if key == Largura { FindAt(b, key, 4); }
    else {
      assert key == Altura;
      FindAt(b, key, 5);
    }
  }

  /** The seventh to ninth maths keys: the correct result and the first two distractors. */
  lemma FindMathKeyResults(m: MathValues, key: Key)
    requires key in MathKeys[6..9]
    ensures Find(MathBag(m), key) == MathField(m, key)
  {
    var b := MathBag(m);
    if key == ResultadoCorreto { FindAt(b, key, 6); }
    else if key == Resultado1 { FindAt(b, key, 7); }
    else {
      assert key == Resultado2;
      FindAt(b, key, 8);
    }
  }

  /** The last three maths keys: the remaining distractors and the digit. */
  lemma FindMathKeyLast(m: MathValues, key: Key)
    requires key in MathKeys[9..]
    ensures Find(MathBag(m), key) == MathField(m, key)
  {
    var b := MathBag(m);
    if key == Resultado3 { FindAt(b, key, 9); }
    else if key == Resultado4 { FindAt(b, key, 10); }
    else {
      assert key == Algarismo;
      FindAt(b, key, 11);
    }
  }

  /** Looking a key up in a language bag gives the field of the same name. */
  lemma FindInPortBag(p: PortValues, key: Key)
    ensures Find(PortBag(p), key) == PortField(p, key)
  {
    if key in PortKeys {
      FindPortKey(p, key);
    } else {
      assert Keys(PortBag(p)) == PortKeys;
      FindAbsent(PortBag(p), key);
    }
  }

  /** A language key is found at its own position of the bag. */
  lemma FindPortKey(p: PortValues, key: Key)
    requires key in PortKeys
    ensures Find(PortBag(p), key) == PortField(p, key)
  {
    var b := PortBag(p);
    if key == Nome { FindAt(b, key, 0); }
    else if key == Objeto { FindAt(b, key, 1); }
    else if key == TextoCurto { FindAt(b, key, 2); }
    else if key == Personagem { FindAt(b, key, 3); }
    else if key == Palavra { FindAt(b, key, 4); }
    else {
      assert key == Frase;
      FindAt(b, key, 5);
    }
  }

  /** A lookup in the bag `generateRandomValues` returns reads the drawn record's field of that name. */
  lemma RandomValuesLookup(disciplina: string, dificuldade: string, d: ValueDraws, key: Key)
    requires ValidValueDraws(dificuldade, d)
    ensures Find(RandomValues(disciplina, dificuldade, d), key) ==
      if disciplina == "matematica" then MathField(DrawMath(dificuldade, d), key) else PortField(DrawPort(d), key)
  {
    if disciplina == "matematica" {
      FindInMathBag(DrawMath(dificuldade, d), key);
    } else {
      FindInPortBag(DrawPort(d), key);
    }
  }
}
