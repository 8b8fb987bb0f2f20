/**
 * The placeholder renderer of the generation route. For every bag entry, in insertion
 * order, each text is rewritten with `text.replace(new RegExp(`[${KEY}]`, 'g'), value)`.
 * The pattern `[KEY]` is a regular-expression character class: it matches any single
 * character of the upper-cased key name, not the bracketed token. So one step replaces
 * every such character with the value's text, in a single left-to-right pass.
 */
module Render {
  import opened Text
  import opened Values

  /** The characters the pattern built from `key` matches: those of the upper-cased key name. */
  function KeyClass(key: Key): (cls: set<char>)
    ensures forall c :: c in cls <==> exists i :: 0 <= i < |Upper(Name(key))| && Upper(Name(key))[i] == c
  {
    set i | 0 <= i < |Upper(Name(key))| :: Upper(Name(key))[i]
  }

  /** The image of one character under one replacement step. */
  function ReplaceChar(c: char, cls: set<char>, v: string): string {
    if c in cls then v else [c]
  }

  /** `s.replace(/[cls]/g, v)`: every character of `s` that is in `cls` becomes `v`. */
  function ReplaceClass(s: string, cls: set<char>, v: string): (r: string)
    ensures (forall i :: 0 <= i < |s| ==> s[i] !in cls) ==> r == s
    ensures forall j :: 0 <= j < |r| ==> r[j] in v || (r[j] in s && r[j] !in cls)
    decreases |s|
  {
    if s == [] then [] else ReplaceChar(s[0], cls, v) + ReplaceClass(s[1..], cls, v)
  }

  /** Replacement works piecewise: the pass over a concatenation is the concatenation of the passes. */
  lemma {:induction false} ReplaceClassConcat(a: string, b: string, cls: set<char>, v: string)
    ensures ReplaceClass(a + b, cls, v) == ReplaceClass(a, cls, v) + ReplaceClass(b, cls, v)
    decreases |a|
  {
    if a != [] {
      assert (a + b)[1..] == a[1..] + b;
      ReplaceClassConcat(a[1..], b, cls, v);
    } else {
      assert a + b == b;
    }
  }

  /**
   * One pass: a matching character becomes exactly the value text, which is not scanned
   * again in the same step; every other character stays as it is.
   */
  lemma ReplaceClassAround(a: string, c: char, b: string, cls: set<char>, v: string)
    ensures ReplaceClass(a + [c] + b, cls, v) ==
      ReplaceClass(a, cls, v) + (if c in cls then v else [c]) + ReplaceClass(b, cls, v)
  {
    ReplaceClassConcat(a + [c], b, cls, v);
    ReplaceClassConcat(a, [c], cls, v);
  }

  /** Key names are written in lower-case letters, the digits 1 to 4 and `_`. */
  predicate IsNameChar(c: char) {
    'a' <= c <= 'z' || '1' <= c <= '4' || c == '_'
  }

  lemma NameChars(key: Key)
    ensures forall i :: 0 <= i < |Name(key)| ==> IsNameChar(Name(key)[i])
  {
  }

  /** So the pattern of a key matches only upper-case letters, the digits 1 to 4 and `_`. */
  lemma KeyClassChars(key: Key)
    ensures forall c | c in KeyClass(key) :: 'A' <= c <= 'Z' || '1' <= c <= '4' || c == '_'
  {
    NameChars(key);
  }

  /** A character a key's pattern never matches: a lower-case letter or a bracket. */
  predicate Inert(c: char) {
    'a' <= c <= 'z' || c == '[' || c == ']'
  }

  /** Lower-case letters and the brackets around a placeholder survive every step. */
  lemma InertSurvivesStep(a: string, c: char, b: string, key: Key, v: string)
    requires Inert(c)
    ensures ReplaceClass(a + [c] + b, KeyClass(key), v) ==
      ReplaceClass(a, KeyClass(key), v) + [c] + ReplaceClass(b, KeyClass(key), v)
  {
    KeyClassChars(key);
    ReplaceClassAround(a, c, b, KeyClass(key), v);
  }

  /** The text for the bag entries in order: each step rewrites the result of the previous ones. */
  function Substitute(s: string, valores: Bag): string
    decreases |valores|
  {
    if valores == [] then s
    else
      var last := valores[|valores| - 1];
      ReplaceClass(Substitute(s, valores[..|valores| - 1]), KeyClass(last.0), ValueText(last.1))
  }

  /** Substitution works piecewise too, since every step does. */
  lemma {:induction false} SubstituteConcat(a: string, b: string, valores: Bag)
    ensures Substitute(a + b, valores) == Substitute(a, valores) + Substitute(b, valores)
    decreases |valores|
  {
    if valores != [] {
      var last := valores[|valores| - 1];
      SubstituteConcat(a, b, valores[..|valores| - 1]);
      ReplaceClassConcat(Substitute(a, valores[..|valores| - 1]), Substitute(b, valores[..|valores| - 1]),
        KeyClass(last.0), ValueText(last.1));
    }
  }

  /** A lower-case letter or a bracket of the template is still there after all the steps. */
  lemma {:induction false} InertSurvivesSubstitute(a: string, c: char, b: string, valores: Bag)
    requires Inert(c)
    ensures Substitute(a + [c] + b, valores) == Substitute(a, valores) + [c] + Substitute(b, valores)
    decreases |valores|
  {
    if valores != [] {
      var last := valores[|valores| - 1];
      var init := valores[..|valores| - 1];
      InertSurvivesSubstitute(a, c, b, init);
      InertSurvivesStep(Substitute(a, init), c, Substitute(b, init), last.0, ValueText(last.1));
    }
  }

  /** Text with no character any key of the bag matches comes out unchanged. */
  lemma {:induction false} SubstituteUntouched(s: string, valores: Bag)
    requires forall i, j | 0 <= i < |s| && 0 <= j < |valores| :: s[i] !in KeyClass(valores[j].0)
    ensures Substitute(s, valores) == s
    decreases |valores|
  {
    if valores != [] {
      SubstituteUntouched(s, valores[..|valores| - 1]);
    }
  }

  /** `n` copies of `v`, one after the other. */
  function Copies(v: string, n: nat): (r: string)
    ensures |r| == n * |v|
  {
    if n == 0 then [] else Copies(v, n - 1) + v
  }

  /** Text made only of matching characters becomes one copy of the value per character. */
  lemma {:induction false} ReplaceClassAllMatch(s: string, cls: set<char>, v: string)
    requires forall i :: 0 <= i < |s| ==> s[i] in cls
    ensures ReplaceClass(s, cls, v) == Copies(v, |s|)
    decreases |s|
  {
    if s != [] {
      var init := s[..|s| - 1];
      assert s == init + [s[|s| - 1]];
      ReplaceClassConcat(init, [s[|s| - 1]], cls, v);
      ReplaceClassAllMatch(init, cls, v);
    }
  }

  /** Brackets around matching characters: the brackets stay, each character inside becomes the value. */
  lemma BracketedStep(u: string, cls: set<char>, v: string)
    requires '[' !in cls && ']' !in cls
    requires forall i :: 0 <= i < |u| ==> u[i] in cls
    ensures ReplaceClass("[" + u + "]", cls, v) == "[" + Copies(v, |u|) + "]"
  {
    ReplaceClassAllMatch(u, cls, v);
    assert "[" + u + "]" == [] + ['['] + (u + "]");
    ReplaceClassAround([], '[', u + "]", cls, v);
    assert u + "]" == u + [']'] + [];
    ReplaceClassAround(u, ']', [], cls, v);
  }

  /** The placeholder `[KEY]` itself becomes its two brackets around one copy of the value per letter of the key. */
  lemma PlaceholderStep(key: Key, v: string)
    ensures ReplaceClass("[" + Upper(Name(key)) + "]", KeyClass(key), v) == "[" + Copies(v, |Name(key)|) + "]"
  {
    var u := Upper(Name(key));
    var cls := KeyClass(key);
    KeyClassChars(key);
    assert forall i :: 0 <= i < |u| ==> u[i] in cls;
    BracketedStep(u, cls, v);
  }

  lemma Qtd1Placeholder()
    ensures "[QTD1]" == "[" + Upper(Name(Qtd1)) + "]" && |Name(Qtd1)| == 4
  {
    assert Upper(Name(Qtd1)) == "QTD1" by {
      assert Name(Qtd1) == "qtd1";
    }
  }

  lemma Qtd1Copies()
    ensures "[" + Copies("7", |Name(Qtd1)|) + "]" == "[7777]"
  {
    Qtd1Placeholder();
    assert Copies("7", 4) == "7777";
  }

  /** The `qtd1` step alone, with `qtd1 = 7`: each of `Q`, `T`, `D` and `1` of `[QTD1]` becomes `7`, and the brackets stay. */
  lemma Qtd1Example()
    ensures Substitute("[QTD1]", [(Qtd1, Num(7))]) == "[7777]"
  {
    assert ReplaceClass("[QTD1]", KeyClass(Qtd1), "7") == "[7777]" by {
      Qtd1Placeholder();
      Qtd1Copies();
      PlaceholderStep(Qtd1, "7");
    }
    var b := [(Qtd1, Num(7))];
    assert b[..0] == [];
    assert ValueText(Num(7)) == "7";
  }

  /** Replacement applied to each alternative (`alternativas.map(...)`). */
  function ReplaceEach(alternativas: seq<string>, cls: set<char>, v: string): (r: seq<string>)
    ensures |r| == |alternativas| && forall j :: 0 <= j < |r| ==> r[j] == ReplaceClass(alternativas[j], cls, v)
  {
    seq(|alternativas|, j requires 0 <= j < |alternativas| => ReplaceClass(alternativas[j], cls, v))
  }

  /** Each alternative substituted on its own. */
  function SubstituteEach(alternativas: seq<string>, valores: Bag): (r: seq<string>)
    ensures |r| == |alternativas|
  {
    seq(|alternativas|, j requires 0 <= j < |alternativas| => Substitute(alternativas[j], valores))
  }

  /**
   * The `Object.entries(valores).forEach(...)` loop of the route: statement, explanation and
   * every alternative each go through the steps of the bag in insertion order.
   */
  method RenderTemplate(pattern: string, alternatives: seq<string>, explanation: string, valores: Bag)
    returns (enunciado: string, alternativas: seq<string>, explicacao: string)
    ensures enunciado == Substitute(pattern, valores)
    ensures explicacao == Substitute(explanation, valores)
    ensures |alternativas| == |alternatives|
    ensures forall j :: 0 <= j < |alternatives| ==> alternativas[j] == Substitute(alternatives[j], valores)
  {
    enunciado := pattern;
    alternativas := alternatives;
    explicacao := explanation;
    var i := 0;
    while i < |valores|
      invariant 0 <= i <= |valores|
      invariant enunciado == Substitute(pattern, valores[..i])
      invariant explicacao == Substitute(explanation, valores[..i])
      invariant alternativas == SubstituteEach(alternatives, valores[..i])
    {
      var (key, value) := valores[i];
      assert valores[..i + 1][..i] == valores[..i];
      var cls := KeyClass(key);
      var text := ValueText(value);
      enunciado := ReplaceClass(enunciado, cls, text);
      explicacao := ReplaceClass(explicacao, cls, text);
      alternativas := ReplaceEach(alternativas, cls, text);
      i := i + 1;
    }
    assert valores[..i] == valores;
  }

  /** Rendering with a bag split in two: the second part's steps rewrite the first part's result. */
  lemma {:induction false} SubstituteAppend(s: string, a: Bag, b: Bag)
    ensures Substitute(s, a + b) == Substitute(Substitute(s, a), b)
    decreases |b|
  {
    if b == [] {
      assert a + b == a;
    } else {
      assert (a + b)[..|a + b| - 1] == a + b[..|b| - 1];
      SubstituteAppend(s, a, b[..|b| - 1]);
    }
  }

  /** A character missing from the upper-cased key name is not in the key's class. */
  lemma NotInClass(key: Key, c: char)
    requires c !in Upper(Name(key))
    ensures c !in KeyClass(key)
  {
  }

  /** A character of the upper-cased key name is in the key's class. */
  lemma InClass(key: Key, u: string, i: nat)
    requires Upper(Name(key)) == u && i < |u|
    ensures u[i] in KeyClass(key)
  {
  }

  /** A text none of whose characters is in the upper-cased key name comes out of a step unchanged. */
  lemma StepUntouched(s: string, key: Key, u: string, v: string)
    requires Upper(Name(key)) == u
    requires forall c | c in s :: c !in u
    ensures ReplaceClass(s, KeyClass(key), v) == s
  {
    forall i | 0 <= i < |s| ensures s[i] !in KeyClass(key) {
      NotInClass(key, s[i]);
    }
  }

  /** One character goes through a step as `ReplaceChar` says. */
  lemma StepOne(c: char, cls: set<char>, v: string)
    ensures ReplaceClass([c], cls, v) == if c in cls then v else [c]
  {
    assert [c][1..] == [];
  }

  /** A step over six pieces is the six pieces' steps, in order. */
  lemma StepSix(a: string, b: string, c: string, d: string, e: string, f: string, cls: set<char>, v: string)
    ensures ReplaceClass(a + b + c + d + e + f, cls, v) ==
      ReplaceClass(a, cls, v) + ReplaceClass(b, cls, v) + ReplaceClass(c, cls, v) +
      ReplaceClass(d, cls, v) + ReplaceClass(e, cls, v) + ReplaceClass(f, cls, v)
  {
    ReplaceClassConcat(a + b + c + d + e, f, cls, v);
    ReplaceClassConcat(a + b + c + d, e, cls, v);
    ReplaceClassConcat(a + b + c, d, cls, v);
    ReplaceClassConcat(a + b, c, cls, v);
    ReplaceClassConcat(a, b, cls, v);
  }

  lemma NumeroName()
    ensures Upper(Name(Numero)) == "NUMERO"
  {
    assert Name(Numero) == "numero";
  }

  lemma NumeroGrandeName()
    ensures Upper(Name(NumeroGrande)) == "NUMERO_GRANDE"
  {
    assert Name(NumeroGrande) == "numero_grande";
  }

  lemma Qtd1Name()
    ensures Upper(Name(Qtd1)) == "QTD1"
  {
    assert Name(Qtd1) == "qtd1";
  }

  /** `[QTD1]` cut into its six characters. */
  lemma Qtd1Pieces()
    ensures "[QTD1]" == "[" + "Q" + "T" + "D" + "1" + "]"
    ensures forall c | c in "[QTD1]" :: c !in "NUMERO"
    ensures forall c | c in "[" + "Q" + "T" + "1" + "]" :: c !in "NUMERO_GRANDE"
  {
  }

  /** The `numero` step leaves `[QTD1]` alone: none of its characters is in `NUMERO`. */
  lemma NumeroStepOnQtd1(v: string)
    ensures ReplaceClass("[QTD1]", KeyClass(Numero), v) == "[QTD1]"
  {
    NumeroName();
    Qtd1Pieces();
    StepUntouched("[QTD1]", Numero, "NUMERO", v);
  }

  /** The `numero_grande` step rewrites the `D` of `[QTD1]`, since `NUMERO_GRANDE` contains one. */
  lemma NumeroGrandeStepOnQtd1(v: string)
    ensures ReplaceClass("[QTD1]", KeyClass(NumeroGrande), v) == "[" + "Q" + "T" + v + "1" + "]"
  {
    var cls := KeyClass(NumeroGrande);
    NumeroGrandeName();
    Qtd1Pieces();
    InClass(NumeroGrande, "NUMERO_GRANDE", 11);
    StepSix("[", "Q", "T", "D", "1", "]", cls, v);
    StepOne('D', cls, v);
    StepUntouched("[", NumeroGrande, "NUMERO_GRANDE", v);
    StepUntouched("Q", NumeroGrande, "NUMERO_GRANDE", v);
    StepUntouched("T", NumeroGrande, "NUMERO_GRANDE", v);
    StepUntouched("1", NumeroGrande, "NUMERO_GRANDE", v);
    StepUntouched("]", NumeroGrande, "NUMERO_GRANDE", v);
  }

  /** The `qtd1` step turns each of `Q`, `T` and `1` into the value. */
  lemma Qtd1Matches(v: string)
    ensures ReplaceClass("Q", KeyClass(Qtd1), v) == v
    ensures ReplaceClass("T", KeyClass(Qtd1), v) == v
    ensures ReplaceClass("1", KeyClass(Qtd1), v) == v
  {
    var cls := KeyClass(Qtd1);
    Qtd1Name();
    InClass(Qtd1, "QTD1", 0);
    InClass(Qtd1, "QTD1", 1);
    InClass(Qtd1, "QTD1", 3);
    StepOne('Q', cls, v);
    StepOne('T', cls, v);
    StepOne('1', cls, v);
  }

  /** The `qtd1` step keeps the brackets and a text without any of `Q`, `T`, `D` and `1`. */
  lemma Qtd1Keeps(g: string, v: string)
    requires forall c | c in g :: c !in "QTD1"
    ensures ReplaceClass("[", KeyClass(Qtd1), v) == "["
    ensures ReplaceClass(g, KeyClass(Qtd1), v) == g
    ensures ReplaceClass("]", KeyClass(Qtd1), v) == "]"
  {
    Qtd1Name();
    StepUntouched("[", Qtd1, "QTD1", v);
    StepUntouched(g, Qtd1, "QTD1", v);
    StepUntouched("]", Qtd1, "QTD1", v);
  }

  /**
   * The `qtd1` step after the `numero_grande` one: the `Q`, the `T` and the `1` each become the
   * value, and the text `numero_grande` put in is kept when it holds none of `Q`, `T`, `D` and `1`.
   */
  lemma Qtd1StepAfterNumeroGrande(g: string, v: string)
    requires forall c | c in g :: c !in "QTD1"
    ensures ReplaceClass("[" + "Q" + "T" + g + "1" + "]", KeyClass(Qtd1), v) == "[" + v + v + g + v + "]"
  {
    StepSix("[", "Q", "T", g, "1", "]", KeyClass(Qtd1), v);
    Qtd1Matches(v);
    Qtd1Keeps(g, v);
  }

  /** One more bag entry is one more step on the result. */
  lemma SubstituteSnoc(s: string, valores: Bag, e: (Key, Value))
    ensures Substitute(s, valores + [e]) == ReplaceClass(Substitute(s, valores), KeyClass(e.0), ValueText(e.1))
  {
    assert (valores + [e])[..|valores|] == valores;
  }

  /** Three steps, in order. */
  lemma SubstituteThree(s: string, e1: (Key, Value), e2: (Key, Value), e3: (Key, Value))
    ensures Substitute(s, [e1, e2, e3]) ==
      ReplaceClass(ReplaceClass(ReplaceClass(s, KeyClass(e1.0), ValueText(e1.1)),
        KeyClass(e2.0), ValueText(e2.1)), KeyClass(e3.0), ValueText(e3.1))
  {
    SubstituteSnoc(s, [], e1);
    assert [] + [e1] == [e1];
    SubstituteSnoc(s, [e1], e2);
    assert [e1] + [e2] == [e1, e2];
    SubstituteSnoc(s, [e1, e2], e3);
    assert [e1, e2] + [e3] == [e1, e2, e3];
  }

  /** The first three steps of the maths bag on `[QTD1]`. */
  lemma FirstStepsOnQtd1(m: MathValues)
    requires m.numeroGrande == 5000 && m.qtd1 == 7
    ensures Substitute("[QTD1]", MathBag(m)[..3]) == "[" + "7" + "7" + "5000" + "7" + "]"
  {
    var e1, e2, e3 := (Numero, Num(m.numero)), (NumeroGrande, Num(5000)), (Qtd1, Num(7));
    assert MathBag(m)[..3] == [e1, e2, e3];
    SubstituteThree("[QTD1]", e1, e2, e3);
    NumeroStepOnQtd1(ValueText(Num(m.numero)));
    FiveThousandText();
    NumeroGrandeStepOnQtd1("5000");
    Qtd1StepAfterNumeroGrande("5000", "7");
  }

  lemma FiveThousandText()
    ensures ValueText(Num(5000)) == "5000" && ValueText(Num(7)) == "7"
    ensures forall c | c in "5000" :: c !in "QTD1"
  {
  }

  /** No key's pattern matches a character of the rendered text: brackets and the digits 0, 5 and 7. */
  lemma RenderedOutsideClasses(key: Key)
    ensures forall c | c in "[7750007]" :: c !in KeyClass(key)
  {
    KeyClassChars(key);
  }

  /** The rendered text, written out. */
  lemma Qtd1Rendered()
    ensures "[" + "7" + "7" + "5000" + "7" + "]" == "[7750007]"
  {
  }

  /**
   * `[QTD1]` in the route's own maths bag, with `numero_grande = 5000` and `qtd1 = 7`. The
   * `numero_grande` step comes first and its class holds `D`, so the `D` becomes `5000`; the
   * `qtd1` step then rewrites the `Q`, the `T` and both `1`s; no later key matches what is left.
   */
  lemma MathBagQtd1Example(m: MathValues)
    requires m.numeroGrande == 5000 && m.qtd1 == 7
    ensures Substitute("[QTD1]", MathBag(m)) == "[7750007]"
  {
    var b := MathBag(m);
    var first := Substitute("[QTD1]", b[..3]);
    FirstStepsOnQtd1(m);
    Qtd1Rendered();
    SubstituteAppend("[QTD1]", b[..3], b[3..]);
    assert b[..3] + b[3..] == b;
    forall i, j | 0 <= i < |first| && 0 <= j < |b[3..]| ensures first[i] !in KeyClass(b[3..][j].0) {
      RenderedOutsideClasses(b[3..][j].0);
      assert first[i] in first;
    }
    SubstituteUntouched(first, b[3..]);
  }

  /**
   * The same for the bag `generateRandomValues` draws: with the draws that give `numero_grande = 5000`
   * and `qtd1 = 7`, a maths template's `[QTD1]` renders as `[7750007]`, not as `[7777]`.
   */
  lemma DrawnQtd1Example(dificuldade: string, d: ValueDraws)
    requires ValidValueDraws(dificuldade, d) && d.numeroGrande == 4000 && d.qtd1 == 2
    ensures Substitute("[QTD1]", RandomValues("matematica", dificuldade, d)) == "[7750007]"
  {
    MathBagQtd1Example(DrawMath(dificuldade, d));
  }
}
