# Assessment generation and grading — a Dafny model

This project models the parts of the educational platform that carry logic:

- the question-generation route (`POST /api/generate-questions`);
- the answer-sheet grading of the correction page;
- the selection and form state of the exam page and the lesson-plan page.

## What is modelled

**Question generation** (`templates.dfy`, `values.dfy`, `render.dfy`, `shuffle.dfy`,
`generator.dfy`, `route.dfy`).

- The template catalogue is a constant map: subject → skill → difficulty → templates.
- Every `Math.random()` draw is an explicit natural below the width it is scaled to.
  One question's draws are a `QuestionDraw`. The n-th generated question uses `draws(n)`.
- The value bag is a sequence of (key, value) entries in insertion order. That is the order
  in which `Object.entries` visits them.
- The renderer is modelled as the code behaves, not as its comment says. The pattern
  ``new RegExp(`[${KEY}]`, 'g')`` is a regular-expression character class. So each step
  replaces every single character of the text that occurs in the upper-cased key name with
  the value's text, in one pass. Lower-case letters and the brackets are never touched.
  A later key also rewrites characters inside text that an earlier key inserted.
  The `qtd1` step alone turns `[QTD1]` into `[7777]` for `qtd1 = 7` (`Render.Qtd1Example`). In
  the maths bag the route builds, the earlier `numero_grande` step has already replaced the `D`
  (its class holds `D`), so with `numero_grande = 5000` and `qtd1 = 7` the placeholder renders
  as `[7750007]` (`Render.MathBagQtd1Example`).
- The shuffle swaps slot 0 with the drawn slot, in place on an array.
  The question always records `a` as its answer, even after a swap.
- The assembler has the same shape as the source: an outer loop over the skill entries, an
  inner loop bounded by `ceil(quantidade / |habilidades|)` and by the list length, a
  question counter, and a final slice.
  It is proved equal to `Generated`, a function over the "slots" (skill, template) it fills.
- `POST` becomes `Route.Post`. It returns a status and a payload:
  - 400 for missing fields, checked before the quantity;
  - 400 for a quantity outside 1..50;
  - 500 when the assembler throws on a subject missing from the catalogue;
  - 422 when nothing was generated;
  - 200 otherwise, with an answer key built by the `reduce`.

**Grading** (`correcao.dfy`).

- The detected marks and the example answer key are maps filled by a loop from explicit draws.
- The answer key's numbers are visited in ascending order, which is the order `Object.keys`
  gives for integer-like keys.
- `Math.round` of the ratio becomes integer round-half-up: `(200·a + t) div (2·t)`.
  An empty key gives JavaScript's `NaN`, modelled as `None`.
- The badge maps a `NaN` percentage to `destructive`, because every comparison with `NaN`
  is false.

**Page state** (`selection.dfy`, `provas.dfy`, `planejamento.dfy`). React state is a value
that each handler replaces. So each handler is a function from the old state to the new one.
The loops of the skill lookups and of the text export are methods proved against those
functions.

**Helpers** (`text.dfy`) cover the JavaScript primitives the code relies on:

- `Number.prototype.toString` on integers;
- `padStart`;
- ASCII `toUpperCase`;
- base-10 `parseInt`.

The model follows what the code does, not what its comments or names suggest:

- the renderer's character classes;
- the constant answer label `a`;
- the per-skill count that includes skipped skills;
- the 500 answer for an unknown subject, which is not a validation error.

## Model

| member | source | states |
|---|---|---|
| `Templates.Lookup` | src/app/api/generate-questions/route.ts:149-160 | the templates of a skill at a difficulty; for a well-formed catalogue the list is empty exactly when the skill or its difficulty entry is missing |
| `Templates.CatalogueWellFormed` | src/app/api/generate-questions/route.ts:27-144 | every template list in the catalogue is non-empty and every template has four alternatives, so the round-robin index is always defined |
| `Templates.ResultTemplates` | src/app/api/generate-questions/route.ts:118-141 | the addition, multiplication and perimeter templates each have one template, whose first alternative is `[RESULTADO1]` for addition and multiplication and `[RESULTADO1] cm` for the perimeter |
| `Values.DrawMath` | src/app/api/generate-questions/route.ts:220-243 | `numero` is in [1,50], [10,500] or [50,9999] by difficulty; `numero_grande` is in [1000,9998], `qtd1` in [5,24], `qtd2` in [3,17], `largura` in [3,22], `altura` in [4,18]; `resultado_correto = qtd1 + qtd2 = resultado1`; the decoys lie in [c+1,c+5], [c-5,c-1] and [c+6,c+15], so all four differ; `algarismo` is one character of `numero`'s decimal text |
| `Values.DrawPort` | src/app/api/generate-questions/route.ts:244-260 | every word comes from its vocabulary, `personagem` repeats `nome`, and `frase` is the fixed sentence |
| `Values.GenerateRandomValues` | src/app/api/generate-questions/route.ts:217-263 | the record filled key by key is the maths bag for `matematica` and the word bag for any other subject |
| `Values.BagShape` | src/app/api/generate-questions/route.ts:217-263 | the bag's keys and their order depend only on the subject, never on the draws |
| `Values.RandomValuesLookup` | src/app/api/generate-questions/route.ts:217-263 | looking a key up in the bag gives the drawn field of that name, and nothing for a key of the other subject |
| `Render.KeyClass` | src/app/api/generate-questions/route.ts:175-176 | the pattern built from a key matches exactly the characters of the upper-cased key name |
| `Render.ReplaceClass` | src/app/api/generate-questions/route.ts:176 | every output character comes from the value text or is an input character outside the class; text with no character of the class is unchanged |
| `Render.ReplaceClassAround` | src/app/api/generate-questions/route.ts:176 | one step replaces a matching character by exactly the value text, which is not scanned again, and leaves every other character as it is |
| `Render.InertSurvivesSubstitute` | src/app/api/generate-questions/route.ts:174-182 | after all steps, a lower-case letter or a bracket of the template is still in place between the rendered text before and after it |
| `Render.SubstituteUntouched` | src/app/api/generate-questions/route.ts:174-182 | text with no character that any key's class matches comes out unchanged |
| `Render.SubstituteConcat` | src/app/api/generate-questions/route.ts:174-182 | rendering works piecewise: the rendering of a concatenation is the concatenation of the renderings |
| `Render.PlaceholderStep` | src/app/api/generate-questions/route.ts:175-176 | the key's own step turns `[KEY]` into the two brackets around one copy of the value per letter of the key |
| `Render.Qtd1Example` | src/app/api/generate-questions/route.ts:175-176 | the `qtd1` step alone, with `qtd1 = 7`, turns `[QTD1]` into `[7777]` |
| `Render.SubstituteAppend` | src/app/api/generate-questions/route.ts:174-182 | the steps of a later part of the bag rewrite the text the earlier part produced |
| `Render.MathBagQtd1Example` | src/app/api/generate-questions/route.ts:174-182 | in the route's maths bag with `numero_grande = 5000` and `qtd1 = 7`, `[QTD1]` renders as `[7750007]`: the `numero_grande` step rewrites the `D` before the `qtd1` step runs |
| `Render.DrawnQtd1Example` | src/app/api/generate-questions/route.ts:217-227 | the same holds for the bag `generateRandomValues` draws with the widths that give those two values |
| `Render.RenderTemplate` | src/app/api/generate-questions/route.ts:169-182 | the loop over the bag gives the statement, the explanation and each alternative rendered on its own through the steps in insertion order |
| `Shuffle.DrawnLetter` | src/app/api/generate-questions/route.ts:185 | the drawn letter is one of `a`..`d`, and it is `a` exactly when the 0.7 draw keeps the first slot |
| `Shuffle.TransposedPermutes` | src/app/api/generate-questions/route.ts:189-191 | exchanging slot 0 with another slot keeps the multiset of alternatives |
| `Shuffle.Shuffled` | src/app/api/generate-questions/route.ts:185-192 | four alternatives stay four; the multiset is kept; the correct alternative ends in the drawn slot; the list is unchanged for `a` and otherwise is the transposition of slot 0 with slot 1, 2 or 3 |
| `Shuffle.RecordedAnswerMisplaced` | src/app/api/generate-questions/route.ts:188-204 | with four different alternatives, slot 0 still holds the correct one exactly when no swap happened, so the recorded `a` is wrong after a swap |
| `Shuffle.ShuffleAlternatives` | src/app/api/generate-questions/route.ts:188-192 | the in-place swap leaves the array equal to the shuffled list and returns the drawn letter |
| `Generator.QuestionIdNumber` | src/app/api/generate-questions/route.ts:195 | an id is `Q` followed by digits that read back as the number; it is four characters long exactly when the number is below 1000 |
| `Generator.QuestionIdInjective` | src/app/api/generate-questions/route.ts:195 | different numbers give different ids |
| `Generator.CeilDiv` | src/app/api/generate-questions/route.ts:162 | `ceil(q / n)` is the least r with `q <= n·r` |
| `Generator.SkillRun` | src/app/api/generate-questions/route.ts:164-165 | a skill's run has the requested length, and every slot uses that skill and one of its templates |
| `Generator.CountWithTemplates` | src/app/api/generate-questions/route.ts:153-160 | the number of skill entries with templates is at most the number of entries, and it is zero exactly when no entry has templates |
| `Generator.AllSlots` | src/app/api/generate-questions/route.ts:153-165 | without the quantity bound there are `per · k` slots, each with a requested skill that has templates and one of that skill's templates |
| `Generator.MakeQuestion` | src/app/api/generate-questions/route.ts:194-207 | a built question carries its sequence id, its skill, the requested difficulty and the answer `a` |
| `Generator.BuildQuestion` | src/app/api/generate-questions/route.ts:168-207 | one iteration (values, rendering, in-place shuffle, record) builds the question `MakeQuestion` describes |
| `Generator.FillSkill` | src/app/api/generate-questions/route.ts:164-210 | the inner loop appends this skill's round-robin run, cut at the quantity, numbered by the running counter |
| `Generator.FillEntry` | src/app/api/generate-questions/route.ts:153-211 | one pass of the outer loop adds the entry's run, or nothing for a skill without templates at the difficulty |
| `Generator.GenerateQuestionsFromTemplates` | src/app/api/generate-questions/route.ts:147-214 | the loops return exactly `Generated`: a throw for a subject missing from the catalogue with a non-empty skill list, and otherwise the questions on the first `quantidade` slots |
| `Generator.QuestionsFacts` | src/app/api/generate-questions/route.ts:194-209 | the question at position n has id `QuestionId(n + 1)`, its slot's skill, the answer `a` and the requested difficulty |
| `Generator.SlotsFor` | src/app/api/generate-questions/route.ts:153-213 | for a known subject, every slot filled has a requested skill and a four-alternative template, and there are `min(quantidade, per · k)` of them (none for a quantity of 0 or less) |
| `Generator.GeneratedCount` | src/app/api/generate-questions/route.ts:147-214 | a known subject gives `min(quantidade, ceil(quantidade / |habilidades|) · k)` questions, where k counts the entries, duplicates included, that have templates |
| `Generator.GeneratedQuestions` | src/app/api/generate-questions/route.ts:194-209 | every generated question is numbered by its position, belongs to a requested skill, has the requested difficulty and records `a` |
| `Generator.GeneratedDistinctIds` | src/app/api/generate-questions/route.ts:195-209 | no two generated questions share an id |
| `Generator.GeneratedEmpty` | src/app/api/generate-questions/route.ts:153-164 | with a positive quantity, nothing is generated exactly when no requested skill has templates at the difficulty |
| `Generator.AnswerKeyEntries` | src/app/api/generate-questions/route.ts:308-311 | the answer key's keys are exactly the question ids, and each maps to the answer of a question with that id |
| `Generator.AnswerKeySize` | src/app/api/generate-questions/route.ts:308-311 | with distinct ids the key has one entry per question |
| `Route.Post` | src/app/api/generate-questions/route.ts:265-327 | the handler answers what `Respond` describes: 400 for missing fields, then 400 for the quantity, then 500, 422 or 200 |
| `Route.RouteCatalogueOk` | src/app/api/generate-questions/route.ts:27-144 | the route's own catalogue meets the assembler's well-formedness precondition |
| `Route.FieldsCheckedFirst` | src/app/api/generate-questions/route.ts:270-275 | the missing-fields 400 comes exactly when the subject is empty or the skill list is missing or empty, whatever the quantity |
| `Route.QuantityChecked` | src/app/api/generate-questions/route.ts:277-282 | with the fields present, the quantity 400 comes exactly when the quantity is outside 1..50 |
| `Route.UnknownSubject` | src/app/api/generate-questions/route.ts:149-154 | a valid body is answered 500 exactly when its subject is not in the catalogue |
| `Route.NoTemplates` | src/app/api/generate-questions/route.ts:290-295 | a valid body for a known subject is answered 422 exactly when no requested skill has templates at the difficulty |
| `Route.SuccessAnswer` | src/app/api/generate-questions/route.ts:297-315 | a 200 answer carries 1 to `quantidade` questions and a key with one `a` entry per question id, and its message states the count |
| `Correcao.Marks` | src/app/correcao/page.tsx:111-115 | the detected marks have exactly the numbers 1..N as keys, each with an option from `a`..`d` |
| `Correcao.FillMarks` | src/app/correcao/page.tsx:111-115 | the fill loop builds exactly those marks |
| `Correcao.SortedKeys` | src/app/correcao/page.tsx:121 | the key's question numbers, each once, in strictly ascending order |
| `Correcao.GradeSpec` | src/app/correcao/page.tsx:118-135 | one record per key question, in ascending order; each carries the detected answer (none when there is no mark) and the key's answer, and is correct exactly when they are equal |
| `Correcao.GradeSheet` | src/app/correcao/page.tsx:118-135 | the `forEach` produces exactly those records, and `acertos` is the number of correct records |
| `Correcao.HitsAll` | src/app/correcao/page.tsx:125-127 | the hit count equals the number of records exactly when every record is correct |
| `Correcao.HitsNone` | src/app/correcao/page.tsx:125-127 | the hit count is zero exactly when no record is correct |
| `Correcao.PercentRounds` | src/app/correcao/page.tsx:137-138 | for a non-empty key the percentage is `100·acertos/total` rounded half up; it lies in 0..100, is 0 with no hit and 100 with all hits |
| `Correcao.PercentOfTen` | src/app/correcao/page.tsx:137-138 | for a ten-question key the percentage is exactly ten per hit |
| `Correcao.PercentFull` | src/app/correcao/page.tsx:137-138 | with fewer than 200 questions, the percentage is 100 exactly for a full score |
| `Correcao.Correction` | src/app/correcao/page.tsx:140-149 | the new record copies the student's name, class and exam; its grade is the hit count and its percentage the rounded ratio |
| `Correcao.ProcessarCartaoResposta` | src/app/correcao/page.tsx:101-164 | one correction appends its record to the history and clears the name, the class and the image |
| `Correcao.UnreadQuestionWrong` | src/app/correcao/page.tsx:111-125 | a key question outside 1..N has no mark, so it always counts as wrong |
| `Correcao.EveryQuestionRead` | src/app/correcao/page.tsx:111-125 | when the key is exactly 1..N, every question has a mark |
| `Correcao.CorrectionScore` | src/app/correcao/page.tsx:118-138 | the appended record scores at most the key's size; its percentage is missing exactly for an empty key and otherwise lies in 0..100 |
| `Correcao.ConfigurarGabarito` | src/app/correcao/page.tsx:179-186 | the example key has exactly the questions 1..10, each answered with an option from `a`..`d` |
| `Correcao.BadgeVariant` | src/app/correcao/page.tsx:544-546 | `default` exactly from 70, `secondary` exactly from 50 to below 70, and `destructive` otherwise, `NaN` included |
| `Correcao.BadgeMonotone` | src/app/correcao/page.tsx:544-546 | a higher percentage never gets a weaker badge |
| `Correcao.BadgeOfScore` | src/app/correcao/page.tsx:137-138 | on a non-empty key, all answers right earns `default` and no answer right earns `destructive` |
| `Selection.Without` | src/app/provas/page.tsx:140 | the filter keeps exactly the codes different from the toggled one |
| `Selection.WithoutConcat` | src/app/provas/page.tsx:140 | filtering works piecewise, so the kept codes stay in their order |
| `Selection.WithoutMultiset` | src/app/provas/page.tsx:140 | filtering drops every copy of the code and keeps the multiplicity of every other code |
| `Selection.Toggle` | src/app/provas/page.tsx:136-143 | the code is selected afterwards exactly when it was not before; other codes keep their membership; an absent code is appended at the end; a present code loses all its copies |
| `Selection.TogglePresent` | src/app/provas/page.tsx:139-140 | toggling a selected code filters each part of the selection on its own, keeping the order of the rest |
| `Selection.ToggleTwiceAbsent` | src/app/provas/page.tsx:136-143 | toggling an unselected code twice restores the selection |
| `Selection.ToggleTwicePresent` | src/app/provas/page.tsx:136-143 | toggling a selected code twice leaves one copy of it, moved to the end |
| `Provas.FlattenConcat` | src/app/provas/page.tsx:76-80 | the skills of earlier categories come first |
| `Provas.FlattenMember` | src/app/provas/page.tsx:76-80 | a skill is offered exactly when some array-valued category holds it |
| `Provas.GetHabilidadesPorDisciplina` | src/app/provas/page.tsx:68-87 | the loop concatenates the array-valued categories in order, and gives `[]` for an empty or unknown subject |
| `Provas.ToggleHabilidade` | src/app/provas/page.tsx:136-143 | only the selection changes, and it changes by `Toggle` |
| `Provas.SelecionarDisciplina` | src/app/provas/page.tsx:226-231 | choosing a subject sets it and empties the selection; the rest of the state is kept |
| `Provas.RequestBody` | src/app/provas/page.tsx:89-110 | a request is sent exactly when a subject and at least one skill are set, and the route then always finds its required fields |
| `Provas.NoRequestAfterSubjectChange` | src/app/provas/page.tsx:226-231 | right after a subject change, nothing is sent until a skill is chosen |
| `Provas.GerarProva` | src/app/provas/page.tsx:89-126 | without the guard nothing changes; with it, a 2xx answer carrying `success` becomes the generated exam and opens the preview, and any other answer changes nothing; the configuration and the saved list stay the same |
| `Provas.GeneratedExamShape` | src/app/provas/page.tsx:112-116 | against the route itself, a 200 answer is kept as the generated exam, and an exam the page keeps has 1 to `quantidade` questions and one `a` per question id |
| `Provas.SalvarProva` | src/app/provas/page.tsx:128-134 | the generated exam, if any, is appended to the saved list; without one nothing changes |
| `Provas.QuantidadeInput` | src/app/provas/page.tsx:296 | the field is `parseInt(text)`, or 10 when that is `NaN` or 0; it is never 0 |
| `Provas.QuantidadeOfNumber` | src/app/provas/page.tsx:296 | the decimal text of a positive number gives that number; `0` and empty text give 10 |
| `Provas.ExportBlocksPrefix` | src/app/provas/page.tsx:152-158 | the block of question i comes right after the blocks of the questions before it |
| `Provas.ExportarParaPDF` | src/app/provas/page.tsx:145-158 | without a generated exam there is no text; otherwise the text is the header followed by one block per question: `i+1. statement`, a blank line, then `a)` to `d)` |
| `Planejamento.AnoDadosFor` | src/app/planejamento/page.tsx:53-66 | `lingua_portuguesa` reads the Portuguese component's year, and every other subject reads the mathematics year |
| `Planejamento.ConcatAppend` | src/app/planejamento/page.tsx:61-63 | the skills of earlier units come first |
| `Planejamento.ConcatMember` | src/app/planejamento/page.tsx:61-63 | a skill is offered exactly when some unit's list holds it; a unit without a list adds nothing |
| `Planejamento.GetHabilidadesPorDisciplinaAno` | src/app/planejamento/page.tsx:49-79 | the loop concatenates the units' lists in order, and gives `[]` when the subject or the year is missing |
| `Planejamento.OtherSubjectsReadMathematics` | src/app/planejamento/page.tsx:53-72 | any subject other than `lingua_portuguesa` is offered the mathematics skills |
| `Planejamento.ToggleHabilidade` | src/app/planejamento/page.tsx:112-118 | only the selection changes, and it changes by `Toggle` |
| `Planejamento.SelecionarDisciplina` | src/app/planejamento/page.tsx:168-171 | choosing a subject sets it in the draft and empties the selection |
| `Planejamento.SelecionarAno` | src/app/planejamento/page.tsx:190-193 | choosing a year sets it in the draft and empties the selection |
| `Planejamento.NovoPlano` | src/app/planejamento/page.tsx:87-100 | the plan copies each draft field, with `''` for an unfilled one, and takes the current selection as its skills |
| `Planejamento.SalvarPlano` | src/app/planejamento/page.tsx:81-110 | without a title, a subject and a year nothing changes; otherwise the plan is appended and the draft and the selection are emptied |
| `Planejamento.SavedPlansComplete` | src/app/planejamento/page.tsx:81-102 | saving keeps earlier plans in place, adds at most one, and every saved plan has a title, a subject and a year |
| `Planejamento.SaveThenBlocked` | src/app/planejamento/page.tsx:104-106 | after a save the emptied form cannot be saved again |

## Left out

- HTTP plumbing: request parsing and JSON responses. The body is modelled as already parsed:
  - a missing subject is `""`;
  - missing skills are `None`;
  - a missing or `NaN` quantity is `0`.
- Non-integer JSON quantities such as `2.5`: the quantity is an `int`.
- The development-only error details in the 500 answer.
- The simulated delays before generation and before grading.
- `Date.now` and the clock: the exam id, the generation date, the correction id and date, the
  plan id and date, and the date printed in the export, which is a parameter.
- `Math.random`: every draw is an explicit, range-checked input.
- The SAEB and BNCC catalogue files are not part of this model. Both catalogues are parameters.
- The camera, canvas, file reader and image capture of the correction page: the captured image
  is an opaque `Option<string>`.
- The Blob/anchor download of the export: the model stops at the text.
- The network call of the exam page: the server's answer is a parameter of `Provas.GerarProva`.
  `Provas.GeneratedExamShape` relates it to `Route.Respond`.
- Exceptions other than the unknown-subject throw of the assembler, such as a `try`/`catch`
  around a catalogue entry whose year has no `anos` object.
- JavaScript prototype keys such as `"toString"` used as a skill code, a subject or a year.
- Catalogue values that are neither arrays nor objects as expected, such as a unit list that
  is a string.
- Alerts and view switches other than the saved-list and preview views.
- Rendering (JSX), the reports page, the charts, the home page, the navigation and the layout.
- `Text.Upper`: only ASCII letters are upper-cased, because the subject values are ASCII.
- `Correcao.Percent`: `Math.round((acertos / total) * 100)` is modelled as integer round-half-up
  of the exact ratio. This is exact for the ten-question key `configurarGabarito` builds
  (`Correcao.PercentOfTen`). For other key sizes the floating-point product can land just below
  a half: 23 of 40 gives 57 in JavaScript and 58 here.
- `Provas.QuantidadeInput`: the whitespace `parseInt` skips is limited to the common ASCII
  spaces, no-break space and BOM (not the other Unicode space separators or U+2028/U+2029), and
  a `0x` prefix reads as 0 rather than as a hexadecimal number. A `type="number"` field produces
  neither.
- `Planejamento.Rascunho`: a draft field that was never filled in is `""`. It behaves exactly
  like `undefined` under both `!field` and `field || ''`.
