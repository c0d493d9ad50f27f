# Categorical syllogism generator

A Dafny model of `gen_syllogism` in `reasoning.py`. The function enumerates categorical syllogisms
over three terms: M (middle), S (subject, the minor term) and P (predicate, the major term).
Each item it yields is an id `f{figure}-{t1}{t2}{t}` together with three sentences: premise 1,
premise 2 and the conclusion.

- **Figures.** The figure table fixes which terms fill premise 1 and premise 2:
  figure 1 is (M,P),(S,M); figure 2 is (P,M),(S,M); figure 3 is (M,P),(M,S); figure 4 is (P,M),(M,S).
  The conclusion is always (S,P).
- **Sentence types.** There are four templates: `a` "All X are Y", `e` "No X are Y",
  `i` "Some X are Y" and `o` "Some X are ⟨neg⟩ Y".
- **Selection.** A figure or sentence type is used when its key character occurs in the
  `figures` or `types` argument. Keys are taken in sorted order.
- **Enumeration.** The loops nest in this order: figure, then conclusion type, then premise-1
  type, then premise-2 type.

Layout:

- `wrappers.dfy` (`Wrappers`): the `Option` and `Result` types.
- `seqs.dfy` (`Seqs`): `FlatMap` and `Keep`. `FlatMap` is a `for` loop that yields a block per
  element. `Keep` is a tuple comprehension with an `if` filter. The module also proves length,
  membership and order facts about both.
- `format.dfy` (`StrFormat`): the part of Python's `str.format` that the generator uses. It covers
  literal text, doubled braces, `{}` fields filled from positional arguments, and `{name}` fields
  filled from keyword arguments.
- `syllogism.dfy` (`Syllogisms`): the tables, selection, ids, the four nested loops and
  `Generate`. `Generate` is the whole output of the generator as a sequence.
- `properties.dfy` (`SyllogismProperties`): what callers can rely on. This covers count,
  membership, order, unique ids, how the arguments act, the negation word, and a worked example.

The source fills each template in two rounds of `str.format`. The first round puts the role
placeholders `{M}`, `{S}`, `{P}` into the template. The second round puts in the terms. The model
substitutes the terms directly. `Syllogisms.FormatStatementIsStatement` proves that the two rounds
give the same text for the `a`, `e` and `i` templates with any negation word, and for the `o`
template whenever the negation word contains no brace. `Generate` therefore requires a brace-free
negation word or a `types` string without `o`. `Generate` keeps the source's default arguments:
`neg` is "not", `types` is "aeio" and `figures` is "1234".

## Model

| member | source | states |
|---|---|---|
| Seqs.FlatMapMembers | reasoning.py:32-44 | a nested loop yields an item exactly when the body of some iteration yields it |
| Seqs.FlatMapLength | reasoning.py:32-40 | a loop over n keys whose body yields m items each time yields n·m items |
| Seqs.FlatMapSorted | reasoning.py:32-40 | the yielded items are in order when each body's items are in order and all items of an earlier iteration precede those of a later one |
| Seqs.KeepMembers | reasoning.py:27-28 | the filtered table holds exactly the entries the filter accepts |
| Seqs.KeepSorted | reasoning.py:27-28 | filtering the sorted table keeps it sorted |
| Seqs.KeepAgrees | reasoning.py:27-28 | two filters that agree on every table entry select the same entries |
| Seqs.KeepAll | reasoning.py:27-28 | a filter that accepts every entry keeps the whole table |
| Seqs.DistinctKeys | reasoning.py:27-28 | entries with strictly increasing keys have as many distinct keys as entries |
| StrFormat.NextBrace | reasoning.py:41-44 | finds the first brace after a position, with brace-free text before it, or reports that none follows |
| StrFormat.FillLiteral | reasoning.py:41-44 | `str.format` copies brace-free text unchanged, before whatever the rest produces |
| StrFormat.FormatTwoFields | reasoning.py:41-43 | a template with two `{}` fields formatted with two positional arguments gives the template text with those arguments in order |
| StrFormat.FormatTwoKeys | reasoning.py:44 | a string with two named fields formatted with keyword arguments gives the bound values, inserted verbatim, in order |
| Syllogisms.FigureOfCode | reasoning.py:20 | maps a figure key back to its figure, is the inverse of the figure's key, and gives nothing for any other character |
| Syllogisms.TypeOfCode | reasoning.py:21-25 | maps a type key back to its sentence type, is the inverse of the type's key, and gives nothing for any other character |
| Syllogisms.TablesSorted | reasoning.py:20-28 | both tables list their keys in ascending order, which is the order that `sorted(...items())` gives |
| Syllogisms.SelectFigures | reasoning.py:27 | a figure is selected exactly when its key occurs in `figures`, and the selection is in key order |
| Syllogisms.SelectTypes | reasoning.py:28 | a sentence type is selected exactly when its key occurs in `types`, and the selection is in key order |
| Syllogisms.SelectFiguresCount | reasoning.py:27 | the number of selected figures is the number of distinct characters of "1234" that occur in `figures` |
| Syllogisms.SelectTypesCount | reasoning.py:28 | the number of selected types is the number of distinct characters of "aeio" that occur in `types` |
| Syllogisms.ParseId | reasoning.py:44 | reads an id back into its figure and three types; it succeeds exactly on ids of the form `f{figure}-{t1}{t2}{t}` |
| Syllogisms.IdInjective | reasoning.py:44 | different combinations get different ids |
| Syllogisms.Premise2LoopSpec | reasoning.py:40-44 | the innermost loop yields one combination per selected type, in order, with premise-2 type varying |
| Syllogisms.Premise1LoopSpec | reasoning.py:39-44 | the premise-1 loop yields every pair of selected premise types once, in order |
| Syllogisms.ConclusionLoopSpec | reasoning.py:38-44 | the conclusion loop yields every triple of selected types once, in order |
| Syllogisms.FormsSpec | reasoning.py:32-44 | the nested loops yield exactly the selected combinations, (selected figures) × (selected types)³ of them, in lexicographic order |
| Syllogisms.Generate | reasoning.py:14-44 | the generator's output as a sequence, with the source's default arguments; it requires a brace-free `neg` unless `o` is not selected, and the `SyllogismProperties` lemmas below state what it yields |
| Syllogisms.Render | reasoning.py:30-44 | one yielded item: the id `f{figure}-{t1}{t2}{t}` and the three sentences of a combination, with the figure table's roles for the premises and (S,P) for the conclusion; `GenerateFormatsAsSource` ties its sentences to the source's formatting |
| Syllogisms.Statement | reasoning.py:21-25 | one sentence as the template text with the two terms put in; `StatementIgnoresNeg` and `FormatStatementIsStatement` state what it is |
| Syllogisms.FormatStatementIsStatement | reasoning.py:21-44 | formatting a type's template with the role placeholders and then with the term bindings gives the template text with the two terms in order; this holds for `a`, `e` and `i` with any negation word, and for `o` with a brace-free one |
| SyllogismProperties.GenerateCount | reasoning.py:14-44 | the generator yields (distinct keys of "1234" in `figures`) × (distinct keys of "aeio" in `types`)³ items |
| SyllogismProperties.GenerateFormatsAsSource | reasoning.py:30-44 | every item's three sentences are exactly what the source's two rounds of `str.format` give for the combination its id names |
| SyllogismProperties.GenerateElements | reasoning.py:32-44 | every item's id names a selected figure and selected types, and the item's three sentences are those of that combination |
| SyllogismProperties.GenerateContains | reasoning.py:27-44 | the rendering of a combination is yielded if and only if its figure and all three types are selected |
| SyllogismProperties.GenerateOrdered | reasoning.py:27-40 | items are ordered by figure, then conclusion type, then premise-1 type, then premise-2 type, each by key |
| SyllogismProperties.GenerateDistinctIds | reasoning.py:44 | no two items share an id |
| SyllogismProperties.GenerateDependsOnlyOnKeys | reasoning.py:27-28 | two selection strings with the same table keys give the same output, whatever other characters they hold and in whatever order |
| SyllogismProperties.GenerateIgnoresRepeats | reasoning.py:27-28 | repeating a key in the selection strings repeats no item |
| SyllogismProperties.GenerateEmpty | reasoning.py:27-32 | the output is empty exactly when no figure key or no type key is selected |
| SyllogismProperties.DefaultCount | reasoning.py:14-40 | the default `types` and `figures` yield 4 · 4³ = 256 items |
| SyllogismProperties.NegationOnlyInO | reasoning.py:24-44 | changing the negation word changes no id and no sentence of type `a`, `e` or `i` |
| SyllogismProperties.StatementIgnoresNeg | reasoning.py:21-25 | only the `o` template contains the negation word, as "Some X are ⟨neg⟩ Y" |
| SyllogismProperties.FigureArrangement | reasoning.py:20 | premise 1 relates M and P, premise 2 relates S and M, and the four figures are the four placements of the middle term |
| SyllogismProperties.PatternsAsWritten | reasoning.py:21-25 | the four templates are the format strings "All {} are {}", "No {} are {}", "Some {} are {}" and "Some {} are ⟨neg⟩ {}" |
| SyllogismProperties.BracedNegationFails | reasoning.py:24 | the negation word "{S}" makes the first formatting round fail for lack of an `S` keyword argument, so a brace-free negation word is a real condition |
| SyllogismProperties.WorkedExample | reasoning.py:20-44 | with M = men, S = Greeks, P = mortal the first item is `f1-aaa` ("All men are mortal", "All Greeks are men", "All Greeks are mortal"), and `f1-aao` concludes "Some Greeks are not mortal" |

## Left out

- gpt2generation.py and multimodal.py are not part of this model. They consist of model loading, tokenization, image fetching and printing through foreign libraries.
- Labels: `reasoning.py` attaches no entailment, contradiction or neutral label to a syllogism and has no existential-import option, so the model has none.
- Laziness: the generator is modelled as the full sequence of what it yields. A consumer that stops early sees a prefix of it.
- The arguments are modelled as strings only. The source also accepts a list or set for `figures` and `types`, and non-string terms or negation words, which `str.format` would convert with `str`.
- The item `(id, (premise1, premise2, conclusion))` is modelled as one record `Syllogism(id, premise1, premise2, conclusion)`.
- Syllogisms.Generate: requires a brace-free negation word whenever `o` is among the selected types. With braces, the source's first round of `str.format` reads the negation word as template syntax, and the result depends on the braces. A field such as `{S}` makes that first round fail, because its only arguments are the placeholders (see `BracedNegationFails`). A doubled brace such as `{{S}}` survives the first round as the field `{S}`, which the second round fills with a term. Other words, such as `{{x}}` or `}}`, make the second round fail, and some, such as `{{{{}}}}`, leave literal braces in the sentence. None of these outputs is modelled, and neither is the point at which a consumer of the generator would see the exception.
- StrFormat.Fill: models only literal text, doubled braces, `{}` and `{name}` fields. Numbered fields, attribute and index access, conversions, format specs and nested braces are not modelled, and error kinds are approximate. None of these can occur while the negation word has no braces.
