# BB84 simulation engine of KeyGenie, in Dafny

KeyGenie is a browser page that teaches the BB84 quantum key distribution
protocol. This project models the engine behind its simulator page and the
scoring of its quiz, all of it found in `src/App.tsx`:

- the fixed encoding tables: the symbol of a basis, the ket label and the
  polarization glyph of a (bit, basis) pair (`encoding.dfy`, module `Encoding`);
- bit generation: Alice's random bit and basis, Bob's random basis and Bob's
  measurement, with its 5% flip in matching bases, and the record built for
  each bit (`channel.dfy`, module `Channel`);
- sifting and analysis: matched records, errors, the QBER, the final key and
  the "QBER below 11%" security verdict (`sifting.dfy`, module `Sifting`);
- the simulation session: the records, the step cursor, the results flag and
  the quick-run flag, with the step, reset and run operations
  (`session.dfy`, module `Session`, class `Simulation`);
- the quiz sheet: recording an answer, scoring and resetting
  (`quiz.dfy`, module `QuizScoring`, class `Quiz`).

`wrappers.dfy` holds the `Option` type that stands for the source's `null`.

Modelling choices:

- Every `Math.random()` call is an explicit `Draw`, a real number in [0, 1).
  One loop iteration of `runSimulation` makes four calls in a fixed order
  (Alice's bit, Alice's basis, Bob's basis, the call inside `measureBit`). They
  are grouped into one `Roll`, and a run takes one `Roll` per key bit. The
  thresholds 0.5 and 0.95 are kept as they are.
- A basis is the two-valued datatype `Basis`, not a string. The source only
  ever produces the strings 'rectilinear' and 'diagonal', and every lookup
  tests for 'rectilinear' and treats anything else as diagonal.
- QBER is a Dafny `real`, which is an exact rational, not a float. The verdict
  is proved to equal the integer test "no record matched, or
  100·errors < 11·matched".
- The final key is a string of '0' and '1' characters, like the `join('')`
  result.
- Reading an array past its end gives `undefined` in the source, and the page
  treats that like `null`. `CurrentTransmission` therefore returns `None`
  there instead of requiring an in-range step. `Simulation.Valid()` keeps the
  cursor in range anyway.
- `handleQuizAnswer` is only ever called with a question index from 0 to 9,
  because the page calls it while listing the ten questions. The model
  requires that range.
- All operations are atomic. The session invariant `Simulation.Valid()` says
  three things: the cursor is within `0..|transmissions|`; the results panel
  is open only when every record is revealed; and every record satisfies the
  field relations of `Channel.WellFormed`.

## Model

| member | source | states |
|---|---|---|
| `Encoding.BasisSymbol` | src/App.tsx:159 | the symbol of a basis decodes back to that basis: '+' is rectilinear, '×' is diagonal |
| `Encoding.BasisVectors` | src/App.tsx:160-161 | two labels per basis, indexed by bit, that decode back to (bit, basis): the kets 0 and 1 for rectilinear, the kets + and − for diagonal |
| `Encoding.Polarization` | src/App.tsx:163-166 | a one-glyph string that decodes back to (bit, basis): `↑`,`→` rectilinear, `↗`,`↖` diagonal |
| `Encoding.EncodingInjective` | src/App.tsx:159-166 | different states get different glyphs and different labels, and different bases get different symbols |
| `Encoding.LabelAgreesWithGlyph` | src/App.tsx:160-166 | the ket label and the glyph shown for a bit name the same state |
| `Channel.RandomBit` | src/App.tsx:156 | the random bit is 0 exactly when the draw is below 0.5 |
| `Channel.RandomBasis` | src/App.tsx:157 | the random basis is rectilinear exactly when the draw is below 0.5 |
| `Channel.MeasureBit` | src/App.tsx:168-173 | in matching bases the result is Alice's bit exactly when the draw is below 0.95, and its complement otherwise; in mismatched bases it is the fresh random bit |
| `Channel.MismatchIndependentOfAliceBit` | src/App.tsx:168-173 | with mismatched bases, Alice's bit 0 and Alice's bit 1 give the same measurement |
| `Channel.Transmit` | src/App.tsx:179-198 | one loop iteration's record: bit and bases come from the draws; `basisMatch`, `kept`, `error` and the polarization obey the record relations; an error happens exactly when the bases match and the flip draw is at least 0.95 |
| `Channel.Transmissions` | src/App.tsx:178-199 | one record per roll, each satisfying the record relations |
| `Sifting.Matched` | src/App.tsx:248 | the count of basis-matched records is at most the number of records |
| `Sifting.Errors` | src/App.tsx:249 | the errors counted among matched records are at most the number of matched records |
| `Sifting.KeptCount` | src/App.tsx:193 | the count of records flagged `kept` is at most the number of records |
| `Sifting.Qber` | src/App.tsx:247-251 | QBER is in [0, 100]; it is 0 exactly when nothing matched or nothing erred; otherwise QBER·matched = 100·errors |
| `Sifting.IsSecure` | src/App.tsx:978-988 | "Secure" exactly when QBER < 11, that is when nothing matched or 100·errors < 11·matched; QBER exactly 11 is not secure |
| `Sifting.FinalKey` | src/App.tsx:253-258 | the key has matched − errors characters, each '0' or '1' |
| `Sifting.FinalKeyAppend` | src/App.tsx:253-258 | the key of a concatenation is the concatenation of the keys: records keep their order |
| `Sifting.SharedKey` | src/App.tsx:168-198 | on generated records, Bob's measurements over the key's records spell the same key as Alice's bits |
| `Sifting.KeptIsMatched` | src/App.tsx:253-258 | on generated records the `kept` count (line 193) equals the matched count; the key is no longer than it, and is exactly as long when there are no errors |
| `Sifting.ErrorsAreFlips` | src/App.tsx:168-198 | the errors of a run are exactly its rolls with matching bases and a flip draw of at least 0.95 |
| `Sifting.NoFlipsNoErrors` | src/App.tsx:168-251 | a run with no flip draw has QBER 0, is secure, and keeps every matched bit in the key |
| `Session.CurrentTransmission` | src/App.tsx:242-245 | no record at step 0, on an empty list, or past the end; otherwise the record at index step − 1 |
| `Session.Simulation.constructor` | src/App.tsx:108-114 | key length 8, no records, step 0, results closed, not running |
| `Session.Simulation.SetKeyLength` | src/App.tsx:675-685 | only the key length changes |
| `Session.Simulation.RunSimulation` | src/App.tsx:175-201 | the records are exactly one `Transmit` per roll, in loop order; step 0; results closed; key length and running flag unchanged |
| `Session.Simulation.NextStep` | src/App.tsx:203-213 | below the end the step goes up by exactly 1; at the end the step stays and the results open; the invariant is kept |
| `Session.Simulation.PrevStep` | src/App.tsx:215-220 | above 0 the step goes down by 1 and the results close; at 0 nothing changes |
| `Session.Simulation.ResetSimulation` | src/App.tsx:222-227 | no records, step 0, results closed, not running, no current record |
| `Session.Simulation.RunAutoSimulation` | src/App.tsx:229-240 | ends with the generated records, step = key length, results open, not running, and the last record on show |
| `QuizScoring.BlankAnswers` | src/App.tsx:98 | ten slots, each -1 |
| `QuizScoring.Score` | src/App.tsx:123-129 | the left-to-right count of answers equal to their question's correct index, at most the number of answers |
| `QuizScoring.FullScoreIff` | src/App.tsx:123-129 | the score equals the number of answers exactly when every answer is correct |
| `QuizScoring.ZeroScoreIff` | src/App.tsx:123-129 | the score is 0 exactly when no answer is correct |
| `QuizScoring.BlankScoresZero` | src/App.tsx:131-135 | a reset sheet scores 0 |
| `QuizScoring.AnswerChangesOnePoint` | src/App.tsx:117-121 | overwriting one answer changes the score only by that question's point |
| `QuizScoring.Quiz.constructor` | src/App.tsx:98-100 | a blank sheet, not submitted, score 0 |
| `QuizScoring.Quiz.HandleQuizAnswer` | src/App.tsx:117-121 | only slot `questionIndex` changes, to the chosen option |
| `QuizScoring.Quiz.SubmitQuiz` | src/App.tsx:123-129 | score = `Score(answers)`, submitted, and score 10 exactly when the sheet equals the correct answers |
| `QuizScoring.Quiz.ResetQuiz` | src/App.tsx:131-135 | blank sheet, not submitted, score 0 |

## Left out

- Rendering, styling, page routing and the theory-page demo timers (`setInterval` effects): these are presentation only.
- The `setTimeout` delays in `nextStep` and `runAutoSimulation`, and the `animatingBit` flag they drive: only the logical state change and the final state are modelled.
- Interleavings during those delays are not modelled. Two quick clicks on "next" can both pass the `currentStep < transmissions.length` guard before either timeout fires. "Reset" can also be clicked while a quick run is still stepping. Each operation here runs atomically.
- `Math.random` itself: each draw is a parameter, and its distribution is not modelled.
- The floating-point evaluation of `getQBER` and of the `< 11` comparison: the model uses exact rationals, and it leaves out the `toFixed(1)` display text.
- `simulationMode` and `currentPage`: these only choose what the page shows.
- The question text, options and explanations of the quiz: only each question's correct index is kept, in `QuizScoring.CorrectAnswers`.
