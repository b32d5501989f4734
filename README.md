# Treinador Inteligente — a verified model of the offline workout engine

Treinador Inteligente is a browser application that builds gym workout
plans offline. This project models its core in Dafny and proves properties
of the model:

- **Catalog** (`Catalog`, `CatalogNames`). The exercise catalog, seven muscle groups in a fixed order. `CatalogNames` holds facts about the normalized names of the first chest entries, which settle what a request for "peck deck" finds.
- **Text helpers** (`Text`, `Titles`, `Phrases`):
  - the engine's `normalize`, which lower-cases, strips accents and turns every other character into a space;
  - JavaScript's `includes`, `split`, `trim` and `match(/\d+/)`;
  - the command regular expression of the adjuster.
- **Shuffle** (`Shuffle`). The in-place Fisher–Yates shuffle on an array.
- **Selector** (`Selector`). The filter by level, the fallback pool and the draw of `count` exercises.
- **Generator** (`Generator`). It has three parts:
  - the day templates: full body, the A/B/C split, and the four-group rotation;
  - the priority pass, which adds one extra exercise of a prioritised group to the days that train that group;
  - the assembly of the plan record.
- **Adjuster** (`Adjuster`, `Search`). It has two rules:
  - substitution: "troque/mude/substitua X por Y";
  - intensity: heavier or lighter wording rewrites sets, reps and the tip.
- **Explainer** (`Explainer`). The first catalog entry whose name matches the query.
- **Application shell** (`AppState`). The workout log and the plan history that the shell's handlers update.
- **Plan view** (`Display`):
  - the log record written when a day is finished;
  - the set of days finished this week;
  - the adjustment panel's guard.

**Modelling choices:**
- `Math.random()` is an injected stream, a `RandomSource` holding a draw function and a cursor. Every random choice is `Math.floor(Math.random() * n)`.
- `crypto.randomUUID()`, the current date, and the comparison of a log's date with the start of the week are parameters.
- Code that changes state step by step is written as methods with loops. Each method is proved equal to a specification function. Examples:
  - the shuffle on an array;
  - the template and boost loops;
  - the in-place intensity rewrite;
  - the nested catalog search with early return;
  - the `finishedDays` set.
- The shell and the adjustment panel are classes whose methods reassign their fields.

**Behaviour of the code that is easy to miss:**
- An entry whose `level` list is empty suits no level. Only a missing list suits every level.
- A slot yields `min(count, pool size)` exercises. For a beginner, the 3-day plan therefore has 6, 5 and 4 exercises per day: 2+2+2, 2+2+1 and 4.
- The stretching list has one step.
- The command regular expression `/troque|mude|substitua|o|a/g` deletes every letter `o` and `a`. "troque supino por leg press" therefore looks for "supin", and the replacement phrase is only trimmed.
- `durationMinutes` in a log is the first number of `weeklyDivision`. For a plan the engine generated, that number is the day count.
- Every adjustment gives the plan a fresh id, and `handleUpdatePlan` replaces only the history entries holding that id. So an adjusted plan never replaces an entry in the history, and the history keeps the snapshot it had.

## Model

| member | source | states |
|---|---|---|
| Text.NormChar | core/workoutEngine.ts:26-30 | each character maps into a-z, 0-9 or space; letters, digits and spaces are kept; A-Z is lowered |
| Text.Normalize | core/workoutEngine.ts:26-30 | no contract of its own; what normalize promises is stated by the lemmas of the next five rows |
| Text.NormalizeIsNormal | core/workoutEngine.ts:26-30 | normalize yields only a-z, 0-9 and spaces; on the characters modelled (one output character or none per input character) it never lengthens its input |
| Text.NormalizeFixesNormal | core/workoutEngine.ts:26-30 | normalized text is a fixed point of normalize |
| Text.NormalizeIdempotent | core/workoutEngine.ts:26-30 | normalizing twice is normalizing once |
| Text.NormalizeConcat | core/workoutEngine.ts:26-30 | normalize works character by character: it distributes over concatenation |
| Text.NormalizeCharOrigin | core/workoutEngine.ts:26-30 | every output character comes from an input character that is not a combining mark |
| Text.IndexOf | core/workoutEngine.ts:153 | the first position where the separator occurs, found iff the text includes it |
| Text.Split | core/workoutEngine.ts:153 | at least one part; two or more iff the separator occurs; no part contains it |
| Text.SplitHead | core/workoutEngine.ts:153 | the first part of a split is the text up to the first separator |
| Text.UpToSeparator | core/workoutEngine.ts:153 | a prefix without the separator that ends where the separator first occurs, or the whole text when it does not occur |
| Text.SplitJoin | core/workoutEngine.ts:153 | joining the parts with the separator gives back the text |
| Text.SplitAtSeparator | core/workoutEngine.ts:153 | `(a + sep + b).split(sep)` is `[a, b]` when the separator does not start in `a` or occur in `b` |
| Text.NoOccurrence | core/workoutEngine.ts:152 | a text where no position starts with the first two separator characters does not include it |
| Text.TrimIsSlice | core/workoutEngine.ts:154-155 | trim removes white space at both ends and nothing else |
| Text.TrimEmptyIffWhite | components/WorkoutDisplay.tsx:96 | a text trims to empty iff it is all white space |
| Text.StripCommandWords | core/workoutEngine.ts:154 | the regular expression leaves no `o` and no `a` and never lengthens the text |
| Text.FirstNumber | components/WorkoutDisplay.tsx:65-70 | `match(/\d+/)` finds nothing iff the text has no digit |
| Text.FirstNumberAt | components/WorkoutDisplay.tsx:65-70 | when a number is found, it is the value of the maximal digit run starting at the first digit, and no digit comes before it |
| Text.NatToStringRoundTrip | core/workoutEngine.ts:125 | parsing a printed number gives it back |
| Text.FirstNumberOfInt | core/workoutEngine.ts:125 | the first number of a printed integer followed by a non-digit is its absolute value |
| Catalog.GroupOrder | core/exerciseDb.ts:4-49 | exactly seven groups, keyed Peito, Costas, Pernas, Ombros, Bíceps, Tríceps, Abdômen in that order |
| Catalog.KeysDistinct | core/exerciseDb.ts:4-49 | no key repeats |
| Catalog.GroupSizes | core/exerciseDb.ts:5-48 | group sizes 5, 5, 6, 4, 3, 4, 3 |
| Catalog.NamesUnique | core/exerciseDb.ts:5-48 | every exercise name is unique across the whole catalog |
| Catalog.EntriesWellFormed | core/exerciseDb.ts:6-47 | every entry has a non-empty level list and a `sets` text starting with a digit |
| CatalogNames.SupinosMissPeckDeck | core/exerciseDb.ts:6-7 | neither supino's normalized name includes "peck deck" |
| CatalogNames.PeckDeckNamed | core/exerciseDb.ts:8 | "Crucifixo Máquina (Peck Deck)" normalizes to a name including "peck deck" |
| CatalogNames.PeckDeckFound | core/exerciseDb.ts:5-8 | the first catalog entry whose normalized name includes "peck deck" is "Crucifixo Máquina (Peck Deck)" |
| CatalogNames.PeckDeckDisplayName | core/exerciseDb.ts:8 | that entry's name contains "Peck Deck" |
| CatalogNames.SupinoRetoIncludesSupin | core/exerciseDb.ts:6 | "Supino Reto (Barra)" normalizes to a name including "supin" |
| Catalog.LookupIn | core/workoutEngine.ts:33 | the list stored under a key, or the empty list (`\|\| []`) for an unknown key |
| Catalog.LookupKey | core/workoutEngine.ts:33 | looking up a group's key gives that group's list |
| Catalog.FlattenDatabase | core/workoutEngine.ts:216 | `Object.values` order: the whole catalog is the seven lists in key order |
| Random.Scale | core/workoutEngine.ts:20 | `Math.floor(x * n)` for x in [0, 1) is an index below n |
| Random.ScaleIsFloor | core/workoutEngine.ts:20 | the index is the floor of `x * n` |
| Shuffle.Swap | core/workoutEngine.ts:21 | the two positions exchange their elements and every other position keeps its own |
| Shuffle.SwapPermutes | core/workoutEngine.ts:21 | a swap keeps the multiset of elements |
| Shuffle.SweepPermutes | core/workoutEngine.ts:19-22 | the descending swap loop keeps the multiset of elements |
| Shuffle.Shuffled | core/workoutEngine.ts:17-24 | the shuffle is a permutation of its input |
| Shuffle.Draws | core/workoutEngine.ts:19-20 | a list of n elements uses n - 1 draws (none for n <= 1) |
| Shuffle.ShuffledKeepsDistinct | core/workoutEngine.ts:17-24 | distinct keys stay distinct after shuffling |
| Shuffle.ShuffleArray | core/workoutEngine.ts:17-24 | the input array unchanged, a fresh array holding the shuffle, n - 1 draws used |
| Selector.Filtered | core/workoutEngine.ts:34 | keeps exactly the entries with no level list or a list naming the level |
| Selector.FilteredCons | core/workoutEngine.ts:34 | filtering a list keeps its head exactly when the head applies, in front of the filtered tail |
| Selector.FilteredConcat | core/workoutEngine.ts:34 | filtering distributes over concatenation, so the kept entries stay in order with their multiplicity |
| Selector.PoolOf | core/workoutEngine.ts:33-35 | a list drawn from the group's entries; which one is stated by `Selector.PoolOfNonEmptyFilter` |
| Selector.PoolOfNonEmptyFilter | core/workoutEngine.ts:35 | when the level filter keeps something, the pool is exactly the filtered list |
| Selector.TakeFrom | core/workoutEngine.ts:33-36 | for any name-distinct group list: `min(count, pool size)` exercises of the pool with distinct names, and n - 1 draws for a pool of n |
| Selector.TakeShuffled | core/workoutEngine.ts:36 | shuffling a copy of the pool in an array and slicing it computes `TakeFrom` |
| Selector.Take | core/workoutEngine.ts:32-37 | `min(count, pool size)` exercises, all from the group's pool, with distinct names |
| Selector.ExercisesByMuscle | core/workoutEngine.ts:32-37 | the draw and the cursor advance are those of the specification |
| Selector.PoolDistinct | core/workoutEngine.ts:32-36 | a pool's names are distinct |
| Selector.EveryLevelInEveryGroup | core/exerciseDb.ts:6-47 | every level appears in some entry of every group |
| Selector.FallbackNeverFires | core/workoutEngine.ts:35 | with this catalog the filtered list is never empty, so the unfiltered fallback never fires |
| Selector.PoolNonEmpty | core/workoutEngine.ts:33-35 | every group's pool is non-empty at every level |
| Selector.BeginnerPools | core/exerciseDb.ts:5-48 | beginner pools have 3, 2, 4, 3, 2, 2, 2 entries |
| Titles.DayLetter | core/workoutEngine.ts:95 | day i of the rotation is letter 65 + i |
| Titles.SplitGroupParts | core/workoutEngine.ts:87-90 | `split('/')` of the four rotation entries |
| Titles.NormalizedBoostKeys | core/workoutEngine.ts:111 | the normalized group keys are plain lower-case words |
| Titles.NormalizedFullBodyTitle | core/workoutEngine.ts:61 | the normalized full-body title is "treino N   full body" |
| Titles.FullBodyTitleNamesNoGroup | core/workoutEngine.ts:61 | no normalized group key occurs in a full-body title |
| Generator.Max0 | core/workoutEngine.ts:51 | the loop runs `days` times, none for days <= 0 |
| Generator.Template | core/workoutEngine.ts:50-97 | one day template per day |
| Generator.FullBodyTemplateDay | core/workoutEngine.ts:50-62 | up to two days: "Treino i+1 - Full Body" with one exercise from each group |
| Generator.ThreeDayTemplate | core/workoutEngine.ts:63-85 | three days: A (2 Peito, 2 Ombros, 2 Tríceps), B (3 Costas, 2 Bíceps, 1 Abdômen), C (5 Pernas) |
| Generator.SplitTemplateAt | core/workoutEngine.ts:86-97 | four or more days: day i trains the pair `i mod 4`, 3 then 2 exercises |
| Generator.SplitSlots | core/workoutEngine.ts:91-94 | 3 from the first group, 2 from a second one when present |
| Generator.DrawSlots | core/workoutEngine.ts:52-60 | as many exercises as the slots yield, each slot's from its pool |
| Generator.DrawDays | core/workoutEngine.ts:48-97 | one day per template day, with that day's title and a cursor that never moves back; that the exercises come from the slots is `Generator.DrawDaysFromSlots` |
| Generator.DrawDaysFromSlots | core/workoutEngine.ts:48-97 | day i of the drawn days is drawn from template day i's slots |
| Generator.BaseDays | core/workoutEngine.ts:48-97 | the unboosted plan has `max(days, 0)` days with the template's titles and slots |
| Generator.PriorityTokens | core/workoutEngine.ts:100 | one normalized token per comma-separated part |
| Generator.GroupKeyOf | core/workoutEngine.ts:103-109 | the if/else chain in order: "peito" gives Peito; else "costas" or "dorsal" gives Costas; else "perna" Pernas; else "ombro" Ombros; else "bicep" Bíceps; else "tricep" Tríceps; none gives no group |
| Generator.BoostTokenAppends | core/workoutEngine.ts:111-115 | one token appends at most one exercise, new to the day and from a targeted pool; a token that targets nothing changes nothing |
| Generator.BoostDayAppends | core/workoutEngine.ts:102-117 | a day keeps its exercises as a prefix and gains at most one new-named exercise per token |
| Generator.BoostDaysAt | core/workoutEngine.ts:99-119 | every day of the plan is boosted that way and the day count is kept |
| Generator.BoostDaysSnoc | core/workoutEngine.ts:101-118 | boosting the days so far and then one more day is boosting them all, the new day starting at the draw where the earlier ones stopped |
| Generator.PlanOf | core/workoutEngine.ts:121-137 | the plan record's fixed fields: two warm-up steps, one stretching step, three safety tips |
| Generator.Generated | core/workoutEngine.ts:39-138 | no contract of its own; returns the plan and the next draw position; the plan is described by `Generator.GeneratedFields`, `Generator.GeneratedDay` and `Generator.FullBodyPlan` |
| Generator.BoostToken | core/workoutEngine.ts:103-116 | no contract of its own; what one token does is stated by `Generator.BoostTokenAppends` |
| Generator.GeneratedFields | core/workoutEngine.ts:121-137 | name, description naming the level, division text, count, id, time, the two warm-up items, stretching, and all three safety tips, the third echoing the limitations |
| Generator.PlanOfFields | core/workoutEngine.ts:121-137 | the plan literal: name, description, division, warm-up, stretching, tips, id and time built from the inputs, days as given |
| Generator.GeneratedDay | core/workoutEngine.ts:48-119 | day i has the template's title; without priorities it is the drawn day, with them a boost of it |
| Generator.FullBodyUntargeted | core/workoutEngine.ts:111 | no priority token targets a full-body day |
| Generator.FullBodyPlan | core/workoutEngine.ts:50-62 | full-body days are never boosted and draw one exercise per group |
| Generator.FullBodyDaySize | core/workoutEngine.ts:52-60 | every full-body day has 7 exercises |
| Generator.BeginnerThreeDaySizes | core/workoutEngine.ts:63-85 | the 3-day beginner plan without priorities has 6, 5 and 4 exercises |
| Generator.UnboostedDaySize | core/workoutEngine.ts:48-97 | without priorities a day has exactly its slots' total |
| Generator.DivisionNamesDays | core/workoutEngine.ts:125 | the first number of the weekly division is the day count |
| Generator.CollectSlots | core/workoutEngine.ts:52-60 | the loop over a day's slots draws what the specification draws |
| Generator.DrawTemplate | core/workoutEngine.ts:50-97 | the day loops draw what the specification draws |
| Generator.DrawEach | core/workoutEngine.ts:50-97 | pushing each template day in turn draws what the specification draws |
| Generator.BoostStep | core/workoutEngine.ts:103-116 | one priority step as specified |
| Generator.BoostOneDay | core/workoutEngine.ts:102-117 | the loop over tokens for one day as specified |
| Generator.BoostDayStep | core/workoutEngine.ts:102-117 | the pass over the remaining tokens is the next token followed by the pass over the rest |
| Generator.BoostAllDays | core/workoutEngine.ts:101-118 | the loop over days as specified |
| Generator.GenerateWorkout | core/workoutEngine.ts:39-138 | `generateIntelligentWorkout` returns the specified plan and consumes exactly the draws the specification uses |
| Search.FirstContaining | core/workoutEngine.ts:217 | the first entry whose normalized name includes the query, or none iff none does |
| Search.FindFirstContaining | core/workoutEngine.ts:216-224 | the nested loops with early return find that first entry |
| Explainer.ExerciseExplanation | core/workoutEngine.ts:214-229 | `getExerciseExplanation` returns the specified answer |
| Explainer.ExplainFrom | core/workoutEngine.ts:214-229 | no contract of its own; its two outcomes are stated by `Explainer.ExplainFromSpec` |
| Explainer.ExplainFromSpec | core/workoutEngine.ts:214-229 | a match gives the fixed execution text and the first match's tip; no match gives both fallbacks |
| Explainer.EmptyQueryExplainsFirstEntry | core/workoutEngine.ts:215-217 | a query that normalizes to nothing gets the first catalog entry's tip |
| Adjuster.ParseRequest | core/workoutEngine.ts:152-158 | with " por ": the target is the text before its first occurrence, command words and every `o` and `a` removed, trimmed; the replacement is the text from there to the next " por " or the end, trimmed. Without it: the whole instruction gives the target and there is no replacement. The target never holds `o` or `a` |
| Adjuster.ParseExample | core/workoutEngine.ts:152-155 | "troque supino por leg press" targets "supin" and asks for "leg press" |
| Adjuster.ParsePeckDeckExample | core/workoutEngine.ts:152-155 | "troque supino por peck deck" targets "supin" and asks for "peck deck" |
| Adjuster.ParseSupinoPor | core/workoutEngine.ts:152-155 | "troque supino por " followed by a trimmed phrase without " por " targets "supin" and asks for that phrase |
| Phrases.ExampleSplit | core/workoutEngine.ts:153 | that instruction splits at " por " into its two phrases |
| Phrases.ExampleStrip | core/workoutEngine.ts:154 | the regular expression turns "troque supino" into " supin" |
| Adjuster.IntensityOf | core/workoutEngine.ts:193-209 | heavier iff a heavier word occurs; lighter only with a lighter word; unchanged only without one |
| Adjuster.HomeKeyIn | core/workoutEngine.ts:178-180 | the first group, in key order, holding an entry with exactly that normalized name (no earlier group holds one), or none when no group does |
| Adjuster.Others | core/workoutEngine.ts:182 | the group's entries whose normalized name differs |
| Adjuster.OthersCons | core/workoutEngine.ts:182 | the filter keeps the head exactly when its normalized name differs, in front of the filtered tail |
| Adjuster.OthersConcat | core/workoutEngine.ts:182 | the filter distributes over concatenation, so the alternatives keep the group's order and multiplicity |
| Adjuster.Substitute | core/workoutEngine.ts:163-188 | the exercise keeps its sets and reps and at most one draw is used; the outcomes are stated by `Adjuster.SubstituteSpec` and `Adjuster.SubstituteMatched` |
| Adjuster.Pick | core/workoutEngine.ts:182-185 | no alternatives: the exercise stays and no draw is used; otherwise exactly one draw picks one of the alternatives, which takes the old sets and reps |
| Adjuster.SubstituteSpec | core/workoutEngine.ts:163-188 | sets and reps kept; an unmatched exercise stays and draws nothing; a matched one becomes a catalog entry or stays; at most one draw |
| Adjuster.SubstituteMatched | core/workoutEngine.ts:166-185 | a matched exercise becomes the first catalog entry whose normalized name includes the replacement, with no draw; failing that, it stays with no draw when its group has no other entry; else exactly one draw makes it an entry of its home group with a different normalized name; sets and reps kept |
| Adjuster.SubstitutePeckDeck | core/workoutEngine.ts:166-173 | asking for "peck deck" turns a matched exercise into "Crucifixo Máquina (Peck Deck)" with its old sets and reps and no draw; the new name contains "Peck Deck" |
| Adjuster.SwapSupinoForPeckDeck | core/workoutEngine.ts:150-185 | the instruction "troque supino por peck deck" turns every exercise matching "supin" into "Crucifixo Máquina (Peck Deck)" with its old sets and reps, and its name contains "Peck Deck" |
| Adjuster.SupinoRetoSwapped | core/workoutEngine.ts:150-185 | that instruction turns "Supino Reto (Barra)" into the peck deck with the supino's sets and reps and no draw |
| Adjuster.SubstituteAll | core/workoutEngine.ts:163-188 | a day keeps its exercise count |
| Adjuster.SubstituteAllAt | core/workoutEngine.ts:163-188 | each exercise of a day is `Substitute` of the exercise at that position, at some draw position |
| Adjuster.SubstituteDaysAt | core/workoutEngine.ts:161-189 | each day keeps its title and has its exercises substituted |
| Adjuster.EmptyTargetAll | core/workoutEngine.ts:166 | an empty target replaces nothing and draws nothing |
| Adjuster.IntensifyDaysAt | core/workoutEngine.ts:193-209 | the intensity rule keeps days, titles and counts and rewrites each exercise alone |
| Adjuster.IntensifyUnchanged | core/workoutEngine.ts:193-209 | without intensity words the days are unchanged |
| Adjuster.HeavierEverywhere | core/workoutEngine.ts:193-199 | heavier: sets "4", reps "8-10", tip + " (Foco em carga)", name kept |
| Adjuster.LighterEverywhere | core/workoutEngine.ts:201-207 | lighter: sets "2-3", reps "12-15", tip + " (Foco em técnica)", name kept |
| Adjuster.Adjusted | core/workoutEngine.ts:140-212 | no contract of its own; the adjusted plan is described by `Adjuster.AdjustedStructure`, `Adjuster.AdjustedExercise` (each exercise is the intensity rule applied to `Substitute` of the original, whose outcomes `Adjuster.SubstituteMatched` states) and the intensity lemmas |
| Adjuster.AdjustedStructure | core/workoutEngine.ts:140-212 | new id and time; every other plan field, day count, titles and exercise counts kept |
| Adjuster.AdjustedExercise | core/workoutEngine.ts:146-209 | each exercise is the intensity rule applied to its substitute; the substitute is `Substitute` of the original at some draw position when a swap is asked, and the original otherwise; sets and reps kept; unmatched ones unchanged |
| Adjuster.EmptyTargetReplacesNothing | core/workoutEngine.ts:166 | an instruction whose target strips to nothing only applies the intensity rule |
| Adjuster.ApplyIntensity | core/workoutEngine.ts:193-209 | the nested in-place loops compute the intensity rule |
| Adjuster.SubstituteExercise | core/workoutEngine.ts:164-188 | one callback of the substitution map as specified |
| Adjuster.FindReplacement | core/workoutEngine.ts:170-175 | the search runs only for a non-empty phrase and finds the specified entry |
| Adjuster.PickAlternative | core/workoutEngine.ts:182-185 | one draw picks an alternative when there is one; none is drawn otherwise |
| Adjuster.SubstituteExercises | core/workoutEngine.ts:163-188 | the map over a day's exercises as specified |
| Adjuster.SubstituteWorkouts | core/workoutEngine.ts:161-189 | the map over days as specified |
| Adjuster.AdjustWorkout | core/workoutEngine.ts:140-212 | `adjustWorkoutIntelligently` returns the specified plan |
| AppState.Truncated | App.tsx:54 | `slice(0, n)` keeps the first `min(n, length)` elements |
| AppState.WithLog | App.tsx:52-62 | the new log first, the previous logs after it in order, at most 100 |
| AppState.FindLog | App.tsx:66 | the first log of that day and plan, or none iff there is none |
| AppState.WithoutIndex | App.tsx:68 | every element but the one at the index, in order |
| AppState.Undone | App.tsx:64-76 | never longer than the logs and holds only logs from them; exactly which one goes is `AppState.UndoRemovesFirstMatch` |
| AppState.UndoRemovesFirstMatch | App.tsx:64-76 | undo removes exactly the first matching log and keeps the others in order; with no match the list is unchanged |
| AppState.UndoAfterLog | App.tsx:52-76 | undoing the day just logged gives back the previous logs, less the one the cap pushed out |
| AppState.UndoAfterLogBelowCap | App.tsx:52-76 | below the cap, log then undo restores the list |
| AppState.WithUpdatedPlan | App.tsx:78-89 | length kept; entries holding the plan's id now hold the plan; all other entries and fields unchanged |
| AppState.UpdateUnknownPlan | App.tsx:81 | a plan no entry holds leaves the history unchanged |
| AppState.UpdateIdempotent | App.tsx:81 | updating twice is updating once |
| AppState.UpdateKeepsIds | App.tsx:81 | a plan update keeps distinct entry ids distinct |
| AppState.AdjustedUpdateIsNoop | App.tsx:78-89 | an adjusted plan carries a fresh id, so handing it to the update changes no entry |
| AppState.WithoutId | App.tsx:111 | no entry with that id remains; entries with other ids keep their multiplicity |
| AppState.WithoutAbsentId | App.tsx:111 | filtering an id nobody has changes nothing |
| AppState.WithEntry | App.tsx:110-118 | the new entry first, then the old list without that id in its order (position i is the filtered list's i-1), cut to 20 entries: length is the filtered length plus one, at most 20 |
| AppState.WithEntryDistinct | App.tsx:111 | adding an entry keeps ids distinct |
| AppState.WithNewEntry | App.tsx:111 | below the cap, an entry with a new id is simply prepended |
| AppState.WithNewEntryAtCap | App.tsx:111 | an entry with a new id is prepended to the first 19 old entries: at the cap the oldest drops out |
| AppState.WithoutIdConcat | App.tsx:111 | the id filter keeps order: filtering a concatenation is concatenating the filtered parts |
| AppState.WithEntryReplaces | App.tsx:111 | an old entry with the same id is gone afterwards |
| AppState.PriorityText | App.tsx:104 | an empty muscles text is recorded as "Geral", a non-empty one as it is |
| AppState.NewHistoryEntry | App.tsx:98-108 | the entry records id, date, choices and plan, and a non-empty muscles text |
| AppState.App.constructor | App.tsx:13-15 | nothing generated or logged |
| AppState.App.LogWorkout | App.tsx:52-62 | the log list becomes the prepended, capped list; the caps and distinct ids hold |
| AppState.App.UndoLog | App.tsx:64-76 | the log list loses the first matching log |
| AppState.App.UpdatePlan | App.tsx:78-89 | the plan on display and the history entries holding its id are replaced |
| AppState.App.FinalizeWorkout | App.tsx:91-118 | shows the plan, records the gender, and puts the new entry first in the history |
| Phrases.IntensitySetsNumbers | components/WorkoutDisplay.tsx:69-70 | "4" counts as 4 sets and "2-3" as 2 |
| Display.TotalSets | components/WorkoutDisplay.tsx:68-71 | no contract of its own; the sum is described by `Display.TotalSetsAppend` and `Display.TotalSetsUniform` |
| Display.TotalSetsAppend | components/WorkoutDisplay.tsx:68-71 | the total over two lists is the sum of their totals |
| Display.TotalSetsUniform | components/WorkoutDisplay.tsx:68-71 | when every `sets` text starts with n, the total is n per exercise |
| Display.LogFor | components/WorkoutDisplay.tsx:64-81 | the log carries the plan name, day title, the day's exercise names in order, the total of its sets and the plan's duration |
| Display.EngineLogRecordsDays | components/WorkoutDisplay.tsx:65-66 | for a generated plan `durationMinutes` is the day count |
| Display.Duration | components/WorkoutDisplay.tsx:65-66 | no contract of its own; `Display.EngineLogRecordsDays` and `Display.AdjustedKeepsDuration` state what it records |
| Display.AdjustedKeepsDuration | components/WorkoutDisplay.tsx:65-66 | an adjustment does not change the recorded duration |
| Display.HeavierLogSets | components/WorkoutDisplay.tsx:68-71 | after a heavier adjustment a day logs 4 sets per exercise |
| Display.LighterLogSets | components/WorkoutDisplay.tsx:68-71 | after a lighter adjustment a day logs 2 sets per exercise |
| Display.FinishedDays | components/WorkoutDisplay.tsx:34-48 | a title is finished iff some log of this plan dated this week has it |
| Display.LoggedDayIsFinished | components/WorkoutDisplay.tsx:41-46 | a day just logged with a date this week shows as finished |
| Display.RequestsIff | components/WorkoutDisplay.tsx:96 | an adjustment goes ahead iff the panel is idle and the text has a non-white character |
| Display.AdjustPanel.constructor | components/WorkoutDisplay.tsx:50-52 | empty text, idle, no error |
| Display.AdjustPanel.Edit | components/WorkoutDisplay.tsx:131-133 | typing replaces the text; the field accepts input only while no adjustment runs |
| Display.AdjustPanel.Begin | components/WorkoutDisplay.tsx:95-99 | the guard; when it passes, the panel is busy and the error cleared |
| Display.AdjustPanel.Finish | components/WorkoutDisplay.tsx:100-110 | the adjusted plan goes to the shell, which updates it and its history and keeps its logs and profile; the text is cleared; the panel is idle again |

## Left out

- `calculateBMI` and `calculateTMB` are not modelled. They are floating-point arithmetic with `toFixed` and `Math.round`.
- The statistical uniformity of the shuffle is not modelled. Only that it is a permutation, and which draws it uses, are proved.
- `Text.Normalize` covers ASCII and Latin-1, not full Unicode NFD:
  - Latin-1 letters with accents map to their base letter; combining marks U+0300–U+036F are deleted; every other character becomes a space.
  - A non-Latin-1 character that NFD would decompose into an ASCII letter plus marks (such as "ŝ") becomes a space here, not the letter.
- Text.Normalize: writes one space per character it does not keep, whereas the source writes one per UTF-16 code unit of the NFD form. A character outside the Basic Multilingual Plane (an emoji) gives two spaces there and one here, and a Hangul syllable decomposes into two or three jamo, so two or three spaces there and one here. So `NormalizeIsNormal`'s length bound holds of the model only, and a target or replacement holding such characters can come out with fewer spaces than in the source.
- `Titles.DayLetter` differs from the source past the 26th day. It uses code point 65 + i modulo 65536, and surrogate code units become U+FFFD because Dafny characters are Unicode scalar values. Both normalize to a space, so the priority pass is unaffected.
- These become parameters: `crypto.randomUUID()`, `new Date()`, the locale date format, and the start-of-week arithmetic. The start of the week is the predicate `inWeek`.
- `localStorage` reads and writes, JSON parsing and serialization, and their try/catch fallbacks are not modelled. The shell starts empty.
- React rendering, hooks, `useMemo`/`useCallback`, `setTimeout` and `scrollIntoView` are not modelled.
- services/geminiService.ts is not part of this model. It only delays, then forwards to the engine, so the model calls the engine directly.
- The rest of the user profile is not modelled. Only the gender that `finalizeWorkout` records is.
  - components/ProfileSection.tsx, WorkoutForm.tsx, SafetyBanner.tsx and ProgressDashboard.tsx are not part of this model.
- The explanation modal, `handleUndoDay`, and the random motivational message after a finished day are not modelled. `handleUndoDay` is a plain forward to `handleUndoLog`. The motivational message is display only.
- The catch branch of `handleAdjust` is not modelled. The modelled engine is total and never throws, so the error field is only cleared.
- The awaited call inside `handleAdjust` is modelled as two steps, `Begin` and `Finish`. Interleavings of other events between them are not modelled.
- Numbers are unbounded here. `parseInt` of a digit run longer than about 15 digits loses precision in JavaScript, and the model does not capture that.
- `days` is an integer here. A fractional `days` in the source would change the loop counts and the division text.
- `Generator.FullBodyTemplate`: its contract states only the length; the day contents are proved in `Generator.FullBodyTemplateDay`.
- `Generator.SplitTemplate`: its contract states only the length; the day contents are proved in `Generator.SplitTemplateAt`.
- The adjuster's deep copy and in-place writes are modelled on values. The copy shares nothing with the input, so no aliasing is lost.
