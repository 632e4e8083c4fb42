# Advent of Code 2020 in Dafny

This project models the 25 puzzle solutions of the `advent-of-code-2020`
repository (one Python script per day, `01/01.py` to `25/25.py`) and proves
what each solution computes. Every day is one module, `dayNN_<topic>.dfy`.
Days 18, 19, 22 and 23 keep their unit-test examples in a companion module
(`dayNN_examples.dfy`). Four shared modules hold what several days use:

- `Base` (`base.dfy`): `Option`, and `Result` with an error name. It also has `MapResult`, a list comprehension that stops at its first exception.
- `Py` (`py.dfy`): the Python built-ins the scripts lean on. These are `str.strip`/`rstrip`/`split`/`join`/`find`, `int()` and `str()` of an integer, floor division and remainder, slicing with negative indices, `sum`, `list.index` and powers of two.
- `Arith` (`arith.dfy`): powers, modular arithmetic, Fermat's little theorem and the Chinese remainder theorem that day 13 relies on.
- `Bits` (`bits.dfy`): bitwise `and`/`or` on non-negative integers and their binary digits, for day 14.

Each script function is modelled in the form it has in Python:

- A function made of expressions and recursion is a Dafny `function`.
- A function whose work is a loop over local variables is a `method` with that loop. Its `ensures` ties the result to a specification function, and lemmas prove what the result means.
- An object or container the script changes in place is a `class` with `seq`/`map` fields and `modifies` clauses:
  - the boot-code machine of day 8;
  - the docking program's memory of day 14;
  - the memoising matcher of day 19;
  - the decks of day 22;
  - the cup circle of day 23;
  - the deque window of day 9 (`XmasCipher.Deque`);
  - the adapter set of day 10 (`Adapters.IntSet`);
  - the ship of day 12 (`Navigation.Ship`);
  - the per-field candidate rule sets of day 16, an array changed under `modifies` by `Tickets.RemoveFromOtherSets`, `Tickets.PruneSets` and `Tickets.EliminateSets`;
  - the per-allergen candidate sets of day 21, an array changed under `modifies` by `Allergens.RemoveFromOtherAllergens`.

What a script does on bad input is modelled as well. An exception Python would raise is `Err` carrying the exception's name (`"ValueError"`, `"KeyError"`, `"IndexError"`, `"RecursionError"`, …). A loop that need not end has a `fuel` bound, and running out of fuel is an outcome of its own. The `__main__` blocks read puzzle input from files and print; those are outside the model.

## Model

| member | source | states |
|---|---|---|
| ReportRepair.PrependAll | 01/01.py:10 | the picks using the first entry: `[x] + c` for each pick `c`, same count and order |
| ReportRepair.CombinationsArePicks | 01/01.py:10 | every combination has exactly `n` entries taken from strictly increasing positions of `nums` |
| ReportRepair.PicksAreCombinations | 01/01.py:10 | conversely, every choice of entries from increasing positions is one of the combinations |
| ReportRepair.FirstWithSum | 01/01.py:10-13 | the result is the first candidate in order whose sum is `s`; None exactly when no candidate sums to `s` |
| ReportRepair.MatchingSumFound | 01/01.py:9-12 | a returned tuple has `n` entries from distinct positions and sums to `s` |
| ReportRepair.MatchingSumNone | 01/01.py:13 | None is returned if and only if no `n` entries from distinct positions sum to `s` |
| ReportRepair.FirstWithSumAppend | 01/01.py:10-12 | the early return: a hit in the first part of the candidate list hides everything after it |
| ReportRepair.CombinationsOfOne | 01/01.py:10 | the 1-combinations are the singletons in input order |
| ReportRepair.SampleReport | 01/01.py:18-26 | the sample gives (1721, 299) with product 514579 and (979, 366, 675) with product 241861950 |
| Py.RStrip | 02/02.py:11 | `str.rstrip()`: the longest prefix of the input that does not end in whitespace |
| PasswordPhilosophy.SplitLine | 02/02.py:12 | the groups returned make up the stripped line exactly and satisfy their sub-patterns |
| PasswordPhilosophy.SplitRender | 02/02.py:12 | every well-formed line is matched with its own groups, so a non-match means the line is outside the pattern |
| PasswordPhilosophy.ParseLine | 02/02.py:10-17 | a line parses exactly when its stripped text matches; the result holds the two numbers, the letter and the password; otherwise an error |
| PasswordPhilosophy.ParsedPositionsNatural | 02/02.py:12-15 | parsed positions are never negative |
| PasswordPhilosophy.PasswordIsValid | 02/02.py:22-23 | an IndexError exactly when a position is outside the password (Python indexing, so position 0 reads the last character) |
| PasswordPhilosophy.ValidIffExactlyOne | 02/02.py:22-23 | for two distinct positions inside the password, valid iff exactly one of them holds the letter |
| PasswordPhilosophy.BothOrNeitherInvalid | 02/02.py:23 | both positions holding the letter, or neither, is invalid, and that is the only way to be invalid |
| PasswordPhilosophy.SamePositionNeverValid | 02/02.py:23 | a policy naming one position twice accepts no password |
| PasswordPhilosophy.PositionZeroIsLast | 02/02.py:23 | position 0 reads the last character |
| PasswordPhilosophy.SampleLine1 | 02/02.py:28-32 | the first sample line parses to ((1, 3, 'a'), "abcde") |
| PasswordPhilosophy.SampleLine2 | 02/02.py:28-32 | the second sample line parses to ((1, 3, 'b'), "cdefg") |
| PasswordPhilosophy.SampleLine3 | 02/02.py:28-32 | the third sample line parses to ((2, 9, 'c'), "ccccccccc") |
| PasswordPhilosophy.SampleVerdicts | 02/02.py:33-34 | the sample verdicts are valid, invalid, invalid |
| Toboggan.ParseLine | 03/03.py:5-6 | one entry per character of the stripped line, True exactly for '#' |
| Toboggan.CountTrees | 03/03.py:11-14 | succeeds exactly for a non-empty rectangular map whose width is non-zero or that has one row; errors otherwise |
| Toboggan.HitsBelowCountsRows | 03/03.py:14 | the sum equals the number of rows r in 1..n-1 whose column `3*r mod width` holds a tree |
| Toboggan.CountIsTreeRows | 03/03.py:14 | the result is the size of the set of hit rows below row 0 |
| Toboggan.HitsBelowBound | 03/03.py:14 | at most one hit per row below the first |
| Toboggan.CountBound | 03/03.py:14 | the count is at most len(trees)-1 |
| Toboggan.HitsBelowIgnoresRowZero | 03/03.py:14 | replacing row 0 never changes the partial sums |
| Toboggan.RowZeroNeverCounts | 03/03.py:14 | replacing row 0 by a row of the same width never changes the result |
| Toboggan.SmallMap | 03/03.py:11-14 | a three-row map of width 2 gives 2 |
| Passports.TokenField | 04/04.py:9 | a token unpacks only when it is `key:value` with no further ':'; the pieces give the token back |
| Passports.TokenFieldRender | 04/04.py:9 | every key and value free of ':' are recovered from their token |
| Passports.FieldsOkIff | 04/04.py:8-10 | parsing fails exactly when some token does not split into two pieces |
| Passports.FieldsKeys | 04/04.py:8-10 | the keys of the passport are exactly the tokens' keys |
| Passports.FieldsLastWins | 04/04.py:8-10 | a key holds the value of its last token: later duplicates overwrite earlier ones |
| Passports.FieldsErrStays | 04/04.py:8-10 | once a token fails, the whole parse fails with that error |
| Passports.ParsePassport | 04/04.py:6-11 | the loop computes the specified passport map, or the first unpacking error |
| Passports.ParseTwoFields | 04/04.py:6-11 | "k1:v1 k2:v2" parses to the map {k1: v1, k2: v2} (k2 wins on equal keys) |
| Passports.ParseAll | 04/04.py:27 | every text is parsed in order; the list fails iff some text fails |
| Passports.ReadInput | 04/04.py:13-27 | the loop yields the specified passport texts, parsed |
| Passports.CollectConcat | 04/04.py:18-23 | after a blank line the scan starts afresh: later groups are appended independently |
| Passports.CollectGroup | 04/04.py:18-23 | lines of one group, none blank, leave no passport and an open group holding them all |
| Passports.GroupText | 04/04.py:14-15 | a group's text is its lines joined with single spaces |
| Passports.JoinEndsWith | 04/04.py:15 | rstrip leaves a join of lines ending in a non-space unchanged |
| Passports.LastGroupKept | 04/04.py:25-26 | the last group is kept although no blank line follows it |
| Passports.ClosedGroup | 04/04.py:19-21 | a blank line closes the open group as one passport text |
| Passports.TwoGroups | 04/04.py:13-27 | two groups separated by a blank line give two passport texts, each its lines joined with spaces |
| Passports.SplitHeight | 04/04.py:37 | a match splits the height into a non-empty digit string and the unit "cm" or "in" |
| Passports.SplitHeightExact | 04/04.py:37 | every digit string followed by "cm" or "in" is matched with exactly those groups |
| Passports.ValidIffFieldsOk | 04/04.py:29-53 | valid exactly when all seven required keys are present and each value passes its own rule, in any order |
| Passports.YearWithTab | 04/04.py:31-35 | a year in range followed by a tab, which the split on single spaces leaves in the value, passes: `int()` strips the whitespace |
| Passports.MissingKeyInvalid | 04/04.py:29-53 | a missing required key (the caught KeyError) makes the passport invalid |
| Passports.OtherKeysIgnored | 04/04.py:50 | adding or removing any key outside the required seven never changes validity |
| Passports.CidIgnored | 04/04.py:50 | `cid` never affects validity |
| Passports.HeightRanges | 04/04.py:37-43 | a well-formed height is valid iff its number is 150..193 for cm or 59..76 for in |
| Passports.HeightExamples | 04/04.py:37-43 | "60in" and "190cm" pass, "190in" and "190" fail |
| Boarding.BoolsToInt | 05/05.py:16-17 | the sum of `int(b) << i` with the first element least significant; below 2^len |
| Boarding.BoolsToIntCons | 05/05.py:16-17 | the first element is the least significant bit: the rest counts double |
| Boarding.BoolsToIntOfIntToBools | 05/05.py:16-17 | every number below 2^k is the value of its k bits |
| Boarding.IntToBoolsOfBoolsToInt | 05/05.py:16-17 | the conversion is one-to-one: the bits are recovered from the value |
| Boarding.ReversedIsBinary | 05/05.py:22-28 | converting the reversed letters least significant first reads them as binary, most significant first |
| Boarding.ParseSeat | 05/05.py:19-29 | succeeds exactly for ten letters, seven F/B then three L/R (else the assertion error); row and column are those letter groups read as binary with B and R as 1 |
| Boarding.BinaryValueBound | 05/05.py:22-28 | k binary letters give a value below 2^k |
| Boarding.SeatBounds | 05/05.py:10-28 | row in 0..127, column in 0..7, id in 0..1023 |
| Boarding.Spell | 05/05.py:22-28 | k letters from the two-letter alphabet (the inverse direction of the decoding) |
| Boarding.BinaryValueSpell | 05/05.py:22-28 | the letters spelling n decode to n |
| Boarding.SpellBinaryValue | 05/05.py:22-28 | the letters are recovered from their value |
| Boarding.ParseEncodeSeat | 05/05.py:19-29 | every seat is decoded from its own boarding pass |
| Boarding.EncodeParseSeat | 05/05.py:19-29 | every valid boarding pass is the encoding of the seat it decodes to |
| Boarding.SamplePass | 05/05.py:36-45 | a pass written for a seat decodes to that seat |
| Boarding.SamplePass1 | 05/05.py:37-45 | FBFBBFFRLR is (44, 5) with id 357 |
| Boarding.SamplePass2 | 05/05.py:38-45 | BFFFBBFRRR is (70, 7) with id 567 |
| Boarding.SamplePass3 | 05/05.py:39-45 | FFFBBBFRRR is (14, 7) with id 119 |
| Boarding.SamplePass4 | 05/05.py:40-45 | BBFFBBFRLL is (102, 4) with id 820 |
| Boarding.ExpectedSumIsRangeSum | 05/05.py:57 | the formula equals the sum of every integer from `min_seat_id` to `max_seat_id` |
| Customs.ParseInput | 06/06.py:8-16 | the loop computes the specified groups |
| Customs.CollectGroup | 06/06.py:11-13 | lines with no blank among them form one open group of their rstripped forms |
| Customs.CollectConcat | 06/06.py:8-13 | after a blank line the scan starts afresh: later groups are appended independently |
| Customs.LastGroupKept | 06/06.py:14-15 | a non-empty final group is kept although no blank line follows it |
| Customs.TwoGroups | 06/06.py:8-16 | two groups of lines separated by a whitespace line become two groups of rstripped lines |
| Customs.UnionMembers | 06/06.py:18-19 | a character is in the union exactly when some line of the group contains it |
| Customs.UnionCount | 06/06.py:18-19 | an empty group counts 0 |
| Customs.SampleUnionCount1 | 06/06.py:22-33 | the group ["abc"] counts 3 |
| Customs.SampleUnionCount2 | 06/06.py:22-33 | the group ["a", "b", "c"] counts 3 |
| Customs.SampleUnionCount3 | 06/06.py:22-33 | the group ["ab", "ac"] counts 3 |
| Customs.SampleUnionCount4 | 06/06.py:22-33 | the group ["a", "a", "a", "a"] counts 1 |
| Customs.SampleUnionCount5 | 06/06.py:22-33 | the group ["b"] counts 1 |
| Bags.BagTypeOf | 07/07.py:10 | a match is a non-empty, newline-free name followed by exactly " bags" or " bag" |
| Bags.BagTypeOfPhrase | 07/07.py:10 | "name bag" and "name bags" both match back to the name |
| Bags.ParseBagType | 07/07.py:9-11 | succeeds exactly when the stripped text matches, and returns the matched name; otherwise the AttributeError of `None.group` |
| Bags.ParsedCountPhrase | 07/07.py:13-15 | a parsed count phrase is a digit run, a space and "name bag(s)", and the count is the digits' value |
| Bags.ParseCountPhrase | 07/07.py:13-15 | "N name bag(s)" parses to (name, N) |
| Bags.ParsedRule | 07/07.py:17-24 | a parsed rule has exactly two sides of " contain "; "no other bags." yields no children, anything else the comma-separated children |
| Bags.NoOtherBags | 07/07.py:20-21 | a rule ending "contain no other bags." has an empty child list |
| Base.MapResult | 07/07.py:23-27 | `map` over the pieces succeeds exactly when every piece parses, and then holds each piece's result in order |
| Bags.ToMap | 07/07.py:27 | the dictionary's keys are exactly the bag types of the parsed rules |
| Bags.ToMapLastWins | 07/07.py:27 | a bag type maps to the children of its last rule |
| Bags.CanContainMoreFuel | 07/07.py:29-33 | once `can_contain` answers within some depth of nested calls, it gives the same answer with any larger depth |
| Bags.CanContainHasPath | 07/07.py:29-33 | on any rule set, cyclic ones included, `can_contain` answers True only along a chain of one or more direct child edges |
| Bags.PathCanContain | 07/07.py:29-33 | along a chain of direct child edges, any answer `can_contain` gives without an exception is True |
| Bags.ContainedBagsMoreFuel | 07/07.py:35-36 | once `contained_bags` answers within some depth of nested calls, it gives the same answer with any larger depth |
| Bags.EmptyBag | 07/07.py:30-36 | in any rule set a bag with no children holds 0 bags and can contain no bag |
| Bags.CanContainRunRanked | 07/07.py:29-33 | from a bag whose reachable part is ranked (no cycle, no missing rule below it) `can_contain` answers, and says whether the type is a child or inside a child |
| Bags.ContainedBagsRunRanked | 07/07.py:35-36 | from a bag whose reachable part is ranked `contained_bags` answers, with the sum over children of count·(1 + contents of the child) |
| Bags.ContainedBagsCountsContents | 07/07.py:35-36 | `contained_bags` equals the number of physical bags inside, nested ones included |
| Bags.ContainVia | 07/07.py:29-33 | a child of the wanted type, or a child that can contain it, makes the parent contain it |
| Bags.ContainNone | 07/07.py:29-33 | a parent none of whose children is or can contain the type cannot contain it |
| Bags.RankedEmptyBag | 07/07.py:30-36 | on a ranked bag without children the reference holds nothing and contains nothing |
| Bags.LoopThroughShortCircuit | 07/07.py:30-33 | on {A: [B], B: [A, C], C: []} `can_contain(A, C)` is True: the direct-child test on B stops before the loop back to A |
| Bags.CycleBesideA | 07/07.py:29-36 | on {A: [], X: [Y], Y: [X]} bag A answers False and 0, and its own part is ranked though the rules hold a cycle |
| Bags.CycleBesideX | 07/07.py:29-36 | on the same rules X and Y never answer at any depth: the recursion goes round the cycle |
| Bags.SampleValid | 07/07.py:41-51 | the sample rules are closed and acyclic under the given ranking |
| Bags.SampleCanContain | 07/07.py:58-61 | of the sample's bag types exactly bright white, muted yellow, dark orange and light red can contain shiny gold |
| Bags.SampleCanContainRun | 07/07.py:58-61 | the script's `can_contain` answers True for exactly those four bag types and False for the others |
| Bags.SampleContainedBags | 07/07.py:63-67 | in the sample faded blue and dotted black hold 0 bags, vibrant plum 11 and dark olive 7 |
| Bags.SampleContainedBagsRun | 07/07.py:63-67 | the script's `contained_bags` answers 0, 0, 11 and 7 for those four bags |
| Handheld.ParseRender | 08/08.py:8-10 | a line "op ±n" with a one-word opcode parses back to Instruction(op, n) |
| Handheld.IndicesSize | 08/08.py:22 | `code[pc]` accepts exactly 2·len pcs, -len ≤ pc < len, the negative ones counting from the end |
| Handheld.StepPcOnly | 08/08.py:21-31 | whether a step succeeds and where it moves the pc never depend on the accumulator |
| Handheld.StepEffect | 08/08.py:23-29 | only `acc` changes the accumulator (and then pc advances by one); only `jmp` moves pc by other than one (and leaves the accumulator) |
| Handheld.StepOk | 08/08.py:22-31 | a step succeeds exactly when the pc indexes the code and the opcode is acc, jmp or nop |
| Handheld.TraceSnoc | 08/08.py:35-41 | k+1 steps are k steps followed by one more |
| Handheld.TraceShift | 08/08.py:35-41 | the trace from a state is the trace from its successor shifted by one |
| Handheld.RunEnds | 08/08.py:33-41 | the loop stops on the state reached after `steps` instructions, and executes at most one instruction per unseen valid pc |
| Handheld.RunVisits | 08/08.py:36-41 | every executed instruction is at a valid pc not seen before |
| Handheld.RunDistinct | 08/08.py:36-41 | no pc is executed twice |
| Handheld.RunVerdict | 08/08.py:36-41 | True exactly at a pc already seen; False only at pc == len(code); otherwise the exception of the next step |
| Handheld.RunBound | 08/08.py:35-41 | at most 2·len(code) instructions run (negative pcs count from the end, so up to 2·len distinct pcs) |
| Handheld.RunLoops | 08/08.py:36-37 | a True verdict is the first revisit: the final pc was executed earlier and all executed pcs are distinct |
| Handheld.LoopsForever | 08/08.py:36-37 | after a True verdict the program continues forever without reaching len(code) or raising |
| Handheld.RecurringPc | 08/08.py:36-37 | after a True verdict every later state is at one of the pcs already executed |
| Handheld.RunHalts | 08/08.py:38-39 | a False verdict is reached at pc == len(code), and no earlier state was there |
| Handheld.Program.constructor | 08/08.py:16-19 | a new program holds the code with accumulator 0 and pc 0 |
| Handheld.Program.RunNextInstruction | 08/08.py:21-31 | acc adds its argument and advances; jmp adds its argument to pc; nop advances; a bad pc or opcode raises and changes nothing |
| Handheld.Program.CheckForInfiniteLoop | 08/08.py:33-41 | returns the verdict of `Run` from the current state and leaves the program in its final state |
| Handheld.Flip | 08/08.py:48-52 | the copy differs only at i, where jmp and nop are swapped and the argument kept |
| Handheld.FlipFlip | 08/08.py:48-52 | swapping twice restores the code |
| Handheld.FixFound | 08/08.py:44-57 | a result (i, acc) swaps a jmp/nop at i whose program ends with accumulator acc, and every earlier swap loops |
| Handheld.FixNone | 08/08.py:44-59 | None exactly when every swap loops |
| Handheld.FixCrash | 08/08.py:54-55 | an exception out of the search is the exception of some swapped program |
| Handheld.FindCorruptedInstruction | 08/08.py:43-59 | returns the specified search result; the original code is a value and is never changed |
| XmasCipher.ParseInput | 09/09.py:7-14 | the preamble is the first `preamble_size` lines and the numbers are all the lines after it |
| XmasCipher.ReadPreambleOk | 09/09.py:8-11 | the preamble is read exactly when the first `preamble_size` lines exist and all hold integers, and it holds their values in order |
| XmasCipher.ReadPreambleErr | 09/09.py:8-11 | the first bad line among the preamble raises its error; a file that ends first, every line good, gives the RuntimeError of the exhausted generator |
| XmasCipher.PreambleValueError | 09/09.py:8-11 | a bad line within the first `preamble_size` lines gives ValueError, even when the file is too short |
| XmasCipher.PreambleRuntimeError | 09/09.py:8-11 | RuntimeError exactly when the file is shorter than the preamble and every line holds an integer |
| XmasCipher.BadLineBeforeEnd | 09/09.py:8-11 | with preamble 5, the one-line file `x` raises ValueError, not RuntimeError |
| XmasCipher.PairsWithIff | 09/09.py:17 | the inner search finds a later entry with a different value adding up to n exactly when one exists |
| XmasCipher.IsSumIff | 09/09.py:16-17 | `is_sum` holds exactly when entries at two different positions, with different values, add up to n |
| XmasCipher.ShortWindowNeverSums | 09/09.py:17 | a window of fewer than two entries makes no sum |
| XmasCipher.EqualWindowNeverSums | 09/09.py:17 | pairs of equal values are skipped, so a window of one repeated value makes no sum |
| XmasCipher.WindowAfter | 09/09.py:23-24 | the window keeps its length |
| XmasCipher.SlideWindow | 09/09.py:23-24 | dropping the oldest entry and appending n moves the window one position along the numbers |
| XmasCipher.FirstInvalidFound | 09/09.py:19-22 | a result is the first number that is not a sum of the `preamble_size` numbers just before it |
| XmasCipher.FirstInvalidNone | 09/09.py:19-24 | None exactly when every number is a sum of the numbers just before it |
| XmasCipher.WindowAfterIsLast | 09/09.py:19-24 | the deque is left holding the `preamble_size` numbers before the first invalid one |
| XmasCipher.Deque.Append | 09/09.py:24 | `append` adds at the right end |
| XmasCipher.Deque.PopLeft | 09/09.py:23 | `popleft` removes and returns the leftmost entry, and raises on an empty deque |
| XmasCipher.FindInvalidSum | 09/09.py:19-24 | returns the specified first invalid number and leaves the caller's deque holding the final window |
| Adapters.ParseInput | 10/10.py:7-8 | the set holds exactly the numbers on the lines; any line that is not a number makes `int` raise ValueError |
| Adapters.NextAdapter | 10/10.py:12-15 | the nearest adapter 1 to 3 jolts above the joltage, with nothing in between; None exactly when none of the three is present |
| Adapters.FindNextAdapter | 10/10.py:12-15 | the loop over the differences 1..3 returns the specified nearest adapter |
| Adapters.ChainFromSteps | 10/10.py:17-25 | a finished chain has one entry per adapter plus the outlet and the device, climbs 1 to 3 jolts per step and ends 3 above its last adapter |
| Adapters.ChainFromContents | 10/10.py:20-23 | the entries between the outlet and the device are exactly the adapters |
| Adapters.ChainFromShape | 10/10.py:17-25 | a finished chain is strictly increasing, uses every adapter once and steps by 1 to 3 |
| Adapters.ChainFromSorted | 10/10.py:17-25 | conversely, any increasing sequence over exactly the adapters with steps of 1 to 3 ending 3 above its last is the chain the loop builds |
| Adapters.ChainOfSorted | 10/10.py:17-25 | the whole chain from the outlet at 0 is that sorted sequence, the leading 0 included |
| Adapters.ChainFromOkIff | 10/10.py:20-23 | the chain is built without KeyError exactly when every adapter lies above the outlet and has an adapter (or the outlet) 1 to 3 jolts below |
| Adapters.ReachableStep | 10/10.py:21-23 | taking the nearest adapter keeps that reachability condition, in both directions |
| Adapters.LeftoverEmpty | 10/10.py:20-23 | the set is emptied exactly when the chain completes; otherwise what remains is a subset of the adapters |
| Adapters.IntSet.Remove | 10/10.py:23 | `set.remove` drops a present element and raises KeyError on a missing one, leaving the set unchanged |
| Adapters.GetAdapterChain | 10/10.py:17-25 | the while loop returns the specified chain (or KeyError) and leaves the caller's set holding the unreached adapters |
| Adapters.DiffsSum | 10/10.py:29 | the differences of consecutive chain entries add up to last minus first |
| Adapters.SumByCounts | 10/10.py:29-30 | for steps of 1 to 3 the sum is ones + 2·twos + 3·threes |
| Adapters.DistributionTotals | 10/10.py:27-30 | only differences 1, 2, 3 occur, there are one more than the adapters, and ones + 2·twos + 3·threes equals the device joltage, 3 above the last adapter |
| Adapters.GetDifferenceDistribution | 10/10.py:27-30 | returns the `Counter` of the chain's differences and empties the caller's set like `get_adapter_chain` |
| Adapters.SampleAdapterChain | 10/10.py:33-37 | the sample adapters give the expected chain 0, 1, 4, …, 19, 22 |
| Adapters.SampleDistribution | 10/10.py:39-42 | the sample's differences are seven 1s and five 3s |
| Seating.SeatOf | 11/11.py:12-16 | the three layout characters map to seats; any other character raises KeyError |
| Seating.ParseRender | 11/11.py:18-19 | parsing the rendering of a row gives the row back |
| Seating.OccupiedAroundInGrid | 11/11.py:32-38 | an occupied neighbour lies inside the grid: negative or past-the-end positions count as free |
| Seating.NeighbourCount | 11/11.py:27-43 | the sum over the eight listed positions is the number of occupied cells around the seat |
| Seating.AllFreeIff | 11/11.py:27-40 | `all(not is_occupied …)` holds exactly when no cell around the seat is occupied |
| Seating.NewSeatStateRules | 11/11.py:24-45 | floor stays floor; an empty seat with no occupied cell around fills; an occupied seat with four or more around empties; otherwise the seat keeps its state |
| Seating.CornerStaysOccupied | 11/11.py:32-45 | a corner seat has at most three neighbours on the grid, so an occupied corner never empties |
| Seating.IterateShape | 11/11.py:47-52 | `iterate` succeeds exactly when no row is shorter than the first (always for the empty grid); the result has as many rows as the grid, the first row's width, and every cell follows the seat rules |
| Seating.IterateKeepsDimensions | 11/11.py:47-52 | a rectangular grid keeps its dimensions |
| Seating.IterateFromEmpty | 11/11.py:39-52 | from a layout with no occupied seat one round fills every seat and leaves floor alone |
| Seating.IterateSeats | 11/11.py:47-52 | the nested loops return the specified next grid, `[]` for the empty grid, or IndexError when a row is shorter than the first |
| Seating.ConvergeIsFixedPoint | 11/11.py:54-59 | the converged grid is left unchanged by `iterate` |
| Seating.ConvergeFixedPoint | 11/11.py:54-59 | a grid that is already a fixed point converges to itself |
| Seating.ConvergeMoreFuel | 11/11.py:54-59 | once the loop has stopped, allowing more rounds does not change the answer |
| Seating.ConvergeSeats | 11/11.py:54-59 | the loop returns the specified converged grid, the IndexError of a round, or `None` when `fuel` rounds reach no fixed point |
| Seating.EmptyGrid | 11/11.py:47-58 | `iterate([])` is `[]`, so `converge([])` returns `[]` after one round |
| Seating.RowCountMultiset | 11/11.py:61-62 | `row.count(OCCUPIED)` is the number of occupied seats in the row |
| Seating.CountOccupiedZero | 11/11.py:61-62 | the count is zero exactly when no seat is occupied |
| Navigation.ParseValueText | 12/12.py:29 | `int()` reads back the decimal text of any value, sign included |
| Navigation.ParseRender | 12/12.py:18-29 | parsing the text of an action ("F10", "R90") gives the action back |
| Navigation.TurnRules | 12/12.py:61-66 | a turn succeeds exactly when its value is a multiple of 90; it keeps x and y, leaves the heading in 0..3 and moves it by value/90 (right) or −value/90 (left) modulo 4 |
| Navigation.CardinalMoves | 12/12.py:35-40 | N, E, S and W move `value` steps along +y, +x, −y and −x and keep the heading |
| Navigation.ForwardFollowsHeading | 12/12.py:59-60 | F moves exactly as the cardinal action of the current heading; a non-cardinal heading raises KeyError |
| Navigation.TurnBack | 12/12.py:61-66 | a left turn followed by a right turn by the same multiple of 90 restores the ship |
| Navigation.RightTurnsClockwise | 12/12.py:10-13 | a right turn by 90 goes north, east, south, west and back to north |
| Navigation.Ship.constructor | 12/12.py:43-46 | `Ship(x, y, heading)` stores its arguments |
| Navigation.Ship.Start | 12/12.py:43 | `Ship()` is at the origin heading east |
| Navigation.Ship.Move | 12/12.py:54-56 | `move` adds `amount` times the vector to the position and keeps the heading |
| Navigation.Ship.DoAction | 12/12.py:58-68 | `do_action` makes the ship the specified next state; a raised error leaves it unchanged |
| Navigation.SampleTrace | 12/12.py:73-99 | from `Ship()` the five test actions pass through exactly the five expected ships |
| Buses.BusTextParses | 13/13.py:11 | a bus entry's text ("x" or the decimal id) parses back to the entry and holds no comma |
| Buses.ParseRender | 13/13.py:9-12 | parsing a two-line input made of the time and the comma-joined buses gives both back |
| Buses.JoinEnd | 13/13.py:11 | joined bus texts end in a non-space character, so `rstrip` removes only the newline |
| Buses.NextMultipleLeast | 13/13.py:14-15 | for a positive factor the result is the least multiple of the factor strictly above `num` |
| Buses.NextMultipleTests | 13/13.py:46-50 | `get_next_multiple` gives 9, 10, 80 and 944 on the four test cases |
| Buses.RealBusesMembers | 13/13.py:18-25 | the ids are exactly the buses in the list, 'x' skipped |
| Buses.FirstEarliest | 13/13.py:19 | `min` by departure returns an id of the list with its departure, no later than any other, and the first such in list order |
| Buses.NextBusEarliest | 13/13.py:17-19 | with positive ids the chosen bus is listed, departs after `time` at a multiple of its id, and no listed bus leaves strictly between `time` and that departure |
| Buses.SampleNextBus | 13/13.py:52-53 | the test timetable at 939 gives bus 59 at 944 |
| Buses.ModsModuli | 13/13.py:24-25 | the moduli of `mods` are the real buses in order |
| Buses.ModsComplete | 13/13.py:24 | every listed bus contributes the pair (id − index, id) |
| Buses.ModsSound | 13/13.py:24 | every pair of `mods` comes from a listed bus and its index |
| Buses.SumOneTerm | 13/13.py:32 | a sum of multiples of d but one entry has that entry's remainder modulo d |
| Buses.SumAllMultiples | 13/13.py:32 | a sum of multiples of d is a multiple of d |
| Buses.TermRemainders | 13/13.py:28-31 | each term is a multiple of every other modulus and has its own `a` as remainder modulo its own |
| Buses.InverseByFermat | 13/13.py:29-30 | `b * (b**(m-2) % m)` is 1 modulo a prime m not dividing b |
| Buses.PowMod | 13/13.py:30 | powers respect remainders |
| Buses.IdsAtLeastTwo | 13/13.py:28-30 | prime ids are at least 2, so `m - 2` is a valid exponent |
| Buses.SumResidue | 13/13.py:32 | the sum of the terms is congruent to each pair's `a` modulo its modulus |
| Buses.CongruenceStep | 13/13.py:32 | reducing modulo M keeps the residue modulo each id, so the time plus the bus's index is a multiple of its id |
| Buses.SerendipityCorrect | 13/13.py:23-32 | for distinct prime ids the result t lies in [0, M) and each bus at index i leaves at t + i |
| Buses.SameResidues | 13/13.py:23-32 | two such times differ by a multiple of every id |
| Buses.DiffOfMultiples | 13/13.py:32 | the difference of two multiples of m is a multiple of m |
| Buses.SerendipityUnique | 13/13.py:23-32 | any time in [0, M) at which every bus leaves at its offset is the result |
| Buses.WithinOnePeriod | 13/13.py:32 | two values in [0, M) differing by a multiple of M are equal |
| Buses.SmallPrimes | 13/13.py:57-63 | the ids of the tests up to 67 are prime |
| Buses.LargePrimes | 13/13.py:63 | 1789 and 1889 are prime |
| Buses.SampleFiveSeven | 13/13.py:57 | `[5, 7]` gives 20 |
| Buses.SampleFiveXSeven | 13/13.py:58 | `[5, 'x', 7]` gives 5 |
| Buses.SampleSeventeen | 13/13.py:59 | `[17, 'x', 13, 19]` gives 3417 |
| Buses.SampleSixtySeven | 13/13.py:60 | `[67, 7, 59, 61]` gives 754018 |
| Buses.SampleSixtySevenX | 13/13.py:61 | `[67, 'x', 7, 59, 61]` gives 779210 |
| Buses.SampleSixtySevenSevenX | 13/13.py:62 | `[67, 7, 'x', 59, 61]` gives 1261476 |
| Buses.SampleLarge | 13/13.py:63 | `[1789, 37, 47, 1889]` gives 1202161486 |
| Buses.SampleCommented | 13/13.py:56 | the commented-out case `[7, 13, 'x', 'x', 59, 'x', 31, 19]` gives 1068781 |
| Arith.Fermat | 13/13.py:30 | Fermat's little theorem: x^(p−1) ≡ 1 modulo a prime p not dividing x |
| Arith.Euclid | 13/13.py:30 | a prime dividing a product divides a factor |
| Arith.ProductSplit | 13/13.py:26-29 | M is each id times the product of the others, so `M // m` is that product |
| Arith.ProductExceptDivisible | 13/13.py:29 | `M // m_k` is a multiple of every other id |
| Arith.ProductExceptNotDivisible | 13/13.py:29-30 | for distinct primes, `M // m_k` is not a multiple of m_k |
| Arith.ProductDivides | 13/13.py:26 | a multiple of each of distinct primes is a multiple of their product M |
| Arith.PrimeByTrial | 13/13.py:57-63 | no divisor from 2 up to r with r² > n proves n prime |
| Docking.Reverse | 14/14.py:9 | `mask_str[::-1]` puts the last character first |
| Docking.BitsWhereBits | 14/14.py:10-11 | `sum(1 << i ...)` over the selected indices sets exactly the bits of the selected characters |
| Docking.FloatingFromShape | 14/14.py:12 | the listed positions ascend and are exactly the 'X' positions |
| Docking.MaskBits | 14/14.py:8-12 | bit i of `ones_mask` is set exactly when character i from the end is '1', bit i of `zeroes_mask` exactly when it is not 'X', and `floating_bits` lists the 'X' positions in ascending order |
| Docking.CombinationsMembers | 14/14.py:16 | `combinations(xs, r)` of an ascending list yields exactly its ascending sub-lists of length r |
| Docking.CombinationsDistinct | 14/14.py:16 | no combination is yielded twice |
| Docking.CombinationsCount | 14/14.py:16 | there are C(len(xs), r) combinations of size r |
| Docking.SubsetsFromMembers | 14/14.py:15-17 | the sizes from r on yield the ascending sub-lists of at least r entries |
| Docking.SubsetsExactlyOnce | 14/14.py:14-17 | `floating_bit_subsets` yields every subset of the floating bits exactly once, 2^k in all |
| Docking.SubsetBitsBits | 14/14.py:22 | `sum(1 << bit for bit in subset)` sets exactly the subset's bits |
| Docking.AddressBits | 14/14.py:20-22 | a written address has 1 under a '1', the address's bit under any other non-'X' character, the subset's bit under an 'X', and 0 past the mask |
| Docking.AddressesExactly | 14/14.py:19-23 | the addresses written are exactly those that fit the mask |
| Docking.AddressInjective | 14/14.py:20-22 | two subsets give the same address only when they are equal |
| Docking.AddressesDistinct | 14/14.py:19-23 | `apply` writes 2^k pairwise distinct addresses |
| Docking.WritesStep | 14/14.py:21-23 | one more `mem[addr] = n` adds one entry to the writes so far |
| Docking.AfterLastSpace | 14/14.py:32 | `rsplit(' ', 1)[-1]` is the space-free tail of the string that follows its last space, or all of it |
| Docking.AfterLastSpaceOf | 14/14.py:32 | after a space, a space-free text is what `rsplit(' ', 1)[-1]` returns |
| Docking.ParseWriteLine | 14/14.py:34-35 | a line `mem[a] = n` followed by a newline matches and gives a and n back |
| Docking.StepWrite | 14/14.py:19-35 | a write keeps the mask, leaves every non-fitting address as it was and sets every fitting address to n |
| Docking.StepMask | 14/14.py:31-32 | a mask line keeps the memory and installs the mask after its last space |
| Docking.Program.constructor | 14/14.py:26-28 | a new program has an empty memory, no mask and the given input |
| Docking.Program.Apply | 14/14.py:19-23 | the loop leaves the memory as the old memory overwritten with n at every written address |
| Docking.Program.RunLine | 14/14.py:30-35 | `run_line` moves the program to the specified next state, or raises AttributeError without a mask or on a line that is not a write |
| Docking.Program.Run | 14/14.py:37-39 | `run` runs the input lines in order and stops at the first error |
| Docking.Program.Sum | 14/14.py:41-42 | `sum` is the total of the memory's values |
| Docking.SumValuesRemove | 14/14.py:42 | the total does not depend on the order the values are added in |
| Docking.PaddedMask | 14/14.py:8-12 | leading zeros in a mask string only widen `zeroes_mask` |
| Docking.FirstMask | 14/14.py:46-49 | the first test mask has ones 18, zeroes 2^36 − 1 − 33 and floating bits [0, 5] |
| Docking.SecondMask | 14/14.py:55-58 | the second test mask has ones 0, zeroes 2^36 − 1 − 11 and floating bits [0, 1, 3] |
| Docking.TwoBitSubsets | 14/14.py:14-17 | the subsets of [0, 5] in `itertools` order |
| Docking.ThreeBitSubsets | 14/14.py:14-17 | the subsets of [0, 1, 3] in `itertools` order |
| Docking.FirstApply | 14/14.py:51-53 | address 42 under the first mask writes to 26, 27, 58 and 59 |
| Docking.SecondApply | 14/14.py:59 | address 26 under the second mask writes to 16, 17, 18, 24, 19, 25, 26 and 27 |
| Docking.TestWrites | 14/14.py:51-60 | the memory after the two test writes is the one the test expects |
| Docking.RunTestProgram | 14/14.py:30-39 | the test's two masks and writes, run as a program from an empty memory, leave the test's memory |
| Docking.TestMemorySum | 14/14.py:41-66 | that memory sums to 208 |
| Bits.OrBits | 14/14.py:20 | bit i of `a \| b` is set exactly when it is set in a or in b |
| Bits.AndBits | 14/14.py:21 | bit i of `a & b` is set exactly when it is set in both |
| Bits.PowerBits | 14/14.py:10-22 | `1 << k` has bit k and no other set |
| Bits.BitsEqual | 14/14.py:19-23 | two numbers with the same bits are equal |
| Bits.AddClearBit | 14/14.py:10-22 | summing powers of two with distinct bits is or-ing them |
| Recitation.Iterate | 15/15.py:7-21 | a new number is recorded as (None, turn) and spoken itself; a known number speaks 0 if its first field is None and last − previous otherwise; the spoken number's entry becomes (its old last turn or None, turn) and every other entry is kept |
| Recitation.IterateValid | 15/15.py:14-20 | a turn keeps every entry (p, l) with 1 ≤ l ≤ turn and p None or p < l, and a spoken age is never negative |
| Recitation.PlayValid | 15/15.py:24-30 | the table stays valid through every turn of the game |
| Recitation.MemoryGame | 15/15.py:23-31 | the turn loop returns what the turn-by-turn definition of the game gives |
| Recitation.ErrPersists | 15/15.py:26-29 | once a turn raises, the game raises |
| Recitation.PlayOk | 15/15.py:26-30 | with starting numbers every turn speaks a number |
| Recitation.GameFails | 15/15.py:25-31 | `memory_game` raises UnboundLocalError exactly when `max_turns` < 1 or there are no starting numbers |
| Recitation.LastSpokenIsLast | 15/15.py:8-13 | the reference's previous utterance is the latest earlier turn with that number, and None means there is none |
| Recitation.TrackStart | 15/15.py:20-28 | speaking a distinct starting number keeps the table equal to the last two turns of each number |
| Recitation.TrackReply | 15/15.py:8-29 | a reply turn keeps the table equal to the last two turns of each number |
| Recitation.PlayTracks | 15/15.py:7-30 | with distinct starting numbers, after every turn the table holds each spoken number's last two turns and `n` is the number the puzzle speaks |
| Recitation.GameMatchesRecitation | 15/15.py:23-31 | with distinct starting numbers, `memory_game(input, t)` is the number the puzzle's rule speaks on turn t |
| Recitation.StartingNumbers | 15/15.py:27-29 | with distinct starting numbers, turns 1 to len(input) speak the starting numbers in order |
| Recitation.SampleRecited | 15/15.py:35-36 | from 0, 3, 6 the puzzle speaks 0, 3, 3, 1, 0, 4, 0 on turns 4 to 10 |
| Recitation.SampleGame | 15/15.py:34-39 | `memory_game([0, 3, 6], i + 1)` is the i-th expected value for the first ten turns |
| Tickets.ParseRule | 16/16.py:15-18 | a parsed rule has a name free of ':' and exactly two ranges |
| Tickets.ParseRangeText | 16/16.py:11-13 | `parse_range("a-b")` is `range(a, b + 1)`, the inclusive interval a..b |
| Tickets.ParseRuleLine | 16/16.py:15-18 | "name: a-b or c-d" parses to the rule named `name` with ranges a..b and c..d |
| Tickets.ParseTicketLine | 16/16.py:20-21 | a line of comma-separated numbers parses back to the numbers |
| Tickets.BlankFrom | 16/16.py:25-27 | the rules end at the first blank line, or at the end of the file |
| Tickets.ParseInputLines | 16/16.py:23-37 | a file of rules, a blank line, your ticket under its header, a blank line and the nearby tickets under theirs parses back to those parts |
| Tickets.AnyRangeExists | 16/16.py:39-40 | `passes_rule` holds exactly when one of the rule's ranges contains n |
| Tickets.PassesAnyRuleExists | 16/16.py:42-43 | `passes_any_rule` holds exactly when some rule passes n |
| Tickets.PassesRuleLine | 16/16.py:15-40 | a parsed rule passes n exactly when a ≤ n ≤ b or c ≤ n ≤ d |
| Tickets.InvalidFieldsMembers | 16/16.py:49 | the invalid fields are the ticket's values that pass no rule, and no more of them than the ticket has |
| Tickets.ErrorRateFlag | 16/16.py:45-50 | the flag is set exactly when some value passes no rule, and without it the sum is 0 |
| Tickets.ErrorRateAppend | 16/16.py:48-50 | the error rate of two runs of values together combines their flags and adds their sums |
| Tickets.InvalidZero | 16/16.py:45-50 | an invalid 0 gives (True, 0) where a valid ticket gives (False, 0): only the flag tells them apart |
| Tickets.TestRulesAccept | 16/16.py:87-92 | the test rules together accept 1-3, 5-11 and 13-50 |
| Tickets.TestErrorRates | 16/16.py:102-106 | the test's four nearby tickets have error rates (False, 0), (True, 4), (True, 55) and (True, 12) |
| Tickets.ValidTicketsMembers | 16/16.py:62 | the valid tickets are the nearby tickets whose every value passes some rule |
| Tickets.PrunedExactly | 16/16.py:62-69 | after pruning, rule q is possible for field f exactly when field f of every valid ticket passes it |
| Tickets.KeepsNextField | 16/16.py:66-69 | one field step removes the current rule from that field exactly when the field's value fails it |
| Tickets.KeepsNextTicket | 16/16.py:65-69 | finishing a ticket's fields extends the checked tickets by one |
| Tickets.KeepsNextRule | 16/16.py:64-69 | finishing every ticket for a rule settles that rule for every field |
| Tickets.KeepsPossible | 16/16.py:63-69 | after the last rule the loops' sets are the pruned sets |
| Tickets.RemovedFromOthersShape | 16/16.py:52-59 | `remove_from_other_sets` never touches set i, takes n and nothing else from every other set, and changes something exactly when n was in another set |
| Tickets.RemoveFromOtherSets | 16/16.py:52-59 | the loop leaves the sets as specified and returns True exactly when it removed n from some other set |
| Tickets.OnlyIs | 16/16.py:77 | `next(iter(s))` of a one-element set is its element |
| Tickets.TotalWithin | 16/16.py:73-79 | shrinking sets lower the total size, strictly when one of them shrinks, so the `while True` loop ends |
| Tickets.PassWithin | 16/16.py:74-77 | a pass only shrinks the sets, and its `changed` is True exactly when it changed them |
| Tickets.EliminateWithin | 16/16.py:73-79 | elimination only shrinks each field's set |
| Tickets.PassStable | 16/16.py:75-79 | a pass that changes nothing finds every one-element set's element in no other set |
| Tickets.EliminateExclusive | 16/16.py:73-79 | when elimination stops, no one-element set shares its element with another set |
| Tickets.RemovedKeeps | 16/16.py:52-77 | removing a settled rule from the other fields loses no assignment of distinct possible rules |
| Tickets.PassKeeps | 16/16.py:74-77 | a pass loses no such assignment |
| Tickets.EliminateKeeps | 16/16.py:73-79 | elimination loses no such assignment |
| Tickets.Resolved | 16/16.py:62-79 | after pruning and elimination each field's set holds only rule indices |
| Tickets.GetFields | 16/16.py:61-82 | the loops return the specified outcome: IndexError when a valid ticket is longer than yours, AssertionError when a field does not end with exactly one rule, otherwise the map of names to your ticket's values |
| Tickets.PruneSets | 16/16.py:63-69 | the pruning loops leave each field exactly the rules every valid ticket's value in that field passes, and fail exactly when some valid ticket is longer than yours (and there is a rule) |
| Tickets.EliminateSets | 16/16.py:73-79 | the passes of elimination, repeated until one changes nothing, leave the sets the specified elimination gives |
| Tickets.Chosen | 16/16.py:81-82 | on success every field's set is a single rule index |
| Tickets.FieldsSound | 16/16.py:61-82 | on success the fields get distinct rules, and each field's rule passes that field of every valid ticket |
| Tickets.FieldsUnique | 16/16.py:61-82 | on success any assignment of distinct possible rules is the one found |
| Tickets.AssignAt | 16/16.py:82 | with distinct names, the dict maps each chosen rule's name to your ticket's value at its field |
| Tickets.AssignKeys | 16/16.py:82 | the dict's keys are the chosen rules' names |
| Tickets.FieldsMap | 16/16.py:81-82 | with distinct rule names, `get_fields` maps each field's rule name to your ticket's value there, and has no other keys |
| Tickets.SecondPruned | 16/16.py:62-69 | pruning the puzzle's second example leaves row for field 0, class or row for field 1 and all three for field 2 |
| Tickets.SecondEliminate | 16/16.py:73-79 | elimination settles row, then class, then seat |
| Tickets.SecondFields | 16/16.py:108-111 | the puzzle's second example resolves to {class: 12, row: 11, seat: 13} |
| Cubes.InitialCells | 17/17.py:5-11 | a cell is read exactly when it is (x, y, 0, 0) with `#` at column x of the rstripped line y |
| Cubes.ParseInput | 17/17.py:5-11 | `parse_input`'s two loops build exactly the set of cells read from the lines |
| Cubes.VisitAt | 17/17.py:20-23 | the visit with loop offsets a, b, e, f (each 0..2) is the cell at c + (a-1, b-1, e-1, f-1) |
| Cubes.Digits | 17/17.py:20-23 | every visit index below 81 is a combination of four loop offsets |
| Cubes.VisitInjective | 17/17.py:20-23 | the four loops never visit a cell twice |
| Cubes.VisitedMembers | 17/17.py:20-25 | the visited cells are the first k visits, minus the centre |
| Cubes.VisitedAll | 17/17.py:20-25 | the loops, skipping the centre, visit exactly the 80 cells that differ by at most 1 in every coordinate |
| Cubes.CountIsCard | 17/17.py:19-27 | the count over the first k visits is the number of active cells among them |
| Cubes.CountIsNeighbours | 17/17.py:19-27 | the count over all 81 visits is the number of active neighbours |
| Cubes.BridgeW | 17/17.py:23-27 | the `ww` loop's count adds to the count over the visits before it |
| Cubes.BridgeZ | 17/17.py:22-27 | the same for the `zz` loop |
| Cubes.BridgeY | 17/17.py:21-27 | the same for the `yy` loop |
| Cubes.BridgeX | 17/17.py:20-27 | the `xx` loop's count equals the count over the visits it covers |
| Cubes.LoopsCountNeighbours | 17/17.py:19-27 | the four loops together count the active neighbours |
| Cubes.CountWMonotone | 17/17.py:23-27 | the `ww` loop's count only grows |
| Cubes.CountZMonotone | 17/17.py:22-27 | the `zz` loop's count only grows |
| Cubes.CountYMonotone | 17/17.py:21-27 | the `yy` loop's count only grows |
| Cubes.CountXMonotone | 17/17.py:20-27 | the `xx` loop's count only grows |
| Cubes.EarlyReturn | 17/17.py:29-31 | once the partial count exceeds 3, the cell cannot end up active, so the early return gives the same answer as the full count |
| Cubes.ShouldActivate | 17/17.py:17-36 | active with 2 or 3 active neighbours among the 80, inactive with exactly 3: the result is the rule, early return included |
| Cubes.TracksStep | 17/17.py:48-64 | one more cell keeps each running min/max a bound of the cells seen, None only before the first cell |
| Cubes.TracksBounds | 17/17.py:48-64 | after all cells, the bounds make a box containing every cell, with min <= max on each axis |
| Cubes.ActiveInGrownBox | 17/17.py:66-70 | any cell the rule makes active lies in the cells' bounding box grown by 1 on every axis |
| Cubes.FoundMembers | 17/17.py:66-72 | at each point of the four loops, the new set holds the activated cells of the grown box that the loops have passed |
| Cubes.FoundAll | 17/17.py:66-74 | after the loops, the new set holds exactly the activated cells |
| Cubes.BoundingBox | 17/17.py:39-64 | no box exactly when there are no cells; otherwise a box that bounds every cell |
| Cubes.Iterate | 17/17.py:38-74 | a TypeError exactly for no cells; otherwise the new set is exactly the cells the rule makes active, anywhere in the grid |
| Cubes.LoneCellDies | 17/17.py:33-36 | a single active cell leaves nothing active |
| Cubes.RowOfThree | 17/17.py:33-36 | three in a row: the middle survives, the ends die, and cells beside the middle are born |
| Cubes.SampleHash | 17/17.py:5-11 | the sample's `#` positions |
| Cubes.SampleParse | 17/17.py:78-80 | the sample file parses to the five cells the test expects |
| Operations.IsSingleExprInParens | 18/18.py:8-19 | the paren-counting loop returns what `SingleGroup` states: False without a leading '(', whether the first group closes at the last character, IndexError on an empty string, and `None` when no group closes, which the `while` of `parse_string` reads as false |
| Operations.SingleGroupIff | 18/18.py:8-19 | True exactly for a string that starts with '(' whose matching ')' is its last character |
| Operations.GetEndToken | 18/18.py:21-35 | the reversed scan returns what `EndToken` states: the last token and the text before it |
| Operations.EndTokenSpace | 18/18.py:31-34 | a last token without spaces and not ending in ')' is split off at the space before it |
| Operations.EndTokenGroup | 18/18.py:22-30 | a trailing balanced group is split off without its parentheses, along with the space before it |
| Operations.StripGroup | 18/18.py:38-39 | the `while` loop strips a whole-string group and goes on as for its inside |
| Operations.ParseString | 18/18.py:37-54 | the recursive parser returns what `Parse` states, errors included |
| Operations.ParseChain | 18/18.py:37-54 | the text of any well-formed chain of numbers, groups and one-character operators parses to the left-leaning tree of that chain: no precedence, parentheses group |
| Operations.EvaluateFails | 18/18.py:59-67 | evaluation fails exactly when the tree holds an operator other than '+' or '*', and then raises Exception |
| Operations.EvaluateLeftToRight | 18/18.py:59-67 | a chain's tree evaluates to the strict left-to-right fold of its operators, groups first |
| Operations.EvaluateText | 18/18.py:56-57 | `evaluate_string` of a chain's text is its left-to-right value |
| OperationsExamples.ParseTwoOperands | 18/18.py:71 | '1 + 2' parses to Expression(1, '+', 2) |
| OperationsExamples.ParseLeftToRight | 18/18.py:72 | '1 + 2 * 3' parses left to right |
| OperationsExamples.ParseLong | 18/18.py:73-82 | the six-number chain parses to the left-leaning tree |
| OperationsExamples.ParseGroupRight | 18/18.py:83 | a right-hand group becomes the right operand |
| OperationsExamples.ParseNestedGroup | 18/18.py:84-89 | nested groups parse to the nested tree |
| OperationsExamples.ParseGroupLeft | 18/18.py:90 | a left-hand group becomes the left operand |
| OperationsExamples.Evaluate71 | 18/18.py:93 | evaluates to 71 |
| OperationsExamples.Evaluate51 | 18/18.py:94 | evaluates to 51 |
| OperationsExamples.Evaluate26 | 18/18.py:95 | evaluates to 26 |
| OperationsExamples.Evaluate437 | 18/18.py:96 | evaluates to 437 |
| OperationsExamples.Evaluate12240 | 18/18.py:97 | evaluates to 12240 |
| OperationsExamples.Evaluate13632 | 18/18.py:98 | evaluates to 13632 |
| OperationsExamples.UnknownOperator | 18/18.py:59-67 | '1 - 2' parses, and evaluating it raises Exception |
| OperationsExamples.OperatorOneChar | 18/18.py:47-48 | a two-character operator token fails the assertion on its length |
| OperationsExamples.BareNumber | 18/18.py:31-41 | a bare number is returned whole by `get_end_token` and does not unpack: ValueError |
| Messages.SplitRule | 19/19.py:16 | `re.split(r': \| \\\| ', ...)`: at least one piece |
| Messages.SplitAtPlain | 19/19.py:16 | text with no separator is a single piece |
| Messages.SplitAtPiece | 19/19.py:16 | a plain piece followed by `": "` or `" \| "` is cut off first and splitting goes on after the separator |
| Messages.Int | 19/19.py:20-21 | `int()` succeeds exactly when the text is an optionally signed decimal numeral, giving its value; ValueError otherwise |
| Messages.ParseIds | 19/19.py:20 | a successful read has one id per word |
| Messages.ParseAlternatives | 19/19.py:20 | a successful read has one sequence per piece |
| Messages.IntTextReads | 19/19.py:21 | `int()` reads back the text of any rule number |
| Messages.ParseIdTexts | 19/19.py:20 | `int()` reads every id back from its text |
| Messages.SplitSeqText | 19/19.py:20 | `split()` of a sequence's text gives back the texts of its ids |
| Messages.ParseSeqText | 19/19.py:20 | a sequence reads back from its text |
| Messages.SplitAltsText | 19/19.py:16 | the text of the alternatives splits at `" \| "` into the texts of the sequences |
| Messages.ParseSeqTexts | 19/19.py:20 | every list of non-empty sequences reads back from its texts |
| Messages.ParseRuleFromSplits | 19/19.py:15-21 | the corrected `parse_rule` is the number of the first piece with the body of the rest |
| Messages.ParseLiteralText | 19/19.py:17-21 | a literal rule reads back from its text |
| Messages.ParseAltsText | 19/19.py:16-21 | a rule of alternatives reads back from its text |
| Messages.PiecesAfterNumber | 19/19.py:16 | a number, `": "` and alternatives split into the number and the alternatives' pieces |
| Messages.ParseRuleText | 19/19.py:15-21 | round trip: every well-formed rule reads back from its text |
| Messages.RuleTextEnd | 19/19.py:16 | the text of a rule does not end in whitespace, so `rstrip` leaves it alone |
| Messages.ParseRuleLine | 19/19.py:15-21 | a rule's text with its newline, as read from a file, reads back the same |
| Messages.ParseLiteralIff | 19/19.py:17-18 | the corrected parser reads a literal exactly when the body after a single `": "` is quoted at both ends, and the literal is what lies between |
| Messages.AsWrittenDiffers | 19/19.py:17 | the code as written and the corrected parser differ only on a body after a single `": "` that opens a quote and does not close it |
| Messages.AsWrittenAgrees | 19/19.py:17 | everywhere else the two parsers agree |
| Messages.RuleTextClosed | 19/19.py:17 | the text of a well-formed rule has no unclosed quote |
| Messages.AsWrittenRuleText | 19/19.py:15-21 | the code as written also reads every well-formed rule back from its text |
| Messages.AsWrittenLiteralIff | 19/19.py:17-18 | the code as written reads a literal exactly when the body after a single `": "` starts with a quote; the literal is the body without its first and last characters |
| Messages.UnclosedQuote | 19/19.py:17-18 | on `0: "a` the code as written reads the empty literal while the corrected parser gives ValueError |
| Messages.MatchLiteral | 19/19.py:63-65 | a literal rule matches exactly the equal message |
| Messages.MatchAnyIff | 19/19.py:67 | `any()`: a match when some sequence matches and none before it fails; no match when none matches |
| Messages.AlternativesMatch | 19/19.py:63-67 | a rule of alternatives matches when one of its sequences does and the ones before it do not |
| Messages.LoopTrue | 19/19.py:43-51 | a match found by the split loop comes from a split point |
| Messages.MatchLength | 19/19.py:43-47 | a sequence of two or more ids matches only messages at least as long as the sequence |
| Messages.LoopFalse | 19/19.py:43-53 | no match from the split loop means no split point from that head length on |
| Messages.SequenceMatchIff | 19/19.py:40-53 | a sequence of two or more ids matches exactly when some split into a non-empty head and rest matches the first id and the remaining ids |
| Messages.RuleIndependent | 19/19.py:58-70 | for ranked rules the result does not depend on the rules entered above, which is what lets answers be cached |
| Messages.AnyIndependent | 19/19.py:67 | the same for `any()` over a rule's sequences |
| Messages.SeqIndependent | 19/19.py:35-56 | the same for a sequence |
| Messages.Matcher.MatchesRule | 19/19.py:58-70 | `message_matches_rule` with its caches: the uncached answer, caches staying valid |
| Messages.Matcher.MatchesSequence | 19/19.py:35-56 | `message_matches_sequence` with its caches: the uncached answer, caches staying valid |
| Messages.MessageMatches | 19/19.py:58-70 | a top-level call with empty caches gives the uncached answer |
| Messages.LinesOf | 19/19.py:25-28 | each line is blank or the outcome of parsing it as a rule |
| Messages.RStripAll | 19/19.py:32 | the messages are the remaining lines, each right-stripped |
| Messages.ReadRulesStep | 19/19.py:28-30 | one rule line: its parse error, AssertionError on a repeated number, or the rule entered and the loop going on |
| Messages.ReadRulesEnd | 19/19.py:26-27 | a blank line or the end of the file ends the rules, the messages starting after the blank line |
| Messages.ReadInput | 19/19.py:23-33 | the loop of `parse_input` computes `ParseInput` |
| Messages.ReadRulesBlock | 19/19.py:25-30 | a block of rule lines that parse fails on the assertion exactly when a number repeats |
| Messages.BlockRulesContents | 19/19.py:28-30 | with distinct numbers the rules are each line's rule under its number and nothing else |
| Messages.ParseInputBlock | 19/19.py:23-33 | `parse_input` succeeds exactly when the rule numbers are distinct; the rules are then each line's rule under its number and the messages the right-stripped remaining lines |
| Messages.RuleLineOutcome | 19/19.py:25-28 | a rule's text with its newline reads back under both readings |
| Messages.UnclosedInput | 19/19.py:17-33 | on the input `0: "a` and a blank line the code as written gives rule 0 the empty literal; the corrected reading fails |
| Messages.UpdateRules | 19/19.py:72-74 | rule 8 becomes `42 \| 42 8`, rule 11 becomes `42 31 \| 42 11 31`, and every other rule is kept |
| Messages.UpdatedRanked | 19/19.py:72-74 | the updated rules stay ranked when 8 ranks above 42 |
| MessagesExamples.PairFixed | 19/19.py:43-51 | a pair of fixed-length rules matches exactly a head of the first one's language and a rest of the second's |
| MessagesExamples.PairsFixed | 19/19.py:67 | a rule of two pairs of length-`K` ids matches exactly the length-`2K` words of either pair |
| MessagesExamples.SingleSequence | 19/19.py:67 | a rule of one sequence matches what the sequence matches |
| MessagesExamples.Test1Language | 19/19.py:79-84 | rule 0 of the first test matches exactly `aab` and `aba` |
| MessagesExamples.Test1Results | 19/19.py:106-109 | `test1results`: True, True, False, False, False |
| MessagesExamples.Test2Language | 19/19.py:87-94 | rule 0 of the second test is `a`, a word of rule 1, then `b` |
| MessagesExamples.Test2Results | 19/19.py:111-113 | `test2results`: True, False, True, False, False |
| MessagesExamples.BeforeNoMatch | 19/19.py:72-74 | before the update `aaab` does not match rule 0 `8 11` |
| MessagesExamples.AfterMatch | 19/19.py:72-74 | after the update `aaab` matches |
| MessagesExamples.UpdateRulesExample | 19/19.py:72-74 | `update_rules` turns the non-match of `aaab` into a match |
| Jigsaw.CanonicalBits | 20/20.py:26-27 | bit `i` of `canonicalize_edge` is set exactly when element `i` of the edge is true |
| Jigsaw.CanonicalBelow | 20/20.py:26-27 | an edge of `n` elements is a number below 2^n |
| Jigsaw.CanonicalAppend | 20/20.py:26-27 | appending an element adds its bit at the top |
| Jigsaw.Reverse | 20/20.py:66 | `list(reversed(s))`: same length, element `i` is element `n-1-i` |
| Jigsaw.ReverseEdge | 20/20.py:29-35 | the loop of `reverse_edge` computes `Reversed(edge, length)` |
| Jigsaw.ReversedIsEdge | 20/20.py:29-35 | the reversal is the number of the reversed list of the low `length` bits |
| Jigsaw.ReversedBits | 20/20.py:29-35 | `reverse_edge` mirrors the low `length` bits and sets none above them |
| Jigsaw.ReversedBelow | 20/20.py:29-35 | the reversal is below 2^length |
| Jigsaw.ReverseTwice | 20/20.py:29-35 | reversing twice gives back every edge below 2^length |
| Jigsaw.ReversedEdge | 20/20.py:26-35 | reversing the number of an edge gives the number of the reversed edge |
| Jigsaw.ReverseEdgeSample | 20/20.py:215-217 | `reverse_edge(0b001100010, 9) == 0b010001100` |
| Jigsaw.EdgeMin | 20/20.py:37-38 | the minimum is one of the edge and its reversal, and at most both |
| Jigsaw.GetEdgeMin | 20/20.py:37-38 | the method computes `EdgeMin` through the loop of `reverse_edge` |
| Jigsaw.EdgeMinReversed | 20/20.py:37-38 | an edge and its reversal have the same minimum, so borders match in either direction |
| Jigsaw.FirstColumn | 20/20.py:46 | `[row[0] for row in image]`: one entry per row |
| Jigsaw.LastColumn | 20/20.py:47 | `[row[-1] for row in image]`: one entry per row |
| Jigsaw.NewTile | 20/20.py:41-48 | a built tile is valid and keeps its image and number |
| Jigsaw.NewTileErr | 20/20.py:44-48 | `Tile(image, n)` raises IndexError exactly when there are no rows or some row is empty |
| Jigsaw.Determined | 20/20.py:41-48 | a tile is determined by its image and its number |
| Jigsaw.EdgeBits | 20/20.py:44-51 | the borders bit by bit: top is row 0 left to right, bottom the last row, left column 0 top to bottom, right the last column |
| Jigsaw.Rotated | 20/20.py:58-63 | the result tile, when there is one, is valid |
| Jigsaw.RotatedClockwise | 20/20.py:58-63 | the loops filling the new `length` by `length` image compute `Rotated` |
| Jigsaw.Flipped | 20/20.py:65-67 | every row reversed, the number kept |
| Jigsaw.GetOrientation | 20/20.py:69-85 | each orientation's chain of turns and flips gives a valid tile or the error of a turn |
| Jigsaw.RotatedSquare | 20/20.py:58-63 | a square tile turns into a square tile of the same size and number, cell (y, x) coming from (n-1-x, y) |
| Jigsaw.RotateFour | 20/20.py:58-63 | four clockwise turns give back the same square tile |
| Jigsaw.FlipTwice | 20/20.py:65-67 | flipping twice gives back the same tile |
| Jigsaw.FlippedEdges | 20/20.py:65-67 | a flip reverses the top and bottom borders and swaps left with right |
| Jigsaw.RotatedEdges | 20/20.py:58-63 | a turn brings the left border reversed to the top, the top to the right, the right reversed to the bottom and the bottom to the left |
| Jigsaw.RowText | 20/20.py:54-55 | one line of `as_image`: `#` for true, `.` for false, then a newline |
| Jigsaw.SampleTurns | 20/20.py:235-253 | the three turned pictures of the test |
| Jigsaw.SampleFlips | 20/20.py:255-273 | the flipped pictures of the test |
| Jigsaw.SampleOrientations | 20/20.py:219-273 | every assertion of the rotate-and-flip test, as printed by `as_image` |
| Jigsaw.TileMins | 20/20.py:116-117 | four border minima per tile |
| Jigsaw.OrientationMins | 20/20.py:69-85 | every orientation of a square tile exists, keeps the number and has the same border minima |
| Jigsaw.AllMins | 20/20.py:115-117 | four minima per tile |
| Jigsaw.CountMinsCounts | 20/20.py:114-121 | `edge_counts` holds exactly the minima that occur, each with its number of occurrences |
| Jigsaw.CountsCover | 20/20.py:127 | no `edge_counts[...]` lookup raises KeyError |
| Jigsaw.OnesAmong | 20/20.py:127 | the number of unmatched borders is at most the number of borders |
| Jigsaw.ClassifyMembers | 20/20.py:126-133 | each set holds exactly the numbers of the tiles with 0, 1 or 2 unmatched borders |
| Jigsaw.SortedTilesOk | 20/20.py:123-135 | `sort_tiles` succeeds exactly when every minimum occurs once or twice and four tiles have two unmatched borders; AssertionError otherwise |
| Jigsaw.SortedTilesContents | 20/20.py:111-139 | on success it returns the occurrence counts and the three sets of tiles by number of unmatched borders |
| Jigsaw.CountTile | 20/20.py:116-121 | the inner loop counts one tile's four minima |
| Jigsaw.CountEdges | 20/20.py:114-121 | the first loop computes the occurrence counts |
| Jigsaw.CountUnmatched | 20/20.py:127 | the sum counts the tile's unmatched borders |
| Jigsaw.ClassifyTiles | 20/20.py:126-133 | the second loop computes the classification |
| Jigsaw.SortTiles | 20/20.py:111-139 | the method computes `SortedTiles` |
| Jigsaw.Put | 20/20.py:93 | `tiles[k] = v` adds at most one entry |
| Jigsaw.PutNew | 20/20.py:93 | a new number goes after every tile read so far |
| Jigsaw.PutExisting | 20/20.py:93 | a number already present keeps its place and gets the new tile |
| Jigsaw.RowOf | 20/20.py:99 | `[c == '#' for c in line.rstrip()]` |
| Jigsaw.ParseInput | 20/20.py:87-103 | the loop of `parse_input` computes `ParsedTiles` |
| Jigsaw.ReadLinesErr | 20/20.py:91-99 | an error on a line ends the reading with that error |
| Jigsaw.ReadLinesKeyed | 20/20.py:91-99 | what the loop builds maps each number to a valid tile with that number |
| Jigsaw.ParsedTilesKeyed | 20/20.py:87-103 | the tiles returned are valid and keyed by their own numbers |
| Jigsaw.HeaderNumLine | 20/20.py:97 | the number of a `Tile n:` header reads back, and a header is not blank |
| Jigsaw.ReadRow | 20/20.py:99 | a printed row is not blank and reads back as itself |
| Jigsaw.StepRow | 20/20.py:98-99 | a row line adds its row to the open tile |
| Jigsaw.StepHeader | 20/20.py:96-97 | a header opens a tile with that number |
| Jigsaw.StepBlank | 20/20.py:92-95 | the blank line stores the open tile under its number and closes it |
| Jigsaw.ReadTile | 20/20.py:91-99 | a header, rows and a blank line store one tile under its number |
| Jigsaw.TilesOf | 20/20.py:87-103 | the dict to expect: each number with its tile, in input order |
| Jigsaw.ParseInputText | 20/20.py:87-103 | round trip: an input written in the puzzle's format reads back every tile under its own number, in order |
| Jigsaw.UnclosedTile | 20/20.py:101-102 | a last tile with no blank line after it fails the final assertion |
| Jigsaw.BlankBeforeHeader | 20/20.py:92-93 | a blank line where a header is expected builds `Tile([], None)`, which raises IndexError |
| Allergens.SetOf | 21/21.py:13 | `set(xs)`: exactly the elements of the list |
| Allergens.ParseLineMatch | 21/21.py:9-13 | a line that fits the pattern becomes the set of its ingredient words and the set of its allergens |
| Allergens.ParseLineFits | 21/21.py:9-13 | a line parses exactly when it fits `([a-z ]+) \(contains ([a-z, ]+)\)\n`; otherwise AttributeError on the missing match |
| Allergens.SplitWhitespaceJoin | 21/21.py:11 | `' '.join(ws).split()` gives back lower-case words |
| Allergens.SplitJoinComma | 21/21.py:12 | `', '.join(ws).split(', ')` gives back lower-case words |
| Allergens.ParseFoodLine | 21/21.py:9-13 | round trip: a food written in the puzzle's format reads back |
| Allergens.ParseInput | 21/21.py:15-16 | succeeds exactly when every line parses |
| Allergens.AllAllergens | 21/21.py:31 | exactly the allergens some food lists |
| Allergens.AllIngredients | 21/21.py:50 | exactly the ingredients some food has |
| Allergens.PossibleIngredientsMembers | 21/21.py:18-20 | the candidates are the ingredients of every food listing the allergen; TypeError of the empty `set.intersection()` exactly when no food lists it |
| Allergens.Candidate | 21/21.py:18-20 | for a listed allergen the candidates exist |
| Allergens.RemovedShape | 21/21.py:22-28 | the other allergens lose the ingredient, the allergen's own set is kept, and something changes exactly when another allergen held it |
| Allergens.RemoveFromOtherAllergens | 21/21.py:22-28 | the loop removes the ingredient from every other allergen's set in place and reports whether it removed anything |
| Allergens.TotalWithin | 21/21.py:35-41 | shrinking sets shrink the total size, strictly when one shrinks: why `while True` ends |
| Allergens.Only | 21/21.py:39-44 | `next(iter(s))` of a one-element set is its element |
| Allergens.Pass | 21/21.py:37-39 | one pass keeps one set per allergen |
| Allergens.PassWithin | 21/21.py:37-39 | a pass only shrinks sets and reports a change exactly when it made one |
| Allergens.Eliminate | 21/21.py:35-41 | the elimination keeps one set per allergen |
| Allergens.EliminateWithin | 21/21.py:35-41 | elimination only shrinks the sets |
| Allergens.EliminateExclusive | 21/21.py:35-41 | when elimination stops, no one-element set's ingredient is in another allergen's set |
| Allergens.EliminateKeeps | 21/21.py:22-41 | elimination keeps every way of giving each allergen its own candidate |
| Allergens.Candidates | 21/21.py:32 | the comprehension holds each allergen's candidates |
| Allergens.Assign | 21/21.py:44 | the final comprehension has exactly the allergens as keys |
| Allergens.AssignAt | 21/21.py:44 | each allergen maps to the element of its own set |
| Allergens.FindAllergens | 21/21.py:30-44 | the loops of `find_allergens` compute `FoundAllergens` for the set's iteration order |
| Allergens.FoundAllergensKeys | 21/21.py:31-44 | the result has one key for each allergen some food lists |
| Allergens.FoundAllergensSound | 21/21.py:30-44 | each allergen's ingredient is in every food listing it, and no ingredient has two allergens |
| Allergens.ExplainsSolves | 21/21.py:30-44 | an assignment explaining the foods picks one candidate per allergen, all different |
| Allergens.AssignUnique | 21/21.py:44 | a map choosing from one-element sets is the comprehension |
| Allergens.FoundAllergensUnique | 21/21.py:30-44 | any assignment that explains the foods is the one returned |
| Allergens.FoundAllergensOrderFree | 21/21.py:32-37 | the set's and dict's iteration order does not change a successful result |
| Allergens.FoundAllergensOk | 21/21.py:43-44 | the assertion passes when elimination leaves one ingredient per allergen |
| Allergens.OccurrencesBounds | 21/21.py:46-47 | at most one per food, and none exactly when no food has the ingredient |
| Allergens.OccurrencesAppend | 21/21.py:46-47 | counting over two lists of foods adds up |
| Allergens.AmongPick | 21/21.py:51-52 | taking one ingredient out removes its occurrences unless it has an allergen |
| Allergens.AmongAll | 21/21.py:50-52 | the sum over the set of all ingredients is the total for the ingredients without allergen |
| Allergens.CountWithNoAllergens | 21/21.py:49-52 | the loop over the ingredient set, in any order, sums the occurrences of the ingredients that are no allergen's value |
| Allergens.SampleOccurrences | 21/21.py:79-82 | the test's occurrence counts 1, 1, 1 and 2 |
| Allergens.SampleFindAllergens | 21/21.py:75-76 | whichever order the set iterates in, a passing `find_allergens` returns dairy: mxmxvkd, fish: sqjhc, soy: fvjkl |
| Allergens.SampleFindAllergensRuns | 21/21.py:75-76 | for the order dairy, fish, soy it passes its assertion and returns that mapping |
| Allergens.SampleNoAllergens | 21/21.py:83 | the test of `count_occurrences_with_no_allergens`: 5 |
| Allergens.SampleCandidates | 21/21.py:32 | the sample's candidates for dairy, fish and soy |
| Allergens.SampleFirstPass | 21/21.py:37-39 | the first pass: dairy frees fish's second candidate, then fish frees soy's |
| Allergens.SampleSecondPass | 21/21.py:37-41 | the second pass changes nothing |
| Allergens.SampleResolved | 21/21.py:35-41 | elimination on the sample leaves one ingredient per allergen |
| Combat.ReadDeck | 22/22.py:12-15 | the inner loop reads card lines up to a blank line or the end of the file, never past it; a bad card is ValueError |
| Combat.ReadDeckLines | 22/22.py:12-15 | the `for line in f` loop appending each card computes `ReadDeck` |
| Combat.ParseInput | 22/22.py:8-16 | the method computes `ParsedDecks`: each player's header skipped, then that player's cards |
| Combat.CardText | 22/22.py:15 | the text of a card is its decimal digits, after a minus sign if negative |
| Combat.CardTextReads | 22/22.py:15 | `int()` reads every card back from its text |
| Combat.CardLineReads | 22/22.py:13-15 | a card line is not blank and reads back as its card |
| Combat.ReadCards | 22/22.py:12-15 | the card lines of a deck read back as the deck, stopping at the blank line or the end |
| Combat.ParseDeckFile | 22/22.py:8-16 | round trip: an input file written from two decks reads back as those decks |
| Combat.AwardKeepsCards | 22/22.py:21-26 | awarding the two cards to either player keeps every card |
| Combat.DrawKeepsCards | 22/22.py:19 | drawing the top card splits a deck into that card and the rest |
| Combat.RoundFails | 22/22.py:19-20 | a round fails exactly when a deck is empty (IndexError) or the drawn cards are equal (AssertionError) |
| Combat.RoundKeepsCards | 22/22.py:18-26 | a round neither creates nor loses a card |
| Combat.RoundHigherTakes | 22/22.py:21-26 | the higher card's owner gains both cards at the bottom, their own first; the other deck loses its top |
| Combat.SampleRounds | 22/22.py:82-89 | the round trace of `test_play_round` |
| Combat.ScoreSnoc | 22/22.py:28-29 | a card put at the bottom adds itself and one more of every card above it |
| Combat.ScoreIsPrefixSums | 22/22.py:28-29 | the score is the sum of the suffix sums of the deck |
| Combat.ScoreNatural | 22/22.py:28-29 | for non-negative cards the score is non-negative, and zero only for a deck of zeros |
| Combat.PlayEnds | 22/22.py:31-34 | a finished game leaves one deck empty and every card in the other |
| Combat.GameScoreAllCards | 22/22.py:31-34 | the game's score is that of a deck holding every card of both starting decks |
| Combat.PlayMoreFuel | 22/22.py:32-33 | more rounds allowed do not change a game that ends within them |
| Combat.PlayStep | 22/22.py:32-33 | a game with cards on both sides is a round and then the rest of the game |
| Combat.CopyDeck | 22/22.py:36-37 | `copy_deck` is a prefix of the deck of length `min(n, len)`; ValueError exactly for a negative `n` |
| Combat.CopyAll | 22/22.py:36-37 | copying at most the whole deck takes that prefix |
| Combat.RecGame | 22/22.py:56-70 | a finished recursive game reports a winner of 0 or 1 |
| Combat.RecRound | 22/22.py:39-54 | a recursive round leaves two decks |
| Combat.RepeatWins | 22/22.py:61-70 | a configuration seen before ends the game at once, won by player 0 with their current deck |
| Combat.RecRoundPlain | 22/22.py:43-47 | without enough cards for a sub-game, a recursive round is a plain round |
| Combat.RecRoundSubGame | 22/22.py:43-45 | with enough cards the winner is the sub-game's winner on the copied top cards |
| Combat.RecRoundNegative | 22/22.py:43-44 | a negative card where a sub-game would start makes `islice` raise ValueError |
| Combat.RecRoundKeepsCards | 22/22.py:39-54 | a recursive round neither creates nor loses a card |
| Combat.RecGameKeepsCards | 22/22.py:56-70 | a recursive game neither creates nor loses a card |
| Combat.RecGameMoreFuel | 22/22.py:56-70 | more rounds allowed do not change a recursive game that ends within them |
| Combat.RecGameStep | 22/22.py:60-66 | an unseen configuration is recorded and one recursive round is played |
| Combat.Decks.PlayRound | 22/22.py:18-26 | `play_round` leaves the decks as `Round` says, or raises with the decks as `popleft` left them |
| Combat.Decks.PlayGame | 22/22.py:31-34 | `play_game` returns `GameScore` and leaves the decks at the end of `Play` |
| Combat.Decks.PlayRoundRecursive | 22/22.py:39-54 | `play_round_recursive` leaves the decks as `RecRound` says, the sub-game on a new object |
| Combat.Decks.PlayGameRecursive | 22/22.py:56-70 | `play_game_recursive` returns the winner and score of `RecGame` |
| CombatExamples.SamplePlay | 22/22.py:91-93 | the plain game on the sample decks ends after 29 rounds with player 2's score 306 |
| CombatExamples.SampleRecursiveResult | 22/22.py:95-102 | the recursive game on the sample decks gives (1, 291) |
| CrabCups.CupChar | 23/23.py:6 | `int()` of one character is its value when it is a decimal digit, else ValueError |
| CrabCups.ParseCupsDigits | 23/23.py:5-6 | the input reads exactly when it is all digits, each character becoming one cup with its value |
| CrabCups.ParseCupsOk | 23/23.py:5-6 | a line of digits reads as the cups those digits label |
| CrabCups.ListInsert | 23/23.py:21 | `list.insert` adds exactly one element |
| CrabCups.Max | 23/23.py:31-39 | `max(cups)` is a largest cup of the list |
| CrabCups.MaxIs | 23/23.py:31-39 | a largest cup is the one `max` returns |
| CrabCups.IndexOfFirst | 23/23.py:34-54 | `index(x)` is the first place holding `x` |
| CrabCups.PopNextKeepsCups | 23/23.py:8-17 | `pop_next_cups` moves `min(num, len)` cups from the list to the result and loses none |
| CrabCups.Clockwise | 23/23.py:9-14 | the `num` cups clockwise from a start |
| CrabCups.PopNextWraps | 23/23.py:8-17 | the cups taken are those clockwise from `start`, in order, wrapping to the front; the rest keeps its list order |
| CrabCups.InsertedKeepsCups | 23/23.py:19-21 | inserting adds exactly the moved cups |
| CrabCups.InsertedPlaces | 23/23.py:19-21 | the moved cups form one run at `start`, with the old cups on either side |
| CrabCups.InsertedNext | 23/23.py:20-21 | one more `insert` extends the run by one cup |
| CrabCups.SeekStep | 23/23.py:32-39 | one turn of the search: a label below every cup wraps to `max(cups)`, a missing one is decremented |
| CrabCups.DestinationRule | 23/23.py:29-39 | with some cup left and a positive current label, the search ends on the largest label below the current one, or the largest label if none is below |
| CrabCups.DestinationFails | 23/23.py:29-39 | the search never ends exactly when the current label is 0; ValueError of `max([])` exactly when no cup is left |
| CrabCups.Picked | 23/23.py:27 | three cups are picked |
| CrabCups.DestinationFound | 23/23.py:34 | the destination is on a cup of the circle |
| CrabCups.PlaceKeepsCups | 23/23.py:34-41 | putting the cups back loses and adds none |
| CrabCups.PopNextLabels | 23/23.py:27 | the cups left after a pick-up are labelled as the circle was |
| CrabCups.MoveStages | 23/23.py:23-41 | a move is its pick-up followed by placing the picked cups |
| CrabCups.PlaceBy | 23/23.py:29-41 | placing is finding the destination and inserting the picked cups right after it |
| CrabCups.MoveKeepsCups | 23/23.py:23-41 | permutation invariant: a move loses no cup and adds none |
| CrabCups.MoveFails | 23/23.py:23-41 | a move never ends exactly when the current cup is labelled 0, and raises ValueError exactly when three or fewer cups leave none behind |
| CrabCups.PlaceRule | 23/23.py:29-41 | the picked cups go back as one run right after the cup the destination rule picks |
| CrabCups.MoveRule | 23/23.py:23-41 | with four or more cups and a positive label, the three cups clockwise of the current one sit, in order, right after the destination cup |
| CrabCups.MovePicks | 23/23.py:27 | with four or more cups, the pick-up takes the three cups clockwise of the current one |
| CrabCups.MoveLeaves | 23/23.py:27 | the pick-up leaves the other cups, at least one of them |
| CrabCups.PlayStep | 23/23.py:45-51 | one round: the move, then the index of the cup after the current one |
| CrabCups.PlayKeepsCups | 23/23.py:43-51 | with four or more cups labelled from 1 every game ends normally and keeps its cups: a permutation of the starting circle |
| CrabCups.CupsAfterRotation | 23/23.py:53-55 | `cups_after` succeeds exactly when `n` is a cup and goes once round the circle from the cup after `n`, stopping short of it |
| CrabCups.CupsAfterKeepsCups | 23/23.py:53-55 | every cup but `n` is in the result, as often as in the circle |
| CrabCups.SeekDestination | 23/23.py:29-39 | the search loop computes `DestinationLabel` |
| CrabCups.Circle.PopNextCups | 23/23.py:8-17 | `pop_next_cups` on the list field: the new list and the popped cups are `PopNext` |
| CrabCups.Circle.InsertCups | 23/23.py:19-21 | `insert_cups` on the list field gives `Inserted` |
| CrabCups.Circle.MoveCups | 23/23.py:23-41 | `move_cups` on the list field gives `Move` |
| CrabCups.Circle.PlayGame | 23/23.py:43-51 | `play_game` on the list field gives `Play` |
| CrabCupsExamples.SampleParses | 23/23.py:59 | `parse_input('389125467')` is [3, 8, 9, 1, 2, 5, 4, 6, 7] |
| CrabCupsExamples.SamplePops | 23/23.py:58-79 | the four pick-ups of `test_pop_next_cups`, the last one wrapping round |
| CrabCupsExamples.SampleInserts | 23/23.py:81-90 | the two insertions of `test_insert_cups` |
| CrabCupsExamples.SampleCupsAfter | 23/23.py:101-103 | `cups_after([5,8,3,7,4,1,9,2,6], 1) == [9,2,6,5,8,3,7,4]` |
| CrabCupsExamples.SampleMove1 | 23/23.py:93-95 | the first move of `test_move_cups` |
| CrabCupsExamples.SampleMove2 | 23/23.py:96-97 | the second move |
| CrabCupsExamples.SampleMove3 | 23/23.py:98-99 | the third move |
| CrabCupsExamples.PlayRound | 23/23.py:44-50 | a round whose move succeeds and whose current cup is found again goes on from the cup after it, with one round fewer |
| CrabCupsExamples.SampleMove4 | 23/23.py:44-46 | move 4 of `play_game` on the sample circle |
| CrabCupsExamples.SampleMove5 | 23/23.py:44-46 | move 5 of `play_game` on the sample circle |
| CrabCupsExamples.SampleMove6 | 23/23.py:44-46 | move 6 of `play_game` on the sample circle |
| CrabCupsExamples.SampleMove7 | 23/23.py:44-46 | move 7 of `play_game` on the sample circle |
| CrabCupsExamples.SampleMove8 | 23/23.py:44-46 | move 8 of `play_game` on the sample circle |
| CrabCupsExamples.SampleMove9 | 23/23.py:44-46 | move 9 of `play_game` on the sample circle |
| CrabCupsExamples.SampleMove10 | 23/23.py:44-46 | move 10 of `play_game` on the sample circle |
| CrabCupsExamples.SamplePlayTen | 23/23.py:105-107 | `play_game` of 10 rounds on [3, 8, 9, 1, 2, 5, 4, 6, 7] ends normally, on [5, 8, 3, 7, 4, 1, 9, 2, 6] |
| CrabCupsExamples.SampleGame | 23/23.py:105-108 | `test_play_game`'s 10-round case: after the game, the cups after 1 are [9, 2, 6, 5, 8, 3, 7, 4] |
| HexTiles.TokensSplit | 24/24.py:8-18 | a successful scan cuts the line into tokens, losing and adding no character, each token a letter or `n`/`s` with one more |
| HexTiles.TokensAppend | 24/24.py:8-18 | scanning a part that splits cleanly and then more is scanning the two one after the other |
| HexTiles.TokensOfConcat | 24/24.py:8-18 | tokens written one after another scan back to the same tokens |
| HexTiles.DirectionsRoundTrip | 24/24.py:8-21 | round trip: a walk of directions written out reads back as the same walk |
| HexTiles.TokensFail | 24/24.py:13-14 | the scan raises IndexError exactly when the part before the last character splits cleanly and that character is `n` or `s` |
| HexTiles.SplitTokens | 24/24.py:8-18 | the generator's loop computes `Tokens` |
| HexTiles.ParseInput | 24/24.py:23-24 | `parse_input` succeeds exactly when every line parses, one walk per line |
| HexTiles.SampleLine | 24/24.py:71-72 | `parse_line('esenee\n') == ['e', 'se', 'ne', 'e']` |
| HexTiles.Neighbor | 24/24.py:39-51 | there is a neighbour exactly for the six directions; any other token gives `None` |
| HexTiles.NeighborBack | 24/24.py:39-51 | stepping in a direction and then the opposite one comes back |
| HexTiles.NeighborsDistinct | 24/24.py:39-51 | the six neighbours are six different tiles, none the tile itself |
| HexTiles.GetPoint | 24/24.py:53-57 | the loop of `get_point` computes `PointOf` |
| HexTiles.WalkCounts | 24/24.py:53-57 | a walk of directions ends where the direction counts say |
| HexTiles.PointOfOrder | 24/24.py:53-57 | `get_point` depends only on how often each direction occurs, not on their order |
| HexTiles.PointOfEven | 24/24.py:26-57 | every tile a walk reaches has an even coordinate sum, as the grid drawing says |
| HexTiles.SamplePoint | 24/24.py:80-82 | `get_point(['e', 'se', 'ne', 'e']) == Point(6, 0)` |
| HexTiles.FlippedParity | 24/24.py:60-66 | a tile ends black exactly when it started black and is flipped an even number of times, or the other way round |
| HexTiles.BlackTilesOdd | 24/24.py:59-67 | a tile is black exactly when an odd number of walks end on it |
| HexTiles.BlackTilesFail | 24/24.py:59-67 | `get_black_tiles` fails exactly when some walk does |
| HexTiles.GetBlackTiles | 24/24.py:59-67 | the loop computes `BlackTiles` |
| Handshake.NextTransform | 25/25.py:6-7 | one loop gives a value in 0 .. 20201226 |
| Handshake.TransformSubjectNumber | 25/25.py:9-13 | the loop computes `Transform` |
| Handshake.TransformPow | 25/25.py:6-13 | transforming is raising the subject number to the loop size modulo 20201227 |
| Handshake.PowMod | 25/25.py:6-13 | reducing the base modulo 20201227 first does not change the power's remainder |
| Handshake.PowPow | 25/25.py:27-28 | a power of a power is the power of the product |
| Handshake.KeysAgree | 25/25.py:30-37 | transforming either public key by the other device's loop size gives the same key, so the assertion of `crack_handshake` always holds |
| Handshake.LoopSizeFirst | 25/25.py:20-25 | the search returns the first loop size from 1 up whose public key is the given one, and finds none exactly when no loop size up to the bound gives it |
| Handshake.LoopSizeUnique | 25/25.py:20-25 | a key has at most one such loop size |
| Handshake.LoopSizeOutOfRange | 25/25.py:6-25 | a key outside 0 .. 20201226 is never found, so the search for it never ends |
| Handshake.FindLoopSize | 25/25.py:20-25 | the loop of `find_loop_size` computes `LoopSize` |
| Handshake.CrackAgrees | 25/25.py:30-37 | the handshake's key is what either device computes from its own loop size and the other's public key |
| Handshake.CrackHandshake | 25/25.py:30-37 | the method computes `Crack`, its assertion proved |
| Handshake.SamplePublicKeys | 25/25.py:40-42 | the public keys for loop sizes 1 to 11, 8 giving 5764801 and 11 giving 17807724 |
| Handshake.SampleLoopSizes | 25/25.py:44-46 | 8 and 11 are the loop sizes of 5764801 and 17807724 |
| Handshake.SampleDoorKey | 25/25.py:49 | `get_encryption_key(17807724, 8) == 14897079` |
| Handshake.SampleCardKey | 25/25.py:50 | `get_encryption_key(5764801, 11) == 14897079` |
| Handshake.SampleHandshake | 25/25.py:52-53 | `crack_handshake(5764801, 17807724) == 14897079` |

## Left out

- The `__main__` block of every script: it reads the puzzle input file, calls the solution and prints. File input and printing are outside the model. Each parser works on the list of lines (or the text) the file would give.
- The `unittest` test classes. The tests' inline data and expected results are stated as lemmas. Tests that read a fixture file (`test1.txt`, `test2.txt`, `test3.txt`, `test1_<i>.txt`) are left out, because those files are not part of this model; this covers the `parse_input` tests. Day 16's `get_fields` test on `test2.txt` is stated on the puzzle's published second example, which gives the same expected fields.
- Jigsaw.SortedTiles: the two assertions at 20/20.py:137-138, on the sizes of the edge and middle sets (`len(edges) == (sqrt(n)-1)*4-4` and `len(middle) == (sqrt(n)-2)**2`, in floating point), are not modelled. So `SortedTiles` can succeed where the script raises AssertionError: five tiles with four corners and one edge tile pass the model's checks, but fail at 20/20.py:137 because 1 ≠ (√5−1)·4−4.
- 20/20.py:143-212 assembles the image by a search over placements and orientations. Neither is modelled: the model covers borders, orientations and the corner/edge/middle sorting of `sort_tiles`.
- Bags.CanContainRun: Python's recursion depth limit is not modelled. The number of nested calls is a `fuel` bound, and `None` stands for a recursion that has not answered within it. On a cycle that the recursion enters (Bags.CycleBesideX) every fuel gives `None`, where the script raises RecursionError. Bags.ContainedBagsRun shares this bound.
- Py.ParseInt: accepts an optional sign and ASCII digits only. Python's `int()` also takes underscores between digits (`"1_000"`) and non-ASCII decimal digits; those inputs give ValueError here. Day 20's tile header (`Jigsaw.HeaderNum`) likewise takes ASCII digits only, where `itertools.takewhile(str.isdigit, …)` at 20/20.py:97 also takes other decimal digits.
- Py.IsSpaceChar: ASCII whitespace only. Python's `isspace`, `strip` and `split()` also treat `\x85`, `\xa0`, ` ` and other Unicode spaces as whitespace.
- Buses.Serendipity: requires every bus id to be at least 2. For id 1 or a negative id, `b**(m-2)` at 13/13.py:29 is a float. For id 0, 13/13.py:28 raises ZeroDivisionError. Floating-point results are outside the model.
- Operations.Parse: Python's recursion depth limit is not modelled. `parse_string` and `evaluate` recurse once per nesting level, so about 1000 nested parentheses raise RecursionError in the script, while the model parses and evaluates them. The same holds for Operations.Evaluate.
- Messages.MatchRule: cycles that revisit the same rule for the same message are the only recursion reported as RecursionError. Python's recursion depth limit on deep but finite recursion is not modelled.
- Messages.MessageMatches: requires a `Ranked` rule set, where every rule only refers to rules of lower rank. This excludes rule sets such as `{0: [[1], [0]], 1: "a"}` that the script still answers through `any()`'s short-circuit at 19/19.py:67. The caches are proved to memoise `MatchRule` only for ranked rules; the pure `Messages.MatchRule` covers every rule set.
- Messages.Matcher.MatchesRule: the same `Ranked` requirement as `Messages.MessageMatches`.
- Messages.Matcher.MatchesSequence: the same `Ranked` requirement as `Messages.MessageMatches`.
- 19/19.py:9-13 `parse_rule_component` is never called by the script and is not modelled.
- Seating.Converge: 11/11.py iterates until the layout stops changing; the model stops after `fuel` rounds. Running out of fuel is `None`, apart from the `Err` of an exception the script raises. The same fuel bounds Seating.ConvergeSeats.
- Combat.Play: the plain game at 22/22.py loops until one deck is empty; the model gives up after `fuel` rounds (`None`). Combat.Decks.PlayGame shares the bound.
- Combat.RecGame: the recursive game and its sub-games share a `fuel` bound (`None` when exhausted); Combat.Decks.PlayGameRecursive and Combat.Decks.PlayRoundRecursive share it.
- Handshake.LoopSize: `find_loop_size` at 25/25.py counts up without a bound; the model tries loop sizes up to `fuel`. Handshake.FindLoopSize, Handshake.Crack and Handshake.CrackHandshake share the bound.
- CrabCups.Move: requires no negative cup label. With a negative label the destination loop of 23/23.py:32-38 could reach a label below zero; that case is not modelled. A move whose search never ends (a current cup labelled 0) is the outcome `None`. CrabCups.Play, CrabCups.Circle.MoveCups, CrabCups.Circle.PlayGame, CrabCups.SeekDestination and CrabCups.DestinationLabel share this requires.
- The 100-round case of day 23's `test_play_game` is not worked out. The 10-round case is (`CrabCupsExamples.SampleGame`), one lemma per move, because each `Play` on a literal circle makes the verifier evaluate every move it contains. A hundred such moves would be 90 more lemmas of the same kind.
- Recitation.MemoryGame: proved equal to the puzzle's recitation only when the starting numbers are distinct. The number spoken on turn 2020 (436) is not worked out as a literal; the first ten turns are.
- The cube counts 29, 60 and 848 after cycles 1, 2 and 6 of day 17's test are not worked out as literals, because each cycle visits hundreds of cells with 80 neighbours each. The rule of a single cycle is proved for every cell.
- Allergens.FindAllergens: the order in which the script iterates a Python set or dictionary is a parameter. A successful result is proved not to depend on it (Allergens.FoundAllergensOrderFree). Whether the assertion at 21/21.py:43 passes is not proved independent of the order.
- The deques and lists that days 22 and 23 change in place are `seq` fields of a class. Aliasing between the script's lists is not modelled.
- Jigsaw.Rotated: rotation, like Jigsaw.Flipped and Jigsaw.GetOrientation, requires a tile built by `NewTile` (a non-empty image whose rows are all non-empty, with a border number per side), following the `Tile` constructor at 20/20.py.
- 13/13.py:56 is a commented-out test; its claim is stated as a lemma of `Buses` anyway.
- State left behind after an exception (a half-updated dictionary or list) is not modelled. An operation that raises returns only its `Err`.

## Findings

| source | as written | input that shows it | evidently intended | confidence | as-written member | corrected member |
|---|---|---|---|---|---|---|
| 19/19.py:17 | a rule body is a literal when its first character is `"` and its last character is truthy (any character), so an unclosed quote is accepted and loses its last character | the line `0: "a` becomes rule 0 = the empty literal `''` | a literal must also end in `"`, as the unused `parse_rule_component` at 19/19.py:9 checks; any other body is an id list, and `int('"a')` raises ValueError | not executed | Messages.UnclosedQuote | Messages.ParseLiteralIff |
