# MathCat in Dafny

MathCat is a web app for practising multi-digit multiplication. A teacher
generates a worksheet, or imports it from CSV, and shares it as a URL. A
student solves each problem with one of three paper methods:

- partial products;
- the classic (long multiplication) algorithm;
- the area model.

Each method has a screen that checks its entries digit by digit. A
validator in the library judges the whole solution. Progress is kept per
worksheet, and the worksheet can be printed together with the work.

This project models that core in Dafny:

- the three validators (`lib/validators/*`): their expected answers, their
  error lists and their completeness tests;
- the problem generator;
- progress storage;
- CSV import;
- the share-URL codec;
- the logic of the input screens: the digit grid, the addition grid, the
  classic algorithm, the three partial-product layouts and the area model;
- the worksheet overview and the print view;
- the generate page.

Library code that computes values is modelled as functions. Every loop of the
source is modelled as a method with invariants, proved equal to a
specification function. Screens whose state changes are modelled as classes
whose fields are that state, with one method per event handler.

Where the written description of the system and the code disagree, the model
follows the code. Three places where the code does not do what it evidently
means are listed under "Findings". The operations themselves keep the code's
behaviour as written. Next to each one sits a corrected definition, with its
intended property proved.

Modules and files:

| file | module | models |
|---|---|---|
| options.dfy | Options | `Option`/`Result` values (null/undefined, thrown errors) |
| digits.dfy | Digits | decimal digits, `toString` of numbers, powers of ten |
| text.dfy | Text | the string built-ins used (`trim`, `split`, `padStart`, `parseInt`, ...) |
| sorting.dfy | Sorting | the stable `Array.prototype.sort` by a numeric key, sums |
| grids.dfy | Grids | the nested `forEach` that pushes one entry per pair of parts |
| types.dfy | MathTypes, WorksheetTypes | `types/math.ts`, `types/worksheet.ts`, `types/progress.ts` |
| validation.dfy | Validation | the sum check and result shape shared by the validators |
| partial_products.dfy | PartialProducts | `lib/validators/multiplication-partial-products.ts` |
| area_model.dfy | AreaModel | `lib/validators/multiplication-area-model.ts` |
| classic_algorithm.dfy | ClassicAlgorithm | `lib/validators/multiplication-classic-algorithm.ts` |
| problem_generator.dfy | ProblemGenerator | `lib/generators/problem-generator.ts` |
| worksheet_storage.dfy | WorksheetStorage | `lib/worksheet-storage.ts` |
| csv_import.dfy | CsvImport | `lib/csv-import.ts` |
| worksheet_uri.dfy | WorksheetUri | `lib/worksheet-uri.ts` |
| digit_grid.dfy | DigitGrid | `components/math/DigitGrid/DigitGrid.tsx` |
| addition_grid.dfy | AdditionGridView | `components/math/AdditionGrid/AdditionGrid.tsx` |
| classic_view.dfy | ClassicAlgorithmView | `components/math/MultiplicationClassicAlgorithm.tsx` |
| partial_products_view.dfy | PartialProductsView | `components/math/MultiplicationPartialProducts.tsx` |
| columnar_view.dfy | ColumnarView | `components/math/MultiplicationPartialProductsColumnar.tsx` |
| partial_products_grid_view.dfy | PartialProductsGridView | `components/math/MultiplicationPartialProductsGrid.tsx` |
| area_model_view.dfy | AreaModelView | `components/math/MultiplicationAreaModel.tsx` |
| worksheet_overview.dfy | WorksheetOverview | `components/worksheet/WorksheetOverview.tsx` |
| worksheet_print_view.dfy | WorksheetPrintView | `components/worksheet/WorksheetPrintView.tsx` |
| generate_page.dfy | GeneratePage | `app/worksheet/generate/page.tsx` |

JavaScript numbers are modelled as unbounded integers. The generator's
difficulty levels produce operands of at most four digits, and `Math.pow(10, k)`
and the products involved are exact in double precision at those sizes. A CSV
row or a custom range may carry any value `parseInt` reads. Beyond 2^53 the
app's arithmetic would round where the model's does not.

## Model

| member | source | states |
|---|---|---|
| Validation.SumErrors | lib/validators/multiplication-classic-algorithm.ts:106-121 | no error exactly when the sum equals the expected one; a null sum gives one "Sum is missing" error and a different one gives one "Sum is incorrect" error, both on field "sum" |
| Validation.Verdict | lib/validators/multiplication-classic-algorithm.ts:123-126 | the result is correct exactly when no error was collected, and `errors` is undefined exactly then; otherwise it is the collected list |
| PartialProducts.CollectPartialProducts | lib/validators/multiplication-partial-products.ts:45-67 | the nested string-walking loops push exactly the products of each nonzero multiplier place with each nonzero multiplicand place, multiplier places outer, ones first |
| PartialProducts.CalculateExpectedPartialProducts | lib/validators/multiplication-partial-products.ts:36-75 | fails with the "only supports multiplication" error for any other operation; otherwise returns the sorted products and the product of the operands |
| PartialProducts.ExpectedPartialsCount | lib/validators/multiplication-partial-products.ts:48-56 | zero digits are skipped: there is one partial product per pair of nonzero digits of the two decimal forms |
| PartialProducts.PushedProductsLayout | lib/validators/multiplication-partial-products.ts:48-67 | in push order, the product of the i-th nonzero multiplier place and the j-th nonzero multiplicand place sits at position i·(multiplicand places)+j |
| PartialProducts.ProductOfValue | lib/validators/multiplication-partial-products.ts:58-60 | a partial product's value is the product of the two place values its label names |
| PartialProducts.ExpectedPartialsSortedSum | lib/validators/multiplication-partial-products.ts:69-72 | the expected list is ascending by value, is a permutation of the pushed products, and its values add up to multiplicand × multiplier |
| Sorting.SortByStable | lib/validators/multiplication-partial-products.ts:70 | the sort is stable: for every key, the elements with that key leave in the order they came in, so partial products of equal value keep their push order |
| PartialProducts.PositionErrors | lib/validators/multiplication-partial-products.ts:113-140 | at most one error per position, and none exactly when the position matches |
| PartialProducts.PositionErrorKinds | lib/validators/multiplication-partial-products.ts:117-139 | an error at position i is on field "partial-i"; past the expected list it is the "Extra" error, for an absent or null entry "missing", for a different number "incorrect" |
| PartialProducts.ValidatePartialProducts | lib/validators/multiplication-partial-products.ts:80-163 | the loop-built result is the verdict of the count check, the position errors and the sum check, in the source's order |
| PartialProducts.PositionsErrorsEmpty | lib/validators/multiplication-partial-products.ts:113-140 | the position loop reports nothing below n exactly when every position below n matches |
| PartialProducts.PartialProductsRejectsOperation | lib/validators/multiplication-partial-products.ts:84-96 | a problem that is not a multiplication gets exactly one error, on field "operation", and is incorrect |
| PartialProducts.PartialProductsCorrectIff | lib/validators/multiplication-partial-products.ts:98-162 | a multiplication is accepted exactly when the student gave as many partial products as expected, each equal to the expected value at its position, and the sum equals the product |
| PartialProducts.PartialProductsRoundTrip | lib/validators/multiplication-partial-products.ts:36-163 | feeding the calculator's own values and product back to the validator is accepted |
| PartialProducts.PartialProductsCountErrorFirst | lib/validators/multiplication-partial-products.ts:101-109 | a wrong number of partial products puts the "partials" count error first, before any position error |
| PartialProducts.PartialProductsPositionReported | lib/validators/multiplication-partial-products.ts:111-140 | every position below the longer of the two lengths that does not match has its error in the result |
| PartialProducts.IsPartialProductsComplete | lib/validators/multiplication-partial-products.ts:168-183 | throws exactly for a non-multiplication, by way of the calculator |
| PartialProducts.PartialProductsCorrectIsComplete | lib/validators/multiplication-partial-products.ts:168-183 | an accepted solution is complete, and an incomplete one is rejected |
| PartialProducts.PartialProductsOf23By45 | __tests__/lib/validators/multiplication-partial-products.test.ts:1-40 | 23 × 45 gives 3 × 5, 20 × 5, 3 × 40 and 20 × 40 with values 15, 100, 120, 800, in that order |
| AreaModel.GetPlaceValueComponents | lib/validators/multiplication-area-model.ts:47-62 | the digit-peeling loop returns the place-value components, and [0] when there are none |
| AreaModel.ComponentsArePlaceTerms | lib/validators/multiplication-area-model.ts:44-62 | for n > 0 the components are the nonzero digits times their powers of ten, most significant first, one per nonzero character of n's decimal form |
| AreaModel.ComponentsOfNonPositive | lib/validators/multiplication-area-model.ts:52-61 | 0 and every negative number give [0] |
| AreaModel.ComponentsSum | lib/validators/multiplication-area-model.ts:44-62 | the components of n >= 0 add up to n |
| AreaModel.ComponentsDecreasing | lib/validators/multiplication-area-model.ts:44-62 | the components strictly decrease |
| AreaModel.CalculateExpectedAreaModel | lib/validators/multiplication-area-model.ts:67-100 | fails with the "only supports multiplication" error for any other operation; otherwise returns the cells, both part lists and the product |
| AreaModel.PushCellRow | lib/validators/multiplication-area-model.ts:81-89 | the inner forEach appends one cell per multiplicand part, with its row, column and area |
| AreaModel.ExpectedCellsLayout | lib/validators/multiplication-area-model.ts:80-90 | one cell per pair of parts, row-major: the cell of multiplier part i and multiplicand part j sits at i·(multiplicand parts)+j with that row, column and product |
| AreaModel.ExpectedCellsSum | lib/validators/multiplication-area-model.ts:80-92 | for operands >= 0 the cells' expected areas add up to the product, which is `sum` |
| AreaModel.CellErrors | lib/validators/multiplication-area-model.ts:124-143 | at most one error per cell, and none exactly when the cell's key holds its area |
| AreaModel.CellErrorKinds | lib/validators/multiplication-area-model.ts:125-142 | a cell error is on field "cell-row-col" with the area as expected value; a null or missing entry gives the "Cell (a × b) is missing" message |
| AreaModel.ValidateAreaModel | lib/validators/multiplication-area-model.ts:105-166 | the loop-built result is the verdict of the cell errors in grid order followed by the sum check |
| AreaModel.CellsErrorsEmpty | lib/validators/multiplication-area-model.ts:124-143 | the cell loop reports nothing for the first n cells exactly when each of them matches |
| AreaModel.CellsErrorsFrame | lib/validators/multiplication-area-model.ts:124-127 | the cell errors depend only on the entries under the grid's own keys |
| AreaModel.AreaModelRejectsOperation | lib/validators/multiplication-area-model.ts:106-118 | a problem that is not a multiplication gets exactly one error, on field "operation", and is incorrect |
| AreaModel.AreaModelCorrectIff | lib/validators/multiplication-area-model.ts:120-165 | a multiplication is accepted exactly when every grid cell's key holds the cell's area and the sum is multiplicand × multiplier |
| AreaModel.AreaModelIgnoresOtherKeys | lib/validators/multiplication-area-model.ts:124-127 | two inputs that agree on the grid's keys and on the sum get the same verdict |
| AreaModel.IsAreaModelComplete | lib/validators/multiplication-area-model.ts:171-185 | throws exactly for a non-multiplication, by way of the calculator |
| AreaModel.AreaModelCorrectIsComplete | lib/validators/multiplication-area-model.ts:171-185 | an accepted solution is complete, and an incomplete one is rejected |
| ClassicAlgorithm.GetMultiplierDigits | lib/validators/multiplication-classic-algorithm.ts:38-46 | the loop returns the multiplier's digits ones first, and [0] for a multiplier of 0 or less |
| ClassicAlgorithm.CalculateExpectedClassicAlgorithm | lib/validators/multiplication-classic-algorithm.ts:30-58 | fails with the "only supports multiplication" error for any other operation; otherwise returns the partials and the product |
| ClassicAlgorithm.ClassicPartialsShape | lib/validators/multiplication-classic-algorithm.ts:48-53 | one partial per decimal digit of the multiplier, zeros included; partial i is the multiplicand times digit i times 10^i |
| ClassicAlgorithm.ClassicPartialsSum | lib/validators/multiplication-classic-algorithm.ts:51-55 | the partials add up to the product, which is `sum` |
| ClassicAlgorithm.ClassicPartialsOfZeroMultiplier | lib/validators/multiplication-classic-algorithm.ts:45 | a multiplier of 0 or less gives the single partial 0 |
| ClassicAlgorithm.PartialError | lib/validators/multiplication-classic-algorithm.ts:85-104 | at most one error per expected position, and none exactly when the entry there equals the expected partial |
| ClassicAlgorithm.PartialErrorKinds | lib/validators/multiplication-classic-algorithm.ts:89-103 | an error at position i is on field "partial-i" with the expected partial; an absent or null entry is "missing", a different number "incorrect" |
| ClassicAlgorithm.ValidateClassicAlgorithm | lib/validators/multiplication-classic-algorithm.ts:63-127 | the loop-built result is the verdict of the position errors followed by the sum check |
| ClassicAlgorithm.PartialsErrorsEmpty | lib/validators/multiplication-classic-algorithm.ts:85-104 | the loop reports nothing below n exactly when every entry below n equals its expected partial |
| ClassicAlgorithm.PartialsErrorsFrame | lib/validators/multiplication-classic-algorithm.ts:85-87 | the position errors read only the entries at expected positions |
| ClassicAlgorithm.ClassicRejectsOperation | lib/validators/multiplication-classic-algorithm.ts:67-79 | a problem that is not a multiplication gets exactly one error, on field "operation", and is incorrect |
| ClassicAlgorithm.ClassicCorrectIff | lib/validators/multiplication-classic-algorithm.ts:81-126 | a multiplication is accepted exactly when every expected position holds its partial and the sum is the product; entries past the expected count play no part |
| ClassicAlgorithm.ClassicIgnoresExtraEntries | lib/validators/multiplication-classic-algorithm.ts:85 | appending entries past the expected count never changes the verdict |
| ClassicAlgorithm.ClassicRoundTrip | lib/validators/multiplication-classic-algorithm.ts:30-127 | feeding the calculator's partials and product back to the validator is accepted |
| ClassicAlgorithm.IsClassicAlgorithmComplete | lib/validators/multiplication-classic-algorithm.ts:132-147 | throws exactly for a non-multiplication, by way of the calculator |
| ClassicAlgorithm.ClassicCompleteWithoutPartials | lib/validators/multiplication-classic-algorithm.ts:139-146 | as written, no partials and a sum count as complete, yet the validator rejects that input |
| ClassicAlgorithm.ClassicCompleteIntendedFillsAll | lib/validators/multiplication-classic-algorithm.ts:129-147 | with the intended test, a complete solution has an entry at every expected position, and an accepted solution without extra entries is complete |
| ClassicAlgorithm.ClassicCorrectIsComplete | lib/validators/multiplication-classic-algorithm.ts:132-147 | as written, an accepted solution without extra entries is complete |
| ProblemGenerator.Constraints | lib/generators/problem-generator.ts:21-42 | every level asks for at least one digit in each operand, with min <= max |
| ProblemGenerator.RandomInt | lib/generators/problem-generator.ts:47-49 | for min <= max the drawn integer lies in [min, max] |
| ProblemGenerator.GenerateNumberWithDigits | lib/generators/problem-generator.ts:54-84 | the redraw loop never throws; a generated number is positive with between minDigits and maxDigits digits and, when zeros are not allowed, has no '0' digit; with zeros allowed it takes exactly two draws |
| ProblemGenerator.GeneratedOperandRanges | lib/generators/problem-generator.ts:21-42 | without a custom range: easy is 10-99 × 1-9, medium 10-99 × 10-99, hard 100-999 × 10-99, bonkers 100-9999 × 100-999 |
| ProblemGenerator.GenerateMultiplicationProblem | lib/generators/problem-generator.ts:89-125 | the problem is a multiplication of the level with correctAnswer the product, operands from the level's constraints or the custom range, and id "gen-<now>-<suffix>" |
| ProblemGenerator.GenerateMultiplicationProblems | lib/generators/problem-generator.ts:130-142 | the loop yields max(count, 0) problems, each generated for the level |
| ProblemGenerator.GenerateProblem | lib/generators/problem-generator.ts:148-163 | any operation other than multiplication throws; multiplication generates a problem of the level |
| ProblemGenerator.Copies | lib/generators/problem-generator.ts:176 | a batch stands for max(count, 0) copies of its level |
| ProblemGenerator.BatchLevelsCount | lib/generators/problem-generator.ts:175-179 | the levels asked for number the sum of the batches' counts |
| ProblemGenerator.GenerateMixedProblems | lib/generators/problem-generator.ts:168-182 | throws exactly when the operation is not multiplication and some batch asks for a problem; otherwise problem k is generated for the level of slot k, batch after batch |
| ProblemGenerator.GenerateBatch | lib/generators/problem-generator.ts:176-178 | one batch's inner loop: throws exactly for a non-multiplication with a positive count; otherwise count problems of the batch's level |
| WorksheetStorage.InitializeWorksheetProgress | lib/worksheet-storage.ts:45-53 | a fresh record for the worksheet, started now, with no problem state, no current problem and no section progress |
| WorksheetStorage.CalculateSectionProgress | lib/worksheet-storage.ts:87-109 | total is the number of ids, completed counts the solved ones, and completedAt is set (to now) exactly when all are solved |
| WorksheetStorage.IsSectionComplete | lib/worksheet-storage.ts:114-119 | every listed id has a complete and correct state; SectionCompleteIffStamped proves this is exactly when the recomputed progress is stamped, and SectionCompleteCases gives the empty and failing cases |
| WorksheetStorage.SectionCompleteIffStamped | lib/worksheet-storage.ts:87-119 | `isSectionComplete` holds exactly when the section record gets its completedAt stamp |
| WorksheetStorage.SectionCompleteCases | lib/worksheet-storage.ts:114-119 | an empty section is complete; an id with no state, or a state not marked correct, makes it incomplete |
| WorksheetStorage.UpdateProblemState | lib/worksheet-storage.ts:58-82 | the problem's state is replaced and every other problem's is kept; the section record is recomputed only when both a non-empty section id and its ids are given |
| WorksheetStorage.SolvingNeverLowersCount | lib/worksheet-storage.ts:58-109 | recording a solved state never lowers a section's completed count, and makes it at least 1 when the problem belongs to the section |
| WorksheetStorage.SolvedIds | lib/worksheet-storage.ts:128-130 | exactly the ids whose state is complete and correct |
| WorksheetStorage.CalculateWorksheetProgress | lib/worksheet-storage.ts:124-133 | 0 when there are no problems; otherwise 100·solved/total rounded to the nearest integer, halves up |
| WorksheetStorage.WorksheetProgressBounds | lib/worksheet-storage.ts:124-133 | the percentage lies in 0..100, is 100 when all are solved and 0 when none is |
| WorksheetStorage.InitialProgressIsZero | lib/worksheet-storage.ts:45-53 | a freshly initialised record has 0 percent progress |
| CsvImport.ParseLineFacts | lib/csv-import.ts:44-58 | a blank line, one with fewer than three fields, or one whose operands do not parse gives no row; a row has the parsed operands, a non-empty section that is the first field when that is given, and a non-empty difficulty that is the lower-cased fourth field when that is given |
| CsvImport.ParseLine | lib/csv-import.ts:44-58 | one pass of the row loop; ParseLineFacts states which lines are skipped and what a kept row holds, and ParseRowLine that a clean line reads back as its row |
| CsvImport.ParseRows | lib/csv-import.ts:44-58 | the loop keeps the rows of the lines that parse, in order |
| CsvImport.KeptAllSome | lib/csv-import.ts:44-58 | when every line parses, every line gives its row, in order |
| CsvImport.SectionNamesFacts | lib/csv-import.ts:63-68 | the section names are distinct and are exactly the sections some row uses |
| CsvImport.GroupBySection | lib/csv-import.ts:63-68 | the Map-building loop groups the rows by section, sections in order of first use, rows in input order |
| CsvImport.GroupsCount | lib/csv-import.ts:63-68 | grouping loses and adds no row |
| CsvImport.BuildSections | lib/csv-import.ts:70-92 | the section loop builds one section per group with ids "section-<id>-<k>" and problems numbered on from the previous sections |
| CsvImport.ParseCSVToWorksheet | lib/csv-import.ts:25-116 | null exactly when no data line gives a row; otherwise the worksheet built from the parsed rows |
| CsvImport.ImportedSections | lib/csv-import.ts:70-99 | the imported worksheet has one section per distinct section name |
| CsvImport.ImportedNumbering | lib/csv-import.ts:73-99 | the flat problem list has one problem per row, and problem k carries the running number k + 1 in its id, so the numbering runs on across sections |
| CsvImport.EmptyTextGivesNothing | lib/csv-import.ts:31-60 | an all-whitespace text parses to no row, hence to null |
| CsvImport.ParseRowLine | lib/csv-import.ts:44-58 | a line written from clean fields parses back to the row with those fields |
| CsvImport.TableDataLines | lib/csv-import.ts:31-41 | after a header starting with "section", the data lines are exactly the table's lines |
| CsvImport.GenerateExampleCSV | lib/csv-import.ts:121-131 | the header and eight data lines joined by "\n"; ExampleParses proves that importing it gives eight problems in three sections |
| CsvImport.ExampleParses | lib/csv-import.ts:121-131 | the example CSV parses to eight problems in three sections |
| WorksheetUri.ToBase64Url | lib/worksheet-uri.ts:7-14 | the URL-safe text contains no '+', '/' or '=' |
| WorksheetUri.EncodeWorksheetToURI | lib/worksheet-uri.ts:7-14 | the encoded worksheet contains no '+', '/' or '=' |
| WorksheetUri.FromBase64Url | lib/worksheet-uri.ts:22 | '-' back to '+' and '_' back to '/', keeping the length; UrlSafeRoundTrip and UrlTextRoundTrip prove it undoes the URL-safe replaces |
| WorksheetUri.Padded | lib/worksheet-uri.ts:25-28 | padding appends fewer than four '=' to make the length a multiple of four, and keeps the text |
| WorksheetUri.PadToQuadruple | lib/worksheet-uri.ts:25-28 | the padding loop gives the padded text |
| WorksheetUri.DecodedWorksheet | lib/worksheet-uri.ts:20-42 | decoding gives a record exactly when the restored text parses to a value carrying the required fields, and then it is that value |
| WorksheetUri.DecodeWorksheetFromURI | lib/worksheet-uri.ts:20-42 | the decoding steps give the decoded worksheet |
| WorksheetUri.UrlSafeRoundTrip | lib/worksheet-uri.ts:7-28 | for standard base64 text, making it URL-safe and restoring it gives it back |
| WorksheetUri.UrlTextRoundTrip | lib/worksheet-uri.ts:7-28 | for URL-safe text, restoring and re-encoding gives it back |
| WorksheetUri.EncodeThenDecode | lib/worksheet-uri.ts:7-42 | a worksheet encoded and then decoded gives the parsed record back |
| WorksheetUri.GenerateShareableURL | lib/worksheet-uri.ts:47-51 | the URL is the base (or the origin when no base is given) + "/worksheet/shared/" + the encoding |
| WorksheetUri.SharedURLRoundTrip | lib/worksheet-uri.ts:47-51 | the last path segment of a shared URL is the encoding, and it decodes to the worksheet's record |
| DigitGrid.CellsOf | components/math/DigitGrid/DigitGrid.tsx:98-105 | exactly numCells cells, each the value's character at that index or empty past the end or for a space |
| DigitGrid.Serialize | components/math/DigitGrid/DigitGrid.tsx:135-139 | empty cells become spaces and trailing whitespace is dropped; SerializeRoundTrip and ValueRoundTrip prove that reading the result back gives the cells, and a fitting value, unchanged |
| DigitGrid.SerializeRoundTrip | components/math/DigitGrid/DigitGrid.tsx:135-139 | cells that are empty or one non-space character come back unchanged from the string written for them |
| DigitGrid.ValueRoundTrip | components/math/DigitGrid/DigitGrid.tsx:98-139 | a value that fits and does not end in whitespace is written back unchanged |
| DigitGrid.GetNextInputIndex | components/math/DigitGrid/DigitGrid.tsx:108-117 | the result is the first non-spacer cell beyond the index in the direction, or -1 when none is left |
| DigitGrid.TabTarget | components/math/DigitGrid/DigitGrid.tsx:236-245 | -1 exactly when every cell is a spacer; otherwise an input cell with only spacers before it, or after it for focusOnTab "last" |
| DigitGrid.AutoFocusTarget | components/math/DigitGrid/DigitGrid.tsx:88-96 | nothing is focused unless autoFocus is set and the grid is enabled; then the first input cell |
| DigitGrid.HandleKeyDown | components/math/DigitGrid/DigitGrid.tsx:158-187 | Backspace on an empty cell and ArrowLeft move to the previous input cell, ArrowRight to the next |
| DigitGrid.HandleChange | components/math/DigitGrid/DigitGrid.tsx:120-155 | nothing is emitted exactly when the last typed character is not a digit; otherwise the cells with the edited one replaced by it, serialised |
| DigitGrid.EditChangesOneCell | components/math/DigitGrid/DigitGrid.tsx:120-140 | an accepted edit changes exactly the edited cell |
| DigitGrid.HandlePaste | components/math/DigitGrid/DigitGrid.tsx:190-223 | the pasted digits fill the input cells from the index on, skipping spacers, until either runs out; no other cell changes |
| DigitGrid.PasteDigits | components/math/DigitGrid/DigitGrid.tsx:199-208 | the loop stops only when the digits or the inputs run out; the first j inputs from the index hold the first j digits, the inputs it did not reach are exactly those from its final position, and no other cell changes |
| DigitGrid.PasteRoundTrip | components/math/DigitGrid/DigitGrid.tsx:190-216 | the value emitted after a paste reads back as exactly the pasted cells |
| AdditionGridView.MaxDigits | components/math/AdditionGrid/AdditionGrid.tsx:62 | the digit count of the expected sum, at least 1 |
| AdditionGridView.RowRightAligned | components/math/AdditionGrid/AdditionGrid.tsx:166-175 | without showAllCells, cell k of a row takes input exactly when it is one of the last digit-count cells |
| AdditionGridView.SummandLeavesLeftColumn | components/math/AdditionGrid/AdditionGrid.tsx:166-175 | a row no larger than the sum leaves the leftmost column a spacer |
| AdditionGridView.HeaderPlaces | components/math/AdditionGrid/AdditionGrid.tsx:154-155 | maxDigits + 1 headers, 10^(maxDigits − i) over column i |
| AdditionGridView.HeadersDescend | components/math/AdditionGrid/AdditionGrid.tsx:154-155 | the headers fall strictly from left to right, and the carry row's only spacer sits under the ones header |
| AdditionGridView.TypedUnderHeaders | components/math/AdditionGrid/AdditionGrid.tsx:154-185 | a right-aligned entry puts the digit of n at place p under header 10^p, and a blank under each header beyond n's digits |
| AdditionGridView.TypedReadsBack | components/math/AdditionGrid/AdditionGrid.tsx:66-85 | a right-aligned entry is filled and reads back as n |
| AdditionGridView.ExternalInputsTakePrecedence | components/math/AdditionGrid/AdditionGrid.tsx:67-80 | when the parent supplies rowInputValues, the grid's own entries play no part in display, completion or verdict |
| AdditionGridView.TypedAnswersAccepted | components/math/AdditionGrid/AdditionGrid.tsx:65-96 | typing every row and the sum right-aligned completes the grid correctly |
| AdditionGridView.Mark | components/math/AdditionGrid/AdditionGrid.tsx:131-144 | no mark while validation is off or the entry is blank; otherwise whether it parses to the expected value |
| AdditionGridView.FormatPlaceValue | components/math/AdditionGrid/AdditionGrid.tsx:123-128 | the value over a billion, million or thousand with a b, m or k suffix, else the plain digits; FormatSuffix and PowerLabel state the suffix ranges and the labels of powers of ten |
| AdditionGridView.MarksAgreeWithVerdict | components/math/AdditionGrid/AdditionGrid.tsx:65-144 | with validation on, the grid is complete exactly when every row and the sum carry a mark, and correct exactly when all marks are correct |
| AdditionGridView.FormatSuffix | components/math/AdditionGrid/AdditionGrid.tsx:123-128 | the label ends in 'b' from a billion up, 'm' from a million, 'k' from a thousand, and a digit below |
| AdditionGridView.PowerLabel | components/math/AdditionGrid/AdditionGrid.tsx:123-128 | 10^p is labelled as a one, the zeros left after the scale, and the scale's suffix |
| AdditionGridView.CarryFocus | components/math/AdditionGrid/AdditionGrid.tsx:115-120 | a carry entered in column k moves focus to column k of the sum row, and a cleared one moves nothing |
| AdditionGridView.CarryFocusLandsInSum | components/math/AdditionGrid/AdditionGrid.tsx:208-227 | every carry input cell has a focusable sum cell below it |
| AdditionGridView.AdditionGridState.constructor | components/math/AdditionGrid/AdditionGrid.tsx:52-60 | the first render: nothing entered, incomplete, no verdict |
| AdditionGridView.AdditionGridState.HandleInputChange | components/math/AdditionGrid/AdditionGrid.tsx:98-104 | a row edit goes to the parent when it listens, otherwise into the grid's own entries; nothing else changes |
| AdditionGridView.AdditionGridState.SetSumInput | components/math/AdditionGrid/AdditionGrid.tsx:226 | the sum grid's value replaces the sum entry and nothing else |
| AdditionGridView.AdditionGridState.SetCarryDigits | components/math/AdditionGrid/AdditionGrid.tsx:210 | the carry grid's value replaces the carry entry and nothing else |
| AdditionGridView.AdditionGridState.CheckCompletion | components/math/AdditionGrid/AdditionGrid.tsx:65-96 | stores whether the grid is complete; when it is, stores the verdict and reports it if there is a listener; otherwise clears it |
| ClassicAlgorithmView.MaxDigits | components/math/MultiplicationClassicAlgorithm.tsx:50-52 | the digit counts of both operands plus one overflow column |
| ClassicAlgorithmView.RowsFit | components/math/MultiplicationClassicAlgorithm.tsx:50-56 | the product has fewer digits than maxDigits, and the multiplicand times one digit has at most one digit more than the multiplicand |
| ClassicAlgorithmView.LeadingSpacerIndices | components/math/MultiplicationClassicAlgorithm.tsx:155-161 | no spacers with showAllCells; otherwise the cells 0 .. maxDigits − digitCount − shift − 1 |
| ClassicAlgorithmView.TrailingIndices | components/math/MultiplicationClassicAlgorithm.tsx:164-168 | the last `shiftLeft` cells of the row |
| ClassicAlgorithmView.PlaceholderDisplay | components/math/MultiplicationClassicAlgorithm.tsx:253-263 | with placeholder zeros, a non-blank entry shows its digits followed by the row's zeros, right-aligned; StripAfterDisplay proves storing what is shown gives the entry back |
| ClassicAlgorithmView.StripPlaceholderZeros | components/math/MultiplicationClassicAlgorithm.tsx:304-313 | with placeholder zeros, the grid value without whitespace and without the row's trailing zeros, right-aligned to the row less the shift; StripAfterDisplay and PlaceholderScreenRejected state what it keeps |
| ClassicAlgorithmView.PartialRowLayout | components/math/MultiplicationClassicAlgorithm.tsx:240-250 | every spacer is a cell of the row, leading and trailing spacers never overlap, and without showAllCells the input cells are the right-aligned slot of the shifted partial |
| ClassicAlgorithmView.CarryRowLayout | components/math/MultiplicationClassicAlgorithm.tsx:284 | the ones column of every carry row, and the partial's trailing cells, are spacers |
| ClassicAlgorithmView.StripAfterDisplay | components/math/MultiplicationClassicAlgorithm.tsx:253-313 | storing what a placeholder row shows gives back what was stored |
| ClassicAlgorithmView.ExpectedPartialsMatchLib | components/math/MultiplicationClassicAlgorithm.tsx:30-58 | the screen's expected partials are those of `calculateExpectedClassicAlgorithm` for the same operands |
| ClassicAlgorithmView.CompletionTracker.constructor | components/math/MultiplicationClassicAlgorithm.tsx:73-88 | the first render: incomplete, no verdict, nothing reported yet |
| ClassicAlgorithmView.CompletionTracker.CheckCompletion | components/math/MultiplicationClassicAlgorithm.tsx:90-125 | stores completeness and, once complete, the verdict of the written row check (each stored row parsed and compared with its shifted partial, whatever the placeholder setting); reports it only when there is a listener and it differs from the last one reported |
| ClassicAlgorithmView.ViewAgreesWithValidator | components/math/MultiplicationClassicAlgorithm.tsx:90-125 | a completed screen is correct exactly when `validateClassicAlgorithm` accepts the parsed rows and sum |
| ClassicAlgorithmView.RowValidation | components/math/MultiplicationClassicAlgorithm.tsx:171-184 | no mark while validation is off or the row is blank; otherwise "correct" exactly when the stored row passes the completion check's row test |
| ClassicAlgorithmView.MarksAgreeWithVerdict | components/math/MultiplicationClassicAlgorithm.tsx:90-184 | with validation on, a complete screen is correct exactly when every partial row and the sum are marked correct |
| ClassicAlgorithmView.IntendedVerdictWithoutZeros | components/math/MultiplicationClassicAlgorithm.tsx:103-111 | without placeholder zeros the corrected verdict is the written one |
| ClassicAlgorithmView.RowValidationIntended | components/math/MultiplicationClassicAlgorithm.tsx:171-184 | the corrected mark is absent exactly when the written one is, and equals it without placeholder zeros or on the ones row |
| ClassicAlgorithmView.MarksAgreeWithVerdictIntended | components/math/MultiplicationClassicAlgorithm.tsx:90-184 | with validation on, the corrected verdict holds exactly when every corrected row mark and the sum mark are "correct" |
| ClassicAlgorithmView.PlaceholderScreenRejected | components/math/MultiplicationClassicAlgorithm.tsx:103-111 | as written, a complete screen with a placeholder row holding what it shows for its nonzero partial gets an "incorrect" mark on that row and a false verdict, while the corrected mark is "correct" |
| ClassicAlgorithmView.PlaceholderRowRejectsItsPartial | components/math/MultiplicationClassicAlgorithm.tsx:104-107 | as written, a placeholder row that shows exactly its expected partial is judged incorrect |
| ClassicAlgorithmView.PlaceholderRowAcceptsItsPartial | components/math/MultiplicationClassicAlgorithm.tsx:253-313 | with the corrected check the same row is accepted |
| ClassicAlgorithmView.IntendedWithoutZeros | components/math/MultiplicationClassicAlgorithm.tsx:104-107 | without placeholder zeros the corrected check is the written one |
| PartialProductsView.GetPlaceValues | components/math/MultiplicationPartialProducts.tsx:32-48 | the nonzero digits with their places, ones first; nothing for 0 |
| PartialProductsView.CalculatePartialProducts | components/math/MultiplicationPartialProducts.tsx:51-72 | multiplier places outer, multiplicand places inner, then the stable sort by value |
| PartialProductsView.ViewMatchesLib | components/math/MultiplicationPartialProducts.tsx:51-72 | for operands >= 0 the screen's (value, label) list is the one `calculateExpectedPartialProducts` returns |
| PartialProductsView.ViewProductsShape | components/math/MultiplicationPartialProducts.tsx:51-72 | every product is the product of the digits it came from at their places, and the list is ascending |
| PartialProductsView.Mark | components/math/MultiplicationPartialProducts.tsx:144-147 | no colour while validation is off or the input is blank; otherwise whether it parses to the expected value |
| PartialProductsView.MarksAgreeWithVerdict | components/math/MultiplicationPartialProducts.tsx:86-147 | with validation on, the screen is complete exactly when every input shows a colour, and correct exactly when every colour is green |
| PartialProductsView.ViewAgreesWithValidator | components/math/MultiplicationPartialProducts.tsx:86-112 | for operands >= 0 the entries are correct exactly when `validatePartialProducts` accepts them read with parseInt |
| PartialProductsView.CompletionAgreesWithLib | components/math/MultiplicationPartialProducts.tsx:86-95 | with filtered entries, the screen is complete exactly when `isPartialProductsComplete` holds for the parsed entries |
| PartialProductsView.PartialProductsScreen.constructor | components/math/MultiplicationPartialProducts.tsx:78-84 | the first render: nothing entered, incomplete, no verdict |
| PartialProductsView.PartialProductsScreen.HandleInputChange | components/math/MultiplicationPartialProducts.tsx:114-119 | only an empty or all-digit value is stored, and nothing else changes |
| PartialProductsView.PartialProductsScreen.HandleSumChange | components/math/MultiplicationPartialProducts.tsx:121-125 | only an empty or all-digit sum is stored, and nothing else changes |
| PartialProductsView.PartialProductsScreen.CheckCompletion | components/math/MultiplicationPartialProducts.tsx:86-112 | stores completeness; when complete, stores the verdict and reports it if there is a listener; otherwise clears it |
| ColumnarView.CalculatePartialProducts | components/math/MultiplicationPartialProductsColumnar.tsx:28-56 | the list is the lib's expected list: ascending, and adding up to the product |
| ColumnarView.HeadersFitProduct | components/math/MultiplicationPartialProductsColumnar.tsx:128-155 | the headers strictly descend, end with the ones column, and start at the product's leading place |
| ColumnarView.HeaderLabelShape | components/math/MultiplicationPartialProductsColumnar.tsx:120-157 | a header label is a one, its zeros below the scale, and the scale's suffix |
| ColumnarView.CarryCellsUnderHeaders | components/math/MultiplicationPartialProductsColumnar.tsx:209-216 | only the ones column lacks a carry input, and each carry input sits under the header of its own place |
| ColumnarView.ColumnarAgreesWithValidator | components/math/MultiplicationPartialProductsColumnar.tsx:81-88 | for operands >= 0 the screen's verdict is `validatePartialProducts`' verdict on the parsed entries |
| ColumnarView.ColumnarScreen.constructor | components/math/MultiplicationPartialProductsColumnar.tsx:61-69 | the first render: nothing entered, incomplete, no verdict |
| ColumnarView.ColumnarScreen.HandleInputChange | components/math/MultiplicationPartialProductsColumnar.tsx:99-104 | only an empty or all-digit value is stored, and nothing else changes |
| ColumnarView.ColumnarScreen.HandleSumChange | components/math/MultiplicationPartialProductsColumnar.tsx:106-110 | only an empty or all-digit sum is stored, and nothing else changes |
| ColumnarView.ColumnarScreen.HandleCarryChange | components/math/MultiplicationPartialProductsColumnar.tsx:112-117 | only an empty or one-digit carry is stored; the entries and the verdict are untouched |
| ColumnarView.ColumnarScreen.CheckCompletion | components/math/MultiplicationPartialProductsColumnar.tsx:71-97 | stores completeness and, when complete, the verdict, reported if there is a listener; carry digits play no part |
| PartialProductsGridView.CalculatePartialProducts | components/math/MultiplicationPartialProductsGrid.tsx:35-66 | the rows are the lib's expected products in order, and they add up to the grid's expected sum |
| PartialProductsGridView.RowsLeaveCarryColumn | components/math/MultiplicationPartialProductsGrid.tsx:65-66 | every row is at most the product, so every row leaves the grid's leftmost column blank |
| AreaModelView.GetPlaceValueComponents | components/math/MultiplicationAreaModel.tsx:31-46 | the loop gives the screen's parts: the nonzero place values, most significant first, and none for 0 |
| AreaModelView.ComponentsAgainstLib | components/math/MultiplicationAreaModel.tsx:31-49 | for a positive number the screen's parts are the lib's; for 0 the lib has [0] and the screen none; the parts add up to the number |
| AreaModelView.CreateGrid | components/math/MultiplicationAreaModel.tsx:52-68 | one cell per pair of parts, multiplier parts as rows |
| AreaModelView.CellsAgainstLib | components/math/MultiplicationAreaModel.tsx:48-70 | for positive operands the cells are the lib's; with a 0 operand there is no cell |
| AreaModelView.AdditionRowsAddUp | components/math/MultiplicationAreaModel.tsx:70-78 | the rows handed to the addition grid are the cell areas in order and add up to its expected sum |
| AreaModelView.CellKeysDistinct | components/math/MultiplicationAreaModel.tsx:83-93 | distinct cells have distinct "row-col" keys |
| AreaModelView.CellInput | components/math/MultiplicationAreaModel.tsx:90-93 | the entry stored under the cell's "row-col" key, or ""; EditTouchesOneCell proves an entry under one key changes only that cell |
| AreaModelView.EditTouchesOneCell | components/math/MultiplicationAreaModel.tsx:83-93 | storing an entry under one cell's key changes that cell's input and no other |
| AreaModelView.TypedAreaIsGreen | components/math/MultiplicationAreaModel.tsx:136-140 | an area typed as its decimal form shows green |
| AreaModelView.AreaModelScreen.HandleCellChange | components/math/MultiplicationAreaModel.tsx:83-88 | an empty or all-digit value is stored under "row-col", and nothing else changes |
| WorksheetOverview.TallyOf | components/worksheet/WorksheetOverview.tsx:30-40 | total is the number of problems; completed equals it exactly when every problem is solved; the percentage is NaN exactly for no problems, else in 0..100 and 100 when all are solved |
| WorksheetOverview.GetSectionProgress | components/worksheet/WorksheetOverview.tsx:30-40 | the tally of the section's problems; SectionAgreesWithStorage proves it counts what `calculateSectionProgress` stores and is complete exactly when `isSectionComplete` holds |
| WorksheetOverview.SectionAgreesWithStorage | components/worksheet/WorksheetOverview.tsx:114-115 | a section's counts are those `calculateSectionProgress` stores, and it is drawn complete exactly when `isSectionComplete` holds |
| WorksheetOverview.GetProblemStatus | components/worksheet/WorksheetOverview.tsx:42-46 | "incomplete" exactly without a complete state, "correct" exactly for a solved problem |
| WorksheetOverview.AllProblems | components/worksheet/WorksheetOverview.tsx:49 | the flattened sections whenever sections are present, else the flat problem list |
| WorksheetOverview.OverallProgress | components/worksheet/WorksheetOverview.tsx:48-59 | the tally of all problems; OverallIsSumOfSections proves its figures are the sums of the sections' figures |
| WorksheetOverview.OverallIsSumOfSections | components/worksheet/WorksheetOverview.tsx:48-59 | with sections present, the overall figures are the sums of the sections' figures |
| WorksheetOverview.EmptySectionsHideProblems | components/worksheet/WorksheetOverview.tsx:49 | a present but empty section list gives 0 of 0, whatever the flat list holds |
| WorksheetPrintView.EntriesNumbered | components/worksheet/WorksheetPrintView.tsx:34-45 | problem p of section s is numbered after all problems of the sections before it, plus p + 1 |
| WorksheetPrintView.ListingNumbersConsecutively | components/worksheet/WorksheetPrintView.tsx:12-75 | in both layouts every printed number is the problem's position in `allProblems` plus one |
| WorksheetPrintView.Line | components/worksheet/WorksheetPrintView.tsx:164 | an empty entry prints as "___", padded on the left to the width |
| WorksheetPrintView.ClassicWidth | components/worksheet/WorksheetPrintView.tsx:190-197 | the classic column is at least as wide as each operand and the product, plus 3 |
| WorksheetPrintView.ClassicWidthOfPositives | components/worksheet/WorksheetPrintView.tsx:190-197 | for operands >= 1 the classic column is exactly the product's width |
| WorksheetPrintView.ClassicWidthWithZero | components/worksheet/WorksheetPrintView.tsx:190-197 | with a 0 operand the product is 0, and the classic column is wider than the product's exactly when the other operand has two or more digits (5 × 0 prints both four wide) |
| WorksheetPrintView.PartialProductsWork | components/worksheet/WorksheetPrintView.tsx:146-177 | nothing without saved entries; otherwise one line per entry, a divider, and every line fits the product's width |
| WorksheetPrintView.ClassicHeader | components/worksheet/WorksheetPrintView.tsx:202-207 | two header lines, both exactly the column's width |
| WorksheetPrintView.ClassicHeaderShape | components/worksheet/WorksheetPrintView.tsx:202-207 | the first header line ends in the multiplicand; the second starts with "× " and ends in the multiplier |
| WorksheetPrintView.ClassicWork | components/worksheet/WorksheetPrintView.tsx:179-227 | nothing without saved partials; otherwise the header, one line per partial, a divider exactly when there are two or more, all fitting the width |
| WorksheetPrintView.AreaModelWork | components/worksheet/WorksheetPrintView.tsx:229-261 | nothing without saved addition rows; otherwise one line per row and a divider, fitting the product's width |
| WorksheetPrintView.ProblemWorkDisplay | components/worksheet/WorksheetPrintView.tsx:89-137 | nothing without a saved state or for another operation; otherwise the given number, and a mark exactly once complete |
| WorksheetPrintView.MarkAgreesWithOverview | components/worksheet/WorksheetPrintView.tsx:105 | the printed mark is the overview's badge: none while incomplete, ✓ exactly for a solved problem |
| GeneratePage.LevelNamesDistinct | app/worksheet/generate/page.tsx:82-87 | two levels have the same name exactly when they are the same level |
| GeneratePage.ParseLevel | app/worksheet/generate/page.tsx:89-90 | a string names a level exactly when it is that level's name |
| GeneratePage.CountOf | app/worksheet/generate/page.tsx:184-189 | the count is what parseInt reads, or 0 when it reads NaN |
| GeneratePage.BuildBatches | app/worksheet/generate/page.tsx:56-69 | the loop pushes a batch for each checked difficulty with a positive count |
| GeneratePage.RequestedSpec | app/worksheet/generate/page.tsx:56-69 | the batches are exactly the checked difficulties with a positive count, each with its count, in the order easy, medium, hard, bonkers |
| GeneratePage.RequestedCount | app/worksheet/generate/page.tsx:56-78 | the generator is asked for the sum of the checked positive counts |
| GeneratePage.TotalProblems | app/worksheet/generate/page.tsx:134-139 | the shown total adds the count of every checked difficulty, whatever its sign; TotalMatchesRequest equates it with the request when no count is negative, and NegativeCountDisablesGenerate shows where they part |
| GeneratePage.GenerateDisabled | app/worksheet/generate/page.tsx:353 | the button is disabled while generating or when the total is 0; TotalMatchesRequest proves that with no negative count this is exactly when no batch would be made |
| GeneratePage.TotalMatchesRequest | app/worksheet/generate/page.tsx:134-139 | with no negative count, the total shown is the number asked for, and the button is disabled exactly when no batch would be made |
| GeneratePage.NegativeCountDisablesGenerate | app/worksheet/generate/page.tsx:134-139 | easy 3 and medium −3, both checked, disable the button although one batch of 3 would be made |
| GeneratePage.TypedNegativeDisablesGenerate | app/worksheet/generate/page.tsx:184-189 | typing "-3" in the medium count stores −3, since `parseInt` reads it and `|| 0` keeps it; from the first render's counts this reaches the disabled button with one batch of 3 easy problems requested |
| Text.ParseIntNegativeDigits | app/worksheet/generate/page.tsx:188 | `parseInt` of a minus sign followed by decimal digits is the negated decimal value |
| GeneratePage.IntendedTotalMatchesRequest | app/worksheet/generate/page.tsx:134-139 | the corrected total is 0 exactly when no batch would be made, and equals the shown one when no count is negative |
| GeneratePage.GroupByDifficulty | app/worksheet/generate/page.tsx:82-91 | fails exactly when some problem has an unknown difficulty; otherwise each bucket holds the problems of its level, in order |
| GeneratePage.BucketsPartition | app/worksheet/generate/page.tsx:82-91 | every problem of a known level lands in exactly one bucket |
| GeneratePage.CreateSections | app/worksheet/generate/page.tsx:101-111 | one section per non-empty bucket, in the order easy, medium, hard, bonkers |
| GeneratePage.FlattenSections | app/worksheet/generate/page.tsx:101-111 | read section by section, the sections hold the buckets end to end |
| GeneratePage.GeneratedGrouping | app/worksheet/generate/page.tsx:78-111 | for generated problems, the grouped sections hold the problems in generation order, and section k is batch k's level and count |
| GeneratePage.NewWorksheetProduced | app/worksheet/generate/page.tsx:113-122 | the worksheet built from generated problems has the requested problems, grouped in sections that match the batches |
| GeneratePage.GenerateForm.constructor | app/worksheet/generate/page.tsx:12-49 | the first render: not generating; counts 3, 3, 2, 2; easy and medium checked; zeros allowed; the default worksheet and per-level section settings |
| GeneratePage.GenerateForm.HandleIncludeChange | app/worksheet/generate/page.tsx:162-166 | the level's check box changes and nothing else |
| GeneratePage.GenerateForm.HandleCountChange | app/worksheet/generate/page.tsx:184-189 | the level's count becomes the parsed field value and nothing else changes |
| GeneratePage.GenerateForm.HandleGenerate | app/worksheet/generate/page.tsx:51-131 | with no batch, alert and stay idle; otherwise build the worksheet the batches ask for and navigate to its shared URL, or stop when the random stream runs out |

## Left out

- Rendering, CSS classes and ARIA labels are left out. So are the focus side effects that only move the browser's focus; the index each of them targets is modelled.
- `localStorage` (`loadWorksheetProgress`, `saveWorksheetProgress`, `clearWorksheetProgress`) and the clipboard (`copyShareableURL`) are I/O, and are not modelled.
- Clocks are parameters: every `new Date().toISOString()` and `Date.now()` is passed in as a value.
- The generate page reads `Date.now()` twice, for the worksheet id and inside the generator; the two reads are separate parameters.
- `Math.random` is a finite list of draws passed in. A generator that runs out of draws stops with `OutOfDraws`; the source would instead keep drawing.
- The random id suffix (`Math.random().toString(36)`) is a parameter function of one draw.
- `JSON.stringify`, `JSON.parse` and the Node `Buffer` base64 codec (`Buffer.from(json).toString("base64")` and `Buffer.from(base64, "base64").toString("utf-8")`) are parameter functions. The round trips assume that they invert each other.
- WorksheetUri.DecodedWorksheet: the `as Worksheet` cast checks nothing at run time. The only check is on `id`, `title` and `problems` (a truthy id and title, `problems` an array, lib/worksheet-uri.ts:33), in the source as in the model; the other fields are taken as they come.
- Floating point is not modelled. `Math.round` of a percentage is computed exactly on rationals, halves rounding up as JavaScript does. The NaN of an empty list is `None`. The two can part where the double product falls just below a half: at lib/worksheet-storage.ts:132, 29 of 200 problems gives `(29 / 200) * 100` = 14.499999999999998 in doubles, which JavaScript rounds to 14, where the model gives 15.
- AdditionGridView.FormatPlaceValue prints the exact decimal quotient, not JavaScript's formatting of a double; the two can differ only for values of 16 or more significant digits.
- PartialProducts.CalculateExpectedPartialProducts, PartialProducts.ValidatePartialProducts and PartialProducts.IsPartialProductsComplete: negative operands are not modelled. A CSV row ("-5" is kept by `parseInt`) or a custom range can produce them. Their `toString()` starts with '-' and `parseInt("-")` is NaN, so the digit loop would need a model of that case, which this one does not give.
- The input screens (digit grids, classic algorithm, partial products, columnar, grid and area model views) take operands >= 0 only. A negative operand from a CSV row or a custom range is not modelled on them.
- Text.ToLower and CsvImport.ParseLineFacts: `toLowerCase` of the difficulty field is modelled on the ASCII letters A-Z only. JavaScript's full Unicode case mapping (accented capitals, for example) is not modelled, so a difficulty written with such letters keeps them in the model.
- The `try`/`catch` of the generate page is left out as a branch. It is proved unreachable for multiplication with known difficulties, so `alert` in the catch never happens.
- The generate page's settings check boxes (worksheet settings, section settings, allowZeros) are plain setter assignments. They are fields of `GenerateForm` but have no methods of their own.
- `Enter`-key navigation between rows (`onEnterAtEnd` handlers) only moves focus, and is not modelled.
- The share button's "copied" state is not modelled.
- The grid screen's `initialUserInputs` and its `onStateChange` pass-through to the addition grid only forward values, and are not modelled.
- `mergeWorksheetSettings` and the pages that only load, decode and render (`app/worksheet/shared/...`, `app/worksheet/print`, the import page) are not part of this model.
- `components/worksheet/ProblemView.tsx`, `SectionComplete.tsx`, `StudentInfoForm.tsx` and `CatValidator.tsx` are not part of this model.
- A JavaScript `Map` iterates in insertion order. It is modelled as a list of (key, rows) entries in that order.
- The area model screen's cells are not part of its completion check. The screen hands only the addition grid's state to `onComplete`, and the model does the same.
- `downloadExampleCSV` only starts a file download, and is not modelled. The text it downloads, `generateExampleCSV`, is modelled.

## Findings

| source | as written | input that shows it | evidently intended | confidence | as-written member | corrected member |
|---|---|---|---|---|---|---|
| lib/validators/multiplication-classic-algorithm.ts:139-146 | `every` over the supplied partials, with an index bound, so an empty list counts as all filled | any multiplication, partials `[]`, sum given: complete, yet the validator rejects it | complete means an entry at every expected position (the doc comment's "all fields filled") | high, not executed | ClassicAlgorithm.ClassicCompleteWithoutPartials | ClassicAlgorithm.ClassicCompleteIntendedFillsAll |
| components/math/MultiplicationClassicAlgorithm.tsx:104-107, 176, 304-313 | with placeholder zeros on, the stored row has its zeros stripped, but it is still compared with the shifted partial | 12 × 34 with placeholder zeros: the tens row shows "360" and stores "36", and 36 ≠ 360 is marked incorrect | compare the stored digits, shifted back by the row's place, with the partial | high, not executed | ClassicAlgorithmView.PlaceholderScreenRejected | ClassicAlgorithmView.MarksAgreeWithVerdictIntended |
| app/worksheet/generate/page.tsx:134-139, 353 | the total adds every checked count, negative ones included, while generation skips counts <= 0 | easy 3 and medium −3 (typed; `min="0"` does not stop typing), both checked: total 0 disables Generate although a batch of 3 would be made | total counts only positive checked counts, as generation does | medium, not executed | GeneratePage.NegativeCountDisablesGenerate | GeneratePage.IntendedTotalMatchesRequest |
