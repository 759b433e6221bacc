# ReflowMarkdown: frontmatter skip, in-memory text lines, settings merge

A Dafny model of three small pieces of sequential logic from the
ReflowMarkdown VS Code extension, which reflows Markdown paragraphs to a
preferred line width:

- the **frontmatter skip** at the start of whole-document formatting
  (`GetStartEndInfoFile`): when the first line, trimmed, starts with `---`,
  walk forward to the first later line that does too, or clamp to the last
  line, and start paragraph detection there;
- the **in-memory text line** `MockTextLine` that stands in for the editor's
  document: a bounds-checked `lineAtFunc`, the `lineNumber` and `text`
  projections, `firstNonWhitespaceCharacterIndex` and `isEmptyOrWhitespace`;
- the **settings merge** `updateSettings`, which overrides four settings
  with the values a parsed settings line supplies.

Modules, one per concern:

- `wrappers.dfy`: `Option` and `Result`.
- `text.dfy` (`Text`): a fixed whitespace set, `trim`, `startsWith`,
  `indexOf` and the `/\S/` search, with a reference definition of the
  leading-whitespace run.
- `text_lines.dfy` (`TextLines`): `MockTextLine` and its accessors. A thrown
  "rut row!" error becomes `Failure(OutOfRange(line))`.
- `frontmatter.dfy` (`Frontmatter`): the delimiter test, a declarative
  statement of the start line (`IsContentStart`), its functional form
  (`ContentStart`), and two loops. `ScanFrontmatter` is the scan as written.
  `SkipFrontmatter` is the scan with the read after the opener guarded.
  The document is a `seq<string>`. Its `lineAt` has the same range check as
  `lineAtFunc`. Both methods return, as `trace`, every line number they
  pass to the accessor, in order.
- `settings.dfy` (`ReflowSettings`): `Settings`, the parsed modification
  (one `Option` per key) and `UpdateSettings`.

The delimiter test (src/extension.ts:79 and :84) checks whether the trimmed
text starts with `---`. It does not check for equality, so `----` and
`--- title` are delimiters too (`Frontmatter.LongDashRunIsDelimiter`,
`Frontmatter.TitledDashRunIsDelimiter`).

## Model

| member | source | states |
|---|---|---|
| `Text.IsWhitespace` | src/test/extension.test.ts:233-240 | the single whitespace set behind both `trim` (src/extension.ts:79) and `/\s/`/`/\S/`: it contains space and tab, and every member lies in the Basic Multilingual Plane |
| `Text.StartsWithIff` | src/extension.ts:79-84 | `startsWith` holds exactly when the prefix is no longer than the text and matches it character by character from index 0 |
| `Text.LeadingWhitespace` | src/test/extension.test.ts:233-235 | the length of the leading whitespace run: everything before it is whitespace, and the character at it (if any) is not |
| `Text.LeadingWhitespaceAllIff` | src/test/extension.test.ts:233-235 | the leading run covers the whole text exactly when the text is all whitespace, including the empty text |
| `Text.MatchNonWhitespace` | src/test/extension.test.ts:240 | the `/\S/` match fails exactly on all-whitespace text; otherwise the matched character is the one right after the leading whitespace run |
| `Text.IndexOf` | src/test/extension.test.ts:242 | `indexOf` returns -1 exactly when the character is absent; otherwise a position holding it with no earlier occurrence |
| `Text.Trim` | src/extension.ts:79 | `trim()` returns the contiguous stretch of the text that starts right after the leading whitespace run and is followed only by whitespace; a non-empty result begins and ends with non-whitespace; the result is empty exactly when the text is all whitespace |
| `Text.TrimEnd` | src/extension.ts:79 | trailing trimming returns a prefix of its input that ends in a non-whitespace character (or is empty), and drops only whitespace |
| `Text.TrimEndKeeps` | src/extension.ts:79 | trailing trimming keeps everything up to and including any non-whitespace character |
| `Text.TrimStartsWithIff` | src/extension.ts:79-84 | the trimmed text starts with a prefix ending in non-whitespace exactly when that prefix follows the leading whitespace run |
| `TextLines.LineAtFunc` | src/test/extension.test.ts:197-203 | fails, with the requested number, exactly when it is below 0 or above the line count minus one; otherwise returns a line of the same document whose number is the requested one and whose text is that line |
| `TextLines.LineNumber` | src/test/extension.test.ts:204-209 | the zero-based line number; it lies in `[0, line count - 1]` exactly when the line is valid |
| `TextLines.LineText` | src/test/extension.test.ts:211-216 | the text of the line is the document's entry at the line's own number, so it is one of the document's lines |
| `TextLines.LineAtFuncRoundTrip` | src/test/extension.test.ts:197-216 | asking the document's `lineAtFunc` for a valid line's own `lineNumber` gives that same line back |
| `TextLines.FirstNonWhitespaceCharacterIndex` | src/test/extension.test.ts:233-246 | computed as the source does, by `/\S/` and then `indexOf` of the matched character; lies in `[0, length]`, equals the leading-whitespace length, equals the length exactly when the line is all whitespace, otherwise points at a non-whitespace character with only whitespace before it |
| `TextLines.IsEmptyOrWhitespace` | src/test/extension.test.ts:248-256 | holds exactly when every character of the line is whitespace; the empty line qualifies |
| `Frontmatter.IsDashDelimiter` | src/extension.ts:79-84 | the `text.trim().startsWith('---')` test on a line holds exactly when `---` follows its leading whitespace, whatever comes after |
| `Frontmatter.DashDelimiterPrefix` | src/extension.ts:84 | whitespace, then `---`, then any text is always a delimiter: the test is a prefix test, not equality |
| `Frontmatter.LongDashRunIsDelimiter` | src/extension.ts:79 | `----` is a delimiter |
| `Frontmatter.TitledDashRunIsDelimiter` | src/extension.ts:79 | `--- title` is a delimiter |
| `Frontmatter.IndentedDashRunIsDelimiter` | src/extension.ts:79 | `  ---  ` is a delimiter |
| `Frontmatter.NotDashDelimiterExamples` | src/extension.ts:79 | `--` and `- --` are not delimiters |
| `Frontmatter.FirstCloserFrom` | src/extension.ts:83-94 | the first delimiter line at or after a given line, with no delimiter in between, or the last line when no delimiter remains |
| `Frontmatter.ContentStart` | src/extension.ts:73-95 | the start line meets the declarative description: line 0 when line 0 is no opener, else the first later closer, else the last line |
| `Frontmatter.ContentStartUnique` | src/extension.ts:73-95 | exactly one line meets that description |
| `Frontmatter.ScanFrontmatter` | src/extension.ts:73-95 | the loop as written fails exactly on a one-line opener document or on the empty sequence, which no editor document is (see "Left out"); on failure the requested line is the line count (line 1 for the one-line document), after reads of lines 0 up to it; otherwise it returns the described start line together with that very line object, reads lines 0, 1, ... up to the start line exactly once each and nothing past it, and reads only line 0 when line 0 is no opener |
| `Frontmatter.OneLineOpenerOutOfRange` | src/extension.ts:79-81 | for the document `---` the unconditional read asks for line 1, which is out of range, while the intended start line is 0 |
| `Frontmatter.SkipFrontmatter` | src/extension.ts:73-95 | with the read after the opener guarded, the scan succeeds on every non-empty document, returns the described start line and that line object, and reads lines 0 up to the start line in order |
| `ReflowSettings.UpdateSettings` | src/test/extension.test.ts:107-113 | each of the four keys changes only to a value the modification supplies, takes that value whenever one is supplied, and `formatOnSave` never changes |
| `ReflowSettings.UpdateSettingsIdempotent` | src/test/extension.test.ts:109-112 | applying the same modification twice equals applying it once |
| `ReflowSettings.EmptyModificationIsIdentity` | src/test/extension.test.ts:109-112 | a modification that supplies no key leaves the settings unchanged |
| `ReflowSettings.UpdateSettingsCompose` | src/test/extension.test.ts:107-113 | two successive modifications equal one that carries, per key, the last supplied value |
| `ReflowSettings.FullModificationForgetsPrevious` | src/test/extension.test.ts:109-112 | a modification supplying all four keys yields the same settings from any starting point with the same `formatOnSave` |

## Findings

| source | as written | input that shows it | evidently intended | confidence | as-written member | corrected member |
|---|---|---|---|---|---|---|
| src/extension.ts:79-81 | after an opener on line 0, line 1 is read unconditionally | a document of one line, `---` | clamp to the last line, as the comment at lines 91-94 says for a missing closer; the start line is 0 | medium; not executed | `Frontmatter.ScanFrontmatter`, `Frontmatter.OneLineOpenerOutOfRange` | `Frontmatter.SkipFrontmatter` |

## Left out

- The reflow engine itself: the list and block-quote classifiers, the inline-span protectors, `lineTooLong`, `getStartLine`, `getEndLine`, `getLineIndent`, `getSettings` and `getReflowedText`. They live in src/testable.ts, which is not part of this model.
- The settings defaults that `getSettings()` returns, for the same reason. `UpdateSettings` works on any current settings.
- `GetStartEndInfo` and the rest of `GetStartEndInfoFile` after the scan (src/extension.ts:53-71, 97-108). They only hand the start line to `getStartLine`/`getEndLine`, which are not part of this model.
- Editor plumbing: the active-editor lookup, the edit, selection restore, command registration and the formatting-provider registration (src/extension.ts:14-51, 111-134). These are host I/O and editor state.
- The whole-document provider passes the entire document text while it replaces only the paragraph's range (src/extension.ts:122, 129-130). This is glue around the unmodelled reflow.
- The file-comparison test driver (src/test/extension.test.ts:87-185). It uses file I/O, `JSON.parse`, logging and the unmodelled reflow. `UpdateSettings` takes the `settings` object as already parsed. A line without that object, or one that does not parse, would throw.
- ReflowSettings.UpdateSettings: each value is typed (`int` or `bool`). JavaScript would also take a value of another type, or a JSON `null`, which is not `undefined` and so overrides.
- `range` and `rangeIncludingLineBreak` of `MockTextLine` return empty placeholder objects and have no behaviour to model.
- TextLines.LineText: needs the line number to be in range. With an out-of-range number the source's getter yields `undefined`. Every line the source builds has an in-range number: `lineAtFunc` checks it, and the driver's loop guard bounds it.
- Frontmatter.ScanFrontmatter: the failure on the empty sequence exists only in the model. An editor document always has at least one line (an empty file is one empty line), and on that document the source and the model both return line 0.
- TextLines.LineAtFunc: line numbers are integers. A fractional JavaScript number is not modelled.
- Strings are sequences of Unicode scalar values, where JavaScript strings are UTF-16 code units. Nothing observable changes: every whitespace character in the set lies in the Basic Multilingual Plane (`Text.IsWhitespace`), and the delimiter is plain ASCII. So the leading-whitespace offset, the all-whitespace length and the trimmed `---` test come out the same under either encoding.
- Text.IsWhitespace: a fixed set stands in for JavaScript's whitespace, which `trim` and `/\S/` share. The set is the ASCII whitespace and line terminators, U+00A0, U+FEFF, U+2028 and U+2029. The other Unicode space separators (U+1680, U+2000-U+200A, U+202F, U+205F, U+3000) are not in it.
