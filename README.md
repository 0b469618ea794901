# Memelang core in Dafny

A model of the core of Memelang (`memelang.py`). Memelang is a compact
query language over a single relational "meme" table of
`(aid, rid, bid, qnt)` rows, and these functions handle its text and its
SQL:

- **Tables.** The operator tables `OPR` and `OPSTR`.
- **Text to tokens.** `normalize` tidies the text and `decode` lexes it
  into a flat token list `[operator, operand, operator, operand, ...]`.
  `encode` writes the list back as text.
- **Walking a list.** `nxt` finds the next statement. `tokfit` matches a
  list against a shape.
- **Binary form.** `compress` packs a list into one big integer and
  `decompress` unpacks it.
- **Keys and ids.** `namecache`, `identify` and `keyify` turn keys into
  ids and back through the caches `I` and `K`. Those caches are filled
  from a name table.
- **Query to SQL.** `selectify`, `subquerify` and `querify` compile a
  list into one SQL text plus a positional parameter list.
- **Helpers.** `morfigy` substitutes parameters into SQL text. `slugify`
  makes a key out of free text.

The modules follow the stages of the program:

| file | module | models |
|---|---|---|
| base.dfy | `Base` | token values, errors, `OPR`, `OPSTR`, operator ids |
| strings.dfy | `Strings` | `str()`/`int()` of integers, `lower`, `replace`, `join` |
| helpers.dfy | `Helpers` | `morfigy`, `slugify` |
| tidy.dfy | `Tidy` | `normalize` and the comment removal of `decode` |
| lexer.dfy | `Lexer` | `decode` |
| encoder.dfy | `Encoder` | `encode`, and the `decode(encode(x))` round trip |
| walker.dfy | `Walker` | `nxt`, `tokfit` |
| codec.dfy | `Codec` | `compress`, `decompress` and both round trips |
| resolver.dfy | `Resolver` | `namecache`, `identify`, `keyify`, with the caches as a class |
| select.dfy | `SqlSelect` | `selectify` |
| query.dfy | `SqlQuery` | `subquerify`, `querify` |

How the model represents the source:

- **Tokens.** A token is a `Val`: `Nil` (Python `None`), `Int`, `Str`,
  or `Dec`. A `Dec` is a decimal kept as the literal text it was read
  from.
- **Errors.** Every exception the code raises is an `Error` value inside
  a `Result`. Examples are `KeyError` for a missing dictionary key and
  `IndexError` for an index past the end of a list.
- **Loops.** Each loop of the source is a `method` with a `while` or
  `for` loop (for `nxt` and `tokfit`, `Walker.NextStatement` and
  `Walker.FitShape`). Its `ensures` ties the result to a specification
  function, which is recursive, and the lemmas state the properties of
  that function.
- **The caches.** `I` and `K` are the fields of the class
  `Resolver.Cache`. Its methods change them in place.
- **The database.** The name table that `namecache` reads through
  `selectin` is a parameter `store: seq<Row>`. `Resolver.Select` is the
  `WHERE bid = I['key'] AND fld IN (...)` filter over it.
- **SQL text.** SQL is built as a `Frag`: a list of text pieces, column
  placeholders `(A0)`/`(R0)`/`(B0)` and parameter holes `%s`. It is
  turned into a string only where `querify` returns it. This lets the
  model state how many `%s` a text holds and which column each
  placeholder becomes.
- **Table name.** The meme table name is a parameter `table`.

Behaviour worth knowing:

- **Unresolved keys.** `identify` and `keyify` index `I[...]` and `K[...]`
  directly (memelang.py:362, 392), so an unresolved key raises
  `KeyError`. It is not left in place as a string.
- **A query that only asks for everything.** `subquerify` calls
  `selectify([I[']']])` on a one-slot list (memelang.py:467), which
  raises `IndexError` at memelang.py:542. It does not produce an
  unfiltered table scan. `SqlQuery.Subquery` returns that error.
- **Decimal scale.** Decimals are scaled by 10^9 (memelang.py:283), not
  10^6. The model leaves decimal scaling out (see below).

## Model

| member | source | states |
|---|---|---|
| Base.Opr | memelang.py:39-54 | an id has an entry iff it is one of the 14 operators; exactly `;`, ` `, `>>` are A-class; exactly `=.`, `>`, `<`, `>=`, `<=`, `!=` have decimal operands; exactly the five structural operators take keys |
| Base.Info | memelang.py:39-54 | `OPR[v]` exists for a token slot iff it holds an operator id |
| Base.OpName | memelang.py:39-54 | every operator has a non-empty key in `K` |
| Base.OperatorIdsInRange | memelang.py:39-54 | every operator id fits the 7-bit operator field below 127 and is none of the reserved non-operator ids |
| Base.OpStrYieldsOperators | memelang.py:60-73 | every `OPSTR` entry names an operator of `OPR`, except `!`, which alone is incomplete; exactly `>` and `<` are intermediate |
| Helpers.Morfigy | memelang.py:119-123 | the loop substitutes each parameter, in turn, for the first `%s` of the text so far |
| Helpers.MorfigyFillsPlaceholders | memelang.py:119-123 | for text and parameters without `%`, the k-th parameter (quotes doubled, or `str()`) lands in the k-th placeholder |
| Helpers.Underscore | memelang.py:129 | every character outside `[a-z0-9]` becomes `_`, and the length is kept |
| Helpers.SlugifyIsSlug | memelang.py:128-129 | `slugify` yields letters, digits and single underscores, none at either end, and keeps the letters and digits of the lower-cased input in order |
| Helpers.SlugifyUnicodeCapitals | memelang.py:128-129 | `str.lower()` is Unicode: the Kelvin sign slugifies to `k`, and a dotted capital I to `i` followed by `_` |
| Helpers.SlugifyIdempotent | memelang.py:128-129 | a slug is its own slugification, so `slugify` is idempotent |
| Strings.LowerOfLowerAscii | memelang.py:129 | lower-casing leaves text of lower-case ASCII letters, digits and `_` as it is |
| Strings.IntToString | memelang.py:121 | `str(i)` is non-empty, starts with `-` iff `i < 0`, and has no `%` |
| Strings.ParseIntToString | memelang.py:215 | `int(str(i)) == i` |
| Strings.ParseIntOfDigits | memelang.py:215 | `int()` of a run of digits is the number the digits denote |
| Strings.ReplaceChar | memelang.py:157 | replacing one character by another rewrites exactly its occurrences |
| Strings.ReplaceFirstAfter | memelang.py:122 | `replace("%s", rep, 1)` rewrites the first placeholder and nothing before it |
| Tidy.StripCommentsRemovesAll | memelang.py:167 | no `//` is left after comment removal |
| Tidy.StripCommentsNone | memelang.py:167 | text without `//` is left as it is |
| Tidy.StripBlank | memelang.py:141 | `strip()` leaves no blank at either end |
| Tidy.SplitQuotesJoin | memelang.py:141 | joining the parts of the unescaped-quote split with `"` gives the text back |
| Tidy.RunLengthRun | memelang.py:150-155 | the run measured is maximal: every character in it belongs to the class, and the next one does not |
| Tidy.DropTrailingSemis | memelang.py:155 | only trailing `;` are removed, and none is left at the end |
| Tidy.Normalize | memelang.py:139-160 | the method returns `Normalized`: quoted parts untouched, the same number of parts as the quote split |
| Tidy.Normalized | memelang.py:139-160 | odd (quoted) parts are kept verbatim; without the newline option the first part starts with `;`, and no code part has `;;` or ends with `;` |
| Tidy.NormalizedTidied | memelang.py:150-157 | every code part is tidy: without the newline option it holds no newline, no two adjacent blanks and no blank next to an operator character `#;!<>=`; with it, it holds no `;` |
| Tidy.TidyPartTidied | memelang.py:150-157 | the passes of one part leave it tidy, and with the newline option no `;` is left |
| Tidy.SqueezeBlanks | memelang.py:151 | after `\s+` is squeezed to a space no two blanks are adjacent, no newline is left, and every blank is a plain space |
| Tidy.TightenTidied | memelang.py:152 | once blanks are single, removing the blanks around operator runs leaves no blank next to an operator character |
| Tidy.SqueezeSemisTidied | memelang.py:153 | squeezing `;+` keeps the part tidy |
| Tidy.TrimZerosTidied | memelang.py:154 | the zero pass keeps the part tidy |
| Tidy.ReplaceSemis | memelang.py:157 | after `;` is replaced by a newline no `;` is left |
| Tidy.TidyPartNoDoubleSemi | memelang.py:150-155 | after the passes of one part no two `;` are adjacent |
| Tidy.FirstPartKeepsSemi | memelang.py:141-155 | the `;` that `normalize` puts in front survives every pass unless the part becomes empty |
| Tidy.TrimZerosAsWrittenChangesValue | memelang.py:154 | as written, the trailing-zero pass turns `.105` into `.15` |
| Tidy.TrimZerosKeepsValue | memelang.py:154 | the corrected pass drops only the zeros that end a decimal's digits, at least one digit stays, and the digits' value is unchanged up to the dropped power of ten |
| Tidy.TrimZerosPoint | memelang.py:154 | the corrected pass keeps a point and its digits up to the last non-zero one (at least one), and goes on after the digit run |
| Tidy.KeptDigitsValue | memelang.py:154 | the digits the corrected pass drops are zeros, and the kept digits times the dropped power of ten are the digits' value |
| Tidy.SqueezeSemis | memelang.py:153 | after `;+` is squeezed to `;` no two `;` are adjacent |
| Tidy.TrimZerosNoDoubleSemi | memelang.py:154 | the zero pass creates no `;;` |
| Tidy.TightenUnchanged | memelang.py:152 | text where no blank touches an operator character is not changed by the pass around operators |
| Tidy.TrimZerosUnchanged | memelang.py:154 | text without a point is not touched by the zero pass |
| Tidy.NormalizeUnchanged | memelang.py:139-167 | clean text is untouched by comment removal, and normalizes to itself behind the leading `;` |
| Encoder.UnicodeBlanks | memelang.py:141-155 | blanks are Python's Unicode whitespace: a key holding a no-break space is not plain, and `strip()` removes an em space |
| Tidy.NormalizedOnePart | memelang.py:141-160 | text without a quote is one part, tidied |
| Lexer.SplitOps | memelang.py:183 | the split alternates text pieces and single separator characters, text first and last |
| Lexer.SplitOpsConcat | memelang.py:183 | the pieces of the split make up the text |
| Lexer.LexOperand | memelang.py:206-216 | an operand fills the slot after an operator with no operand, only for a chunk that has a lower-case ASCII letter or a digit, and keeps every earlier slot |
| Lexer.Decode | memelang.py:165-220 | the method returns `Decoded`, the token list or the exception |
| Lexer.LexAll | memelang.py:174-218 | the outer loop over parts equals `LexParts` from the header `[id, mix]` |
| Lexer.LexPart | memelang.py:183-218 | the inner loop equals `LexChunks` and leaves at least the header |
| Lexer.ReadOperand | memelang.py:206-216 | the operand branch equals `LexOperand` |
| Lexer.LexPartsStep | memelang.py:174-183 | a quoted part needs `=.` before it, which becomes `=$` with the text as operand; an unquoted part is split and lexed |
| Lexer.DecodeShape | memelang.py:165-220 | a decoded list has even length, the header `[id, mix]`, an operator of `OPR` in every even slot, and `;` first |
| Lexer.OperandClasses | memelang.py:206-216 | SequenceError iff the previous operand is filled; UnexpectedChunk iff no `[a-z0-9]`; t/f/g need `=.` or `=#` and become `=#` with their id; a chunk with `.` or after a decimal operator is a decimal; digits after any other operator are an int; the remainder is a key |
| Lexer.BangRejected | memelang.py:197-201 | a lone `!` raises InvalidOperator |
| Lexer.ComparatorsMerge | memelang.py:197-200 | `>` or `<`, a piece, then `=` is read as `>=` or `<=`, and the piece in between is skipped |
| Lexer.QuoteKeepsText | memelang.py:177-181 | a quoted part becomes a `=$` operand with the quoted text |
| Lexer.DecodeErrors | memelang.py:167-216 | empty text after comment removal raises EmptyQuery, and only it; every failure is one of the listed lexer errors |
| Lexer.MergedOperator | memelang.py:197-199 | an operator joined from two pieces is a real operator |
| Encoder.Encode | memelang.py:225-240 | the method returns `Encoded`, the text or the exception |
| Encoder.EncodeErrors | memelang.py:229-236 | `encode` raises only KeyError and IndexError, and IndexError only for a list of odd length |
| Encoder.EncodeNewline | memelang.py:238 | the newline option replaces exactly the `;` by newlines and nothing else |
| Encoder.PairPlain | memelang.py:231-236 | a structural operator is written as its text (the opening `;` omitted) and its operand as `str()` |
| Encoder.EncodePlain | memelang.py:225-240 | a list of keys and integers under structural operators is written as its rendering without the opening `;` |
| Encoder.SplitRender | memelang.py:183 | the split of a rendering yields its pieces in order |
| Encoder.LexPieces | memelang.py:186-218 | the lexer reads the pieces of plain pairs back as those pairs |
| Encoder.RenderClean | memelang.py:150-155 | a rendering is text that the passes of `normalize` leave alone |
| Encoder.EncodeDecode | memelang.py:165-240 | `decode(encode(tokens))` gives the tokens back behind the header, for keys and integers under structural operators |
| Encoder.DecodeRendering | memelang.py:174-218 | lexing the one part of a rendering gives its pairs behind the header |
| Walker.ScanStatement | memelang.py:249-253 | the scan stops at the first `;` two slots on at a time, or at the end, and skips no `;` |
| Walker.Next | memelang.py:244-253 | -1 iff `beg > len-2`; OperatorCounting iff the slot at `beg` is not `;`; otherwise the next `;` on the same parity after `beg`, or the length |
| Walker.NextStatement | memelang.py:244-253 | the method with the `while` loop returns `Next` |
| Walker.FitFrom | memelang.py:261-266 | the loop returns true iff every later slot fits, and raises KeyError iff a class lookup of a non-operator comes before any mismatch; a text at an operator slot is a class test |
| Walker.TokFit | memelang.py:259-266 | false for lists of different lengths; true iff every slot fits (a wildcard; at an operator slot, a text naming the operator's class; otherwise equal); KeyError iff a class lookup fails before any mismatch |
| Walker.TextShapeIsClassTest | memelang.py:263-264 | a text at an operator slot is looked up in `OPR`, never compared: a key there raises KeyError, and `'A'` fits `;` |
| Walker.FitShape | memelang.py:259-266 | the method with the `for` loop returns `TokFit` |
| Codec.PackPair | memelang.py:280-287 | a packed pair is one 64-bit chunk |
| Codec.PackPairRanges | memelang.py:285-286 | for an integer operator and a converted operand: OperatorRange iff the operator is outside `[0,127)`, OperandRange iff it is inside and the operand is outside `[-2^56, 2^56)`, and the pair packs iff both are inside |
| Codec.ScaledErrors | memelang.py:281-283 | a missing operand is 0; the operand converts iff it is missing or the operator is in `OPR` and the operand an integer; KeyError iff a present operand has an operator outside `OPR`; a conversion error is the pair's error |
| Codec.PackPairs | memelang.py:279-287 | a packed list is at least the sentinel `2^63` |
| Codec.Compress | memelang.py:271-289 | the method returns `Packed`, the integer or the exception |
| Codec.PackStep | memelang.py:279-287 | one pass of the loop puts the pair at `t-1` below the pairs after it, or stops at its error |
| Codec.PackPairsOk | memelang.py:279-287 | the pairs pack iff every pair packs |
| Codec.PackPairsLastError | memelang.py:279-287 | a failed packing raises the error of a pair after which every pair packs |
| Codec.PackPairsErrors | memelang.py:279-287 | `compress` fails iff some pair fails, and then with the error of the last such pair |
| Codec.CompressOddCount | memelang.py:273 | an odd count raises before anything else |
| Codec.Decompress | memelang.py:294-309 | the method returns `Unpacked`, the list or the exception |
| Codec.UnpackFrom | memelang.py:297-307 | the pairs decoded come in whole pairs |
| Codec.UnpackFromErrors | memelang.py:297-308 | the loop yields pairs iff every chunk converts and the leftover is `2^63`; VersionError iff every chunk converts and the leftover is not `2^63`; no other error than VersionError, KeyError or Unsupported |
| Codec.DecompressErrors | memelang.py:294-308 | BelowSentinel iff the input is below `2^63`; from `2^63` on, VersionError iff every chunk converts and the leftover differs from `2^63`, and a list iff it equals it |
| Codec.UnpackStep | memelang.py:297-307 | one pass takes the low chunk as the next pair and goes on with the rest |
| Codec.PairRoundTrip | memelang.py:280-305 | a packable pair unpacks to itself, with a zero operand turned into `None` |
| Codec.PackPairsRoundTrip | memelang.py:279-307 | packing then unpacking the pairs gives them back, zero operands as `None` |
| Codec.CompressRoundTrip | memelang.py:271-309 | `decompress(compress(tokens))` is `[id, id]` and the pairs after the header, zero operands as `None` |
| Codec.DecompressRoundTrip | memelang.py:271-309 | `compress` of what `decompress` yields gives the same integer, when no operator field is 127 |
| Codec.ChunkRoundTrip | memelang.py:280-305 | a chunk that unpacks packs back to itself, when its operator field is not 127 |
| Codec.DecompressAcceptsUncompressible | memelang.py:285-305 | an operator field of 127 with no operand decompresses, and `compress` refuses that operator |
| Resolver.Select | memelang.py:330 | the rows fetched are exactly the key rows of the name table whose key (or id) is wanted |
| Resolver.RecordKeeps | memelang.py:332-334 | writing rows adds exactly their keys to `I` and ids to `K` and leaves every other entry as it was |
| Resolver.RecordLast | memelang.py:332-334 | for a key (or id) written several times, the last row written is the one that stays |
| Resolver.NameCacheFills | memelang.py:320-334 | no entry is lost; a cached entry of the kind looked up keeps its value; every new entry comes from a key row of the table; every looked-up key or id that the table holds ends up cached |
| Resolver.Cache.NameCache | memelang.py:320-334 | the method raises what `NameCached` raises and then leaves the caches alone, or leaves them as `NameCached` says |
| Resolver.Cache.Identify | memelang.py:337-365 | the method returns, and leaves the caches, as `Identification` says |
| Resolver.Cache.Keyify | memelang.py:368-395 | the method returns, and leaves the caches, as `Keyification` says |
| Resolver.Cache.Resolve | memelang.py:337-395 | the shared course: the header, the lookup loop, `namecache`, then the conversion loop with the caches `namecache` left |
| Resolver.ScanPairs | memelang.py:347-363 | the loop over the pairs from slot 2 collects the outputs of the step on each pair, or the first error |
| Resolver.KeyFormOfTable | memelang.py:350 | the key-form test is the `FORM` column of `OPR`, with KeyError for a non-operator |
| Resolver.ResolvedParts | memelang.py:337-395 | a successful call is the header followed by the conversion loop's output, run with the caches `namecache` leaves |
| Resolver.IdCollect | memelang.py:356-363 | the conversion loop of `identify` fills every slot as `IdSlot` says, and keeps the length |
| Resolver.KeyCollect | memelang.py:387-394 | the conversion loop of `keyify` fills every slot as `KeySlot` says, and keeps the length |
| Resolver.IdentifyConverts | memelang.py:337-365 | an empty list comes back unchanged; otherwise the header is `I['id']` or the input slots the mode keeps; operators become ids unless the mode is ODD; a key operand of a key-form operator becomes its id (negated for `-`) unless the mode is EVEN; `None` and other operands stay |
| Resolver.KeyifyConverts | memelang.py:368-395 | the same for `keyify`: operators become their keys, and an id operand of a key-form operator becomes its key, with `-` for a negative id |
| SqlSelect.Step | memelang.py:541-572 | one pass keeps one inversion flag per hop, and raises only IndexError, KeyError or the A error |
| SqlSelect.StepAsWritten | memelang.py:541-572 | a pass in the order as written also keeps one inversion flag per hop |
| SqlSelect.Selected | memelang.py:525-590 | `selectify` raises only IndexError, KeyError or the A error |
| SqlSelect.Selectify | memelang.py:525-590 | the method returns `Selected`, the select text and parameters or the exception |
| SqlSelect.ResolveHops | memelang.py:578-584 | the loop over the hops resolves every placeholder of the select list, joins and conditions, as `Finish` says |
| SqlSelect.SelectedScan | memelang.py:540-590 | `selectify` succeeds iff its loop over the pairs does, and otherwise raises the loop's error |
| SqlSelect.Visit | memelang.py:541-572 | one pass of the loop equals `Step` |
| SqlSelect.ResolveHop | memelang.py:578-584 | hop `i`'s placeholders become its columns in every string, read backwards when the hop is inverted |
| SqlSelect.HopAfter | memelang.py:578-584 | resolving hop `i` after the hops below it resolves every hop up to `i` |
| SqlSelect.ResolveNone | memelang.py:578-584 | resolving no hop changes nothing |
| SqlSelect.ScanErrors | memelang.py:540-572 | after the first pair, the loop fails iff a pair is cut short or lacks an operator, and only with IndexError or KeyError |
| SqlSelect.SelectifyErrors | memelang.py:540-572 | `selectify` succeeds iff every pair is whole with an operator and the first is A-class; the A error iff the first operator is not A-class |
| SqlSelect.StepTracks | memelang.py:541-572 | one pass keeps the scan state in step with the hops, flags and conditions of the pairs seen |
| SqlSelect.ScanTracks | memelang.py:540-572 | the whole loop leaves the hops, inversion flags, joins and conditions of every pair |
| SqlSelect.WhereHoles | memelang.py:562-572 | a condition holds exactly one `%s` |
| SqlSelect.FlaggedBelow | memelang.py:550-559 | only a hop that exists is flagged |
| SqlSelect.SelectifyShape | memelang.py:525-590 | one join and one flag per hop; a hop is flagged iff a negated relation belongs to it, opening it or met while it is the current hop; `FROM table m0` and then `JOIN table mk ON` the previous hop's `B` column equals this hop's `A` column, each read in its direction; the parameters are the constrained operands in order, one condition and one `%s` each; an anchor-only select lists only the anchor column |
| SqlSelect.FirstHopInverted | memelang.py:550 | a relation with a leading minus in the first hop inverts that hop |
| SqlSelect.ChainedFlagsPreviousHop | memelang.py:550-559 | as written, on `;5[6]9[-7]8` the flags are `[true, false]`: the minus of the relation that opens hop 1 flags hop 0, while the condition on -7 names hop 1's relation column |
| SqlSelect.ChainedFlagsOwnHop | memelang.py:550-559 | with the flag set after the hop is opened, `;5[6]9[-7]8` flags hop 1 and not hop 0 |
| SqlSelect.NegatedStepInverted | memelang.py:550-572 | a pass over a negated relation adds the condition `(R{m})=%s` with its operand, and leaves the hop `m` that condition names inverted |
| SqlSelect.NegatedHopInverted | memelang.py:550-559 | over a whole select, the hop a negated relation belongs to is inverted |
| SqlSelect.SelectedHoles | memelang.py:586-590 | a select text holds one `%s` per parameter |
| SqlSelect.HolesJoinSum | memelang.py:587-589 | joining with a separator that has no `%s` keeps the `%s` of the parts |
| SqlSelect.AssembleHoles | memelang.py:586-590 | the text of a select holds one `%s` per condition |
| SqlSelect.JoinsText | memelang.py:558-584 | the text of each join after resolution |
| SqlQuery.Find | memelang.py:455 | the first group with the number, or none iff no group has it |
| SqlQuery.AddTo | memelang.py:455-456 | a clause is appended to the group with its number, or to a new last group; the numbers stay distinct |
| SqlQuery.Mark | memelang.py:438-451 | marking a slot keeps the clause start and the groups, and raises only IndexError or KeyError |
| SqlQuery.GroupFrom | memelang.py:437-460 | the grouping loop raises only IndexError or KeyError |
| SqlQuery.GroupClauses | memelang.py:427-460 | the method returns `Grouped`, the groups or the exception |
| SqlQuery.GroupFromFiled | memelang.py:437-460 | the loop keeps the OR groups a dictionary of non-empty lists, and NOT and GET clauses under number 0 |
| SqlQuery.GroupedFiled | memelang.py:427-460 | every OR clause is filed under a number met once, in a non-empty group |
| SqlQuery.Subquerify | memelang.py:425-520 | the method returns `Subquery`, the expressions, selects and parameters or the exception |
| SqlQuery.AllRefused | memelang.py:540-542 | `selectify` of the one-slot list `[I[']']]` raises IndexError, so both query-for-everything paths fail |
| SqlQuery.Compose | memelang.py:505-519 | the method returns `Composed`: the everything-select error, or the GET selects and the outputs after the OR phase |
| SqlQuery.SubqueryErrors | memelang.py:466-480 | NoTrueStatement iff there are NOT clauses and no OR group; a query for everything always ends in an error |
| SqlQuery.Negate | memelang.py:479-485 | the NOT phase equals `NotsFrom` |
| SqlQuery.NotsHoles | memelang.py:482-485 | the NOT conditions hold one `%s` per NOT parameter |
| SqlQuery.Union | memelang.py:490-501 | the selects of one OR group equal `MembersFrom` |
| SqlQuery.MemberStep | memelang.py:494-500 | a select gets the restriction to `z{z}` past the first expression; otherwise the pending NOT conditions, which are then dropped |
| SqlQuery.MembersPrefix | memelang.py:490-501 | the loop over one group's clauses adds one select per clause after those it had |
| SqlQuery.MembersPending | memelang.py:494-500 | the pending NOT conditions are used up by the first select while no expression exists, and kept otherwise |
| SqlQuery.MembersShape | memelang.py:490-501 | the `k`-th select of a group is the `k`-th clause's select followed by what it gets attached, and the count is one per clause |
| SqlQuery.MembersGroup | memelang.py:490-501 | every select of a group is its clause's select; each is kept to the last expression when there is one, and otherwise only the first gets the NOT conditions |
| SqlQuery.Unite | memelang.py:488-503 | the OR phase equals `UnionsFrom` and makes one expression per group |
| SqlQuery.UnionsPrefix | memelang.py:488-503 | the OR phase adds one expression per group after those it had |
| SqlQuery.UnionsSkip | memelang.py:488-503 | the OR phase, from any point, reaches group `k` with `k` expressions and goes on from there to the same end |
| SqlQuery.UnionsShapeHere | memelang.py:488-503 | the expression made at group `i` is `z{cteBeg+i+1}` and holds that group's selects |
| SqlQuery.UnionsShape | memelang.py:488-503 | group `k` becomes `z{cteBeg+k+1}` with the selects of its clauses, the NOT conditions on the first select of the first group only |
| SqlQuery.UnionsDebtKept | memelang.py:488-503 | the OR phase adds one `%s` per parameter it adds, pending NOT conditions included |
| SqlQuery.Get | memelang.py:512-515 | the GET phase equals `GetsFrom` |
| SqlQuery.GetsPrefix | memelang.py:512-515 | the GET loop adds one select per GET clause after those it had |
| SqlQuery.GetsShape | memelang.py:512-515 | the `k`-th GET select is the `k`-th clause's select kept to the anchors of the last expression `z{z}` |
| SqlQuery.GetsLayout | memelang.py:512-515 | every GET select, in order, is its clause's select kept to `z{z}` |
| SqlQuery.GetsHoles | memelang.py:512-515 | the GET selects add one `%s` per parameter they add |
| SqlQuery.OutputsRead | memelang.py:517-518 | one output per expression `z{cteBeg+1}` to `z{z}`; the output of expression `n` reads from `z{n}` and is kept to the anchors of `z{z}` iff `n` is not the last |
| SqlQuery.AddOutputs | memelang.py:517-518 | the output loop appends `Outputs` |
| SqlQuery.OutputsHoles | memelang.py:517-518 | the outputs hold no `%s` |
| SqlQuery.SubqueryCtes | memelang.py:479-503 | one expression per OR group, numbered `cteBeg+1` on, with the NOT conditions on the first select of the first |
| SqlQuery.SubquerySelects | memelang.py:505-519 | the GET selects kept to `z{z}`, then one output per expression |
| SqlQuery.SubqueryHoles | memelang.py:425-520 | a statement's expressions hold one `%s` per expression parameter and its selects one per GET parameter |
| SqlQuery.Querify | memelang.py:404-420 | the method returns `Queried`: the query text with the expression parameters of every statement before the GET parameters, or the exception |
| SqlQuery.StatementsKeep | memelang.py:414-418 | the statement loop keeps the expressions numbered `z1, z2, ...`, one `%s` in the expressions per expression parameter and one in the selects per GET parameter |
| SqlQuery.WithFragHoles | memelang.py:420 | the `WITH` list holds the `%s` of the expressions, the outer select those of the selects, and the final text both |
| SqlQuery.QuerifyShape | memelang.py:404-420 | the expressions are numbered `z1, z2, ...` in order; the query text is the `WITH` list, holding one `%s` per expression parameter, then the union of the selects, holding one per GET parameter; the parameters are the expression ones, then the GET ones |
| SqlQuery.NotsParams | memelang.py:481-485 | the NOT conditions carry the parameters of their selects, clause after clause |
| SqlQuery.MembersParams | memelang.py:489-501 | once the NOT conditions are attached, or when there are none, a group adds the parameters of its selects in order |
| SqlQuery.FirstGroupParams | memelang.py:492-501 | in the first group the NOT parameters come right after those of its first select |
| SqlQuery.UnionsParams | memelang.py:489-503 | the groups after the first add the parameters of their selects in order |
| SqlQuery.UnionsFirstParams | memelang.py:489-503 | the expressions' parameters are in text order, the NOT parameters after the first select's |
| SqlQuery.GetsParams | memelang.py:511-515 | the GET selects add their parameters in order |
| SqlQuery.SubqueryParams | memelang.py:472-520 | a statement's expression parameters are those of its expressions' selects in text order, its GET parameters those of its GET selects, and its list the two in turn, whatever the numbering of its expressions |
| SqlQuery.StatementsExprParams | memelang.py:413-418 | the loop gathers the expression parameters of each statement, statement after statement as `nxt` cuts them |
| SqlQuery.StatementsGetParams | memelang.py:413-418 | the loop gathers the GET parameters of each statement, statement after statement |
| SqlQuery.QuerifyParams | memelang.py:404-420 | the query's parameters are the expression parameters of its statements in order, then their GET parameters, so with `QuerifyShape` the k-th parameter fills the k-th `%s` |
| SqlQuery.QuerifyAsWrittenParams | memelang.py:414-420 | as written, the text is the same and the parameters are each statement's whole list, statement after statement |
| SqlQuery.SampleExpressions | memelang.py:414-420 | in `;1[2 3[4=#g;5[6` the expressions `z1` and `z2` hold the first four `%s` |
| SqlQuery.QuerifyAsWrittenMisbinds | memelang.py:414-420 | as written, `;1[2 3[4=#g;5[6` passes 1, 2, 3, 4, 5, 6, so `z2`'s placeholders get the GET parameters 3 and 4; in text order they are 1, 2, 5, 6, 3, 4, around the same text |
| SqlQuery.SubqueryOk | memelang.py:425-520 | `subquerify` succeeds when the grouping does, no query marker asks for `all`, NOT clauses come with an OR group and every clause compiles |
| SqlQuery.NotsOk | memelang.py:482-485 | the NOT phase succeeds when every NOT clause compiles |
| SqlQuery.MembersOk | memelang.py:490-501 | a group's selects succeed when every clause compiles |
| SqlQuery.UnionsOk | memelang.py:488-503 | the OR phase succeeds when every clause of every group compiles |
| SqlQuery.GetsOk | memelang.py:512-515 | the GET phase succeeds when every GET clause compiles |

## Left out

- Database access (`select`, `insert`, `aggnum`, and `selectin` except
  its filter), `put`, `query`, `count`, file `read`/`write` and the
  `cli_*` commands: these are I/O. `main.py`, `db.py` and `conf.py` are
  not part of this model. Only the ids of `conf.py` that the core uses
  appear, as constants.
- Codec.PackPair: the scaling of a decimal operand by 10^9 is left out
  because it is floating point. The model raises `Unsupported` for a
  decimal operand under any operator, and for a text operand under a
  decimal operator; the source raises `TypeError` or `ValueError` (or
  runs out of memory multiplying a long text by 10^9) there. For the same reason
  `decompress` raises `Unsupported` where it would turn such an operand
  into a float.
- Lexer.LexOperand: a decimal operand is kept as its text (`Dec`). The
  model checks that `float()` accepts the text, but does not model the
  floating-point value or its `repr`.
- Encoder.EncodeDecode: the round trip is stated for keys and integers
  under the structural operators. The other operators are left out for
  these reasons:
  - Comparators (`=.`, `>`, `<`, `>=`, `<=`, `!=`) have the decimal form,
    so `decode` reads their operand with `float()`. Python's `5 == 5.0`
    makes that a round trip for an integer, but the model keeps a decimal
    as its text (`Dec`), which is not equal to an `Int`.
  - `=#` is written as `=` and its operand as a key (memelang.py:45, 231-235).
    `decode` reads `=` as `=.`, and only `t`, `f` and `g` turn it back
    into `=#` (memelang.py:210-213); any other key goes through `float()`.
  - A quoted string (`=$`) is written as `="` + text + `"` without
    escaping. A `"` inside the text splits it differently, and a `//`
    inside it is removed as a comment, since comments are stripped from
    the whole text before the quote split (memelang.py:167).
- Walker.TokFit: shape elements are compared as token values. Python's
  `1 == 1.0`, and `False == 0.0` making a decimal zero a wildcard, are not
  modelled, because a decimal is kept as its text.
- SqlQuery.Subquery: for the query that asks for everything, only the
  error that `selectify([I[']']])` raises is modelled. What follows it
  in the source is never reached.
- SqlSelect.SelectedHoles: `%s` is counted as a placeholder atom. A meme
  table name that itself contains `%s` is not counted.
- SqlQuery.AddTo: group numbers are compared as token values. Python's
  `1.0 == 1` for dictionary keys is not modelled.
- `namecache` with an empty `name_table` reads the table name from `DB`.
  Here the name table is the `store` parameter.
- The Python dictionaries' insertion order for `groups['true']` is
  modelled as list order, new numbers last, which is what Python
  guarantees.
- Normalized: the zero pass is the corrected `TrimZeros` of the Findings
  table, not the regex of memelang.py:154 as written, so `1.105` stays
  `1.105` where the code gives `1.15`. The same holds of `Normalize`,
  `Decoded` and `Decode`, which use it.
- SqlSelect.Step: the flag of a relation with a leading minus is set
  after a chained relation opens its hop, the corrected order of the
  Findings table, not before it as memelang.py:550-559 has it. The same
  holds of `Visit`, `ScanFrom`, `Built`, `Selected` and `Selectify`;
  `StepAsWritten` and `ScanAsWritten` keep the order as written.
- SqlQuery.Queried: the parameters are those of every expression, then
  those of every select, the corrected order of the Findings table, not
  statement by statement as memelang.py:414-418 has it. The same holds
  of `Querify`; `QueriedAsWritten` keeps the order as written.
- Strings.Lower: `str.lower()` is modelled for ASCII capitals, the
  Kelvin sign and the dotted capital I, the only characters whose lower
  case holds an ASCII letter. Other characters are kept as they are. Their
  lower case is never in `[a-z0-9]`, so `slugify` turns them into `_`
  either way.
- Strings.ParseInt: `int()` and `float()` accept non-ASCII decimal
  digits (Arabic-Indic digits, say) after the ASCII test of
  memelang.py:214-215 has chosen them. The model accepts ASCII digits
  only and raises the parse error for such a chunk.

## Findings

| source | as written | input that shows it | evidently intended | confidence | as-written member | corrected member |
|---|---|---|---|---|---|---|
| memelang.py:154 | `(\.[0-9][1-9]*)0+` removes any run of zeros after a point and its non-zero digits, even when more digits follow | `.105` becomes `.15` | remove only the zeros that end a decimal's digits | not executed | Tidy.TrimZerosAsWrittenChangesValue | Tidy.TrimZerosKeepsValue |
| memelang.py:550-559 | a relation with a leading minus sets `inversions[m]` before a chained relation increments `m`, so it flags the hop before the one it opens | `;5[6]9[-7]8` gives flags `[true, false]`, with the condition on -7 naming hop 1 | flag the hop the relation belongs to, after the increment | not executed | SqlSelect.ChainedFlagsPreviousHop | SqlSelect.NegatedHopInverted |
| memelang.py:414-420 | `params` is extended statement by statement, while the text puts every expression before every select, so a statement's GET parameters come before the next statement's expression parameters | `;1[2 3[4=#g;5[6` passes 1, 2, 3, 4, 5, 6 where the third and fourth `%s`, in `z2`, stand for 5 and 6 | gather the expression parameters of all statements, then the GET parameters | not executed | SqlQuery.QuerifyAsWrittenMisbinds | SqlQuery.QuerifyParams |
