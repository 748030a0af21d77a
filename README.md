# wordindex in Dafny

wordindex reads text files and builds a cross-reference: every word it
finds, with the line numbers it occurs on. Words listed in a keyword file
are left out. With `--reverse`, only those keywords are kept. This project
models the core of that program and proves properties of the model:

- the streaming tokenizer (`basic_tokenizer` and its input iterator);
- the word index and its insert iterator;
- the `Pair` value type;
- the path and version helpers of `Utility.h`;
- the glue in `main.cpp`:
  - the options record;
  - the keyword filter of `read()`;
  - building the keyword set and the list of files to process;
  - the check that rejects file names that look like options.

The files follow the source:

| file | module | models |
|---|---|---|
| `chars.dfy` | `CharClass` | `isalpha`, `isalnum`, `tolower` and `toupper` in the C locale (ASCII) |
| `pair.dfy` | `Pairs` | `Pair<U, V>`, as a datatype: the struct is copied by value everywhere |
| `utility.dfy` | `Utility` | `basename`, `filename`, `extension`, `to_string(long)`, `to_version_string` |
| `tokenizer.dfy` | `Tokenizer` | the scanner as specification functions (`Next`, `TokensFrom`, `Tokenize`), and the classes `Stream`, `BasicTokenizer` and `TokenIterator` |
| `word_index.dfy` | `Index` | the comparators, the class `WordIndex` with its entries kept as a sorted sequence, and `InsertIterator` |
| `program.dfy` | `Program` | the parts of `main.cpp` listed above |

**The scanner.** It is written twice. `TokenIterator.Advance` is the
imperative `operator++`:

- a skip loop with a nested comment loop;
- then the token loop;
- then lowercasing;
- finally, setting the stream pointer to null once the stream has failed.

`Next` is the same step written as a function. `Advance` is proved against
`Next`, and the properties of the scanner are lemmas about `Next` and
`TokensFrom`.

**The standard algorithms.** Each `std` algorithm call over a tokenizer's
iterators is a method that loops over a `TokenIterator`:

- `std::copy` into a `back_inserter` (`CopyToBack`, used for the file-name
  list) appends exactly `Tokenize` of the input text.
- `std::copy` into a set inserter (`CopyToSet`, used for the keywords) adds
  the texts of those tokens.
- `std::remove_copy_if` into the word index (`RemoveCopyIf`, inside
  `read()`) inserts exactly the tokens the keyword filter keeps, in input
  order.

`std::transform` (`Transform`) runs over the command-line names, a sequence
of strings, and maps each name to its file-name list element.

**Where this model follows the code rather than the documented behaviour:**

- **Key order is case-sensitive.** The word index's map is declared with
  the comparator type `StringLess`. The `NoCaseLess` object passed to its
  constructor is sliced to that type. So keys are ordered and compared by
  plain `std::string <`, and `Hello` and `hello` are two words.
- **A comment can start anywhere outside a token.** With comment skipping
  on, it is any `;` or `#` met there, not only at the start of a line.
- **A final token is dropped.** A token that runs to the end of the input,
  with no character after it, is never delivered: the stream fails while it
  is scanned, and the iterator becomes the end iterator.

## Model

| member | source | states |
|---|---|---|
| CharClass.ToLower | src/Tokenizer.h:174-181 | `tolower`: upper-case letters map to lower case, every other character is unchanged |
| CharClass.ToUpper | src/WordIndex.h:80-83 | `toupper`: lower-case letters map to upper case, every other character is unchanged |
| CharClass.LowerString | src/Tokenizer.h:174-181 | the lowercasing transform keeps the length and lowers each character in place |
| CharClass.UpperString | src/WordIndex.h:66-83 | keeps the length and raises each character in place |
| Pairs.Pair.AssignFirst | src/Pair.h:63-67 | assigning a `U` replaces `first` and leaves `second` unchanged |
| Pairs.Pair.AssignSecond | src/Pair.h:72-76 | assigning a `V` replaces `second` and leaves `first` unchanged |
| Pairs.Pair.AsFirst | src/Pair.h:81-84 | the conversion to `U` yields `first` |
| Pairs.Pair.AsSecond | src/Pair.h:89-92 | the conversion to `V` yields `second` |
| Pairs.DefaultPair | src/Pair.h:43 | the default constructor value-initialises both fields (empty string, 0) |
| Pairs.FromFirst | src/Pair.h:53 | construction from the first type: `first` is set, `second` is 0 |
| Pairs.FromSecond | src/Pair.h:58 | construction from the second type: `second` is set, `first` is empty |
| Pairs.AssignFirstThenConvert | src/Pair.h:63-92 | after assigning `u`, the conversion to `U` gives `u` and the conversion to `V` is unchanged |
| Pairs.AssignSecondThenConvert | src/Pair.h:72-92 | after assigning `v`, the conversion to `V` gives `v` and the conversion to `U` is unchanged |
| Pairs.OneSidedConstructionThenAssign | unittest/Test-Pair.cpp:68-84 | constructing from one field and then assigning the other gives the two-field pair |
| Utility.FindLastOf | src/Utility.h:139 | `find_last_of`: the last index holding one of the characters, or none (npos) when no character matches |
| Utility.Basename | src/Utility.h:137-140 | a prefix of the name: all of it without a `.`, otherwise everything before the last `.` |
| Utility.Filename | src/Utility.h:146-153 | a suffix of `basename(s)` |
| Utility.FilenameCases | src/Utility.h:146-153 | no separator gives `basename(s)`; a last separator at `p > 0` gives the text after it; a single separator at 0 is kept |
| Utility.FilenameHasNoInnerSeparator | src/Utility.h:146-153 | the result has no `/` or `\` after its first character |
| Utility.Extension | src/Utility.h:158-161 | fails exactly when there is no `.` (out_of_range); otherwise a suffix that starts with `.` and has no other `.` |
| Utility.BasenameExtensionSplit | src/Utility.h:137-161 | for a name with a `.`, `basename(s) + extension(s) == s` |
| Utility.TruncDiv | src/Utility.h:112 | C++ `int /`: the remainder is smaller than the divisor in magnitude and is zero or has the sign of the dividend |
| Utility.TruncDivRemainder | src/Utility.h:112-113 | the remainder left by the truncated quotient is that of `\|a\| / \|b\|`, with the sign of `a` |
| Utility.DecimalString | src/Utility.h:82-95 | `to_string(long)` is non-empty, has no `.`, and starts with `-` exactly for negative numbers |
| Utility.NatDigitsRoundTrip | src/Utility.h:82-87 | reading back the decimal digits of `n` gives `n` |
| Utility.DecimalRoundTrip | src/Utility.h:82-95 | reading back `to_string(x)` gives `x` |
| Utility.VersionParts | src/Utility.h:110-113 | `maj * div + min == version` with `\|min\| < \|div\|` and `min` zero or of the sign of `version`, which fixes C++ truncation; for `version >= 0` and `div > 0`, `0 <= min < div` and `maj == version / div` |
| Utility.VersionStringParts | src/Utility.h:110-116 | the version string holds exactly one `.`; the number before it is the truncated quotient and the one after it the remainder, i.e. `version / div` and `version % div` for `version >= 0` and `div > 0` |
| Utility.VersionPartsEuclidean | src/Utility.h:112-113 | for `version >= 0` and `div > 0` the minor part is `version % div` |
| Utility.ToVersionString | src/Utility.h:110-116 | no ensures of its own: `Utility.VersionStringParts` states what the string holds |
| Utility.PositionAsInt | src/Utility.h:150 | no ensures of its own: npos converts to -1; `Utility.FilenameCases` states what `filename` then returns |
| Tokenizer.IsStartComment | src/Tokenizer.h:98-101 | no ensures of its own: `;` or `#`; `Tokenizer.CharacterClasses` states it never starts a token |
| Tokenizer.IsStart | src/Tokenizer.h:106-109 | no ensures of its own: `_` or a letter; the extra start set is never consulted; related to the other classes by `Tokenizer.CharacterClasses` |
| Tokenizer.IsFollow | src/Tokenizer.h:114-119 | no ensures of its own: `_`, a letter or digit, or a member of the follow set |
| Tokenizer.IsStartOrFollow | src/Tokenizer.h:124-127 | no ensures of its own: `Tokenizer.CharacterClasses` shows it coincides with `IsFollow` |
| Tokenizer.CharacterClasses | src/Tokenizer.h:98-127 | every start character is a follow character; a digit follows but never starts; a comment character, `\n` and EOF never start a token, and a comment character continues one only when it is in the follow set |
| Tokenizer.NewlineFrom | src/Tokenizer.h:148-151 | the comment loop stops at the first `\n` or at the end of the input |
| Tokenizer.SkipToStart | src/Tokenizer.h:143-159 | the skip loop stops at a start character or at the end of the input; the line count grows by the `\n` characters consumed |
| Tokenizer.RunEnd | src/Tokenizer.h:165-168 | the token loop stops at the first character that is not start-or-follow |
| Tokenizer.Next | src/Tokenizer.h:133-192 | one advance either delivers a maximal token, after the skipped text, on the line counted so far, or reaches the end |
| Tokenizer.LexemesFrom | src/Tokenizer.h:133-192 | the delivered spans are maximal tokens, in input order, and do not overlap |
| Tokenizer.Fold | src/Tokenizer.h:174-181 | the optional lowercasing keeps the token's length; without the flag the text is unchanged, with it each character is its `tolower` image |
| Tokenizer.FoldKeepsClass | src/Tokenizer.h:174-181 | `tolower` keeps a start character a start character and a start-or-follow character a start-or-follow character |
| Tokenizer.TokensFromLexemes | src/Tokenizer.h:213-216 | each delivered pair is the (folded) text of its span and the line it was found on |
| Tokenizer.TokenCharacters | src/Tokenizer.h:107-181 | with or without lowercasing, every token is non-empty, starts with `_` or a letter, and holds only `_`, letters, digits and follow-set characters |
| Tokenizer.SkipToStartGap | src/Tokenizer.h:143-159 | a start character is skipped only inside a comment, and only when comments are skipped |
| Tokenizer.GapsBetweenTokens | src/Tokenizer.h:143-169 | between two tokens, and before the first, a start character occurs only inside a skipped comment |
| Tokenizer.ExhaustedTail | src/Tokenizer.h:186-189 | when the scan ends, no token follows in the rest of the input |
| Tokenizer.TokenLines | src/Tokenizer.h:143-159 | a token's line number is the starting line plus the `\n` characters before it, skipped comments included |
| Tokenizer.LowercaseFolds | src/Tokenizer.h:174-181 | with lowercasing, the same tokens are delivered, each text lowered and each line unchanged |
| Tokenizer.CommentSkipsToNewline | src/Tokenizer.h:146-152 | with comments skipped, a `;` or `#` outside a token drops the input up to and including the next `\n`, which still counts a line |
| Tokenizer.CommentCharactersOrdinary | src/Tokenizer.h:99-102 | with comments not skipped, `;` and `#` are skipped like any other non-start character |
| Tokenizer.TokenizeLineNumbers | src/Tokenizer.h:78-84 | from `begin()` (line 1), every delivered line number is at least 1 |
| Tokenizer.CommentLineSteps | src/Tokenizer.h:146-158 | on `; comment\nfoo\n`, the first advance finds `foo` on line 2, and the next one reaches the end |
| Tokenizer.CommentLineSkipped | src/Tokenizer.h:146-158 | with comments skipped, `; comment\nfoo\n` yields only `("foo", 2)` |
| Tokenizer.FinalTokenDropped | src/Tokenizer.h:186-189 | `abc` yields nothing, while `abc\n` yields `("abc", 1)` |
| Tokenizer.FollowSetJoins | src/Tokenizer.h:293-296 | with `-.` in the follow set and lowercasing, `A-b\n` is one token, `a-b` |
| Tokenizer.DefaultFollowSetSplits | src/Tokenizer.h:115-120 | by default `-` ends a token: `A-b\n` yields `A` and `b`, with the case kept |
| Tokenizer.NumberSkipped | unittest/Test-Tokenizer.cpp:37-47 | the digits of a leading number are skipped up to the first start character |
| Tokenizer.DigitsSteps | unittest/Test-Tokenizer.cpp:37-61 | on `321 _1 a2 `, the advances find `_1`, then `a2`, then the end |
| Tokenizer.DigitsDoNotStart | unittest/Test-Tokenizer.cpp:37-61 | a number yields no token, while `_` or a letter followed by digits is a single token |
| Tokenizer.Stream.constructor | src/main.cpp:777 | opening an input stream over a text: it is good and positioned at its first character |
| Tokenizer.Stream.Get | src/Tokenizer.h:143 | `get()` returns the next character and advances; at the end it fails and returns EOF |
| Tokenizer.Stream.PutBack | src/Tokenizer.h:160 | `putback` on a good stream steps back over the character read; on a failed stream it changes nothing |
| Tokenizer.BasicTokenizer.constructor | src/Tokenizer.h:251-256 | comments are not skipped, the start and follow sets are empty, and the lowercase flag is the given one |
| Tokenizer.BasicTokenizer.SetSkipComments | src/Tokenizer.h:277-280 | sets the skip-comments flag and changes nothing else |
| Tokenizer.BasicTokenizer.AddToStartSet | src/Tokenizer.h:285-288 | appends to the start set, and the settings that scanning reads are unchanged |
| Tokenizer.BasicTokenizer.AddToFollowSet | src/Tokenizer.h:293-296 | appends to the follow set and changes nothing else |
| Tokenizer.BasicTokenizer.SetLowercase | src/Tokenizer.h:301-304 | sets the lowercase flag and changes nothing else |
| Tokenizer.BasicTokenizer.Begin | src/Tokenizer.h:261-264 | a fresh iterator whose remaining tokens are all the tokens of the stream from its position, with the current settings |
| Tokenizer.BasicTokenizer.End | src/Tokenizer.h:269-272 | a fresh end iterator, with no tokens remaining |
| Tokenizer.TokenIterator.End | src/Tokenizer.h:89-94 | the default constructor gives the end iterator: null stream, line 0 |
| Tokenizer.TokenIterator.Begin | src/Tokenizer.h:78-84 | starts on line 1 and advances once, so the first token is current and the remaining tokens are those of the whole stream |
| Tokenizer.TokenIterator.SkipNonStart | src/Tokenizer.h:143-160 | the skip loop, with its comment loop and line counting, ends where `SkipToStart` says, with the line it says |
| Tokenizer.TokenIterator.SkipComment | src/Tokenizer.h:146-152 | the comment loop stops just after the next `\n`; with none left, the stream fails at the end of input and EOF is the last character read |
| Tokenizer.TokenIterator.SkipStep | src/Tokenizer.h:143-159 | one round of the skip loop: a start character ends the skipping where `SkipToStart` says; any other round leaves the `SkipToStart` result from the new position and line unchanged |
| Tokenizer.TokenIterator.ScanToken | src/Tokenizer.h:165-169 | the token loop reads the run up to `RunEnd`; the stream stays good only when a character ends the run |
| Tokenizer.TokenIterator.Advance | src/Tokenizer.h:133-192 | `operator++` does what `Next` says; the delivered token is dropped from the remaining ones |
| Tokenizer.TokenIterator.Current | src/Tokenizer.h:213-216 | no ensures of its own: `operator*` pairs the current token with its line; `Tokenizer.NotEqualEnd` states it is the first remaining token |
| Tokenizer.TokenIterator.NotEqual | src/Tokenizer.h:221-224 | no ensures of its own: compares the stream pointers; `Tokenizer.NotEqualEnd` states what that means against `end()` |
| Tokenizer.NotEqualEnd | src/Tokenizer.h:213-224 | comparing with `end()` is true exactly when a token remains, and `operator*` gives that token |
| Index.StringLess | src/WordIndex.h:51-54 | no ensures of its own: `std::string <`; `Index.StringLessIrreflexive`, `Index.StringLessTransitive` and `Index.StringLessTotal` make it a strict total order |
| Index.CharNoCaseLess | src/WordIndex.h:80-83 | no ensures of its own: `toupper(c1) < toupper(c2)` |
| Index.NoCaseLess | src/WordIndex.h:66-74 | no ensures of its own: `Index.NoCaseLessIsUpperStringLess` and `Index.NoCaseLessStrictOrder` state it |
| Index.StringLessIrreflexive | src/WordIndex.h:51-54 | no string is less than itself |
| Index.StringLessTransitive | src/WordIndex.h:51-54 | `<` on strings is transitive |
| Index.StringLessTotal | src/WordIndex.h:51-54 | two strings differ exactly when one is less than the other, and never both ways |
| Index.NoCaseLessIsUpperStringLess | src/WordIndex.h:66-83 | `NoCaseLess(a, b)` holds exactly when `toupper(a) < toupper(b)` |
| Index.NoCaseLessStrictOrder | src/WordIndex.h:66-83 | `NoCaseLess` is irreflexive and transitive |
| Index.ComparatorsDisagree | src/WordIndex.h:141-146 | the sliced comparator puts `Hello` strictly before `hello`, while `NoCaseLess` finds the two equivalent |
| Index.Keys | src/WordIndex.h:230 | the keys are exactly the words of the entries |
| Index.Lookup | src/WordIndex.h:230 | a word that is not a key has no lines |
| Index.Upsert | src/WordIndex.h:202 | no ensures of its own: `m_words[s].push_back(n)` on the sorted entries; `Index.UpsertSorted`, `Index.UpsertLength`, `Index.UpsertLookup`, `Index.UpsertAsMap` and `Index.UpsertCounts` state it |
| Index.UpsertSorted | src/WordIndex.h:202 | `m_words[s].push_back(n)` keeps the keys strictly ordered and every list non-empty |
| Index.UpsertLength | src/WordIndex.h:202 | the map gains an entry exactly when `s` was not yet a key |
| Index.UpsertLookup | src/WordIndex.h:202 | `n` is appended to the end of `s`'s list; every other word's list is unchanged |
| Index.UpsertAsMap | src/WordIndex.h:202 | as a map, the update is `s := old list of s + [n]` |
| Index.UpsertCounts | src/WordIndex.h:199-203 | the total number of line references grows by one |
| Index.SortedKeyCount | src/WordIndex.h:208-211 | in sorted entries every key occurs once, so the map's size is the number of distinct words |
| Index.InsertAllSpec | src/WordIndex.h:199-203 | after any run of inserts, each word's list is its old list followed by its inserted lines, in call order; the references grow by the number of calls; the order and the non-empty lists are kept |
| Index.CaseSensitiveKeys | src/WordIndex.h:141-146 | inserting `Hello`, `hello`, `WORLD` gives three keys, iterated as `Hello`, `WORLD`, `hello` |
| Index.WordIndex.constructor | src/WordIndex.h:141-146 | a new index has `words() == 0` and `lines() == 0` |
| Index.WordIndex.Insert | src/WordIndex.h:199-203 | keeps the invariant, `lines()` grows by 1, `words()` grows by 1 exactly for a new word, and `n` is appended to `s`'s list |
| Index.WordIndex.InsertPair | src/WordIndex.h:183-186 | the same as `insert(pair.first, pair.second)` |
| Index.WordIndex.InsertAt | src/WordIndex.h:191-194 | the same as `insert(pair.first, pair.second)`; the position is ignored |
| Index.WordIndex.Iterate | src/WordIndex.h:151-178 | iteration visits every key once, in key order, with its non-empty list; as many entries as `words()` and line numbers as `lines()` |
| Index.WordIndex.Words | src/WordIndex.h:208-211 | the number of distinct keys |
| Index.WordIndex.Lines | src/WordIndex.h:216-219 | the reference count, which equals the sum of the list lengths |
| Index.InsertIterator.constructor | src/WordIndex.h:263-267 | refers to the given index |
| Index.InsertIterator.Assign | src/WordIndex.h:296-300 | `=` performs one insert of the pair and returns the iterator itself |
| Index.InsertIterator.Increment | src/WordIndex.h:272-283 | `++` changes nothing and returns the iterator itself |
| Index.InsertIterator.Deref | src/WordIndex.h:288-291 | `*` changes nothing and returns the iterator itself |
| Index.Inserter | src/WordIndex.h:312-315 | a new insert iterator into the given index |
| Program.DefaultOptions | src/main.cpp:300-308 | every flag is off and the name width is 20 |
| Program.ContainedIn | src/main.cpp:369-372 | `contained_in(c)(v)` holds exactly when `v` is in `c` |
| Program.SelectMembers | src/main.cpp:395-410 | a token reaches the index exactly when it was read and being a keyword agrees with `--reverse` |
| Program.SelectAppend | src/main.cpp:395-410 | the filter works token by token and keeps the input order |
| Program.SelectStep | src/main.cpp:395-410 | one more token filtered moves it, when kept, to the end of those passed on |
| Program.SelectLines | src/main.cpp:395-410 | per word, all of its lines pass or none do: non-keywords by default, keywords under `--reverse` |
| Program.ReadLookup | src/main.cpp:384-411 | after `read()`, a word's list has grown by its lines in input order when it passes the filter, and not at all otherwise |
| Program.TokenTextsMembers | src/main.cpp:785-790 | the keyword set holds exactly the texts of the keyword file's tokens |
| Program.TakeToken | src/main.cpp:832-835 | `*first` then `++first` yields the first remaining token and drops it |
| Program.CopyToBack | src/main.cpp:832-835 | `std::copy` into a `back_inserter` appends every remaining token, in order |
| Program.AppendStep | src/main.cpp:832-835 | one round of `std::copy` into a `back_inserter`: the first remaining token moves to the end of the list, and fewer tokens remain |
| Program.CopyToSet | src/main.cpp:787-790 | `std::copy` into a set `inserter` adds the text of every remaining token |
| Program.CopyUnlessRemoved | src/main.cpp:395-410 | a token the keyword test does not remove is inserted into the index; a removed one changes nothing |
| Program.RemoveCopyStep | src/main.cpp:395-410 | one round of `remove_copy_if`: the token leaves those still to read and is inserted exactly when kept |
| Program.RemoveCopyIf | src/main.cpp:395-410 | the index ends up with exactly the kept tokens inserted, in input order, one reference each |
| Program.Read | src/main.cpp:384-411 | `read()` inserts the filtered tokens of the input, tokenized with the lowercase option, and keeps the index's invariant |
| Program.ReadKeywords | src/main.cpp:785-790 | the keyword set gains the texts of all tokens of the keyword file, read with default settings |
| Program.KeywordsAreIdentifiers | src/main.cpp:785-790 | whatever the tokenizer's lowercase flag, every keyword starts with `_` or a letter and holds only `_`, letters and digits |
| Program.ToFilenameListElement | src/main.cpp:670-674 | a command-line name becomes the pair of the name and line 0 |
| Program.FindFirstOf | src/main.cpp:653 | `std::find_first_of`: the first position holding one of the characters, or the end |
| Program.CheckFilename | src/main.cpp:647-664 | a name is accepted exactly when it is non-empty and starts with neither `+` nor `-` |
| Program.Transform | src/main.cpp:804-808 | one element per command-line name, in order, each with line 0 |
| Program.ReadFilenames | src/main.cpp:822-835 | appends the tokens of the list file, read with the lowercase option, `-.` in the follow set and comments skipped |
| Program.BuildFilenameList | src/main.cpp:799-836 | the command-line names come first, then the names read from the list file, when one is given |
| Program.FilenameListLines | src/main.cpp:799-836 | command-line names carry line 0; names from the list file carry their line, which is at least 1 |

## Left out

- `Printer`, the report and its percentages: output and floating point.
- TCLAP command-line parsing, `usage`, `version` and the banner: user interface.
- `Logger` and every `logger.Fatal` call, including the one in `FilenameConstraint::check`: output and process exit.
- `Reader`, `check_file_exists`, `exist`, and opening files: filesystem access. File contents are passed to the model as text.
- The output file opened at src/main.cpp:760 is not modelled. It takes its name from the keywords option.
- `to_int`, `to_real`, `to_string(double)` and `to_charptr`: foreign C library calls.
- `std::istream`: modelled as a text, a position and a good flag. End of file reads as the character 255, which is not a letter, digit, `;`, `#` or `\n`.
- Locale: `isalpha`, `isalnum`, `tolower` and `toupper` are modelled in the C locale, on ASCII only.
- Integer widths: the line counter, `m_lines` and the `int` result of `words()` are unbounded. Overflow past 2^31 - 1 lines or references is not modelled.
- The tokenizer's lowercase flag is never initialised by its constructor. Here it is a constructor argument. The keyword file's tokenizer never sets it, so `Program.ReadKeywords` takes its value as a parameter.
- Utility.ToVersionString: has no `ensures` of its own; `Utility.VersionStringParts` states that the string is the truncated quotient, a `.` and the remainder. Division by zero and `INT_MIN / -1` are undefined in C++, so they are excluded by its precondition.
- Utility.DecimalString: renders `to_string(long)` (`_ltoa` in base 10) as decimal digits with a leading `-`. The C buffer is not modelled.
- Pairs.Pair.AssignFirst: the assignment operators update a variable in place. A `Pair` is a value, so they are modelled as functions that return the updated pair. No aliasing is possible.
- Index.WordIndex.InsertAt: the map iterator `pos` is a number here, and is ignored as in the source.
- Index.WordIndex: the iterators `begin()`, `end()`, `const_begin()` and `const_end()` are modelled together by `Iterate`, as the sequence they visit.
- Index.NoCaseLess: modelled as its own ordering. As in the source, no map uses it.
- Options: `ignorecase`, `frequency`, `summary` and `name_width` are carried, but nothing modelled reads them.
