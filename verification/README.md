# Verified models from the Linphone SDK

This Dafny project models the parts of the Linphone SDK in which the logic is hardest to judge by
reading, and proves what they promise. Operating system calls, clocks, COM, AAudio and the WebRTC
detector are inputs that may answer anything they can answer.

| file | component |
|---|---|
| `Scheduler.dfy`, `SuiteTable.dfy`, `ChildArguments.dfy` | the parallel test-suite runner of bctoolbox |
| `Escaping.dfy`, `Structured.dfy`, `Card.dfy` | vCard values and the card container of belcard |
| `Percent.dfy`, `PercentBuffers.dfy`, `ParamString.dfy` | percent coding and parameter strings of bctoolbox |
| `AAudioPlayer.dfy` | the AAudio output filter: ticker, callers and worker |
| `Wasapi.dfy`, `WasapiWriter.dfy` | the WASAPI filter, and its writer under interleaving |
| `Vad.dfy` | the voice and silence notices of the voice activity filter |
| `Strings.dfy`, `StableSort.dfy`, `Options.dfy` | substring search, stable sorting and optional values, shared by the above |

`dafny verify dfyconfig.toml` checks the whole project.

Code that changes things step by step is a class or a method with a loop, tied by its `ensures` to a
specification function; what the source promises is then proved of that function, for all inputs or
for all runs. Where a promise does not hold of the code, the code is kept, and the condition under
which it does hold is proved to be exact.

## Where the code and its promises part

- Escaping a vCard value and unescaping it gives the value back, except for a value whose only
  "data:" stands at its start and that contains an escape pair (`Escaping.RoundTrip`). The chained
  unescape passes read a text as one scanner after section 3.4 of RFC 6350 would, except when a
  separator stands behind a non-zero even run of backslashes (`Escaping.UnescapedAgainstScanner`).
- PREF values are compared as text, so "10" comes before "9". A list of a card is in the numeric
  order of section 5.3 of RFC 6350 exactly when, of any two of its PREF values, the shorter does not
  exceed the beginning of the longer (`Card.SortedAsNumbers`).
- A property used under two kinds is lost from the flat list when one of them lets it go
  (`Card.RemoveKeepsCover`, `Card.SetKeepsCover`).
- Selective percent unescaping is documented to keep the characters outside the rules escaped. The
  code asks whether the *next* character is escaped, so it does what is documented exactly when
  escaped and plain characters outside the rules run together (`Percent.SelectedAgainstPromise`). It
  keeps what full unescaping reads exactly when each character that reads as '%', if two or more
  follow, is outside the rules and followed by an escape (`Percent.SelectedKeepsMeaning`).
- The parameter search finds the last binding in every text exactly for names that do not overlap
  themselves behind a gap and do not run from '=' to a non-gap (`ParamString.SearchIsExact`).
- A child process of the test runner is configured as intended unless "--suite",
  "--exclude-suite", "--log-file" or "--xml-file" is the value of an option that is passed through.
  Behind each such option exactly these four words can mislead it (`ChildArguments.TouchyIsExact`);
  not every line with such a word does, since "--xml-file" only copies the word behind it.
- Suites whose names differ only in blanks and underscores share a log file
  (`ChildArguments.LogNamesDiffer`).
- With a negative limit on parallel suites the runner polls for ever
  (`Scheduler.NegativeLimitNeverStarts`).
- A device change between postprocess and the closing of the AAudio stream can leak a stream, and
  nothing else can (`AAudioPlayer.LeakExactlyAfterLateDevice`), also through the destruction of the
  filter (`AAudioPlayer.DestructionExactlyAfterLateDevice`).
- A disconnected AAudio stream is replaced, unless the callback that finds it falls into the last
  section of a restart; then it takes the next callback (`AAudioPlayer.DisconnectionReplacesStream`).
- The WASAPI writer activates without the filter's lock. Its data can be misdescribed exactly after a
  setter changes a target between the reading of the targets and their taking up
  (`WasapiWriter.MisdescribedExactlyAfterIntrusion`). A change the device supports is repaired by the
  next update (`WasapiWriter.RunIsRepaired`); one it refuses can stay
  (`WasapiWriter.RefusedRateStays`). And a setter can call a null client exactly after the writer
  destroys a client in use between the setter's test and its call
  (`WasapiWriter.NullExactlyWhenReplaced`).
- A due change of the WASAPI format is dropped when the system fails to tell its mix format
  (`Wasapi.UnchangedFormatStays`).
- A change of channels asks the system about a format whose frame size is that of the old channels
  (`Wasapi.ChannelChangeAsksInconsistent`).
- A reported silence lasts the threshold, unless voice mode heard a voice, or the threshold was
  raised, while a silence stood announced (`Vad.SilencesLastExactlyWhenSettled`).

## Model

| member | source | states |
|---|---|---|
| `Scheduler.StepKeepsInvariant` | bctoolbox/src/tester.c:986-1068 | Every turn of the loop keeps: the weight in the books is the sum over launched unfinished suites and within the limit, running suites are launched minus finished ones, pids are distinct, and the result is the sum over the exits so far. |
| `Scheduler.StartIsInvariant` | bctoolbox/src/tester.c:966-984 | The initial variables satisfy that invariant. |
| `Scheduler.StepKeepsHistory` | bctoolbox/src/tester.c:987-1045 | A turn launches at most one suite, the next one in registry order, and exactly when admission allows it; recorded pids, finished flags and exits never change afterwards. |
| `Scheduler.IdleAdmits` | bctoolbox/src/tester.c:678-681 | With suites left and nothing running, the next turn launches if and only if the limit is at least one. |
| `Scheduler.TurnMakesProgress` | bctoolbox/src/tester.c:986-1045 | Each turn launches, reaps, or polls children that are all still running. |
| `Scheduler.RunEnds` | bctoolbox/src/tester.c:986-1068 | The loop is over after at most twice as many turns as suites, not counting polls that found nothing. |
| `Scheduler.RunInvariant` | bctoolbox/src/tester.c:986-1068 | The invariant holds at every point of every run, the turns are bounded by launches, reaps and idle polls, and a run fails only through fork or waitpid. |
| `Scheduler.RunResult` | bctoolbox/src/tester.c:1013-1086 | A run that ends has one exit per suite and as its result the tests of all suites that were signalled or exited with 255 plus the exit codes of the others; it returns -1 exactly when the deadline has passed, else whether that sum exceeds the threshold. |
| `Scheduler.CrashFailsRun` | bctoolbox/src/tester.c:1035-1043 | A run with a signalled or 255 exit of a suite that has more tests than the threshold is never a success. |
| `Scheduler.RunCountsWhatHappened` | bctoolbox/src/tester.c:993-1068 | The exit counted for each suite is the one the system reported for the child forked for it, pids differ, and the deadline is compared with the clock of the last turn. |
| `Scheduler.LaunchesWhatFits` | bctoolbox/src/tester.c:987-1003 | A turn launches the next suite if and only if its weight fits beside those still running. |
| `Scheduler.DeclaredWeight` | bctoolbox/src/tester.c:863-875 | A declared weight within the limit is the weight in the books; none, or one above the limit, counts as one. |
| `Scheduler.DefaultLimit` | bctoolbox/src/tester.c:678-681 | Without a limit of its own a run takes half of all suites, rounded down, and one. |
| `Scheduler.DefaultDeadline` | bctoolbox/src/tester.c:973-976 | The deadline is one hour after the start, or as many seconds as are set. |
| `Scheduler.NegativeWeightBreaksLimit` | bctoolbox/src/tester.c:863-875 | A run from the start, with limit 1 and weights -1, 1 and 1, in which two suites run with a total weight of 2. |
| `Scheduler.NegativeLimitNeverStarts` | bctoolbox/src/tester.c:678-681 | With a limit below one, no run ever launches a suite or ends. |
| `Scheduler.Lookup` | bctoolbox/src/tester.c:850-861 | The first index recorded with the pid, or the end if there is none. |
| `Scheduler.Loop.constructor` | bctoolbox/src/tester.c:966-984 | The loop's variables begin as the model's start state. |
| `Scheduler.Loop.Launch` | bctoolbox/src/tester.c:987-1012 | The admission test and fork take the variables to the model's next state, and fail exactly when it does. |
| `Scheduler.Loop.LookupSuite` | bctoolbox/src/tester.c:850-861 | The search loop returns the first index recorded with the pid. |
| `Scheduler.Loop.Collect` | bctoolbox/src/tester.c:1013-1045 | The poll and the book-keeping of a reaped child take the variables to the model's next state. |
| `Scheduler.Loop.OneTurn` | bctoolbox/src/tester.c:986-1068 | One loop body is one step of the model. |
| `Scheduler.RunParallel` | bctoolbox/src/tester.c:965-1087 | The whole function returns -1 on a failed system call and the verdict of the model's run when the loop ends. |
| `SuiteTable.Table.Locate` | bctoolbox/src/tester.c:1599-1601 | The insertion index is in front of the first strictly faster suite and behind all others. |
| `SuiteTable.Table.PutAt` | bctoolbox/src/tester.c:1602-1606 | The shift and store leave the old contents with the suite put in at the index. |
| `SuiteTable.Table.AddSuite` | bctoolbox/src/tester.c:1595-1611 | The table becomes the old one with the suite inserted behind its equals, and the block again has a free place. |
| `SuiteTable.Table.AddAll` | bctoolbox/src/tester.c:1595-1611 | After any sequence of additions the table is their stable sort and a permutation of them. |
| `SuiteTable.TableOrder` | bctoolbox/src/tester.c:1595-1611 | Spelled out: a permutation in descending average time in which the suites of each time keep their order of addition. |
| `SuiteTable.InsertPutsIn` | bctoolbox/src/tester.c:1599-1606 | Insertion by recursion is the same as opening a gap at the located index. |
| `ChildArguments.ChildRunsAsWanted` | bctoolbox/src/tester.c:720-756 | For every accepted parent line whose passed-through values are no suite, log or XML option names, the child parses its line to the parent's settings with only suite, exclusions, XML file and log file changed. |
| `ChildArguments.WordOf` | bctoolbox/src/tester.c:1451-1529 | Every argument is one of the twenty option names or a text that is none of them. |
| `ChildArguments.WordOfSpelled` | bctoolbox/src/tester.c:1451-1529 | Words and strings correspond one to one, so what holds of words holds of arguments. |
| `ChildArguments.UnderscoreIsText` | bctoolbox/src/tester.c:546-578 | The generated log and XML file names are never option names. |
| `ChildArguments.LogNamesDiffer` | bctoolbox/src/tester.c:546-555 | Two suites share a log file if and only if their names differ in blanks and underscores only; the name begins with the base and an underscore. |
| `ChildArguments.XmlNamesDiffer` | bctoolbox/src/tester.c:560-578 | Suites at different positions never share an XML file; the name begins with the base and an underscore. |
| `ChildArguments.AcceptedLineSays` | bctoolbox/src/tester.c:1451-1529 | An accepted line consists of acceptable options; each list holds all values of its option in order, each single setting the last value of its own option, each switch is set exactly when its options occur, and the verbosity follows the last of its two. |
| `ChildArguments.LineSets` | bctoolbox/src/tester.c:1451-1529 | Conversely, a line of acceptable options is accepted, and from any settings sets exactly what they say. |
| `ChildArguments.AcceptedLine` | ortp/tester/ortp_tester.c:131-140 | Every accepted line can be cut into acceptable options. |
| `ChildArguments.NamesAsTyped` | bctoolbox/src/tester.c:1451-1529 | The twenty option names as they are typed. |
| `ChildArguments.RewrittenParses` | bctoolbox/src/tester.c:725-749 | From any settings and with anything behind it, the rewritten line parses as the original does, the suite choices dropped and the log file replaced. |
| `ChildArguments.RewriteStep` | bctoolbox/src/tester.c:725-749 | On such a line the rewriter steps from option to option exactly as the parser does. |
| `ChildArguments.TouchyIsExact` | bctoolbox/src/tester.c:725-749 | Behind each option whose value is passed through, a word can mislead the child of an otherwise harmless line if and only if it is one of the four option names the rewriter steps behind. |
| `ChildArguments.SuiteAsValueMisleads` | bctoolbox/src/tester.c:739-744 | A value "--suite" or "--exclude-suite" vanishes together with the next word. |
| `ChildArguments.LogFileAsValueMisleads` | bctoolbox/src/tester.c:730-733 | A value "--log-file" has the next word replaced by a file name. |
| `ChildArguments.XmlFileAsValueMisleads` | bctoolbox/src/tester.c:734-736 | A value "--xml-file" shields a "--suite" behind it, so the child runs two suites. |
| `ChildArguments.AppendedParses` | bctoolbox/src/tester.c:750-755 | The appended words set the XML file and add exactly the suite. |
| `ChildArguments.LogFileStays` | bctoolbox/src/tester.c:1451-1529 | No accepted option unsets a log file. |
| `ChildArguments.RewriteArguments` | bctoolbox/src/tester.c:725-749 | The loop over the parent's words computes the rewritten line. |
| `ChildArguments.PrepareChildArguments` | bctoolbox/src/tester.c:720-756 | The vector holds the program, the rewritten words and the five appended ones, then NULL, within the origin_argc + 10 places of lines 804-808. |
| `Escaping.ReplaceAll` | belcard/src/belcard_utils.cpp:56-61 | The position-driven in-place edits compute leftmost non-overlapping replacement, and end even when the replacement contains the pattern. |
| `Escaping.ReplaceAt` | belcard/src/belcard_utils.cpp:57-60 | One edit keeps the outcome of the pass and shortens the part still to be searched. |
| `Escaping.EscapeString` | belcard/src/belcard_utils.cpp:63-75 | The three passes equal one scanner that prefixes each backslash, comma and semicolon, unless the last "data:" is at the start. |
| `Escaping.EscapedCharacters` | belcard/src/belcard_utils.cpp:71-74 | A backslash, a comma and a semicolon get a backslash in front, every other character stays. |
| `Escaping.EscapedConcat` | belcard/src/belcard_utils.cpp:71-74 | Escaping goes character by character. |
| `Escaping.DataUriByPrefix` | belcard/src/belcard_utils.cpp:67-69 | A text is written as it stands if and only if it starts with "data:" and has no other "data:". |
| `Escaping.UnescapeString` | belcard/src/belcard_utils.cpp:77-83 | The result is the three passes in sequence. |
| `Escaping.UnescapedIsFused` | belcard/src/belcard_utils.cpp:77-83 | The three passes equal one scan in which a backslash, or a merged pair, is swallowed when a separator follows. |
| `Escaping.RoundTrip` | belcard/src/belcard_utils.cpp:63-83 | Unescape undoes escape if and only if the text is not a data URI with an escape pair. |
| `Escaping.RoundTripFails` | belcard/src/belcard_utils.cpp:67-69 | A concrete data URI that does not survive. |
| `Escaping.UnescapedAgainstScanner` | belcard/src/belcard_utils.cpp:77-83 | The passes agree with the scanner of section 3.4 of RFC 6350 if and only if no separator stands behind a non-zero even run of backslashes, and lose characters otherwise. |
| `Escaping.FusedLength` | belcard/src/belcard_utils.cpp:77-83 | Unescaping changes a text if and only if it has an escape pair, and then shortens it. |
| `Escaping.SetValue` | belcard/src/belcard_property.cpp:56-64 | The value stored is the unescaping of what is left between the leading and the trailing white space. |
| `Escaping.TrimmedIsMiddle` | belcard/src/belcard_property.cpp:60-61 | Trimming removes white space at the two ends and nothing else. |
| `Escaping.MiddleIsTrimmed` | belcard/src/belcard_property.cpp:60-61 | There is only one text that is left by such a removal and has no white space at its ends. |
| `Escaping.SpacesAre` | belcard/src/belcard_property.cpp:60-61 | White space is the blank and the five control characters from tab to carriage return. |
| `Escaping.ReadWriteReachesNormalForm` | belcard/src/belcard_property.cpp:56-64 | Whatever was read, writing the stored value and reading it back changes neither value nor text, if and only if the stored value is not a data URI with an escape pair. |
| `Escaping.DataPrefixKept` | belcard/src/belcard_utils.cpp:63-83 | Unescaping a data URI leaves a data URI. |
| `Structured.DecodedEncoded` | belcard/src/belcard_identification.cpp:88-135 | Any number of components is recovered by splitting at unescaped semicolons and unescaping, if and only if every data URI among them has no escape pair, no semicolon and no final backslash before a separator. |
| `Structured.SplitAfterClosed` | belcard/src/belcard_identification.cpp:132-134 | An escaped component followed by a semicolon is split off whole. |
| `Structured.EscapedTextIsClosed` | belcard/src/belcard_utils.cpp:71-74 | Escaped text has no boundary inside and ends on an even run of backslashes. |
| `Structured.FirstPieceDiffers` | belcard/src/belcard_utils.cpp:67-69 | An unrecoverable component in front of a separator is never read back. |
| `Structured.LastPiece` | belcard/src/belcard_utils.cpp:67-69 | The last component is read back if and only if it is recoverable. |
| `Structured.WriteHeader` | belcard/src/belcard_property.cpp:208-215 | The stream writes the group with its dot, the name, and each parameter behind a semicolon. |
| `Structured.HeaderReadsBack` | belcard/src/belcard_property.cpp:208-215 | Group, name and parameters are read back from a header by splitting at semicolons and at the first dot. |
| `Structured.Name.SetFamilyName` | belcard/src/belcard_identification.cpp:88-90 | The family name is the unescaped text; no other field changes. |
| `Structured.Name.SetGivenName` | belcard/src/belcard_identification.cpp:95-97 | The given name is the unescaped text; no other field changes. |
| `Structured.Name.SetAdditionalName` | belcard/src/belcard_identification.cpp:102-104 | The additional name is the unescaped text; no other field changes. |
| `Structured.Name.SetPrefixes` | belcard/src/belcard_identification.cpp:109-111 | The prefix is the unescaped text; no other field changes. |
| `Structured.Name.SetSuffixes` | belcard/src/belcard_identification.cpp:116-118 | The suffix is the unescaped text; no other field changes. |
| `Structured.Name.Collect` | belcard/src/belcard_identification.cpp:88-121 | The five setters, given the pieces of a value in order, store them unescaped. |
| `Structured.Name.Serialize` | belcard/src/belcard_identification.cpp:123-135 | The line is the header and the encoding of the five components. |
| `Structured.Address.SetPostOfficeBox` | belcard/src/belcard_addressing.cpp:65-67 | The post office box is the unescaped text; no other field changes. |
| `Structured.Address.SetExtendedAddress` | belcard/src/belcard_addressing.cpp:72-74 | The extended address is the unescaped text; no other field changes. |
| `Structured.Address.SetStreet` | belcard/src/belcard_addressing.cpp:79-81 | The street is the unescaped text; no other field changes. |
| `Structured.Address.SetLocality` | belcard/src/belcard_addressing.cpp:86-88 | The locality is the unescaped text; no other field changes. |
| `Structured.Address.SetRegion` | belcard/src/belcard_addressing.cpp:93-95 | The region is the unescaped text; no other field changes. |
| `Structured.Address.SetPostalCode` | belcard/src/belcard_addressing.cpp:100-102 | The postal code is the unescaped text; no other field changes. |
| `Structured.Address.SetCountry` | belcard/src/belcard_addressing.cpp:107-109 | The country is the unescaped text; no other field changes. |
| `Structured.Address.Collect` | belcard/src/belcard_addressing.cpp:65-112 | The seven setters, given the pieces of a value in order, store them unescaped. |
| `Structured.Address.Serialize` | belcard/src/belcard_addressing.cpp:122-139 | In version 4 the line is the header and the encoding of the seven components. |
| `Card.PreferredToIsOrder` | belcard/src/belcard.cpp:116-128 | The PREF comparator is a strict weak order. |
| `Card.LexByFirstDifference` | belcard/src/belcard.cpp:126-126 | One text is less than another if and only if at the first difference it ends or has the smaller character. |
| `Card.PrefIsComparedAsText` | belcard/src/belcard.cpp:126-126 | "10" is preferred to "9", against the numeric order. |
| `Card.TextAgainstNumber` | belcard/src/belcard.cpp:126-126 | For decimals without leading zeros, text order and numeric order of two values agree if and only if the shorter does not exceed the beginning of the longer. |
| `Card.PreferredAgainstNumber` | belcard/src/belcard.cpp:116-128 | The comparator agrees with the order of section 5.3 of RFC 6350 on two properties if and only if their PREF values, where both have one, do so. |
| `Card.SortedAsNumbers` | belcard/src/belcard.cpp:139-144 | With decimals without leading zeros as PREF values, a list sorted by the comparator is the list sorted by number if and only if, of any two values, the shorter does not exceed the beginning of the longer. |
| `Card.BelCard.Set` | belcard/src/belcard.cpp:130-137 | The slot's old property leaves the flat list, the new one enters slot and list. |
| `Card.BelCard.Add` | belcard/src/belcard.cpp:139-144 | The kind's list becomes the stable PREF sort of itself and the property, which also enters the flat list. |
| `Card.BelCard.Remove` | belcard/src/belcard.cpp:146-150 | All occurrences leave the kind's list and the flat list. |
| `Card.BelCard.AddProperty` | belcard/src/belcard.cpp:779-781 | The flat list grows by the property at its end. |
| `Card.BelCard.RemoveProperty` | belcard/src/belcard.cpp:782-784 | All occurrences leave the flat list. |
| `Card.StepAgrees` | belcard/src/belcard.cpp:130-150 | One operation on a property's own slot or list keeps every list the stable PREF sort of its share of the flat list, and every slot its share. |
| `Card.RunAgrees` | belcard/src/belcard.cpp:130-150 | So does every run from the empty card. |
| `Card.OneHolderRunAgrees` | belcard/src/belcard.cpp:130-150 | For that it suffices that no property is used under two slots or lists. |
| `Card.FlatIsSlotsAndLists` | belcard/src/belcard.cpp:779-787 | The flat list holds each property exactly as often as its slot or list does, and no other slot or list holds it. |
| `Card.FlatIsWhatLasts` | belcard/src/belcard.cpp:130-150 | When no property is used under two slots or lists, the flat list after any run is, in order, what was added or set and neither removed nor replaced later. |
| `Card.SlotIsLastSet` | belcard/src/belcard.cpp:130-137 | A slot holds what was last set there, in any run. |
| `Card.AddKeepsCover` | belcard/src/belcard.cpp:139-144 | Adding keeps everything held in the flat list, whatever properties are shared. |
| `Card.RemoveKeepsCover` | belcard/src/belcard.cpp:146-150 | Removing keeps everything held in the flat list if and only if nothing else holds the property. |
| `Card.SetKeepsCover` | belcard/src/belcard.cpp:130-137 | Replacing a slot's property keeps it so if and only if nothing else holds the replaced one. |
| `StableSort.SortIsStable` | belcard/src/belcard.cpp:142-142 | Sorting orders a list and keeps the elements of each rank in their order. |
| `StableSort.AnyStableSortIsSort` | belcard/src/belcard.cpp:142-142 | There is only one such list, so any stable sort computes it. |
| `StableSort.SortAppended` | belcard/src/belcard.cpp:141-142 | Sorting after each addition is the same as sorting all additions at once. |
| `StableSort.SortFiltered` | belcard/src/belcard.cpp:148-148 | Removing before or after sorting is the same. |
| `Percent.CodedIsReadBack` | bctoolbox/src/parser.c:70-97 | A text of plain and escaped characters is read back, whatever is done with malformed escapes, if and only if no bare '%' has two bytes behind it. |
| `Percent.ReadsAtMost` | bctoolbox/src/parser.c:74-97 | Reading never yields more characters than were written, even when it starts inside an escape. |
| `Percent.EscapeRoundTrip` | bctoolbox/src/parser.c:28-97 | Unescape undoes escape for every text and rule table, if and only if the table does not exempt a '%' that two or more output bytes follow. |
| `Percent.EscapedByByte` | bctoolbox/src/parser.c:42-47 | An exempt byte is written as it is, any other as '%' and two lower-case digits, the high one first. |
| `Percent.HexAsText` | bctoolbox/src/parser.c:46-46 | The digits are those of "0123456789abcdef". |
| `Percent.OnlyTheseAreHex` | bctoolbox/src/parser.c:77-77 | The hexadecimal digits are those of that text and their upper-case forms. |
| `Percent.ReadsEscape` | bctoolbox/src/parser.c:74-79 | '%' and two digits of either case are read as the byte they denote. |
| `Percent.ReadsOther` | bctoolbox/src/parser.c:70-84 | Any other byte, and a '%' that fewer than two bytes follow, is read as itself. |
| `Percent.SelectedKeepsMeaning` | bctoolbox/src/parser.c:99-121 | Selective unescaping keeps what full unescaping reads if and only if each character of the input that reads as '%', with two or more characters behind it, is outside the rules and followed by an escape. |
| `Percent.LivePercentsInInput` | bctoolbox/src/parser.c:105-117 | That condition on the input holds if and only if the output has no bare '%' with two bytes behind it. |
| `Percent.SelectedKeepsPlainMeaning` | bctoolbox/src/parser.c:99-121 | For well-formed text without an encoded '%' it always does. |
| `Percent.EncodedPercentIsLost` | bctoolbox/src/parser.c:105-116 | "%2541" becomes "%41", which reads as "A". |
| `Percent.SelectedAgainstPromise` | bctoolbox/src/parser.c:105-117 | For every text, table and reading of malformed escapes, the output is the documented one if and only if every character outside the rules is escaped exactly when its successor is. |
| `Percent.NeverCatchesUp` | bctoolbox/src/parser.c:105-117 | Once the documented output is ahead of the code's by two bytes, the two never agree again. |
| `PercentBuffers.Escape` | bctoolbox/src/parser.c:28-51 | The growing buffer ends up holding the escaped text and its terminator; no write leaves it. |
| `PercentBuffers.UnescapeAll` | bctoolbox/src/parser.c:86-97 | The buffer of the input's size ends up holding the unescaped text and its terminator. |
| `PercentBuffers.UnescapeSelected` | bctoolbox/src/parser.c:99-121 | The reallocated buffer ends up holding the selectively unescaped text; written part, unread input and terminator always fit. |
| `PercentBuffers.PrintHex` | bctoolbox/src/parser.c:46-46 | Three bytes are appended, given room for four. |
| `ParamString.FindParam` | bctoolbox/src/param_string.c:23-39 | The pointer loop computes the skip-ahead search. |
| `ParamString.FindLastParam` | bctoolbox/src/param_string.c:41-52 | The outer loop computes the last result of repeated searches. |
| `ParamString.SearchedIsFirstBinding` | bctoolbox/src/param_string.c:23-39 | For a searchable name the skip-ahead search finds the first binding from its position on, or there is none. |
| `ParamString.LastSearchedIsLastBinding` | bctoolbox/src/param_string.c:41-52 | For a searchable name the repeated search ends at the last binding of the text. |
| `ParamString.SearchIsExact` | bctoolbox/src/param_string.c:23-52 | The search returns the last binding in every text if and only if the name is searchable. |
| `ParamString.OverlapIsMissed` | bctoolbox/src/param_string.c:35-35 | For a name overlapping itself behind a gap, a text whose last binding is skipped. |
| `ParamString.ContinuationIsTaken` | bctoolbox/src/param_string.c:30-31 | For a name from '=' to a non-gap, a text in which a resumed search takes a continuation for a binding. |
| `ParamString.GetValue` | bctoolbox/src/param_string.c:54-70 | The buffer is filled with the value up to its size less one and terminators behind it, or with terminators only. |
| `ParamString.ValueShape` | bctoolbox/src/param_string.c:58-63 | The value stands behind the first '=' from the binding on, and reaches to the next ';' or the end, blanks included. |
| `ParamString.BindingBehind` | bctoolbox/src/param_string.c:32-32 | A name behind another text is bound if and only if a semicolon or a blank stands between. |
| `ParamString.LookupInRenderedList` | bctoolbox/src/param_string.c:23-70 | In a rendered "k=v;k=v" list the value found for a name is that of its last pair. |
| `AAudioPlayer.StepIsSafe` | msaaudio/msaaudio_player.cpp:261-417 | Each step of ticker, caller or worker keeps the pointer null or open and works on open streams only. |
| `AAudioPlayer.RunIsSafe` | msaaudio/msaaudio_player.cpp:261-589 | So does every interleaving. |
| `AAudioPlayer.StepBacksFlags` | msaaudio/msaaudio_player.cpp:404-544 | Each step keeps a set restart or adjustment flag backed by a task that is queued or running. |
| `AAudioPlayer.RunBacksFlags` | msaaudio/msaaudio_player.cpp:404-544 | So does every interleaving. |
| `AAudioPlayer.StepIsTidy` | msaaudio/msaaudio_player.cpp:261-589 | A step keeps every opened stream current, in the worker's hand or closed, and the queue in order, if and only if it is not a device change that finds a stream after postprocess. |
| `AAudioPlayer.RunIsTidy` | msaaudio/msaaudio_player.cpp:261-589 | Without such a device change no run leaks a stream. |
| `AAudioPlayer.LateDeviceLeaks` | msaaudio/msaaudio_player.cpp:577-585 | From every safe state in which such a device change arrives, some run without another one leaks a stream. |
| `AAudioPlayer.LeakExactlyAfterLateDevice` | msaaudio/msaaudio_player.cpp:546-589 | From a tidy state, a step makes a later leak possible if and only if it is such a device change. |
| `AAudioPlayer.DestructionClosesAll` | msaaudio/msaaudio_player.cpp:187-206 | After postprocess, whatever AAudio answers, a tidy filter whose worker runs out of tasks has closed every stream. |
| `AAudioPlayer.DestructionExactlyAfterLateDevice` | msaaudio/msaaudio_player.cpp:111-116 | Outside a session, a step makes the filter's destruction leave a stream open if and only if it is such a device change. |
| `AAudioPlayer.CardIsLeftAlone` | msaaudio/msaaudio_player.cpp:187-206 | When the last close of a tidy filter is done, no task that opens a stream is left, so the released sound card is not looked at. |
| `AAudioPlayer.WorkerDrains` | mediastreamer2/src/base/msasync.c:140-205 | When AAudio does its part the worker empties its queue, and the pointer is then set exactly when the order of the queued tasks says so. |
| `AAudioPlayer.DisconnectionReplacesStream` | msaaudio/msaaudio_player.cpp:466-479 | A session whose stream is found disconnected gets another stream when AAudio does its part, if and only if the callback does not fall into the last section of a restart with nothing else queued. |
| `AAudioPlayer.DisconnectionRestarts` | msaaudio/msaaudio_player.cpp:472-479 | Such a callback leaves a restart queued or under way, and its flag set. |
| `AAudioPlayer.DeviceChangeReplacesStream` | msaaudio/msaaudio_player.cpp:487-493 | A noted check that finds another device queues a restart, and the stream is replaced when AAudio does its part. |
| `AAudioPlayer.SameDeviceKeepsStream` | msaaudio/msaaudio_player.cpp:487-493 | One that finds the same device clears the note and nothing else. |
| `AAudioPlayer.RequestReplacesStream` | msaaudio/msaaudio_player.cpp:577-585 | A request for a device replaces the stream when AAudio does its part, or notes a check if there is none. |
| `AAudioPlayer.UnderrunsAdjust` | msaaudio/msaaudio_player.cpp:495-517 | Growing underruns leave one adjustment queued. |
| `AAudioPlayer.StartedStreamGetsHack` | msaaudio/msaaudio_player.cpp:481-485 | A stream that is started marks the volume workaround, and the first process callback that finds it started queues it. |
| `AAudioPlayer.SessionGetsStream` | msaaudio/msaaudio_player.cpp:439-451 | Every session gets a stream when AAudio does its part. |
| `AAudioPlayer.SessionKeepsStream` | msaaudio/msaaudio_player.cpp:466-544 | A session that has a stream has one when the worker has done its tasks and AAudio its part. |
| `AAudioPlayer.RunIsPromised` | msaaudio/msaaudio_player.cpp:439-544 | In every interleaving no close is pending in a session that an initialization does not follow. |
| `AAudioPlayer.StaysExactlyWhenUntouched` | msaaudio/msaaudio_player.cpp:372-417 | The current stream is the same when the worker is done if and only if neither its task nor a queued one touches the pointer. |
| `AAudioPlayer.IdleClearsFlags` | msaaudio/msaaudio_player.cpp:404-464 | When the worker has nothing left to do, no restart or adjustment is held back. |
| `AAudioPlayer.QueueExtended` | mediastreamer2/src/base/msasync.c:217-234 | A task queued behind the others keeps the order unless it is an initialization that may find the pointer set. |
| `AAudioPlayer.StartIsSound` | msaaudio/msaaudio_player.cpp:86-109 | A new filter satisfies the three invariants. |
| `AAudioPlayer.Player.Preprocess` | msaaudio/msaaudio_player.cpp:439-451 | An initialization is queued; the rest of the context is as before. |
| `AAudioPlayer.Player.Process` | msaaudio/msaaudio_player.cpp:466-530 | The branches on stream state, device and underruns are one step of the protocol, with every AAudio call on an open stream. |
| `AAudioPlayer.Player.Postprocess` | msaaudio/msaaudio_player.cpp:532-544 | A pending adjustment is dropped and a close queued. |
| `AAudioPlayer.Player.SetDeviceId` | msaaudio/msaaudio_player.cpp:577-585 | A restart is queued with a stream, a device check noted without one. |
| `AAudioPlayer.Player.BeginTask` | msaaudio/msaaudio_player.cpp:372-417 | The task at the front of the queue leaves it and begins; the adjustment of lines 453-464 is done at once. |
| `AAudioPlayer.Player.OpenStream` | msaaudio/msaaudio_player.cpp:292-300 | An opened stream is the worker's own; a failed opening ends the task. |
| `AAudioPlayer.Player.StartStream` | msaaudio/msaaudio_player.cpp:325-370 | A started stream is published, one that does not start is closed. |
| `AAudioPlayer.Player.DetachStream` | msaaudio/msaaudio_player.cpp:378-382 | The pointer is cleared, the stream stays with the worker. |
| `AAudioPlayer.Player.CloseDetached` | msaaudio/msaaudio_player.cpp:384-402 | The worker's stream, still open, is closed and the adjustment flag cleared; a restart goes on to open. |
| `AAudioPlayer.Player.EndRestart` | msaaudio/msaaudio_player.cpp:410-416 | The restart flag is cleared. |
| `Wasapi.RunKeepsLifeCycle` | mswasapi/mswasapi.cpp:252-358 | In every run of callbacks, whatever the system answers and whenever notifications arrive, started implies activated and activated implies audio client and capture or render client. |
| `Wasapi.StepKeepsLifeCycle` | mswasapi/mswasapi.cpp:858-883 | Each callback keeps it. |
| `Wasapi.ActivationKeepsLifeCycle` | mswasapi/mswasapi.cpp:252-323 | An activation keeps it, wherever it fails. |
| `Wasapi.UpdateKeepsLifeCycle` | mswasapi/mswasapi.cpp:719-740 | A format update keeps it, and stays scheduled exactly when the restart leaves the filter deactivated. |
| `Wasapi.ActivationDescribes` | mswasapi/mswasapi.cpp:252-317 | After an activation that nothing interrupts, the frame size, rate and channels are those of the format given to Initialize. |
| `Wasapi.RestartDescribes` | mswasapi/mswasapi.cpp:571-580 | After a successful restart they always are. |
| `Wasapi.StepDescribes` | mswasapi/mswasapi.cpp:394-441 | A callback that nothing interrupts keeps the data described, setters of rate and channels included. |
| `Wasapi.RepairedExactlyByRestart` | mswasapi/mswasapi.cpp:870-875 | A process callback repairs misdescribed data if and only if it tears the filter down, or finds a device and a due update whose format changed. |
| `Wasapi.RunDescribes` | mswasapi/mswasapi.cpp:863-883 | Every run of the reader, which holds the filter's lock in all its callbacks, keeps the data described. |
| `Wasapi.FilterRuns` | mswasapi/mswasapi.cpp:102-129 | Both results hold from the constructor and the initialization on. |
| `Wasapi.SupportedRateIsUsed` | mswasapi/mswasapi.cpp:394-414 | A supported rate is the rate of the data after the next update a willing system allows, and is then no longer to be forced. |
| `Wasapi.SupportedChannelsAreUsed` | mswasapi/mswasapi.cpp:420-441 | The same for the channels, with the frame size that fits them. |
| `Wasapi.RefusedSetterDoesNothing` | mswasapi/mswasapi.cpp:394-441 | A setter without a client, without a change or without support changes nothing. |
| `Wasapi.SystemFormatIsFollowed` | mswasapi/mswasapi.cpp:808-822 | A format changed in the system becomes the format of the data where nothing is forced. |
| `Wasapi.UnchangedFormatStays` | mswasapi/mswasapi.cpp:609-625 | A due update is dropped when nothing is to be forced and what is not forced is as in the mix format, or the mix format is not told. |
| `Wasapi.NothingDue` | mswasapi/mswasapi.cpp:582-603 | With a device and nothing due, a process callback leaves the filter alone. |
| `Wasapi.DeviceLossTearsDown` | mswasapi/mswasapi.cpp:582-603 | The loss of the default device leaves no client, and an update due. |
| `Wasapi.DeviceReturnPlays` | mswasapi/mswasapi.cpp:719-740 | When a device is back and the system is willing, the filter plays again. |
| `Wasapi.PreprocessPlays` | mswasapi/mswasapi.cpp:863-868 | A willing system lets preprocess play in the wished format. |
| `Wasapi.PostprocessEnds` | mswasapi/mswasapi.cpp:877-883 | Postprocess leaves the audio client, and nothing activated or started. |
| `Wasapi.RestartPlays` | mswasapi/mswasapi.cpp:571-580 | A restart with a willing system plays in what is forced, else the mix format, in 16 bits with the frame size that fits. |
| `Wasapi.ActivatesExactly` | mswasapi/mswasapi.cpp:252-323 | An activation succeeds if and only if a format is agreed on, Initialize accepts it, on this client or on a new one if this one is in use, and buffer size and service are given. |
| `Wasapi.AgreedMeans` | mswasapi/mswasapi.cpp:198-222 | The format agreed on: the proposed one, the closest one with 16 bits, or the closest one brought to 16 bits. |
| `Wasapi.ForcedTargetGivesWay` | mswasapi/mswasapi.cpp:226-239 | Targets follow the closest format, and a forced one that had to move is marked as done. |
| `Wasapi.InitWishes` | mswasapi/mswasapi.cpp:443-492 | A new filter wishes for the mix format of its device, and for 8000 Hz and one channel without it. |
| `Wasapi.RestartProposesConsistent` | mswasapi/mswasapi.cpp:571-580 | A restart proposes a format whose frame size fits its channels if and only if it had a client, or such a format, before. |
| `Wasapi.ChannelChangeAsksInconsistent` | mswasapi/mswasapi.cpp:420-441 | From a consistent format, a change of channels asks about a format whose frame size does not fit. |
| `Wasapi.Filter.PrepareInitialize` | mswasapi/mswasapi.cpp:170-250 | The result is the proposed format, or the closest one brought to 16 bits; the targets follow it and a forced value that moved is marked. |
| `Wasapi.Filter.UpdateFormat` | mswasapi/mswasapi.cpp:627-661 | With a client the targets become the mix format where nothing is forced, or the defaults, and the frame size follows. |
| `Wasapi.Filter.IsFormatUpdated` | mswasapi/mswasapi.cpp:609-625 | Whether there is no client, something forced, or a mix format that differs where nothing is forced. |
| `Wasapi.Filter.SetRate` | mswasapi/mswasapi.cpp:394-414 | Exactly a supported new rate with a client moves the target, forces it and schedules an update; the data keeps its format. |
| `Wasapi.Filter.SetNChannels` | mswasapi/mswasapi.cpp:420-441 | The same for the channels. |
| `Wasapi.Filter.CreateAudioClient` | mswasapi/mswasapi.cpp:498-565 | An existing client is kept and reported as an error; otherwise what creation left is there. |
| `Wasapi.Filter.Negotiate` | mswasapi/mswasapi.cpp:259-279 | Query and Initialize, and once more on a new client if this one was in use. |
| `Wasapi.Filter.TakeUp` | mswasapi/mswasapi.cpp:280-317 | The format is taken up before buffer size and service are asked for, and the filter activated only after both. |
| `Wasapi.Filter.Activate` | mswasapi/mswasapi.cpp:252-323 | The fields are those of the model's activation, the life cycle is kept, and no call meets a null client. |
| `Wasapi.Filter.Deactivate` | mswasapi/mswasapi.cpp:325-333 | Capture or render client and activation are gone, the rest stays. |
| `Wasapi.Filter.Start` | mswasapi/mswasapi.cpp:335-346 | The filter is started exactly if it was, or if it is activated and the system agrees. |
| `Wasapi.Filter.Stop` | mswasapi/mswasapi.cpp:348-358 | An activated filter is no longer started. |
| `Wasapi.Filter.RestartAudioClient` | mswasapi/mswasapi.cpp:571-580 | The fields are those of the model's restart; it succeeds exactly when the filter is activated again. |
| `Wasapi.Filter.CheckDefaultDevice` | mswasapi/mswasapi.cpp:582-603 | A change of device is acknowledged, schedules an update, and tears everything down exactly when no device is left then; notifications may arrive before each of the three reads. |
| `Wasapi.Filter.TryToUpdateFormat` | mswasapi/mswasapi.cpp:719-740 | A scheduled update restarts the client exactly when the format changed, and is scheduled again exactly when that fails. |
| `Wasapi.Filter.Feed` | mswasapi/mswasapi_reader.cpp:64-125 | A started filter works on existing clients, in frames of the format in use. |
| `Wasapi.Filter.Notify` | mswasapi/system_notifier.cpp:68-82 | A default-device change overwrites both flags; a format change, as in mswasapi.cpp, only raises its own. |
| `Wasapi.Filter.Init` | mswasapi/mswasapi.cpp:443-492 | One step of the model: creation, then the best format or the defaults. |
| `Wasapi.Filter.Preprocess` | mswasapi/mswasapi.cpp:863-868 | One step of the model: a filter that activates is started. |
| `Wasapi.Filter.Process` | mswasapi/mswasapi.cpp:870-875 | One step of the model: device check, then update, then feed, each only if the one before succeeded. |
| `Wasapi.Filter.Postprocess` | mswasapi/mswasapi.cpp:877-883 | One step of the model: stopped, then deactivated. |
| `WasapiWriter.RunHolds` | mswasapi/mswasapi.cpp:999-1016 | In every interleaving of the unlocked activation with setters, process callbacks and notifications, started implies activated, activated implies both clients, and an activation under way has its client. |
| `WasapiWriter.StepHolds` | mswasapi/mswasapi.cpp:252-323 | Each step keeps that, and the ticker calls its client only when there is one. |
| `WasapiWriter.StepGuards` | mswasapi/mswasapi.cpp:394-414 | A step keeps a client for a setter that has tested it if and only if it does not destroy a client in use between test and call. |
| `WasapiWriter.NullExactlyWhenReplaced` | mswasapi/mswasapi.cpp:261-269 | A step lets a setter reach a call on a null client, without a further replacement, if and only if it is such a destruction. |
| `WasapiWriter.NullIsReached` | mswasapi/mswasapi.cpp:394-402 | A run of a new writer that gets there. |
| `WasapiWriter.StepIsClear` | mswasapi/mswasapi.cpp:252-317 | A step keeps targets and pending format aligned and the data described if and only if it is not a setter changing a target between the reading of the targets and their taking up. |
| `WasapiWriter.RunIsClear` | mswasapi/mswasapi.cpp:252-317 | Without such a step every interleaving keeps the data described. |
| `WasapiWriter.MisdescribedExactlyAfterIntrusion` | mswasapi/mswasapi.cpp:394-441 | A step makes misdescribed data possible, without a further step of a setter, if and only if it is such a step. |
| `WasapiWriter.StepIsRepairable` | mswasapi/mswasapi.cpp:394-441 | While setters are supported and the mix format is told, anything misdescribed has a setter still at work or an update due. |
| `WasapiWriter.RunIsRepaired` | mswasapi/mswasapi.cpp:719-740 | Then, in every interleaving, the next process callback that finds a device leaves the data described. |
| `WasapiWriter.RefusedRateStays` | mswasapi/mswasapi.cpp:394-414 | A run of a new writer in which a refused rate becomes the rate of the data, with nothing scheduled, and in which process callbacks change nothing. |
| `WasapiWriter.BeginningIsSound` | mswasapi/mswasapi.cpp:443-492 | A new writer satisfies all these invariants. |
| `WasapiWriter.ActivationAlone` | mswasapi/mswasapi.cpp:999-1002 | The steps of an activation that no setter interrupts amount to the activation of the filter. |
| `WasapiWriter.SetterAlone` | mswasapi/mswasapi.cpp:394-441 | The steps of a setter that nothing interrupts amount to the setter of the filter. |
| `Vad.NoticesAlternate` | mswebrtc/vad.cc:85-127 | In every run, with any settings, answers and clock, silence notices strictly alternate beginning with a detection, and so do voice notices. |
| `Vad.RunKeepsPairs` | mswebrtc/vad.cc:85-127 | From any state in which notices alternate and each flag says whether the last detection still awaits its end, every run keeps both. |
| `Vad.SilenceModeReportsEdges` | mswebrtc/vad.cc:90-107 | In silence mode the notices are exactly the changes of "quiet for the threshold since the last voice", each end with the time since that voice. |
| `Vad.VoiceModeReportsEdges` | mswebrtc/vad.cc:108-123 | With silence detection off, or without a threshold, the notices are exactly the changes of "someone spoke less than 1000 ms ago". |
| `Vad.InactiveIsSilent` | mswebrtc/vad.cc:89-89 | Without a detector or at an unsupported rate, blocks leave no notice and no trace. |
| `Vad.ActiveRates` | mswebrtc/vad.cc:39-46 | The filter is active if and only if it has a detector and a rate of 8, 16, 32 or 48 kHz. |
| `Vad.EveryReportedSilenceLasts` | mswebrtc/vad.cc:90-107 | With the settings kept and a clock that does not go back, every reported silence lasts the threshold. |
| `Vad.SilencesLastExactlyWhenSettled` | mswebrtc/vad.cc:90-107 | From any state in silence mode, all silences reported later last the threshold if and only if an announced silence has already lasted it. |
| `Vad.ModeSwitchReportsShortSilence` | mswebrtc/vad.cc:48-52 | Switching modes during a silence makes the filter report 10 ms against a threshold of 100 ms. |
| `Vad.SumsDoNotWrap` | mswebrtc/vad.cc:54-58 | A threshold of 32 bits and a ticker not within 2^32 ms of its end: no sum wraps, in any run. |
| `Vad.Filter.constructor` | mswebrtc/vad.cc:28-37 | A new filter is in the start state. |
| `Vad.Filter.EnableSilenceDetection` | mswebrtc/vad.cc:48-52 | Only the setting changes. |
| `Vad.Filter.SetSilenceThreshold` | mswebrtc/vad.cc:54-58 | Only the threshold changes. |
| `Vad.Filter.SetSampleRate` | mswebrtc/vad.cc:69-74 | The filter is enabled exactly for the four supported rates. |
| `Vad.Filter.Hear` | mswebrtc/vad.cc:89-124 | The branches for one block are one step of the model. |
| `Vad.Filter.Process` | mswebrtc/vad.cc:85-127 | All blocks leave in arrival order, none is lost, and the state is that of the model's tick. |

## Left out

- The Windows version of the scheduler, which ignores weights, and the merging of JUnit, log and result files.
- `bc_tester_register_suite` and `test_enabled`: filters over the suite table that would only add easy members.
- What a child process of the scheduler does after fork, and a child that is only stopped: `waitpid` is called without asking for those.
- Pids are not reused within a run and limit and weights are not negative; what negative ones do is stated by two lemmas.
- The width of C's `int` in the counters of the tester, in text lengths and in audio formats.
- The texts `atoi` reads in the command line are kept as they are.
- The vCard grammar engine, line folding, and the tables that map grammar rules to setters; that a grammar splits N and ADR values at unescaped semicolons is taken from section 3.4 of RFC 6350.
- The version 3 branch of ADR, which writes its value as it stands, and the LABEL parameter.
- The typed parameter slots of a property, and changing the PREF of a property while a card holds it.
- Typed getters and setters of a card: one slot and one list per kind stand for all of them. Null properties are not modelled.
- The empty parameter name, for which the search loop of the source does not end, and the boolean lookup, which compares a value cut to four characters.
- The helpers that fill a rule table with characters and ranges; a table is any table.
- What `sscanf` makes of an escape without two hexadecimal digits: any answer is allowed for. An encoded NUL stays in the text, where C would see its end.
- ParamString.GetValue: a result buffer of no length is excluded, since the source writes its terminator in any case.
- AAudioPlayer.Player: its methods are the sections between two lock operations; the few accesses outside the mutex are taken to be atomic.
- AAudio buffer sizes, the data callback and the volume workaround itself; the destruction of the player is the worker running out of tasks.
- WASAPI volume, sessions, the reader's sample time, the writer's flow control, and uninit; whether a failed restart is retried successfully.
- Wasapi.Filter.Feed: the packets of one call are a finite sequence that all succeed; error exits, the reader's silence and the writer's space test are left out.
- Wasapi.Filter.SetRate: one call, as under the lock; its parts, interleaved with the unlocked writer, are the steps of WasapiWriter.
- Wasapi.Filter.SetNChannels: one call, as under the lock; its parts, interleaved with the unlocked writer, are the steps of WasapiWriter.
- WasapiWriter is modelled on values: the assignments between two calls to the system are one step, and a client destroyed during a call on it is not modelled.
- Wasapi.Filter.Notify: a later default-device callback may overwrite an earlier one, as in the source, so no delivery is claimed.
- The aggressiveness of the voice detector, which is handed to WebRTC, and the detector itself.
- Camera, Oboe, the AAudio recorder, codecs, echo cancellation, digests, bearer tokens, mDNS: mostly foreign calls or straight-line code.
