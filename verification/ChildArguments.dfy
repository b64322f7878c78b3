/** The command line of a suite's child process (tester.c): the parent rewrites its own arguments,
    and the child parses the result with the same parser. */
module ChildArguments {
  import opened Options

  // ---------------------------------------------------------------- words

  /** The option names the parser compares with. */
  datatype Name =
    | Help | LogFile | Silent | Verbose | Test | Suite | ExcludeSuite | Tag | All | ListSuites | ListTests
    | XmlFile | Xml | Parallel | ParallelMax | Timeout | MaxAlloc | ResourceDir | WritableDir | Child

  function Spelling(name: Name): (r: string)
    ensures |r| >= 5 && r[0] == '-' && '_' !in r
  {
    match name
    case Help => "--help"
    case LogFile => "--log-file"
    case Silent => "--silent"
    case Verbose => "--verbose"
    case Test => "--test"
    case Suite => "--suite"
    case ExcludeSuite => "--exclude-suite"
    case Tag => "--tag"
    case All => "--all"
    case ListSuites => "--list-suites"
    case ListTests => "--list-tests"
    case XmlFile => "--xml-file"
    case Xml => "--xml"
    case Parallel => "--parallel"
    case ParallelMax => "--parallel-max"
    case Timeout => "--timeout"
    case MaxAlloc => "--max-alloc"
    case ResourceDir => "--resource-dir"
    case WritableDir => "--writable-dir"
    case Child => "--child"
  }

  predicate OptionName(s: string) { exists name: Name :: Spelling(name) == s }

  datatype Token = Opt(name: Name) | Text(text: string)

  /** An argument: one of those names, or a text that is none of them. */
  type Word = w: Token | w.Text? ==> !OptionName(w.text) witness Text("")

  function Spelled(w: Word): string {
    match w
    case Opt(name) => Spelling(name)
    case Text(text) => text
  }

  /** The word an argument is, found by comparing it with the names one after the other. */
  function WordOf(s: string): (w: Word)
    ensures Spelled(w) == s
  {
    if s == "--help" then Opt(Help)
    else if s == "--log-file" then Opt(LogFile)
    else if s == "--silent" then Opt(Silent)
    else if s == "--verbose" then Opt(Verbose)
    else if s == "--test" then Opt(Test)
    else if s == "--suite" then Opt(Suite)
    else if s == "--exclude-suite" then Opt(ExcludeSuite)
    else if s == "--tag" then Opt(Tag)
    else if s == "--all" then Opt(All)
    else if s == "--list-suites" then Opt(ListSuites)
    else if s == "--list-tests" then Opt(ListTests)
    else if s == "--xml-file" then Opt(XmlFile)
    else if s == "--xml" then Opt(Xml)
    else if s == "--parallel" then Opt(Parallel)
    else if s == "--parallel-max" then Opt(ParallelMax)
    else if s == "--timeout" then Opt(Timeout)
    else if s == "--max-alloc" then Opt(MaxAlloc)
    else if s == "--resource-dir" then Opt(ResourceDir)
    else if s == "--writable-dir" then Opt(WritableDir)
    else if s == "--child" then Opt(Child)
    else NoNameLeft(s); Text(s)
  }

  lemma NoNameLeft(s: string)
    requires s !in {Spelling(Help), Spelling(LogFile), Spelling(Silent), Spelling(Verbose), Spelling(Test),
                    Spelling(Suite), Spelling(ExcludeSuite), Spelling(Tag), Spelling(All), Spelling(ListSuites),
                    Spelling(ListTests), Spelling(XmlFile), Spelling(Xml), Spelling(Parallel), Spelling(ParallelMax),
                    Spelling(Timeout), Spelling(MaxAlloc), Spelling(ResourceDir), Spelling(WritableDir), Spelling(Child)}
    ensures !OptionName(s)
  {
  }

  /** Words and strings correspond one to one: what follows about words holds of the strings. */
  lemma WordOfSpelled(w: Word)
    ensures WordOf(Spelled(w)) == w
  {
    if w.Text? { TextIsItself(w.text); } else { NameIsItself(w.name); }
  }

  lemma TextIsItself(s: string)
    requires !OptionName(s)
    ensures WordOf(s) == Text(s)
  {
  }

  lemma NameIsItself(name: Name)
    ensures WordOf(Spelling(name)) == Opt(name)
  {
    match name
    case Help =>
    case LogFile =>
    case Silent =>
    case Verbose =>
    case Test =>
    case Suite =>
    case ExcludeSuite =>
    case Tag =>
    case All =>
    case ListSuites =>
    case ListTests =>
    case XmlFile =>
    case Xml =>
    case Parallel =>
    case ParallelMax =>
    case Timeout =>
    case MaxAlloc =>
    case ResourceDir =>
    case WritableDir =>
    case Child =>
  }

  // ---------------------------------------------------------------- the parser

  datatype Level = Quiet | Loud

  /** The static variables the parser sets; numbers are kept as the text `atoi` reads. */
  datatype Config = Config(suites: seq<Word>, excluded: seq<Word>, logFile: Option<Word>,
                           xmlFile: Word, xmlEnabled: bool, others: Others)

  datatype Others = Others(level: Option<Level>, test: Option<Word>, tags: seq<Word>, runSkipped: bool, parallel: bool,
                           parallelMax: Option<Word>, timeout: Option<Word>, maxAlloc: Option<Word>,
                           resourceDir: Option<Word>, writableDir: Option<Word>)

  const DEFAULT: Config :=
    Config([], [], None, Text("BCUnitAutomated"), false, Others(None, None, [], false, false, None, None, None, None, None))

  /** The options that take a value. */
  predicate TakesValue(w: Word) {
    w.Opt? && w.name in {LogFile, Test, Suite, ExcludeSuite, Tag, ListTests, XmlFile, ParallelMax, Timeout,
                         MaxAlloc, ResourceDir, WritableDir}
  }

  /** The options that do not read on: the help text and the listings. */
  predicate Stops(name: Name) { name in {Help, ListSuites, ListTests} }

  /** What one option sets; `value` is the word behind it, for the options that take one. */
  function Effect(name: Name, value: Word, c: Config): Config {
    match name
    case LogFile => c.(logFile := Some(value))
    case Suite => c.(suites := c.suites + [value])
    case ExcludeSuite => c.(excluded := c.excluded + [value])
    case XmlFile => c.(xmlFile := value, xmlEnabled := true)
    case Xml => c.(xmlEnabled := true)
    case Parallel => c.(xmlEnabled := true, others := OtherEffect(name, value, c.others))
    case _ => c.(others := OtherEffect(name, value, c.others))
  }

  function OtherEffect(name: Name, value: Word, o: Others): Others {
    match name
    case Silent => o.(level := Some(Quiet))
    case Verbose => o.(level := Some(Loud))
    case Test => o.(test := Some(value))
    case Tag => o.(tags := o.tags + [value])
    case All => o.(runSkipped := true)
    case Parallel => o.(parallel := true)
    case ParallelMax => o.(parallelMax := Some(value))
    case Timeout => o.(timeout := Some(value))
    case MaxAlloc => o.(maxAlloc := Some(value))
    case ResourceDir => o.(resourceDir := Some(value))
    case WritableDir => o.(writableDir := Some(value))
    case _ => o
  }

  /** The number of words of the option at the front. */
  function Arity(args: seq<Word>): nat
    requires args != []
  {
    if TakesValue(args[0]) then 2 else 1
  }

  function ValueOf(args: seq<Word>): Word
    requires args != [] && Arity(args) <= |args|
  {
    if TakesValue(args[0]) then args[1] else Text("")
  }

  /** `bc_tester_parse_args` reads the option at the front and asks for the next. `opens` says which
      log files the log handler can open. */
  predicate Reads(args: seq<Word>, opens: Word -> bool) {
    && args != [] && args[0].Opt? && !Stops(args[0].name) && Arity(args) <= |args|
    && (args[0] == Opt(LogFile) ==> opens(args[1]))
  }

  /** The driver loop of the testers: the settings after a line that is accepted as a whole. */
  function ParseAll(args: seq<Word>, c: Config, opens: Word -> bool): Option<Config>
    decreases |args|
  {
    if args == [] then Some(c)
    else if Reads(args, opens) then ParseAll(args[Arity(args)..], Effect(args[0].name, ValueOf(args), c), opens)
    else None
  }

  // ---------------------------------------------------------------- what a line sets

  /** An option as it stands on a line, with its value if it takes one. */
  datatype Item = Flag(name: Name) | With(name: Name, value: Word)

  function Words(item: Item): seq<Word> {
    match item
    case Flag(name) => [Opt(name)]
    case With(name, value) => [Opt(name), value]
  }

  function Line(items: seq<Item>): seq<Word> {
    if items == [] then [] else Words(items[0]) + Line(items[1..])
  }

  /** The items a tester accepts and reads on from. */
  predicate Acceptable(item: Item, opens: Word -> bool) {
    match item
    case Flag(name) => name in {Silent, Verbose, All, Xml, Parallel, Child}
    case With(name, value) =>
      && name in {LogFile, Test, Suite, ExcludeSuite, Tag, XmlFile, ParallelMax, Timeout, MaxAlloc, ResourceDir, WritableDir}
      && (name == LogFile ==> opens(value))
  }

  predicate AllAcceptable(items: seq<Item>, opens: Word -> bool) { forall item | item in items :: Acceptable(item, opens) }

  /** All values given to an option, in order. */
  function Values(items: seq<Item>, name: Name): seq<Word> {
    if items == [] then []
    else (if items[0].With? && items[0].name == name then [items[0].value] else []) + Values(items[1..], name)
  }

  function Or<T>(first: Option<T>, second: Option<T>): Option<T> { if first.Some? then first else second }

  /** The last value given to an option. */
  function Last(items: seq<Item>, name: Name): Option<Word> {
    if items == [] then None
    else Or(Last(items[1..], name), if items[0].With? && items[0].name == name then Some(items[0].value) else None)
  }

  /** The last of "--silent" and "--verbose". */
  function LastLevel(items: seq<Item>): Option<Level> {
    if items == [] then None
    else Or(LastLevel(items[1..]),
            if items[0].name == Silent then Some(Quiet) else if items[0].name == Verbose then Some(Loud) else None)
  }

  predicate Occurs(items: seq<Item>, name: Name) { exists item | item in items :: item.name == name }

  /** The setting that an option with a value sets, and the list that one adds to. */
  function Single(c: Config, name: Name): Option<Word> {
    match name
    case LogFile => c.logFile
    case XmlFile => Some(c.xmlFile)
    case Test => c.others.test
    case ParallelMax => c.others.parallelMax
    case Timeout => c.others.timeout
    case MaxAlloc => c.others.maxAlloc
    case ResourceDir => c.others.resourceDir
    case WritableDir => c.others.writableDir
    case _ => None
  }

  function Listed(c: Config, name: Name): seq<Word> {
    match name
    case Suite => c.suites
    case ExcludeSuite => c.excluded
    case Tag => c.others.tags
    case _ => []
  }

  predicate SetsOne(name: Name) { name in {LogFile, XmlFile, Test, ParallelMax, Timeout, MaxAlloc, ResourceDir, WritableDir} }
  predicate AddsTo(name: Name) { name in {Suite, ExcludeSuite, Tag} }

  /** From the settings `c`, the items lead to `r`: lists grow by all values of their option, single
      settings take the last value of theirs, switches are set by their options. */
  ghost predicate Sets(c: Config, items: seq<Item>, r: Config) {
    SetsLists(c, items, r) && SetsSingles(c, items, r) && SetsSwitches(c, items, r) && SetsLevel(c, items, r)
  }

  ghost predicate SetsLists(c: Config, items: seq<Item>, r: Config) {
    forall name: Name | AddsTo(name) :: Listed(r, name) == Listed(c, name) + Values(items, name)
  }

  ghost predicate SetsSingles(c: Config, items: seq<Item>, r: Config) {
    forall name: Name | SetsOne(name) :: Single(r, name) == Or(Last(items, name), Single(c, name))
  }

  predicate SetsLevel(c: Config, items: seq<Item>, r: Config) {
    r.others.level == Or(LastLevel(items), c.others.level)
  }

  predicate SetsSwitches(c: Config, items: seq<Item>, r: Config) {
    && (r.xmlEnabled <==> c.xmlEnabled || Occurs(items, Xml) || Occurs(items, XmlFile) || Occurs(items, Parallel))
    && (r.others.parallel <==> c.others.parallel || Occurs(items, Parallel))
    && (r.others.runSkipped <==> c.others.runSkipped || Occurs(items, All))
  }

  function ItemEffect(item: Item, c: Config): Config {
    Effect(item.name, if item.With? then item.value else Text(""), c)
  }

  lemma OneItem(item: Item, name: Name)
    ensures Values([item], name) == if item.With? && item.name == name then [item.value] else []
    ensures Last([item], name) == if item.With? && item.name == name then Some(item.value) else None
    ensures Occurs([item], name) <==> item.name == name
  {
    assert [item][1..] == [];
    assert item in [item];
  }

  lemma OneLevel(item: Item)
    ensures LastLevel([item]) == if item.name == Silent then Some(Quiet) else if item.name == Verbose then Some(Loud) else None
  {
    assert [item][1..] == [];
  }

  lemma ItemAdds(item: Item, c: Config, opens: Word -> bool, name: Name)
    requires Acceptable(item, opens) && AddsTo(name)
    ensures Listed(ItemEffect(item, c), name) == Listed(c, name) + Values([item], name)
  {
    OneItem(item, name);
  }

  lemma ItemSetsOne(item: Item, c: Config, opens: Word -> bool, name: Name)
    requires Acceptable(item, opens) && SetsOne(name)
    ensures Single(ItemEffect(item, c), name) == Or(Last([item], name), Single(c, name))
  {
    OneItem(item, name);
  }

  lemma ItemSwitches(item: Item, c: Config, opens: Word -> bool)
    requires Acceptable(item, opens)
    ensures SetsSwitches(c, [item], ItemEffect(item, c))
  {
    OneItem(item, Xml);
    OneItem(item, XmlFile);
    OneItem(item, Parallel);
    OneItem(item, All);
  }

  lemma ItemLevel(item: Item, c: Config, opens: Word -> bool)
    requires Acceptable(item, opens)
    ensures ItemEffect(item, c).others.level == Or(LastLevel([item]), c.others.level)
  {
    OneLevel(item);
  }

  lemma ItemSets(item: Item, c: Config, opens: Word -> bool)
    requires Acceptable(item, opens)
    ensures Sets(c, [item], ItemEffect(item, c))
  {
    forall name: Name | AddsTo(name) ensures Listed(ItemEffect(item, c), name) == Listed(c, name) + Values([item], name) {
      ItemAdds(item, c, opens, name);
    }
    forall name: Name | SetsOne(name) ensures Single(ItemEffect(item, c), name) == Or(Last([item], name), Single(c, name)) {
      ItemSetsOne(item, c, opens, name);
    }
    ItemSwitches(item, c, opens);
    ItemLevel(item, c, opens);
  }

  lemma ItemsCons(items: seq<Item>, name: Name)
    requires items != []
    ensures Values(items, name) == Values([items[0]], name) + Values(items[1..], name)
    ensures Last(items, name) == Or(Last(items[1..], name), Last([items[0]], name))
    ensures Occurs(items, name) <==> Occurs([items[0]], name) || Occurs(items[1..], name)
  {
    OneItem(items[0], name);
    if Occurs(items, name) && items[0].name != name {
      var item :| item in items && item.name == name;
      assert item in items[1..];
    }
  }

  lemma ListsOnward(c: Config, items: seq<Item>, m: Config, r: Config)
    requires items != [] && SetsLists(c, [items[0]], m) && SetsLists(m, items[1..], r)
    ensures SetsLists(c, items, r)
  {
    forall name: Name | AddsTo(name) ensures Listed(r, name) == Listed(c, name) + Values(items, name) {
      ItemsCons(items, name);
    }
  }

  lemma SinglesOnward(c: Config, items: seq<Item>, m: Config, r: Config)
    requires items != [] && SetsSingles(c, [items[0]], m) && SetsSingles(m, items[1..], r)
    ensures SetsSingles(c, items, r)
  {
    forall name: Name | SetsOne(name) ensures Single(r, name) == Or(Last(items, name), Single(c, name)) {
      ItemsCons(items, name);
    }
  }

  lemma SwitchesOnward(c: Config, items: seq<Item>, m: Config, r: Config)
    requires items != [] && SetsSwitches(c, [items[0]], m) && SetsSwitches(m, items[1..], r)
    ensures SetsSwitches(c, items, r)
  {
    ItemsCons(items, Xml);
    ItemsCons(items, XmlFile);
    ItemsCons(items, Parallel);
    ItemsCons(items, All);
  }

  lemma LevelOnward(c: Config, items: seq<Item>, m: Config, r: Config)
    requires items != [] && SetsLevel(c, [items[0]], m) && SetsLevel(m, items[1..], r)
    ensures SetsLevel(c, items, r)
  {
    OneLevel(items[0]);
  }

  /** What the first item sets and what the others then set is what all of them set. */
  lemma SetsOnward(c: Config, items: seq<Item>, m: Config, r: Config)
    requires items != [] && Sets(c, [items[0]], m) && Sets(m, items[1..], r)
    ensures Sets(c, items, r)
  {
    ListsOnward(c, items, m, r);
    SinglesOnward(c, items, m, r);
    SwitchesOnward(c, items, m, r);
    LevelOnward(c, items, m, r);
  }

  /** Main result: a line of acceptable items is accepted, and sets exactly what its items say. */
  lemma {:induction false} LineSets(items: seq<Item>, c: Config, opens: Word -> bool)
    requires AllAcceptable(items, opens)
    ensures ParseAll(Line(items), c, opens).Some? && Sets(c, items, ParseAll(Line(items), c, opens).value)
    decreases |items|
  {
    if items != [] {
      var item, back := items[0], Line(items[1..]);
      assert item in items;
      var m := ItemEffect(item, c);
      LineSets(items[1..], m, opens);
      if item.Flag? { ParseFlag(item.name, back, c, opens); } else { ParseOption(item.name, item.value, back, c, opens); }
      ItemSets(item, c, opens);
      SetsOnward(c, items, m, ParseAll(back, m, opens).value);
    }
  }

  /** Conversely, every accepted line consists of acceptable items. */
  lemma {:induction false} AcceptedLine(args: seq<Word>, c: Config, opens: Word -> bool) returns (items: seq<Item>)
    requires ParseAll(args, c, opens).Some?
    ensures Line(items) == args && AllAcceptable(items, opens)
    decreases |args|
  {
    if args == [] {
      items := [];
    } else {
      var n := Arity(args);
      var rest := AcceptedLine(args[n..], Effect(args[0].name, ValueOf(args), c), opens);
      var item := if TakesValue(args[0]) then With(args[0].name, args[1]) else Flag(args[0].name);
      assert Acceptable(item, opens);
      items := [item] + rest;
      assert items[1..] == rest;
      assert Words(item) == args[..n];
    }
  }

  lemma ListsFromDefault(items: seq<Item>, r: Config)
    requires SetsLists(DEFAULT, items, r)
    ensures r.suites == Values(items, Suite) && r.excluded == Values(items, ExcludeSuite)
    ensures r.others.tags == Values(items, Tag)
  {
    assert Listed(r, Suite) == [] + Values(items, Suite);
    assert Listed(r, ExcludeSuite) == [] + Values(items, ExcludeSuite);
    assert Listed(r, Tag) == [] + Values(items, Tag);
  }

  lemma FilesFromDefault(items: seq<Item>, r: Config)
    requires SetsSingles(DEFAULT, items, r)
    ensures r.logFile == Last(items, LogFile)
    ensures Some(r.xmlFile) == Or(Last(items, XmlFile), Some(Text("BCUnitAutomated")))
  {
    assert Single(r, LogFile) == Or(Last(items, LogFile), None);
    assert Single(r, XmlFile) == Or(Last(items, XmlFile), Some(Text("BCUnitAutomated")));
  }

  lemma NumbersFromDefault(items: seq<Item>, r: Config)
    requires SetsSingles(DEFAULT, items, r)
    ensures r.others.parallelMax == Last(items, ParallelMax) && r.others.timeout == Last(items, Timeout)
    ensures r.others.maxAlloc == Last(items, MaxAlloc)
  {
    assert Single(r, ParallelMax) == Or(Last(items, ParallelMax), None);
    assert Single(r, Timeout) == Or(Last(items, Timeout), None);
    assert Single(r, MaxAlloc) == Or(Last(items, MaxAlloc), None);
  }

  lemma TextsFromDefault(items: seq<Item>, r: Config)
    requires SetsSingles(DEFAULT, items, r)
    ensures r.others.test == Last(items, Test)
    ensures r.others.resourceDir == Last(items, ResourceDir) && r.others.writableDir == Last(items, WritableDir)
  {
    assert Single(r, Test) == Or(Last(items, Test), None);
    assert Single(r, ResourceDir) == Or(Last(items, ResourceDir), None);
    assert Single(r, WritableDir) == Or(Last(items, WritableDir), None);
  }

  /** Field by field, what the items of an accepted line have set from the defaults of the tester. */
  predicate Says(items: seq<Item>, r: Config) {
    && r.suites == Values(items, Suite) && r.excluded == Values(items, ExcludeSuite) && r.others.tags == Values(items, Tag)
    && r.logFile == Last(items, LogFile)
    && Some(r.xmlFile) == Or(Last(items, XmlFile), Some(Text("BCUnitAutomated")))
    && r.others.test == Last(items, Test)
    && r.others.parallelMax == Last(items, ParallelMax) && r.others.timeout == Last(items, Timeout)
    && r.others.maxAlloc == Last(items, MaxAlloc)
    && r.others.resourceDir == Last(items, ResourceDir) && r.others.writableDir == Last(items, WritableDir)
    && (r.xmlEnabled <==> Occurs(items, Xml) || Occurs(items, XmlFile) || Occurs(items, Parallel))
    && (r.others.parallel <==> Occurs(items, Parallel)) && (r.others.runSkipped <==> Occurs(items, All))
    && r.others.level == LastLevel(items)
  }

  lemma SetsFromDefault(items: seq<Item>, r: Config)
    requires Sets(DEFAULT, items, r)
    ensures Says(items, r)
  {
    ListsFromDefault(items, r);
    FilesFromDefault(items, r);
    NumbersFromDefault(items, r);
    TextsFromDefault(items, r);
  }

  /** Main result: an accepted line consists of acceptable items, and its settings are what they say. */
  lemma AcceptedLineSays(args: seq<Word>, opens: Word -> bool) returns (items: seq<Item>)
    requires ParseAll(args, DEFAULT, opens).Some?
    ensures Line(items) == args && AllAcceptable(items, opens) && Says(items, ParseAll(args, DEFAULT, opens).value)
  {
    items := AcceptedLine(args, DEFAULT, opens);
    LineSets(items, DEFAULT, opens);
    SetsFromDefault(items, ParseAll(args, DEFAULT, opens).value);
  }

  /** The names as they are typed. */
  lemma NamesAsTyped()
    ensures Spelling(Help) == "--help" && Spelling(LogFile) == "--log-file"
    ensures Spelling(Silent) == "--silent" && Spelling(Verbose) == "--verbose"
    ensures Spelling(Test) == "--test" && Spelling(Suite) == "--suite"
    ensures Spelling(ExcludeSuite) == "--exclude-suite" && Spelling(Tag) == "--tag"
    ensures Spelling(All) == "--all" && Spelling(ListSuites) == "--list-suites"
    ensures Spelling(ListTests) == "--list-tests" && Spelling(XmlFile) == "--xml-file"
    ensures Spelling(Xml) == "--xml" && Spelling(Parallel) == "--parallel"
    ensures Spelling(ParallelMax) == "--parallel-max" && Spelling(Timeout) == "--timeout"
    ensures Spelling(MaxAlloc) == "--max-alloc" && Spelling(ResourceDir) == "--resource-dir"
    ensures Spelling(WritableDir) == "--writable-dir" && Spelling(Child) == "--child"
  {
  }

  // ---------------------------------------------------------------- the rewriter

  /** The words that make the rewriter step over the next one. */
  predicate Touchy(w: Word) { w.Opt? && w.name in {LogFile, XmlFile, Suite, ExcludeSuite} }

  /** What the rewriter writes for the word at the front. */
  function Piece(args: seq<Word>, log: Word): seq<Word>
    requires args != [] && (Touchy(args[0]) ==> |args| >= 2)
  {
    if args[0] == Opt(LogFile) then [args[0], log]
    else if args[0] == Opt(XmlFile) then [args[0], args[1]]
    else if args[0] == Opt(Suite) || args[0] == Opt(ExcludeSuite) then []
    else [args[0]]
  }

  /** The loop of `prepare_child_arguments` over the parent's words behind the program name; None
      when it would step over the terminating NULL. `log` is the suite's own log file. */
  function Rewritten(args: seq<Word>, log: Word): (r: Option<seq<Word>>)
    ensures r.Some? ==> |r.value| <= |args|
    decreases |args|
  {
    if args == [] then Some([])
    else if Touchy(args[0]) && |args| < 2 then None
    else
      var rest := Rewritten(args[if Touchy(args[0]) then 2 else 1..], log);
      if rest.None? then None else Some(Piece(args, log) + rest.value)
  }

  function Appended(xml: Word, suite: Word): seq<Word> { [Opt(Xml), Opt(XmlFile), xml, Opt(Suite), suite] }

  function Underscored(s: string): (r: string)
    ensures |r| == |s| && forall i | 0 <= i < |s| :: r[i] == if s[i] == ' ' then '_' else s[i]
  {
    if s == "" then "" else [if s[0] == ' ' then '_' else s[0]] + Underscored(s[1..])
  }

  /** No option name has an underscore, so a generated file name is never taken for one. */
  lemma UnderscoreIsText(front: string, back: string)
    ensures !OptionName(front + "_" + back)
  {
    assert (front + "_" + back)[|front|] == '_';
  }

  /** `get_logfile_name`. */
  function LogName(base: Word, suite: Word): (w: Word)
    ensures w.Text?
  {
    var back := Underscored(Spelled(suite)) + ".log";
    UnderscoreIsText(Spelled(base), back);
    Text(Spelled(base) + "_" + back)
  }

  /** `get_junit_xml_file_name` for a suite at a position of the registry, in decimal. */
  function XmlName(base: Word, position: string): (w: Word)
    ensures w.Text?
  {
    UnderscoreIsText(Spelled(base), position);
    Text(Spelled(base) + "_" + position)
  }

  /** Two texts that differ only in blanks and underscores. */
  predicate AlikeButBlanks(a: string, b: string) {
    |a| == |b| && forall i | 0 <= i < |a| :: a[i] == b[i] || (a[i] in " _" && b[i] in " _")
  }

  lemma UnderscoredAlike(a: string, b: string)
    ensures Underscored(a) == Underscored(b) <==> AlikeButBlanks(a, b)
  {
    var x, y := Underscored(a), Underscored(b);
    if x == y {
      forall i | 0 <= i < |a| ensures a[i] == b[i] || (a[i] in " _" && b[i] in " _") {
        assert x[i] == y[i];
      }
    }
    if AlikeButBlanks(a, b) {
      assert forall i | 0 <= i < |a| :: x[i] == y[i];
    }
  }

  lemma Framed(front: string, a: string, b: string, back: string)
    ensures front + a + back == front + b + back <==> a == b
  {
    if front + a + back == front + b + back {
      assert (front + a + back)[|front|..|front| + |a|] == a;
      assert (front + b + back)[|front|..|front| + |b|] == b;
    }
  }

  /** Two suites share a log file exactly when their names differ in blanks and underscores only. */
  lemma LogNamesDiffer(base: Word, a: Word, b: Word)
    ensures LogName(base, a) == LogName(base, b) <==> AlikeButBlanks(Spelled(a), Spelled(b))
    ensures Spelled(base) + "_" <= Spelled(LogName(base, a))
  {
    var front, x, y := Spelled(base) + "_", Underscored(Spelled(a)), Underscored(Spelled(b));
    assert Spelled(base) + "_" + (x + ".log") == front + x + ".log";
    assert Spelled(base) + "_" + (y + ".log") == front + y + ".log";
    Framed(front, x, y, ".log");
    UnderscoredAlike(Spelled(a), Spelled(b));
  }

  /** Suites at different positions never share an XML file. */
  lemma XmlNamesDiffer(base: Word, p: string, q: string)
    ensures XmlName(base, p) == XmlName(base, q) <==> p == q
    ensures Spelled(base) + "_" <= Spelled(XmlName(base, p))
  {
    var front := Spelled(base) + "_";
    assert front + p + "" == front + p && front + q + "" == front + q;
    Framed(front, p, q, "");
  }

  // ---------------------------------------------------------------- meaning

  /** The settings without the choice of suites and with the suite's own log file. */
  function Twin(c: Config, log: Word): Config {
    c.(suites := [], excluded := [], logFile := if c.logFile.Some? then Some(log) else None)
  }

  /** What the child is meant to run with. */
  function Wanted(c: Config, log: Word, xml: Word, suite: Word): Config {
    Twin(c, log).(suites := [suite], xmlFile := xml, xmlEnabled := true)
  }

  /** No value that the rewriter passes through is itself touchy. */
  predicate Harmless(args: seq<Word>)
    decreases |args|
  {
    |args| < 2 ||
    (if TakesValue(args[0]) then (!Touchy(args[0]) ==> !Touchy(args[1])) && Harmless(args[2..])
     else Harmless(args[1..]))
  }

  lemma {:induction false} LogFileStays(args: seq<Word>, c: Config, opens: Word -> bool)
    requires c.logFile.Some? && ParseAll(args, c, opens).Some?
    ensures ParseAll(args, c, opens).value.logFile.Some?
    decreases |args|
  {
    if args != [] {
      LogFileStays(args[Arity(args)..], Effect(args[0].name, ValueOf(args), c), opens);
    }
  }

  /** The parser reads a line option by option from the front. */
  lemma ParseFlag(name: Name, back: seq<Word>, c: Config, opens: Word -> bool)
    requires !TakesValue(Opt(name)) && !Stops(name)
    ensures ParseAll([Opt(name)] + back, c, opens) == ParseAll(back, Effect(name, Text(""), c), opens)
  {
    var args := [Opt(name)] + back;
    assert args[1..] == back;
  }

  lemma ParseOption(name: Name, value: Word, back: seq<Word>, c: Config, opens: Word -> bool)
    requires TakesValue(Opt(name)) && !Stops(name) && (name == LogFile ==> opens(value))
    ensures ParseAll([Opt(name), value] + back, c, opens) == ParseAll(back, Effect(name, value, c), opens)
  {
    var args := [Opt(name), value] + back;
    assert args[2..] == back;
  }

  lemma Prepended(front: seq<Word>, middle: seq<Word>, back: seq<Word>)
    ensures (front + middle) + back == front + (middle + back)
  {
  }

  /** What the rewriter makes of one option with its value. */
  function Kept(name: Name, value: Word, log: Word): seq<Word> {
    if name == LogFile then [Opt(name), log]
    else if name == Suite || name == ExcludeSuite then []
    else if TakesValue(Opt(name)) then [Opt(name), value]
    else [Opt(name)]
  }

  /** On a harmless line the rewriter keeps step with the parser. */
  lemma RewriteStep(args: seq<Word>, log: Word)
    requires args != [] && args[0].Opt? && Arity(args) <= |args| && Harmless(args)
    ensures
      var n := Arity(args);
      var rest := Rewritten(args[n..], log);
      && Harmless(args[n..])
      && (rest.Some? ==> Rewritten(args, log) == Some(Kept(args[0].name, ValueOf(args), log) + rest.value))
  {
    if TakesValue(args[0]) && !Touchy(args[0]) && Rewritten(args[2..], log).Some? {
      var tail := args[1..];
      assert tail[0] == args[1] && tail[1..] == args[2..];
      assert Rewritten(tail, log) == Some([args[1]] + Rewritten(args[2..], log).value);
      Prepended([args[0]], [args[1]], Rewritten(args[2..], log).value);
      assert [args[0]] + [args[1]] == [args[0], args[1]];
    }
  }

  /** An option acts on the twin as on the original, the suite choices and the log file aside. */
  lemma TwinChoice(name: Name, value: Word, c: Config, log: Word)
    requires name == Suite || name == ExcludeSuite
    ensures Twin(Effect(name, value, c), log) == Twin(c, log)
  {
  }

  lemma TwinLog(value: Word, c: Config, log: Word)
    ensures Twin(Effect(LogFile, value, c), log) == Effect(LogFile, log, Twin(c, log))
  {
  }

  lemma TwinEffect(name: Name, value: Word, c: Config, log: Word)
    requires name != Suite && name != ExcludeSuite && name != LogFile
    ensures Twin(Effect(name, value, c), log) == Effect(name, value, Twin(c, log))
  {
  }

  lemma KeptParses(name: Name, value: Word, back: seq<Word>, c: Config, log: Word, opens: Word -> bool)
    requires !Stops(name) && (name == LogFile ==> opens(log))
    requires !TakesValue(Opt(name)) ==> value == Text("")
    ensures ParseAll(Kept(name, value, log) + back, Twin(c, log), opens) ==
            ParseAll(back, Twin(Effect(name, value, c), log), opens)
  {
    if name == Suite || name == ExcludeSuite {
      TwinChoice(name, value, c, log);
      assert Kept(name, value, log) + back == back;
    } else if name == LogFile {
      TwinLog(value, c, log);
      ParseOption(name, log, back, Twin(c, log), opens);
    } else {
      TwinEffect(name, value, c, log);
      if TakesValue(Opt(name)) {
        ParseOption(name, value, back, Twin(c, log), opens);
      } else {
        ParseFlag(name, back, Twin(c, log), opens);
      }
    }
  }

  lemma {:induction false} RewrittenParses(args: seq<Word>, c: Config, log: Word, back: seq<Word>, opens: Word -> bool)
    requires ParseAll(args, c, opens).Some? && Harmless(args)
    requires ParseAll(args, c, opens).value.logFile.Some? ==> opens(log)
    ensures Rewritten(args, log).Some?
    ensures ParseAll(Rewritten(args, log).value + back, Twin(c, log), opens) ==
            ParseAll(back, Twin(ParseAll(args, c, opens).value, log), opens)
    decreases |args|
  {
    if args == [] {
      assert [] + back == back;
    } else {
      var name, value, rest := args[0].name, ValueOf(args), args[Arity(args)..];
      var c' := Effect(name, value, c);
      if name == LogFile {
        LogFileStays(rest, c', opens);
      }
      RewriteStep(args, log);
      RewrittenParses(rest, c', log, back, opens);
      var kept := Rewritten(rest, log).value;
      KeptParses(name, value, kept + back, c, log, opens);
      Prepended(Kept(name, value, log), kept, back);
    }
  }

  function FileAndSuite(xml: Word, suite: Word): seq<Word> { [Opt(XmlFile), xml] + ([Opt(Suite), suite] + []) }

  lemma FileAndSuiteParses(c: Config, xml: Word, suite: Word, opens: Word -> bool)
    ensures ParseAll(FileAndSuite(xml, suite), c, opens) ==
            Some(c.(xmlEnabled := true, xmlFile := xml, suites := c.suites + [suite]))
  {
    ParseOption(XmlFile, xml, [Opt(Suite), suite] + [], c, opens);
    ParseOption(Suite, suite, [], Effect(XmlFile, xml, c), opens);
  }

  lemma AppendedParses(c: Config, xml: Word, suite: Word, opens: Word -> bool)
    ensures ParseAll(Appended(xml, suite), c, opens) ==
            Some(c.(xmlEnabled := true, xmlFile := xml, suites := c.suites + [suite]))
  {
    assert Appended(xml, suite) == [Opt(Xml)] + FileAndSuite(xml, suite);
    ParseFlag(Xml, FileAndSuite(xml, suite), c, opens);
    FileAndSuiteParses(Effect(Xml, Text(""), c), xml, suite, opens);
  }

  /** What the child makes of its command line. */
  function ChildConfig(args: seq<Word>, log: Word, xml: Word, suite: Word, opens: Word -> bool): Option<Config>
    requires Rewritten(args, log).Some?
  {
    ParseAll(Rewritten(args, log).value + Appended(xml, suite), DEFAULT, opens)
  }

  /** The log file of a suite, when the parent has one. */
  function SuiteLog(parent: Config, suite: Word): Word {
    if parent.logFile.Some? then LogName(parent.logFile.value, suite) else Text("")
  }

  /** Main result: for every accepted parent line whose passed-through values are not touchy, the
      child runs with the parent's settings, its own suite, XML file and (if there is one) log file. */
  lemma ChildRunsAsWanted(args: seq<Word>, parent: Config, suite: Word, position: string, opens: Word -> bool)
    requires ParseAll(args, DEFAULT, opens) == Some(parent) && Harmless(args)
    requires parent.logFile.Some? ==> opens(SuiteLog(parent, suite))
    ensures Rewritten(args, SuiteLog(parent, suite)).Some?
    ensures ChildConfig(args, SuiteLog(parent, suite), XmlName(parent.xmlFile, position), suite, opens) ==
            Some(Wanted(parent, SuiteLog(parent, suite), XmlName(parent.xmlFile, position), suite))
  {
    HarmlessChild(args, parent, SuiteLog(parent, suite), XmlName(parent.xmlFile, position), suite, opens);
  }

  lemma HarmlessChild(args: seq<Word>, parent: Config, log: Word, xml: Word, suite: Word, opens: Word -> bool)
    requires ParseAll(args, DEFAULT, opens) == Some(parent) && Harmless(args)
    requires parent.logFile.Some? ==> opens(log)
    ensures Rewritten(args, log).Some?
    ensures ChildConfig(args, log, xml, suite, opens) == Some(Wanted(parent, log, xml, suite))
  {
    assert Twin(DEFAULT, log) == DEFAULT;
    RewrittenParses(args, DEFAULT, log, Appended(xml, suite), opens);
    AppendedParses(Twin(parent, log), xml, suite, opens);
    assert Twin(parent, log).suites + [suite] == [suite];
  }

  // ---------------------------------------------------------------- touchy values

  predicate AnyLog(w: Word) { true }

  /** The options whose value the rewriter passes through: the test, the tags, the numbers and the
      directories. */
  predicate Passing(name: Name) { TakesValue(Opt(name)) && !Touchy(Opt(name)) && !Stops(name) }

  /** A parallel line that gives `v` to the option `o`. */
  function Given(o: Name, v: Word, back: seq<Word>): seq<Word> { [Opt(Parallel)] + ([Opt(o), v] + back) }

  function Named(o: Name, v: Word): Config { Effect(o, v, Effect(Parallel, Text(""), DEFAULT)) }

  lemma GivenParses(o: Name, v: Word, back: seq<Word>)
    requires Passing(o)
    ensures ParseAll(Given(o, v, back), DEFAULT, AnyLog) == ParseAll(back, Named(o, v), AnyLog)
  {
    ParseFlag(Parallel, [Opt(o), v] + back, DEFAULT, AnyLog);
    ParseOption(o, v, back, Effect(Parallel, Text(""), DEFAULT), AnyLog);
  }

  lemma GivenRewritten(o: Name, v: Word, back: seq<Word>, log: Word)
    requires Passing(o) && Touchy(v) && back != [] && Rewritten(back[1..], log).Some?
    ensures Rewritten(Given(o, v, back), log) ==
            Some([Opt(Parallel)] + ([Opt(o)] + (Piece([v] + back, log) + Rewritten(back[1..], log).value)))
  {
    RewrittenTouchy(v, back, log);
    RewrittenFlag(o, [v] + back, log);
    RewrittenFlag(Parallel, [Opt(o)] + ([v] + back), log);
    assert [Opt(o), v] + back == [Opt(o)] + ([v] + back);
  }

  lemma RewrittenTouchy(v: Word, back: seq<Word>, log: Word)
    requires Touchy(v) && back != [] && Rewritten(back[1..], log).Some?
    ensures Rewritten([v] + back, log) == Some(Piece([v] + back, log) + Rewritten(back[1..], log).value)
  {
    assert ([v] + back)[2..] == back[1..];
  }

  lemma RewrittenFlag(name: Name, back: seq<Word>, log: Word)
    requires !Touchy(Opt(name)) && Rewritten(back, log).Some?
    ensures Rewritten([Opt(name)] + back, log) == Some([Opt(name)] + Rewritten(back, log).value)
  {
    var line := [Opt(name)] + back;
    assert line[1..] == back;
  }

  /** The child of an accepted line that gives `v` to `o` does not run as wanted. */
  ghost predicate Misled(o: Name, v: Word, back: seq<Word>, log: Word, xml: Word, suite: Word) {
    var line := Given(o, v, back);
    var parent := ParseAll(line, DEFAULT, AnyLog);
    && parent.Some? && Rewritten(line, log).Some?
    && ChildConfig(line, log, xml, suite, AnyLog) != Some(Wanted(parent.value, log, xml, suite))
  }

  /** What the rewriter makes of a touchy value and what is behind it. */
  function ChildLine(o: Name, v: Word, back: seq<Word>, log: Word): seq<Word>
    requires Touchy(v) && back != [] && Rewritten(back[1..], log).Some?
  {
    [Opt(o)] + (Piece([v] + back, log) + Rewritten(back[1..], log).value)
  }

  lemma GivenChild(o: Name, v: Word, back: seq<Word>, log: Word, xml: Word, suite: Word, w: Word, tail: seq<Word>)
    requires Passing(o) && Touchy(v) && back != [] && Rewritten(back[1..], log).Some?
    requires ChildLine(o, v, back, log) + Appended(xml, suite) == [Opt(o), w] + tail
    ensures Rewritten(Given(o, v, back), log).Some?
    ensures Rewritten(Given(o, v, back), log).value + Appended(xml, suite) == Given(o, w, tail)
  {
    GivenRewritten(o, v, back, log);
    Prepended([Opt(Parallel)], ChildLine(o, v, back, log), Appended(xml, suite));
  }

  /** The child's line reads as a line that gives `w` to `o`. */
  lemma MisledBy(o: Name, v: Word, back: seq<Word>, log: Word, xml: Word, suite: Word, w: Word, tail: seq<Word>,
                 parent: Config)
    requires Passing(o) && Touchy(v) && back != [] && Rewritten(back[1..], log).Some?
    requires ParseAll(back, Named(o, v), AnyLog) == Some(parent)
    requires ChildLine(o, v, back, log) + Appended(xml, suite) == [Opt(o), w] + tail
    requires ParseAll(tail, Named(o, w), AnyLog) != Some(Wanted(parent, log, xml, suite))
    ensures Misled(o, v, back, log, xml, suite)
  {
    GivenParses(o, v, back);
    GivenChild(o, v, back, log, xml, suite, w, tail);
    GivenParses(o, w, tail);
  }

  lemma AllParses(c: Config)
    ensures ParseAll([Opt(All)], c, AnyLog) == Some(Effect(All, Text(""), c))
  {
    assert [Opt(All)] == [Opt(All)] + [];
    ParseFlag(All, [], c, AnyLog);
  }

  /** A value passed through leaves the suites, and whether skipped tests run, alone. */
  lemma NamedSettings(o: Name, v: Word)
    requires Passing(o)
    ensures Named(o, v).suites == [] && !Named(o, v).others.runSkipped
  {
  }

  lemma ChildLineOfSuite(o: Name, v: Word, log: Word, xml: Word, suite: Word)
    requires v == Opt(Suite) || v == Opt(ExcludeSuite)
    ensures [Opt(All)][1..] == [] && Rewritten([Opt(All)][1..], log).Some?
    ensures ChildLine(o, v, [Opt(All)], log) + Appended(xml, suite) == [Opt(o), Opt(Xml)] + FileAndSuite(xml, suite)
  {
    assert [Opt(All)][1..] == [];
  }

  /** A value "--suite" or "--exclude-suite" vanishes with the word behind it. */
  lemma SuiteAsValueMisleads(o: Name, v: Word, log: Word, xml: Word, suite: Word)
    requires Passing(o) && (v == Opt(Suite) || v == Opt(ExcludeSuite))
    ensures Misled(o, v, [Opt(All)], log, xml, suite)
  {
    AllParses(Named(o, v));
    FileAndSuiteParses(Named(o, Opt(Xml)), xml, suite, AnyLog);
    NamedSettings(o, Opt(Xml));
    var parent := Effect(All, Text(""), Named(o, v));
    assert Wanted(parent, log, xml, suite).others.runSkipped;
    ChildLineOfSuite(o, v, log, xml, suite);
    MisledBy(o, v, [Opt(All)], log, xml, suite, Opt(Xml), FileAndSuite(xml, suite), parent);
  }

  lemma ChildLineOfLogFile(o: Name, log: Word, xml: Word, suite: Word)
    ensures [Opt(All)][1..] == [] && Rewritten([Opt(All)][1..], log).Some?
    ensures ChildLine(o, Opt(LogFile), [Opt(All)], log) + Appended(xml, suite) ==
            [Opt(o), Opt(LogFile)] + ([log] + Appended(xml, suite))
  {
    assert [Opt(All)][1..] == [];
  }

  /** A value "--log-file" has the word behind it replaced by a file name. */
  lemma LogFileAsValueMisleads(o: Name, log: Word, xml: Word, suite: Word)
    requires Passing(o) && log.Text?
    ensures Misled(o, Opt(LogFile), [Opt(All)], log, xml, suite)
  {
    var v := Opt(LogFile);
    AllParses(Named(o, v));
    ChildLineOfLogFile(o, log, xml, suite);
    MisledBy(o, v, [Opt(All)], log, xml, suite, v, [log] + Appended(xml, suite), Effect(All, Text(""), Named(o, v)));
  }

  lemma ChildLineOfXmlFile(o: Name, other: Word, log: Word, xml: Word, suite: Word)
    requires !Touchy(other)
    ensures Rewritten([Opt(Suite), other][1..], log).Some?
    ensures ChildLine(o, Opt(XmlFile), [Opt(Suite), other], log) + Appended(xml, suite) ==
            [Opt(o), Opt(XmlFile)] + ([Opt(Suite), other] + Appended(xml, suite))
  {
    LoneWord(other, log);
    assert [Opt(Suite), other][1..] == [other];
  }

  /** A value "--xml-file" shields a "--suite" behind it from removal. */
  lemma XmlFileAsValueMisleads(o: Name, other: Word, log: Word, xml: Word, suite: Word)
    requires Passing(o) && !Touchy(other)
    ensures Misled(o, Opt(XmlFile), [Opt(Suite), other], log, xml, suite)
  {
    var v, back := Opt(XmlFile), [Opt(Suite), other];
    NamedSettings(o, v);
    ShieldedSuite(other, xml, suite, Named(o, v));
    ChildLineOfXmlFile(o, other, log, xml, suite);
    MisledBy(o, v, back, log, xml, suite, v, back + Appended(xml, suite), Effect(Suite, other, Named(o, v)));
  }

  lemma ShieldedSuite(other: Word, xml: Word, suite: Word, c: Config)
    requires c.suites == []
    ensures
      var child := ParseAll([Opt(Suite), other] + Appended(xml, suite), c, AnyLog);
      child.Some? && |child.value.suites| == 2
    ensures ParseAll([Opt(Suite), other], c, AnyLog) == Some(Effect(Suite, other, c))
  {
    ParseOption(Suite, other, Appended(xml, suite), c, AnyLog);
    AppendedParses(Effect(Suite, other, c), xml, suite, AnyLog);
    assert [Opt(Suite), other] == [Opt(Suite), other] + [];
    ParseOption(Suite, other, [], c, AnyLog);
  }

  lemma LoneWord(w: Word, log: Word)
    requires !Touchy(w)
    ensures Rewritten([w], log) == Some([w])
  {
    assert [w][1..] == [] && [w] + [] == [w];
  }

  /** The condition is exact option by option and word by word: behind any option whose value is passed
      through, a value is safe in all lines that are otherwise harmless exactly when it is not touchy. */
  lemma TouchyIsExact(o: Name, v: Word, log: Word, xml: Word, suite: Word)
    requires Passing(o) && log.Text?
    ensures (exists back: seq<Word> :: Harmless(back) && Misled(o, v, back, log, xml, suite)) <==> Touchy(v)
  {
    if Touchy(v) {
      if v == Opt(LogFile) {
        LogFileAsValueMisleads(o, log, xml, suite);
        assert Harmless([Opt(All)]);
      } else if v == Opt(XmlFile) {
        XmlFileAsValueMisleads(o, Text("Other"), log, xml, suite);
        HarmlessPair();
      } else {
        SuiteAsValueMisleads(o, v, log, xml, suite);
        assert Harmless([Opt(All)]);
      }
    } else {
      forall back: seq<Word> | Harmless(back) ensures !Misled(o, v, back, log, xml, suite) {
        SafeValue(o, v, back, log, xml, suite);
      }
    }
  }

  lemma HarmlessPair()
    ensures Harmless([Opt(Suite), Text("Other")])
  {
    assert [Opt(Suite), Text("Other")][2..] == [];
  }

  lemma SafeValue(o: Name, v: Word, back: seq<Word>, log: Word, xml: Word, suite: Word)
    requires Passing(o) && !Touchy(v) && Harmless(back)
    ensures !Misled(o, v, back, log, xml, suite)
  {
    var line := Given(o, v, back);
    assert Harmless(line) by {
      assert line[1..] == [Opt(o), v] + back && line[1..][2..] == back;
    }
    var parent := ParseAll(line, DEFAULT, AnyLog);
    if parent.Some? {
      HarmlessChild(line, parent.value, log, xml, suite, AnyLog);
    }
  }

  // ---------------------------------------------------------------- the vector

  /** One turn of the rewriting loop: what is written for the word at `i`, and where it goes on. */
  method RewriteWord(origin: seq<Word>, i: nat, log: Word) returns (piece: seq<Word>, next: nat)
    requires i < |origin| && (Touchy(origin[i]) ==> i + 1 < |origin|)
    ensures piece == Piece(origin[i..], log)
    ensures next == (if Touchy(origin[i]) then i + 2 else i + 1) && i < next <= |origin|
  {
    next := i;
    if origin[i] == Opt(LogFile) {
      piece := [origin[i], log];
      next := next + 1;
    } else if origin[i] == Opt(XmlFile) {
      piece := [origin[i], origin[i + 1]];
      next := next + 1;
    } else if origin[i] == Opt(Suite) || origin[i] == Opt(ExcludeSuite) {
      piece := [];
      next := next + 1;
    } else {
      piece := [origin[i]];
    }
    next := next + 1;
  }

  method RewriteArguments(origin: seq<Word>, log: Word) returns (words: seq<Word>)
    requires origin != [] && Rewritten(origin[1..], log).Some?
    ensures Rewritten(origin[1..], log) == Some(words)
  {
    words := [];
    var i := 1;
    assert [] + Rewritten(origin[1..], log).value == Rewritten(origin[1..], log).value;
    while i < |origin|
      invariant 1 <= i <= |origin|
      invariant Pending(words, origin[i..], log) == Rewritten(origin[1..], log)
    {
      Unread(origin, i);
      NextWord(words, origin[i..], log);
      var piece, next := RewriteWord(origin, i, log);
      words, i := words + piece, next;
    }
    assert words + [] == words;
  }

  /** `prepare_child_arguments`: the child's vector and its NULL fit into origin_argc + 10 places. */
  method PrepareChildArguments(origin: seq<Word>, log: Word, xml: Word, suite: Word)
    returns (argv: array<Option<Word>>, argc: nat)
    requires origin != [] && Rewritten(origin[1..], log).Some?
    ensures argv.Length == |origin| + 10 && argc < |origin| + 6
    ensures argv[argc] == None
    ensures
      var words := [origin[0]] + Rewritten(origin[1..], log).value + Appended(xml, suite);
      argc == |words| && forall k | 0 <= k < argc :: argv[k] == Some(words[k])
  {
    var words := RewriteArguments(origin, log);
    argv, argc := Vector([origin[0]] + words + Appended(xml, suite), |origin| + 10);
  }

  /** The finished words and those still to be rewritten. */
  function Pending(words: seq<Word>, todo: seq<Word>, log: Word): Option<seq<Word>> {
    var rest := Rewritten(todo, log);
    if rest.None? then None else Some(words + rest.value)
  }

  lemma NextWord(words: seq<Word>, todo: seq<Word>, log: Word)
    requires todo != [] && Pending(words, todo, log).Some?
    ensures Touchy(todo[0]) ==> |todo| >= 2
    ensures Pending(words + Piece(todo, log), todo[if Touchy(todo[0]) then 2 else 1..], log) == Pending(words, todo, log)
    ensures words + [] == words
  {
    var rest := Rewritten(todo[if Touchy(todo[0]) then 2 else 1..], log);
    Prepended(words, Piece(todo, log), rest.value);
  }

  lemma Unread(origin: seq<Word>, i: nat)
    requires i < |origin|
    ensures origin[i..][0] == origin[i] && origin[i..][1..] == origin[i + 1..]
    ensures i + 1 < |origin| ==> origin[i..][1] == origin[i + 1] && origin[i..][2..] == origin[i + 2..]
  {
  }

  /** The words in an array of the given size, terminated by NULL. */
  method Vector(words: seq<Word>, size: nat) returns (argv: array<Option<Word>>, argc: nat)
    requires |words| < size
    ensures argv.Length == size && argc == |words| && argv[argc] == None
    ensures forall k | 0 <= k < argc :: argv[k] == Some(words[k])
  {
    argv := new Option<Word>[size](_ => None);
    argc := |words|;
    for k := 0 to argc
      invariant forall j | 0 <= j < k :: argv[j] == Some(words[j])
      invariant forall j | k <= j < argv.Length :: argv[j] == None
    {
      argv[k] := Some(words[k]);
    }
  }
}
