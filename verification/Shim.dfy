/** The command and bind printer of the batch script, and the development shim that parses them back. */
module Shim {
  import opened Names

  /** A bind of the job: a source path as the scheduler sees it, a destination in the container, and the mode. */
  datatype Bind = Bind(source: string, destination: string, readOnly: bool)

  /** What the shim reads off a command line. */
  datatype Parsed = Parsed(descriptor: string, binds: seq<string>, workingDirectory: string, command: seq<string>)

  // ---------- tokens ----------

  function Mode(readOnly: bool): string {
    if readOnly then "ro" else "rw"
  }

  function BindToken(b: Bind): string {
    b.source + ":" + b.destination + ":" + Mode(b.readOnly)
  }

  function BindTokens(binds: seq<Bind>): seq<string> {
    seq(|binds|, i requires 0 <= i < |binds| => BindToken(binds[i]))
  }

  function BindOptions(tokens: seq<string>): seq<string> {
    if tokens == [] then [] else BindOptions(tokens[..|tokens| - 1]) + ["--bind", tokens[|tokens| - 1]]
  }

  /** The fixed options, up to the working directory. */
  function Prelude(workingDirectory: string): seq<string> {
    ["exec", "--containall", "--cleanenv", "--net", "--network", "none", "--no-home", "--pwd", workingDirectory]
  }

  /** The arguments of the container runtime, without its own name. */
  function Tokens(p: Parsed): seq<string> {
    Prelude(p.workingDirectory) + BindOptions(p.binds) + [p.descriptor] + p.command
  }

  /** What the renderer demands of the image: absolute, `file://` or `oras://`. */
  predicate ImageNamed(image: string) {
    "/" <= image || "file://" <= image || "oras://" <= image
  }

  /** The token list of `render_apptainer_job`, without node-local staging. */
  method RenderCommand(image: string, entrypoint: seq<string>, arguments: seq<string>, binds: seq<Bind>,
      workingDirectory: string)
      returns (tokens: seq<string>)
    requires ImageNamed(image) && entrypoint != []
    ensures tokens == Tokens(Parsed(image, BindTokens(binds), workingDirectory, entrypoint + arguments))
    ensures Parse(tokens) == Some(Parsed(image, BindTokens(binds), workingDirectory, entrypoint + arguments))
    ensures |tokens| >= 9 && tokens[..9] ==
      ["exec", "--containall", "--cleanenv", "--net", "--network", "none", "--no-home", "--pwd", workingDirectory]
  {
    tokens := Prelude(workingDirectory);
    for i := 0 to |binds|
      invariant tokens == Prelude(workingDirectory) + BindOptions(BindTokens(binds[..i]))
    {
      assert BindTokens(binds[..i + 1])[..i] == BindTokens(binds[..i]);
      tokens := tokens + ["--bind", BindToken(binds[i])];
    }
    assert binds[..|binds|] == binds;
    tokens := tokens + [image] + entrypoint;
    tokens := tokens + arguments;
    var p := Parsed(image, BindTokens(binds), workingDirectory, entrypoint + arguments);
    assert tokens == Tokens(p);
    ParseUndoesTokens(p);
  }

  // ---------- parsing ----------

  predicate NoValue(token: string) {
    token == "--containall" || token == "--cleanenv" || token == "--net" || token == "--no-home"
  }

  predicate TakesValue(token: string) {
    token == "--network" || token == "--pwd" || token == "--bind"
  }

  predicate Dashed(token: string) {
    token != "" && token[0] == '-'
  }

  /** The options read so far: the binds, the working directory and the network. */
  datatype Options = Options(binds: seq<string>, workingDirectory: string, network: Option<string>)

  function WithOption(o: Options, token: string, value: string): Options {
    if token == "--network"
      then o.(network := Some(value))
      else if token == "--pwd" then o.(workingDirectory := value) else o.(binds := o.binds + [value])
  }

  /** The option loop: None for a missing value or an unknown option, otherwise what was read and what is left. */
  function ParseOptions(argv: seq<string>, o: Options): Option<(Options, seq<string>)> {
    if argv == [] then Some((o, argv))
    else if NoValue(argv[0]) then ParseOptions(argv[1..], o)
    else if TakesValue(argv[0])
      then (if |argv| == 1 then None else ParseOptions(argv[2..], WithOption(o, argv[0], argv[1])))
    else if Dashed(argv[0]) then None
    else Some((o, argv))
  }

  function Parse(argv: seq<string>): Option<Parsed> {
    if argv == [] || argv[0] != "exec" then None
    else match ParseOptions(argv[1..], Options([], "/work", None))
      case None => None
      case Some((o, rest)) =>
        if o.network != Some("none") || |rest| < 2
          then None
          else Some(Parsed(rest[0], o.binds, o.workingDirectory, rest[1..]))
  }

  /** `_parse_command`, popping tokens off the front. */
  method ParseCommand(arguments: seq<string>) returns (parsed: Option<Parsed>)
    ensures parsed == Parse(arguments)
  {
    if arguments == [] || arguments[0] != "exec" {
      return None;
    }
    var argv := arguments[1..];
    var o := Options([], "/work", None);
    while argv != []
      invariant ParseOptions(argv, o) == ParseOptions(arguments[1..], Options([], "/work", None))
      decreases |argv|
    {
      var token := argv[0];
      if NoValue(token) {
        argv := argv[1..];
        continue;
      }
      if TakesValue(token) {
        if |argv| == 1 {
          return None;
        }
        var value := argv[1];
        if token == "--network" {
          o := o.(network := Some(value));
        } else if token == "--pwd" {
          o := o.(workingDirectory := value);
        } else {
          o := o.(binds := o.binds + [value]);
        }
        argv := argv[2..];
        continue;
      }
      if Dashed(token) {
        return None;
      }
      break;
    }
    if o.network != Some("none") || argv == [] {
      return None;
    }
    var descriptor := argv[0];
    if |argv| == 1 {
      return None;
    }
    return Some(Parsed(descriptor, o.binds, o.workingDirectory, argv[1..]));
  }

  // ---------- printing and parsing undo each other ----------

  predicate Printable(p: Parsed) {
    !Dashed(p.descriptor) && p.command != []
  }

  lemma {:induction false} BindsParse(tokens: seq<string>, rest: seq<string>, o: Options)
    ensures ParseOptions(BindOptions(tokens) + rest, o) == ParseOptions(rest, o.(binds := o.binds + tokens))
    decreases |tokens|
  {
    if tokens == [] {
      assert BindOptions(tokens) + rest == rest && o.binds + tokens == o.binds;
    } else {
      var init, last := tokens[..|tokens| - 1], tokens[|tokens| - 1];
      var more := ["--bind", last] + rest;
      assert BindOptions(tokens) + rest == BindOptions(init) + more;
      BindsParse(init, more, o);
      assert more[0] == "--bind" && more[1] == last && more[2..] == rest;
      assert (o.binds + init) + [last] == o.binds + tokens;
    }
  }

  lemma PreludeParses(workingDirectory: string, rest: seq<string>, o: Options)
    ensures ParseOptions(Prelude(workingDirectory)[1..] + rest, o) ==
      ParseOptions(rest, o.(workingDirectory := workingDirectory, network := Some("none")))
  {
    var t := Prelude(workingDirectory)[1..] + rest;
    assert t[8..] == rest;
    PreludeFlags(t, o);
  }

  /** The first six tokens of the prelude, one option at a time. */
  lemma PreludeFlags(t: seq<string>, o: Options)
    requires |t| >= 8 && t[0] == "--containall" && t[1] == "--cleanenv" && t[2] == "--net"
      && t[3] == "--network" && t[4] == "none" && t[5] == "--no-home" && t[6] == "--pwd"
    ensures ParseOptions(t, o) == ParseOptions(t[8..], o.(workingDirectory := t[7], network := Some("none")))
  {
    var n := o.(network := Some("none"));
    assert ParseOptions(t, o) == ParseOptions(t[1..], o);
    assert t[1..][1..] == t[2..];
    assert ParseOptions(t[1..], o) == ParseOptions(t[2..], o);
    assert t[2..][1..] == t[3..];
    assert ParseOptions(t[2..], o) == ParseOptions(t[3..], o);
    assert t[3..][2..] == t[5..];
    assert ParseOptions(t[3..], o) == ParseOptions(t[5..], n);
    assert t[5..][1..] == t[6..];
    assert ParseOptions(t[5..], n) == ParseOptions(t[6..], n);
    assert t[6..][2..] == t[8..];
  }

  /** Parsing the printed tokens gives back the image, the working directory, the command, and the binds in order. */
  lemma ParseUndoesTokens(p: Parsed)
    requires Printable(p)
    ensures Parse(Tokens(p)) == Some(p)
  {
    var start := Options([], "/work", None);
    var tail := [p.descriptor] + p.command;
    var rest := BindOptions(p.binds) + tail;
    var argv := Tokens(p);
    assert argv[1..] == Prelude(p.workingDirectory)[1..] + rest;
    PreludeParses(p.workingDirectory, rest, start);
    var o := start.(workingDirectory := p.workingDirectory, network := Some("none"));
    BindsParse(p.binds, tail, o);
    assert [] + p.binds == p.binds;
    assert tail[0] == p.descriptor && tail[1..] == p.command;
  }

  lemma {:induction false} RestIsUndashed(argv: seq<string>, o: Options)
    ensures ParseOptions(argv, o).Some? ==> var rest := ParseOptions(argv, o).value.1; rest == [] || !Dashed(rest[0])
    decreases |argv|
  {
    if argv != [] {
      if NoValue(argv[0]) {
        RestIsUndashed(argv[1..], o);
      } else if TakesValue(argv[0]) && |argv| > 1 {
        RestIsUndashed(argv[2..], WithOption(o, argv[0], argv[1]));
      }
    }
  }

  /** Whatever the shim accepts, printing what it read and reading that again changes nothing. */
  lemma TokensUndoParse(argv: seq<string>)
    ensures Parse(argv).Some? ==> Printable(Parse(argv).value) && Parse(Tokens(Parse(argv).value)) == Parse(argv)
  {
    if Parse(argv).Some? {
      RestIsUndashed(argv[1..], Options([], "/work", None));
      ParseUndoesTokens(Parse(argv).value);
    }
  }

  // ---------- what the shim accepts ----------

  /** An option as it is written on the command line. */
  datatype Word =
    | ContainAll | CleanEnv | Net | NoHome | Network(name: string) | Pwd(path: string) | BindOf(value: string)

  function Spelled(w: Word): seq<string> {
    match w
    case ContainAll => ["--containall"]
    case CleanEnv => ["--cleanenv"]
    case Net => ["--net"]
    case NoHome => ["--no-home"]
    case Network(name) => ["--network", name]
    case Pwd(path) => ["--pwd", path]
    case BindOf(value) => ["--bind", value]
  }

  function Sentence(words: seq<Word>): seq<string> {
    if words == [] then [] else Spelled(words[0]) + Sentence(words[1..])
  }

  function BindsIn(words: seq<Word>): seq<string> {
    if words == [] then [] else (if words[0].BindOf? then [words[0].value] else []) + BindsIn(words[1..])
  }

  function LastNetwork(words: seq<Word>): Option<string> {
    if words == [] then None
    else if LastNetwork(words[1..]).Some? then LastNetwork(words[1..])
    else if words[0].Network? then Some(words[0].name) else None
  }

  function LastPwd(words: seq<Word>): Option<string> {
    if words == [] then None
    else if LastPwd(words[1..]).Some? then LastPwd(words[1..])
    else if words[0].Pwd? then Some(words[0].path) else None
  }

  /** The options before the words, overridden or extended by them. */
  function AfterWords(words: seq<Word>, o: Options): Options {
    Options(o.binds + BindsIn(words),
      if LastPwd(words).Some? then LastPwd(words).value else o.workingDirectory,
      if LastNetwork(words).Some? then LastNetwork(words) else o.network)
  }

  /** `exec`, options, a descriptor that does not look like an option, and a command; the last network named is none,
    * the last directory named is the working directory, and the binds are those named, in order. */
  ghost predicate Says(argv: seq<string>, words: seq<Word>, p: Parsed) {
    && argv == ["exec"] + Sentence(words) + [p.descriptor] + p.command
    && (p.descriptor == "" || p.descriptor[0] != '-') && p.command != []
    && LastNetwork(words) == Some("none")
    && p.workingDirectory == (if LastPwd(words).Some? then LastPwd(words).value else "/work")
    && p.binds == BindsIn(words)
  }

  lemma AfterOne(w: Word, o: Options)
    ensures AfterWords([w], o) == match w
      case Network(name) => o.(network := Some(name))
      case Pwd(path) => o.(workingDirectory := path)
      case BindOf(value) => o.(binds := o.binds + [value])
      case _ => o
  {
    assert [w][1..] == [] && BindsIn([w]) == (if w.BindOf? then [w.value] else []) && o.binds + [] == o.binds;
    assert LastPwd([w]) == if w.Pwd? then Some(w.path) else None;
    assert LastNetwork([w]) == if w.Network? then Some(w.name) else None;
  }

  lemma WordParses(w: Word, rest: seq<string>, o: Options)
    ensures ParseOptions(Spelled(w) + rest, o) == ParseOptions(rest, AfterWords([w], o))
  {
    hide AfterWords;
    AfterOne(w, o);
    var argv := Spelled(w) + rest;
    assert argv[|Spelled(w)|..] == rest && argv[0] == Spelled(w)[0];
  }

  lemma {:induction false} WordsAfter(w: Word, more: seq<Word>, o: Options)
    ensures AfterWords(more, AfterWords([w], o)) == AfterWords([w] + more, o)
  {
    AfterOne(w, o);
    assert ([w] + more)[1..] == more;
    assert o.binds + BindsIn([w] + more) == (o.binds + if w.BindOf? then [w.value] else []) + BindsIn(more);
  }

  lemma {:induction false} SentenceParses(words: seq<Word>, rest: seq<string>, o: Options)
    requires rest == [] || !Dashed(rest[0])
    ensures ParseOptions(Sentence(words) + rest, o) == Some((AfterWords(words, o), rest))
  {
    if words == [] {
      assert Sentence(words) + rest == rest && o.binds + [] == o.binds;
    } else {
      assert Sentence(words) + rest == Spelled(words[0]) + (Sentence(words[1..]) + rest);
      assert [words[0]] + words[1..] == words;
      WordParses(words[0], Sentence(words[1..]) + rest, o);
      SentenceParses(words[1..], rest, AfterWords([words[0]], o));
      WordsAfter(words[0], words[1..], o);
    }
  }

  /** What the parser takes for an option is the spelling of a word. */
  lemma FirstWord(argv: seq<string>, o: Options) returns (w: Word)
    requires ParseOptions(argv, o).Some? && argv != [] && (NoValue(argv[0]) || TakesValue(argv[0]))
    ensures 1 <= |Spelled(w)| <= |argv| && argv == Spelled(w) + argv[|Spelled(w)|..]
  {
    if NoValue(argv[0]) {
      w := if argv[0] == "--containall" then ContainAll else if argv[0] == "--cleanenv" then CleanEnv
        else if argv[0] == "--net" then Net else NoHome;
      assert Spelled(w) == [argv[0]];
    } else {
      w := if argv[0] == "--network" then Network(argv[1]) else if argv[0] == "--pwd" then Pwd(argv[1])
        else BindOf(argv[1]);
      assert Spelled(w) == [argv[0], argv[1]];
    }
  }

  /** Whatever options were read off are a sentence. */
  lemma {:induction false} OptionsAreWords(argv: seq<string>, o: Options) returns (words: seq<Word>)
    requires ParseOptions(argv, o).Some?
    ensures argv == Sentence(words) + ParseOptions(argv, o).value.1
    decreases |argv|
  {
    words := [];
    if argv != [] && (NoValue(argv[0]) || TakesValue(argv[0])) {
      hide ParseOptions, NoValue, TakesValue, Spelled, AfterWords;
      var w := FirstWord(argv, o);
      var rest := argv[|Spelled(w)|..];
      WordParses(w, rest, o);
      var more := OptionsAreWords(rest, AfterWords([w], o));
      words := [w] + more;
      assert words[1..] == more;
    }
  }

  lemma ParsedSays(argv: seq<string>, p: Parsed)
    requires Parse(argv) == Some(p)
    ensures exists words :: Says(argv, words, p)
  {
    hide ParseOptions, Sentence, BindsIn, LastNetwork, LastPwd;
    var start := Options([], "/work", None);
    RestIsUndashed(argv[1..], start);
    var words := OptionsAreWords(argv[1..], start);
    var rest := ParseOptions(argv[1..], start).value.1;
    SentenceParses(words, rest, start);
    assert [] + BindsIn(words) == BindsIn(words);
    assert argv == ["exec"] + argv[1..] && rest == [p.descriptor] + p.command;
    assert Says(argv, words, p);
  }

  lemma SaidIsParsed(argv: seq<string>, words: seq<Word>, p: Parsed)
    requires Says(argv, words, p)
    ensures Parse(argv) == Some(p)
  {
    hide ParseOptions, Sentence, BindsIn, LastNetwork, LastPwd;
    var rest := [p.descriptor] + p.command;
    assert argv[1..] == Sentence(words) + rest;
    SentenceParses(words, rest, Options([], "/work", None));
    assert [] + BindsIn(words) == BindsIn(words) && rest[1..] == p.command;
  }

  /** What the shim accepts, and what it reads. */
  lemma ParseIff(argv: seq<string>, p: Parsed)
    ensures Parse(argv) == Some(p) <==> exists words :: Says(argv, words, p)
  {
    hide Says, Parse;
    if Parse(argv) == Some(p) {
      ParsedSays(argv, p);
    }
    if words :| Says(argv, words, p) {
      SaidIsParsed(argv, words, p);
    }
  }

  // ---------- paths ----------

  function Split(s: string, c: char): (parts: seq<string>)
    ensures |parts| >= 1
  {
    if s == "" then [""]
    else if s[0] == c then [""] + Split(s[1..], c)
    else var rest := Split(s[1..], c); [[s[0]] + rest[0]] + rest[1..]
  }

  /** Splitting around a separator splits the two sides. */
  lemma {:induction false} SplitBoth(a: string, b: string, c: char)
    ensures Split(a + [c] + b, c) == Split(a, c) + Split(b, c)
  {
    if a == "" {
      assert (a + [c] + b)[1..] == b;
    } else {
      assert (a + [c] + b)[1..] == a[1..] + [c] + b;
      SplitBoth(a[1..], b, c);
    }
  }

  /** A text without separator is one part; a separator makes more. */
  lemma {:induction false} SplitOnce(a: string, c: char)
    ensures if c in a then |Split(a, c)| >= 2 else Split(a, c) == [a]
  {
    if a != "" {
      SplitOnce(a[1..], c);
      assert [a[0]] + a[1..] == a;
    }
  }

  lemma {:induction false} PartsHaveNone(a: string, c: char)
    ensures forall part :: part in Split(a, c) ==> c !in part
  {
    if a != "" {
      PartsHaveNone(a[1..], c);
      var rest := Split(a[1..], c);
      assert rest[0] in rest;
      assert forall part :: part in rest[1..] ==> part in rest;
    }
  }

  function Rejoined(parts: seq<string>, c: char): string
    requires parts != []
  {
    if |parts| == 1 then parts[0] else parts[0] + [c] + Rejoined(parts[1..], c)
  }

  lemma RejoinedGrows(x: char, parts: seq<string>, c: char)
    requires parts != []
    ensures Rejoined([[x] + parts[0]] + parts[1..], c) == [x] + Rejoined(parts, c)
    ensures Rejoined([""] + parts, c) == [c] + Rejoined(parts, c)
  {
    var longer := [[x] + parts[0]] + parts[1..];
    assert longer[1..] == parts[1..] && ([""] + parts)[1..] == parts;
  }

  lemma {:induction false} SplitRejoined(a: string, c: char)
    ensures Rejoined(Split(a, c), c) == a
  {
    if a == "" {
      assert Rejoined([""], c) == "";
    } else {
      SplitRejoined(a[1..], c);
      RejoinedGrows(a[0], Split(a[1..], c), c);
      assert [a[0]] + a[1..] == a;
    }
  }

  type Path = seq<string>

  /** The segments of a POSIX path: empty ones and "." do not count. */
  function Kept(parts: seq<string>): Path {
    if parts == [] then [] else (if parts[0] == "" || parts[0] == "." then [] else [parts[0]]) + Kept(parts[1..])
  }

  function Segments(s: string): Path {
    Kept(Split(s, '/'))
  }

  lemma {:induction false} KeptBoth(a: seq<string>, b: seq<string>)
    ensures Kept(a + b) == Kept(a) + Kept(b)
  {
    if a == [] {
      assert a + b == b;
    } else {
      assert (a + b)[1..] == a[1..] + b;
      KeptBoth(a[1..], b);
    }
  }

  /** The segments of a path are those of what stands on the two sides of a slash. */
  lemma SegmentsBoth(a: string, b: string)
    ensures Segments(a + "/" + b) == Segments(a) + Segments(b)
  {
    SplitBoth(a, b, '/');
    KeptBoth(Split(a, '/'), Split(b, '/'));
  }

  /** What has no slash is one segment, or none if it is empty or a dot. */
  lemma SegmentsOnce(a: string)
    requires '/' !in a
    ensures Segments(a) == if a == "" || a == "." then [] else [a]
  {
    SplitOnce(a, '/');
    assert Kept([]) == [] && [a][1..] == [];
  }

  predicate Absolute(s: string) {
    s != "" && s[0] == '/'
  }

  function Slashed(p: Path): string {
    if p == [] then "" else "/" + p[0] + Slashed(p[1..])
  }

  /** The text of an absolute path. */
  function Text(p: Path): string {
    if p == [] then "/" else Slashed(p)
  }

  /** Segments as a resolved path has them. */
  ghost predicate Normal(p: Path) {
    forall i :: 0 <= i < |p| ==> p[i] != "" && p[i] != "." && p[i] != ".." && '/' !in p[i]
  }

  lemma LeadingSegment(x: string, tail: string)
    requires x != "" && x != "." && '/' !in x && (tail == "" || tail[0] == '/')
    ensures Segments("/" + x + tail) == [x] + Segments(tail)
  {
    hide Segments;
    SegmentsOnce("");
    SegmentsOnce(x);
    SegmentsBoth("", x + tail);
    assert "" + "/" + (x + tail) == "/" + x + tail;
    if tail == "" {
      assert x + tail == x;
    } else {
      var y := tail[1..];
      SegmentsBoth("", y);
      assert "" + "/" + y == tail;
      SegmentsBoth(x, y);
      assert x + "/" + y == x + tail;
    }
  }

  lemma {:induction false} SlashedSegments(p: Path)
    requires Normal(p)
    ensures Segments(Slashed(p)) == p
  {
    hide Segments;
    if p == [] {
      SegmentsOnce("");
    } else {
      assert Normal(p[1..]) by { forall i | 0 <= i < |p[1..]| ensures p[1..][i] == p[i + 1] { } }
      SlashedSegments(p[1..]);
      LeadingSegment(p[0], Slashed(p[1..]));
      assert p == [p[0]] + p[1..];
    }
  }

  lemma TextSegments(p: Path)
    requires Normal(p)
    ensures Segments(Text(p)) == p && Absolute(Text(p))
  {
    if p == [] {
      assert Split("/", '/') == [""] + Split("", '/');
    } else {
      SlashedSegments(p);
    }
  }

  // ---------- binds ----------

  /** `map_shared_path`: the scheduler's name for a path under the shared host directory. */
  function MapSharedPath(path: Path, hostRoot: Path, schedulerRoot: Path): Option<Path> {
    if hostRoot <= path then Some(schedulerRoot + path[|hostRoot|..]) else None
  }

  /** One bind of `_docker_binds`; None stands for the error it raises. */
  function DockerBind(value: string, hostRoot: Path, schedulerRoot: Path, isDirectory: string -> bool): Option<string> {
    var parts := Split(value, ':');
    if |parts| != 3 || (parts[2] != "ro" && parts[2] != "rw") then None else
    var source, destination := Segments(parts[0]), Segments(parts[1]);
    if !Absolute(parts[0]) || !(schedulerRoot <= source) then None else
    var relative := source[|schedulerRoot|..];
    if !Absolute(parts[1]) || ".." in relative || ".." in destination || !isDirectory(parts[0]) then None
    else Some(Text(hostRoot + relative) + ":" + Text(destination) + ":" + parts[2])
  }

  /** Two absolute paths without colons and a mode: the source a directory below the scheduler's root, nowhere going
    * up, translated to the same place below the host's root. */
  ghost predicate Translates(value: string, source: string, destination: string, readOnly: bool, relative: Path,
      hostRoot: Path, schedulerRoot: Path, isDirectory: string -> bool, rendered: string) {
    && value == source + ":" + destination + (if readOnly then ":ro" else ":rw")
    && ':' !in source && ':' !in destination
    && source != "" && source[0] == '/' && destination != "" && destination[0] == '/'
    && Segments(source) == schedulerRoot + relative && ".." !in relative && ".." !in Segments(destination)
    && isDirectory(source)
    && rendered == Text(hostRoot + relative) + ":" + Text(Segments(destination)) + (if readOnly then ":ro" else ":rw")
  }

  /** What the shim mounts for a bind, and that it mounts nothing else. */
  lemma DockerBindIff(value: string, hostRoot: Path, schedulerRoot: Path, isDirectory: string -> bool, rendered: string)
    ensures DockerBind(value, hostRoot, schedulerRoot, isDirectory) == Some(rendered) <==>
      exists source, destination, readOnly, relative ::
        Translates(value, source, destination, readOnly, relative, hostRoot, schedulerRoot, isDirectory, rendered)
  {
    hide Text, Segments, Translates, DockerBind;
    if DockerBind(value, hostRoot, schedulerRoot, isDirectory) == Some(rendered) {
      AcceptedTranslates(value, hostRoot, schedulerRoot, isDirectory, rendered);
    }
    if source, destination, readOnly, relative :|
      Translates(value, source, destination, readOnly, relative, hostRoot, schedulerRoot, isDirectory, rendered)
    {
      TranslatedIsAccepted(value, source, destination, readOnly, relative, hostRoot, schedulerRoot, isDirectory,
        rendered);
    }
  }

  lemma AcceptedTranslates(value: string, hostRoot: Path, schedulerRoot: Path, isDirectory: string -> bool,
      rendered: string)
    requires DockerBind(value, hostRoot, schedulerRoot, isDirectory) == Some(rendered)
    ensures exists source, destination, readOnly, relative ::
      Translates(value, source, destination, readOnly, relative, hostRoot, schedulerRoot, isDirectory, rendered)
  {
    hide Text, Segments, Split;
    var parts := Split(value, ':');
    ThreeParts(value);
    var relative, suffix := Segments(parts[0])[|schedulerRoot|..], if parts[2] == "ro" then ":ro" else ":rw";
    assert Segments(parts[0]) == schedulerRoot + relative;
    assert suffix == ":" + parts[2];
    assert value == parts[0] + ":" + parts[1] + suffix;
    assert rendered == Text(hostRoot + relative) + ":" + Text(Segments(parts[1])) + suffix;
    assert Translates(value, parts[0], parts[1], parts[2] == "ro", relative, hostRoot, schedulerRoot, isDirectory,
      rendered);
  }

  lemma TranslatedIsAccepted(value: string, source: string, destination: string, readOnly: bool, relative: Path,
      hostRoot: Path, schedulerRoot: Path, isDirectory: string -> bool, rendered: string)
    requires Translates(value, source, destination, readOnly, relative, hostRoot, schedulerRoot, isDirectory, rendered)
    ensures DockerBind(value, hostRoot, schedulerRoot, isDirectory) == Some(rendered)
  {
    hide Text, Segments, Split;
    var mode := Mode(readOnly);
    assert ":" + mode == if readOnly then ":ro" else ":rw";
    assert value == BindToken(Bind(source, destination, readOnly));
    TokenParts(Bind(source, destination, readOnly));
    assert Split(value, ':') == [source, destination, mode];
    assert Segments(source)[|schedulerRoot|..] == relative;
    assert rendered == Text(hostRoot + relative) + ":" + Text(Segments(destination)) + ":" + mode;
  }

  lemma ThreeParts(value: string)
    requires |Split(value, ':')| == 3
    ensures var parts := Split(value, ':');
      value == parts[0] + ":" + parts[1] + ":" + parts[2] && ':' !in parts[0] && ':' !in parts[1]
  {
    hide Split;
    var parts := Split(value, ':');
    PartsHaveNone(value, ':');
    assert parts[0] in parts && parts[1] in parts;
    SplitRejoined(value, ':');
    assert parts[1..][1..] == [parts[2]] && parts[1..][0] == parts[1];
    assert Rejoined(parts[1..], ':') == parts[1] + [':'] + Rejoined([parts[2]], ':');
  }

  /** `_docker_binds`, which raises on the first bind it does not accept. */
  method DockerBinds(values: seq<string>, hostRoot: Path, schedulerRoot: Path, isDirectory: string -> bool)
      returns (rendered: Option<seq<string>>)
    ensures rendered.Some? <==>
      forall i :: 0 <= i < |values| ==> DockerBind(values[i], hostRoot, schedulerRoot, isDirectory).Some?
    ensures rendered.Some? ==>
      |rendered.value| == |values|
        && forall i :: 0 <= i < |values| ==>
          DockerBind(values[i], hostRoot, schedulerRoot, isDirectory) == Some(rendered.value[i])
  {
    var done: seq<string> := [];
    for i := 0 to |values|
      invariant |done| == i
        && forall j :: 0 <= j < i ==> DockerBind(values[j], hostRoot, schedulerRoot, isDirectory) == Some(done[j])
    {
      var parts := Split(values[i], ':');
      if |parts| != 3 || (parts[2] != "ro" && parts[2] != "rw") {
        return None;
      }
      var source, destination := Segments(parts[0]), Segments(parts[1]);
      if !Absolute(parts[0]) || !(schedulerRoot <= source) {
        return None;
      }
      var relative := source[|schedulerRoot|..];
      if !Absolute(parts[1]) || ".." in relative || ".." in destination {
        return None;
      }
      if !isDirectory(parts[0]) {
        return None;
      }
      done := done + [Text(hostRoot + relative) + ":" + Text(destination) + ":" + parts[2]];
    }
    return Some(done);
  }

  /** What a job mounts: a host directory, a place in the container, and the mode. */
  datatype Mount = Mount(path: Path, destination: Path, readOnly: bool)

  /** The bind the runner renders for a mount. */
  function MountBind(m: Mount, hostRoot: Path, schedulerRoot: Path): Bind
    requires hostRoot <= m.path
  {
    Bind(Text(MapSharedPath(m.path, hostRoot, schedulerRoot).value), Text(m.destination), m.readOnly)
  }

  /** The renderer and the mapping give paths of this kind: resolved, and a destination without colons. */
  ghost predicate Mountable(m: Mount, hostRoot: Path, schedulerRoot: Path) {
    && hostRoot <= m.path && Normal(m.path) && Normal(schedulerRoot) && Normal(m.destination)
    && ':' !in Text(m.destination)
  }

  lemma TokenParts(b: Bind)
    requires ':' !in b.destination
    ensures Split(BindToken(b), ':') == Split(b.source, ':') + [b.destination, Mode(b.readOnly)]
    ensures ':' !in b.source <==> Split(b.source, ':') == [b.source]
    ensures ':' in b.source ==> |Split(b.source, ':')| >= 2
  {
    assert BindToken(b) == b.source + [':'] + (b.destination + [':'] + Mode(b.readOnly));
    SplitBoth(b.source, b.destination + [':'] + Mode(b.readOnly), ':');
    SplitBoth(b.destination, Mode(b.readOnly), ':');
    SplitOnce(b.source, ':');
    SplitOnce(b.destination, ':');
    SplitOnce(Mode(b.readOnly), ':');
  }

  lemma BindRefused(b: Bind, hostRoot: Path, schedulerRoot: Path, isDirectory: string -> bool)
    requires ':' !in b.destination && (':' in b.source || !isDirectory(b.source))
    ensures DockerBind(BindToken(b), hostRoot, schedulerRoot, isDirectory) == None
  {
    hide BindToken, Segments, Text;
    TokenParts(b);
  }

  /** Mapping a mount to the scheduler, printing it, and reading it in the shim gives the host path, the destination
    * and the mode back, exactly when the source has no colon and is a directory. */
  lemma MountReturns(m: Mount, hostRoot: Path, schedulerRoot: Path, isDirectory: string -> bool)
    requires Mountable(m, hostRoot, schedulerRoot)
    ensures var b := MountBind(m, hostRoot, schedulerRoot);
      DockerBind(BindToken(b), hostRoot, schedulerRoot, isDirectory) ==
      if ':' !in b.source && isDirectory(b.source)
        then Some(Text(m.path) + ":" + Text(m.destination) + (if m.readOnly then ":ro" else ":rw"))
        else None
  {
    hide Text, Segments, DockerBind, BindToken;
    var b := MountBind(m, hostRoot, schedulerRoot);
    if ':' !in b.source && isDirectory(b.source) {
      var relative := m.path[|hostRoot|..];
      MappedIsNormal(m, hostRoot, schedulerRoot);
      TextSegments(schedulerRoot + relative);
      TextSegments(m.destination);
      assert hostRoot + relative == m.path;
      TokenSpelled(b);
      TranslatedIsAccepted(BindToken(b), b.source, b.destination, m.readOnly, relative, hostRoot, schedulerRoot,
        isDirectory, Text(m.path) + ":" + Text(m.destination) + (if m.readOnly then ":ro" else ":rw"));
    } else {
      BindRefused(b, hostRoot, schedulerRoot, isDirectory);
    }
  }

  lemma TokenSpelled(b: Bind)
    ensures BindToken(b) == b.source + ":" + b.destination + (if b.readOnly then ":ro" else ":rw")
  {
    assert ":" + Mode(b.readOnly) == if b.readOnly then ":ro" else ":rw";
  }

  lemma MappedIsNormal(m: Mount, hostRoot: Path, schedulerRoot: Path)
    requires Mountable(m, hostRoot, schedulerRoot)
    ensures Normal(schedulerRoot + m.path[|hostRoot|..]) && ".." !in m.path[|hostRoot|..] && ".." !in m.destination
  {
  }

  ghost function MountBinds(mounts: seq<Mount>, hostRoot: Path, schedulerRoot: Path): seq<Bind>
    requires forall i :: 0 <= i < |mounts| ==> hostRoot <= mounts[i].path
  {
    seq(|mounts|, i requires 0 <= i < |mounts| => MountBind(mounts[i], hostRoot, schedulerRoot))
  }

  /** A rendered job, read by the shim, runs the entrypoint with its arguments in the working directory, with every
    * host directory mounted where and how the job asked, in order. */
  lemma JobRunsAsAsked(image: string, entrypoint: seq<string>, arguments: seq<string>, mounts: seq<Mount>,
      workingDirectory: string, hostRoot: Path, schedulerRoot: Path, isDirectory: string -> bool)
    requires ImageNamed(image) && entrypoint != []
    requires forall i :: 0 <= i < |mounts| ==> hostRoot <= mounts[i].path
    requires forall i ::
      0 <= i < |mounts| ==>
        Mountable(mounts[i], hostRoot, schedulerRoot)
          && ':' !in MountBind(mounts[i], hostRoot, schedulerRoot).source
          && isDirectory(MountBind(mounts[i], hostRoot, schedulerRoot).source)
    ensures var tokens := Tokens(Parsed(image, BindTokens(MountBinds(mounts, hostRoot, schedulerRoot)),
      workingDirectory, entrypoint + arguments));
      && Parse(tokens).Some?
      && var p := Parse(tokens).value;
         && p.descriptor == image && p.workingDirectory == workingDirectory
           && p.command == entrypoint + arguments && |p.binds| == |mounts|
         && forall i {:trigger p.binds[i]} :: 0 <= i < |mounts| ==>
           DockerBind(p.binds[i], hostRoot, schedulerRoot, isDirectory) ==
             Some(Text(mounts[i].path) + ":" + Text(mounts[i].destination)
               + (if mounts[i].readOnly then ":ro" else ":rw"))
  {
    hide Tokens, Parse, DockerBind, Text, BindToken;
    var p := Parsed(image, BindTokens(MountBinds(mounts, hostRoot, schedulerRoot)), workingDirectory,
      entrypoint + arguments);
    ParseUndoesTokens(p);
    forall i | 0 <= i < |mounts|
      ensures DockerBind(p.binds[i], hostRoot, schedulerRoot, isDirectory) ==
        Some(Text(mounts[i].path) + ":" + Text(mounts[i].destination)
               + (if mounts[i].readOnly then ":ro" else ":rw"))
    {
      MountReturns(mounts[i], hostRoot, schedulerRoot, isDirectory);
    }
  }
}
