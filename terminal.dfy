/** The simulated terminal: how a submitted line is normalised, which fixed
    command it selects, which lines it appends to the transcript, and the
    scripted boot transcript shown after connecting. */
module Terminal {

  import opened Text

  /** The key the dispatch compares: `command.trim().toLowerCase()`. */
  function Normalize(raw: string): string {
    Lower(Trim(raw))
  }

  // ---------------------------------------------------------------------
  // The command table
  // ---------------------------------------------------------------------

  datatype Command =
    | Ls | Pwd | Whoami | Date | Clear | Cat | Echo | Uname
    | Ps | Top | Df | Free | Help
    | Unknown

  /** The keyword that selects each known command. */
  function Keyword(c: Command): string
    requires c != Unknown
  {
    match c
    case Ls => "ls"
    case Pwd => "pwd"
    case Whoami => "whoami"
    case Date => "date"
    case Clear => "clear"
    case Cat => "cat"
    case Echo => "echo"
    case Uname => "uname"
    case Ps => "ps"
    case Top => "top"
    case Df => "df"
    case Free => "free"
    case Help => "help"
  }

  const Keywords: set<string> :=
    {"ls", "pwd", "whoami", "date", "clear", "cat", "echo", "uname", "ps", "top", "df", "free", "help"}

  /** The switch of `executeCommand` on an already normalised key: exact
      equality with a keyword. */
  function Lookup(key: string): Command {
    if key == "ls" then Ls
    else if key == "pwd" then Pwd
    else if key == "whoami" then Whoami
    else if key == "date" then Date
    else if key == "clear" then Clear
    else if key == "cat" then Cat
    else if key == "echo" then Echo
    else if key == "uname" then Uname
    else if key == "ps" then Ps
    else if key == "top" then Top
    else if key == "df" then Df
    else if key == "free" then Free
    else if key == "help" then Help
    else Unknown
  }

  /** The command a submitted line selects: the whole trimmed, lower-cased
      line is compared, with no splitting into a command and arguments. */
  function Parse(raw: string): Command {
    Lookup(Normalize(raw))
  }

  /** The fixed lines each command prints, as a table. The lemmas below hold
      for any table; `Lines` is the one the terminal shows. */
  datatype LineTable = LineTable(
    ls: string, pwd: string, whoami: string, catUsage: string, uname: string,
    ps: seq<string>, top: seq<string>, df: seq<string>, free: seq<string>, help: seq<string>)

  const Lines := LineTable(
    "agent.py  config.json  data/  models/  README.md",
    "/home/ai-agent",
    "ai-agent",
    "Usage: cat <filename>",
    "AI-OS",
    ["PID TTY          TIME CMD",
     "  1 ?        00:00:00 init",
     "  2 ?        00:00:00 ai-agent"],
    ["top - 00:00:00 up 0 min,  1 user,  load average: 0.00, 0.00, 0.00",
     "Tasks:   2 total,   1 running,   1 sleeping,   0 stopped,   0 zombie",
     "%Cpu(s):  0.0 us,  0.0 sy,  0.0 ni, 100.0 id,  0.0 wa,  0.0 hi,  0.0 si,  0.0 st",
     "MiB Mem :   7950.1 total,   7365.9 free,    257.3 used,    326.9 buff/cache",
     "MiB Swap:   2048.0 total,   2048.0 free,      0.0 used.   7439.0 avail Mem "],
    ["Filesystem     1K-blocks      Used Available Use% Mounted on",
     "/dev/sda1      61255492   2498292  55474816   5% /"],
    ["              total        used        free      shared  buff/cache   available",
     "Mem:        8141880     263476    7542636       1024     335768    7623636",
     "Swap:       2097152          0    2097152"],
    ["Available commands: ls, pwd, whoami, date, help, clear",
     "cat, echo, uname, top, df, free"])

  function NotFound(raw: string): string {
    "Command not found: " + raw
  }

  /** The lines a command appends after the echoed input, with the fixed
      lines taken from `lines`. `clear` has no
      line of its own: its case falls through into `cat`'s. `date` prints
      the clock reading `now`; `echo` prints the raw line from index 5 on. */
  function Output(lines: LineTable, c: Command, raw: string, now: string): seq<string> {
    match c
    case Ls => [lines.ls]
    case Pwd => [lines.pwd]
    case Whoami => [lines.whoami]
    case Date => [now]
    case Clear => [lines.catUsage]
    case Cat => [lines.catUsage]
    case Echo => [SliceFrom(raw, 5)]
    case Uname => [lines.uname]
    case Ps => lines.ps
    case Top => lines.top
    case Df => lines.df
    case Free => lines.free
    case Help => lines.help
    case Unknown => [NotFound(raw)]
  }

  /** The transcript after submitting `raw`, which selected `c`: the echo
      line `"> " + raw` is appended first; `clear` then empties everything,
      echo included, before the fall-through appends the `cat` usage line. */
  function Respond(lines: LineTable, transcript: seq<string>, c: Command, raw: string, now: string): seq<string> {
    var echoed := transcript + ["> " + raw];
    (if c == Clear then [] else echoed) + Output(lines, c, raw, now)
  }

  /** The transcript after submitting the line `raw` at clock reading `now`. */
  function Execute(lines: LineTable, transcript: seq<string>, raw: string, now: string): seq<string> {
    Respond(lines, transcript, Parse(raw), raw, now)
  }

  /** The scripted lines the terminal shows, in this order, after connecting. */
  const BootSequence: seq<string> := [
    "Initializing system...",
    "Loading kernel...",
    "Starting services...",
    "Connecting to network...",
    "Launching AI agent...",
    "Environment ready.",
    "",
    "Welcome to the AI Agent Environment",
    "Type 'help' for a list of commands."]

  // ---------------------------------------------------------------------
  // Dispatch lemmas
  // ---------------------------------------------------------------------

  /** Lookup recognises exactly the keywords, each as its own command. */
  lemma LookupIsExactMatch(key: string, c: Command)
    requires c != Unknown
    ensures Lookup(key) == c <==> key == Keyword(c)
  {
  }

  /** Each keyword, typed as is, selects its command. */
  lemma ParseKeyword(c: Command)
    requires c != Unknown
    ensures Parse(Keyword(c)) == c
  {
    PlainLineIsTrimmedLower(Keyword(c));
    LookupIsExactMatch(Keyword(c), c);
  }

  /** Dispatch is exact equality of the whole key with a keyword, in both directions. */
  lemma ParseIsExactMatch(raw: string, c: Command)
    requires c != Unknown
    ensures Parse(raw) == c <==> Normalize(raw) == Keyword(c)
  {
    LookupIsExactMatch(Normalize(raw), c);
  }

  lemma LookupUnknownIff(key: string)
    ensures Lookup(key) == Unknown <==> key !in Keywords
  {
  }

  /** A line is unknown exactly when its key is not one of the keywords. */
  lemma ParseUnknownIff(raw: string)
    ensures Parse(raw) == Unknown <==> Normalize(raw) !in Keywords
  {
    LookupUnknownIff(Normalize(raw));
  }

  /** Matching ignores the case of ASCII letters. */
  lemma ParseIgnoresCase(a: string, b: string)
    requires Lower(a) == Lower(b)
    ensures Parse(a) == Parse(b)
  {
    TrimCommutesWithLower(a);
    TrimCommutesWithLower(b);
  }

  /** Matching ignores whitespace around the line. */
  lemma ParseIgnoresSurroundingSpace(pre: string, raw: string, post: string)
    requires AllSpace(pre) && AllSpace(post)
    ensures Parse(pre + raw + post) == Parse(raw)
  {
    TrimIgnoresSurroundingSpace(pre, raw, post);
  }

  // ---------------------------------------------------------------------
  // Transcript lemmas
  // ---------------------------------------------------------------------

  /** How many lines each command of `Lines` adds after the echo. */
  function LineCount(c: Command): nat {
    match c
    case Ps => 3
    case Top => 5
    case Df => 2
    case Free => 3
    case Help => 2
    case _ => 1
  }

  /** Every command adds the number of lines its entry in the terminal's table lists. */
  lemma OutputLineCount(c: Command, raw: string, now: string)
    ensures |Output(Lines, c, raw, now)| == LineCount(c)
  {
  }

  /** Except for `clear`, the old transcript stays a prefix, the echo line
      follows it, and exactly the command's lines come after. */
  lemma ExecuteExtends(lines: LineTable, transcript: seq<string>, raw: string, now: string)
    requires Parse(raw) != Clear
    ensures var r := Execute(lines, transcript, raw, now);
      && |r| == |transcript| + 1 + |Output(lines, Parse(raw), raw, now)|
      && r[..|transcript|] == transcript
      && r[|transcript|] == "> " + raw
      && r[|transcript| + 1..] == Output(lines, Parse(raw), raw, now)
  {
  }

  /** With the terminal's table, a command other than `clear` grows the
      transcript by the echo plus its listed number of lines. */
  lemma ExecuteLineCount(transcript: seq<string>, raw: string, now: string)
    requires Parse(raw) != Clear
    ensures |Execute(Lines, transcript, raw, now)| == |transcript| + 1 + LineCount(Parse(raw))
  {
    ExecuteExtends(Lines, transcript, raw, now);
    OutputLineCount(Parse(raw), raw, now);
  }

  /** `clear` leaves only the `cat` usage line: history and echo are gone. */
  lemma ExecuteClear(lines: LineTable, transcript: seq<string>, raw: string, now: string)
    requires Parse(raw) == Clear
    ensures Execute(lines, transcript, raw, now) == [lines.catUsage]
  {
  }

  /** Anything that is not a keyword adds exactly the echo and the not-found line. */
  lemma ExecuteUnknown(lines: LineTable, transcript: seq<string>, raw: string, now: string)
    requires Normalize(raw) !in Keywords
    ensures Execute(lines, transcript, raw, now) == transcript + ["> " + raw, "Command not found: " + raw]
  {
    ParseUnknownIff(raw);
  }

  /** A bare `echo` prints the raw line from index 5 on, or nothing when it is
      at most five characters long. */
  lemma ExecuteEcho(lines: LineTable, transcript: seq<string>, raw: string, now: string)
    requires Parse(raw) == Echo
    ensures |raw| <= 5 ==> Execute(lines, transcript, raw, now) == transcript + ["> " + raw, ""]
    ensures |raw| > 5 ==> Execute(lines, transcript, raw, now) == transcript + ["> " + raw, raw[5..]]
  {
    RespondEcho(lines, transcript, raw, now);
  }

  lemma RespondEcho(lines: LineTable, transcript: seq<string>, raw: string, now: string)
    ensures |raw| <= 5 ==> Respond(lines, transcript, Echo, raw, now) == transcript + ["> " + raw, ""]
    ensures |raw| > 5 ==> Respond(lines, transcript, Echo, raw, now) == transcript + ["> " + raw, raw[5..]]
  {
  }

  /** Typing a keyword exactly as listed runs its command: the echo, then its lines. */
  lemma ExecuteKeyword(lines: LineTable, transcript: seq<string>, c: Command, now: string)
    requires c != Unknown && c != Clear
    ensures Execute(lines, transcript, Keyword(c), now)
         == transcript + ["> " + Keyword(c)] + Output(lines, c, Keyword(c), now)
  {
    ParseKeyword(c);
  }

  /** Arguments are never split off: a keyword followed by an argument or
      a flag is not a keyword. */
  lemma ArgumentsAreNotSplit(raw: string)
    requires raw == "echo hello" || raw == "ls -la"
    ensures Parse(raw) == Unknown
  {
    PlainLineIsTrimmedLower(raw);
    LookupUnknownIff(raw);
  }

  /** An empty or all-blank line selects no command. */
  lemma BlankLineIsUnknown(raw: string)
    requires AllSpace(raw)
    ensures Parse(raw) == Unknown
  {
    assert raw == raw + "" + "";
    TrimIgnoresSurroundingSpace(raw, "", "");
    LookupUnknownIff("");
  }

  /** "echo hello" is not a keyword, so it is reported as not found. */
  lemma EchoWithArgumentExample(lines: LineTable, transcript: seq<string>, raw: string, now: string)
    requires raw == "echo hello"
    ensures Execute(lines, transcript, raw, now) == transcript + ["> " + raw, "Command not found: " + raw]
  {
    ArgumentsAreNotSplit(raw);
    ParseUnknownIff(raw);
    ExecuteUnknown(lines, transcript, raw, now);
  }

  lemma BareEchoExample(lines: LineTable, transcript: seq<string>, raw: string, now: string)
    requires raw == "echo"
    ensures Execute(lines, transcript, raw, now) == transcript + ["> " + raw, ""]
  {
    ParseKeyword(Echo);
    RespondEcho(lines, transcript, raw, now);
  }

  /** Whitespace before a bare `echo` still selects it but shifts the
      slice: `"  echo"` prints `"o"`, `"   echo"` prints `"ho"`. */
  lemma ExecuteIndentedEcho(lines: LineTable, transcript: seq<string>, pre: string, raw: string, now: string)
    requires AllSpace(pre) && raw == pre + "echo"
    ensures Execute(lines, transcript, raw, now) == transcript + ["> " + raw, SliceFrom(raw, 5)]
  {
    assert raw == pre + "echo" + "";
    ParseIgnoresSurroundingSpace(pre, "echo", "");
    ParseKeyword(Echo);
    RespondEcho(lines, transcript, raw, now);
  }
}
