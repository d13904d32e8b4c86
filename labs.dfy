/**
 * The hands-on labs: their fixed definitions, the evaluators that grade a
 * command history, the task-checklist heuristic, the badge key, and the
 * lab runner that records commands and evaluates them.
 */
module Labs {
  import opened Text
  import opened Wrappers
  import opened Commands

  datatype EvalResult = EvalResult(passed: bool, score: nat)

  datatype Task = Task(id: string, text: string)

  /** An evaluator: a list of checks, each satisfied when some command of the history matches it, or a fixed result. */
  datatype Grader = AllOf(checks: seq<Pattern>) | Fixed(result: EvalResult)

  datatype Lab = Lab(
    id: string,
    title: string,
    difficulty: string,
    objectives: seq<string>,
    startingTips: string,
    tasks: seq<Task>,
    grader: Grader,
    hints: seq<string>)

  /** Ping to a literal public address, ping to a domain, traceroute; all ignoring ASCII case. */
  const NetBasicsChecks: seq<Pattern> :=
    [ PingTo(["1.1.1.1", "8.8.8.8"], true),
      PingDomain,
      CommandWord(["traceroute", "tracert", "tracepath"], true) ]

  /** `ls -l`, `chmod` with three digits, `chown` with an owner and a target; all case-sensitive. */
  const LinuxPermsChecks: seq<Pattern> := [ListLong(true), ChmodDigits, ChownOwner]

  const NetBasicsTasks: seq<Task> :=
    [ Task("t1", "Ping a public IP (e.g., 1.1.1.1)"),
      Task("t2", "Ping a domain (e.g., example.com)"),
      Task("t3", "Run a traceroute/tracepath to example.com") ]

  const LinuxPermsTasks: seq<Task> :=
    [ Task("t1", "Run ls -l"),
      Task("t2", "Change a file's mode using chmod"),
      Task("t3", "Use chown to set an owner") ]

  const NetBasics := Lab(
    "net-basics",
    "Network Basics Lab",
    "Beginner",
    [ "Use ping and tracert/tracepath to test connectivity",
      "Differentiate DNS vs network failures",
      "Capture basic findings" ],
    "Try 'ping chat.openai.com' or 'ping 1.1.1.1'. Use 'nslookup domain' to test DNS.",
    NetBasicsTasks,
    AllOf(NetBasicsChecks),
    ["Remember: DNS resolves names to IPs.", "If a domain ping fails but IP works, suspect DNS."])

  const LinuxPerms := Lab(
    "linux-perms",
    "Linux Permissions Lab",
    "Intermediate",
    [ "List permissions with ls -l",
      "Change permissions with chmod",
      "Use chown to change ownership" ],
    "Practice basic commands: ls -l, chmod 644 file, chown user:group file.",
    LinuxPermsTasks,
    AllOf(LinuxPermsChecks),
    ["chmod 644 my.txt", "chown alice:dev my.txt"])

  const WinStartup := Lab(
    "win-startup",
    "Windows Startup Issues (Guided)",
    "Beginner",
    ["Practice safe\U{2011}mode logic", "Identify driver vs update causes"],
    "Simulate decisions \U{2013} no terminal needed.",
    [],
    Fixed(EvalResult(true, 3)),
    [])

  const LabDefs: seq<Lab> := [NetBasics, LinuxPerms, WinStartup]

  /** `Array.prototype.find` by id: the first lab with that id. */
  function FindLab(labs: seq<Lab>, id: string): (r: Option<Lab>)
    ensures r.None? <==> forall i | 0 <= i < |labs| :: labs[i].id != id
    ensures r.Some? ==> exists i | 0 <= i < |labs| :: labs[i] == r.value && labs[i].id == id
                                                      && forall k | 0 <= k < i :: labs[k].id != id
  {
    if labs == [] then None
    else if labs[0].id == id then Some(labs[0])
    else
      var r := FindLab(labs[1..], id);
      assert r.Some? ==> exists i | 0 <= i < |labs| - 1 :: labs[1..][i] == r.value && labs[1..][i].id == id
                                                            && forall k | 0 <= k < i :: labs[1..][k].id != id;
      assert r.Some? ==> exists i | 1 <= i < |labs| :: labs[i] == r.value && labs[i].id == id
                                                       && forall k | 0 <= k < i :: labs[k].id != id;
      r
  }

  /** `history.some(h => pattern.test(h))`. */
  function AnyMatches(history: seq<string>, p: Pattern): (r: bool)
    ensures r <==> exists i | 0 <= i < |history| :: Matches(p, history[i])
  {
    if history == [] then false
    else
      assert forall i | 1 <= i < |history| :: history[i] == history[1..][i - 1];
      Matches(p, history[0]) || AnyMatches(history[1..], p)
  }

  /** `bools.filter(Boolean).length`. */
  function CountTrue(bs: seq<bool>): (n: nat)
    ensures n <= |bs|
    ensures n == |bs| <==> forall i | 0 <= i < |bs| :: bs[i]
  {
    if bs == [] then 0
    else CountTrue(bs[..|bs| - 1]) + (if bs[|bs| - 1] then 1 else 0)
  }

  /** Which checks the history satisfies. */
  function Hits(history: seq<string>, checks: seq<Pattern>): (hits: seq<bool>)
    ensures |hits| == |checks|
    ensures forall i | 0 <= i < |checks| :: hits[i] == AnyMatches(history, checks[i])
  {
    seq(|checks|, i requires 0 <= i < |checks| => AnyMatches(history, checks[i]))
  }

  /** `lab.evaluator(history)`. */
  function Evaluator(lab: Lab, history: seq<string>): (r: EvalResult)
    ensures lab.grader.AllOf? ==>
              && r.score <= |lab.grader.checks|
              && (r.passed <==> r.score == |lab.grader.checks|)
              && (r.passed <==> forall i | 0 <= i < |lab.grader.checks| :: AnyMatches(history, lab.grader.checks[i]))
    ensures lab.grader.Fixed? ==> r == lab.grader.result
  {
    match lab.grader
    case AllOf(checks) =>
      var hits := Hits(history, checks);
      EvalResult(forall i | 0 <= i < |hits| :: hits[i], CountTrue(hits))
    case Fixed(result) => result
  }

  // ---------------------------------------------------------------------
  // Score accounting
  // ---------------------------------------------------------------------

  /** The positions of `bs` that hold `true`. */
  function TrueAt(bs: seq<bool>): set<nat>
  {
    set i: nat | i < |bs| && bs[i]
  }

  /** `filter(Boolean).length` is the number of positions holding `true`. */
  lemma {:induction false} CountTrueIsCardinality(bs: seq<bool>)
    ensures CountTrue(bs) == |TrueAt(bs)|
  {
    if bs != [] {
      var n := |bs| - 1;
      var front := bs[..n];
      CountTrueIsCardinality(front);
      assert TrueAt(bs) == TrueAt(front) + (if bs[n] then {n} else {});
    }
  }

  /** Turning any `false` into `true` never lowers the count. */
  lemma {:induction false} CountTrueMonotone(bs: seq<bool>, cs: seq<bool>)
    requires |bs| == |cs| && forall i | 0 <= i < |bs| :: bs[i] ==> cs[i]
    ensures CountTrue(bs) <= CountTrue(cs)
  {
    if bs != [] {
      var n := |bs| - 1;
      CountTrueMonotone(bs[..n], cs[..n]);
    }
  }

  /** For a lab graded by checks, the score is the number of checks some command satisfies. */
  lemma ScoreCountsSatisfiedChecks(lab: Lab, history: seq<string>)
    requires lab.grader.AllOf?
    ensures Evaluator(lab, history).score
            == |set i: nat | i < |lab.grader.checks| && AnyMatches(history, lab.grader.checks[i])|
  {
    var hits := Hits(history, lab.grader.checks);
    CountTrueIsCardinality(hits);
    assert TrueAt(hits) == set i: nat | i < |lab.grader.checks| && AnyMatches(history, lab.grader.checks[i]);
  }

  /** The checks of both graded labs are well-formed patterns. */
  lemma LabChecksWellFormed()
    ensures forall p | p in NetBasicsChecks + LinuxPermsChecks :: WellFormed(p)
  {
  }

  /** Every lab graded by checks uses well-formed patterns. */
  lemma LabDefsChecksWellFormed()
    ensures forall lab | lab in LabDefs && lab.grader.AllOf? :: forall p | p in lab.grader.checks :: WellFormed(p)
  {
    LabChecksWellFormed();
    assert LabDefs == [NetBasics, LinuxPerms, WinStartup];
    assert forall p | p in NetBasicsChecks :: p in NetBasicsChecks + LinuxPermsChecks;
    assert forall p | p in LinuxPermsChecks :: p in NetBasicsChecks + LinuxPermsChecks;
  }

  /** A shipped lab passes a history exactly when, for each of its checks, some command is in the check's regular language. */
  lemma GradesByLanguage(lab: Lab, history: seq<string>)
    requires lab in LabDefs && lab.grader.AllOf?
    ensures Evaluator(lab, history).passed
            <==> forall i | 0 <= i < |lab.grader.checks| ::
                   exists k | 0 <= k < |history| :: Denotes(lab.grader.checks[i], history[k])
  {
    LabDefsChecksWellFormed();
    var checks := lab.grader.checks;
    forall i, k | 0 <= i < |checks| && 0 <= k < |history|
      ensures Matches(checks[i], history[k]) <==> Denotes(checks[i], history[k])
    {
      assert checks[i] in checks;
      MatchesDenotes(checks[i], history[k]);
    }
  }

  /** Where every command of `h` also occurs in `h'`, `h'` scores at least as well and passes if `h` does. */
  lemma EvaluateMonotone(lab: Lab, h: seq<string>, h': seq<string>)
    requires forall c | c in h :: c in h'
    ensures Evaluator(lab, h).score <= Evaluator(lab, h').score
    ensures Evaluator(lab, h).passed ==> Evaluator(lab, h').passed
  {
    if lab.grader.AllOf? {
      var checks := lab.grader.checks;
      forall i | 0 <= i < |checks| ensures AnyMatches(h, checks[i]) ==> AnyMatches(h', checks[i]) {
        if AnyMatches(h, checks[i]) {
          var k :| 0 <= k < |h| && Matches(checks[i], h[k]);
          assert h[k] in h';
          var k' :| 0 <= k' < |h'| && h'[k'] == h[k];
        }
      }
      CountTrueMonotone(Hits(h, checks), Hits(h', checks));
    }
  }

  /** Recording one more command never lowers the score and never turns a pass into a fail. */
  lemma EvaluateAppend(lab: Lab, history: seq<string>, cmd: string)
    ensures Evaluator(lab, history).score <= Evaluator(lab, history + [cmd]).score
    ensures Evaluator(lab, history).passed ==> Evaluator(lab, history + [cmd]).passed
  {
    EvaluateMonotone(lab, history, history + [cmd]);
  }

  /** The result depends only on which commands were typed, not on their order or repetition. */
  lemma EvaluateSameCommands(lab: Lab, h: seq<string>, h': seq<string>)
    requires forall c :: c in h <==> c in h'
    ensures Evaluator(lab, h) == Evaluator(lab, h')
  {
    EvaluateMonotone(lab, h, h');
    EvaluateMonotone(lab, h', h);
  }

  // ---------------------------------------------------------------------
  // The three shipped evaluators
  // ---------------------------------------------------------------------

  function Bit(b: bool): nat { if b then 1 else 0 }

  /** The network lab: passed is the conjunction of its three checks, score the number of them that hold. */
  lemma NetBasicsFormula(history: seq<string>)
    ensures var ip, domain, trace := AnyMatches(history, NetBasicsChecks[0]),
                                     AnyMatches(history, NetBasicsChecks[1]),
                                     AnyMatches(history, NetBasicsChecks[2]);
            Evaluator(NetBasics, history) == EvalResult(ip && domain && trace, Bit(ip) + Bit(domain) + Bit(trace))
  {
    var hits := Hits(history, NetBasicsChecks);
    assert CountTrue(hits) == CountTrue(hits[..2]) + Bit(hits[2]);
    assert hits[..2][..1] == hits[..1];
    assert CountTrue(hits[..2]) == CountTrue(hits[..1]) + Bit(hits[1]);
    assert CountTrue(hits[..1]) == CountTrue(hits[..0]) + Bit(hits[0]);
  }

  /** The permissions lab: the same rule over its three case-sensitive checks. */
  lemma LinuxPermsFormula(history: seq<string>)
    ensures var ls, chmod, chown := AnyMatches(history, LinuxPermsChecks[0]),
                                    AnyMatches(history, LinuxPermsChecks[1]),
                                    AnyMatches(history, LinuxPermsChecks[2]);
            Evaluator(LinuxPerms, history) == EvalResult(ls && chmod && chown, Bit(ls) + Bit(chmod) + Bit(chown))
  {
    var hits := Hits(history, LinuxPermsChecks);
    assert CountTrue(hits) == CountTrue(hits[..2]) + Bit(hits[2]);
    assert hits[..2][..1] == hits[..1];
    assert CountTrue(hits[..2]) == CountTrue(hits[..1]) + Bit(hits[1]);
    assert CountTrue(hits[..1]) == CountTrue(hits[..0]) + Bit(hits[0]);
  }

  /** The guided Windows lab passes with score 3 whatever was typed, the empty history included. */
  lemma WinStartupConstant(history: seq<string>)
    ensures Evaluator(WinStartup, history) == EvalResult(true, 3)
  {
  }

  lemma PingAddressAccepted()
    ensures Matches(NetBasicsChecks[0], "ping 1.1.1.1")
  {
    var c := "ping 1.1.1.1";
    assert LiteralAt(c, 0, "ping", true) && c[4] == ' ' && c[5] == '1';
    AfterCommandSingleSpace(c, "ping", true);
    assert LiteralAt(c, 5, "1.1.1.1", true);
  }

  lemma PingDomainAccepted()
    ensures Matches(NetBasicsChecks[1], "ping example.com")
  {
    var c := "ping example.com";
    assert LiteralAt(c, 0, "ping", true) && c[4] == ' ' && c[5] == 'e';
    AfterCommandSingleSpace(c, "ping", true);
    assert AllIn(c, 5, 16, Host);
    SpanFromExact(c, 5, 16, Host);
    assert DomainAt(c, 12);
  }

  lemma TraceAccepted()
    ensures Matches(NetBasicsChecks[2], "tracert example.com")
  {
    assert AfterCommand("tracert example.com", "tracert", true).Some?;
  }

  lemma NetScenarioAllThree()
    ensures Evaluator(NetBasics, ["ping 1.1.1.1", "ping example.com", "tracert example.com"]) == EvalResult(true, 3)
  {
    var h := ["ping 1.1.1.1", "ping example.com", "tracert example.com"];
    PingAddressAccepted();
    PingDomainAccepted();
    TraceAccepted();
    assert Matches(NetBasicsChecks[0], h[0]) && Matches(NetBasicsChecks[1], h[1]) && Matches(NetBasicsChecks[2], h[2]);
    NetBasicsFormula(h);
  }

  /** A numeric address is not a domain: its dots are followed by digits, not two letters. */
  lemma AddressIsNotDomain()
    ensures !Matches(NetBasicsChecks[1], "ping 1.1.1.1")
  {
    var c := "ping 1.1.1.1";
    assert LiteralAt(c, 0, "ping", true) && c[4] == ' ' && c[5] == '1';
    AfterCommandSingleSpace(c, "ping", true);
    assert AllIn(c, 5, 12, Host);
    SpanFromExact(c, 5, 12, Host);
    assert !DomainAt(c, 6) && !DomainAt(c, 7) && !DomainAt(c, 8) && !DomainAt(c, 9);
  }

  lemma PingIsNotTrace()
    ensures !Matches(NetBasicsChecks[2], "ping 1.1.1.1")
  {
    var c := "ping 1.1.1.1";
    assert !CharMatches(c[0], "traceroute"[0], true);
    assert !CharMatches(c[0], "tracert"[0], true);
    assert !CharMatches(c[0], "tracepath"[0], true);
  }

  /** A numeric address is not a domain: its dots are followed by digits, not two letters. */
  lemma NetScenarioAddressOnly()
    ensures Evaluator(NetBasics, ["ping 1.1.1.1"]) == EvalResult(false, 1)
  {
    PingAddressAccepted();
    AddressIsNotDomain();
    PingIsNotTrace();
    NetBasicsFormula(["ping 1.1.1.1"]);
  }

  lemma ListLongAccepted()
    ensures Matches(LinuxPermsChecks[0], "ls -l")
  {
    var c := "ls -l";
    assert LiteralAt(c, 0, "ls", false) && c[2] == ' ' && c[3] == '-';
    AfterCommandSingleSpace(c, "ls", false);
    assert LiteralAt(c, 3, "-l", false);
  }

  lemma ChmodAccepted()
    ensures Matches(LinuxPermsChecks[1], "chmod 644 notes.txt")
  {
    var c := "chmod 644 notes.txt";
    assert LiteralAt(c, 0, "chmod", false) && c[5] == ' ' && c[6] == '6';
    AfterCommandSingleSpace(c, "chmod", false);
    assert AllIn(c, 6, 9, Digit) && WordBoundary(c, 9);
  }

  const ChownExample := "chown alice:dev notes.txt"

  lemma ChownCommandPart()
    ensures AfterCommand(ChownExample, "chown", false) == Some(6)
  {
    assert LiteralAt(ChownExample, 0, "chown", false) && ChownExample[5] == ' ' && ChownExample[6] == 'a';
    AfterCommandSingleSpace(ChownExample, "chown", false);
  }

  lemma ChownOwnerParts()
    ensures AfterCommand(ChownExample, "chown", false) == Some(6)
    ensures SpanFrom(ChownExample, 6, Word) == 11 && ChownExample[11] == ':' && SpanFrom(ChownExample, 12, Word) == 15
  {
    ChownCommandPart();
    assert AllIn(ChownExample, 6, 11, Word) && ChownExample[11] == ':';
    SpanFromExact(ChownExample, 6, 11, Word);
    assert AllIn(ChownExample, 12, 15, Word) && ChownExample[15] == ' ';
    SpanFromExact(ChownExample, 12, 15, Word);
  }

  lemma ChownTargetPart()
    ensures SpaceThenArgument(ChownExample, 15)
  {
    assert SpanFrom(ChownExample, 15, Space) == 16;
  }

  lemma ChownAccepted()
    ensures Matches(LinuxPermsChecks[2], "chown alice:dev notes.txt")
  {
    ChownOwnerParts();
    ChownTargetPart();
  }

  lemma PermsScenarioAllThree()
    ensures Evaluator(LinuxPerms, ["ls -l", "chmod 644 notes.txt", "chown alice:dev notes.txt"]) == EvalResult(true, 3)
  {
    var h := ["ls -l", "chmod 644 notes.txt", "chown alice:dev notes.txt"];
    ListLongAccepted();
    ChmodAccepted();
    ChownAccepted();
    assert Matches(LinuxPermsChecks[0], h[0]) && Matches(LinuxPermsChecks[1], h[1]) && Matches(LinuxPermsChecks[2], h[2]);
    LinuxPermsFormula(h);
  }

  /** The digits after `chmod` are not checked to be octal. */
  lemma ChmodNotList()
    ensures !Matches(LinuxPermsChecks[0], "chmod 999 x")
  {
    assert !CharMatches("chmod 999 x"[0], "ls"[0], false);
  }

  lemma ChmodAnyDigitsAccepted()
    ensures Matches(LinuxPermsChecks[1], "chmod 999 x")
  {
    var c := "chmod 999 x";
    assert LiteralAt(c, 0, "chmod", false) && c[5] == ' ' && c[6] == '9';
    AfterCommandSingleSpace(c, "chmod", false);
    assert AllIn(c, 6, 9, Digit) && WordBoundary(c, 9);
  }

  lemma ChmodNotChown()
    ensures !Matches(LinuxPermsChecks[2], "chmod 999 x")
  {
    assert !CharMatches("chmod 999 x"[3], "chown"[3], false);
  }

  lemma PermsScenarioAnyDigits()
    ensures Evaluator(LinuxPerms, ["chmod 999 x"]) == EvalResult(false, 1)
  {
    ChmodNotList();
    ChmodAnyDigitsAccepted();
    ChmodNotChown();
    LinuxPermsFormula(["chmod 999 x"]);
  }


  /** `-l` must be followed by whitespace or end the command, so `ls -la` does not count. */
  lemma ListLongNeedsFlagEnd()
    ensures !Matches(LinuxPermsChecks[0], "ls -la")
    ensures Matches(LinuxPermsChecks[0], "ls -l /etc")
  {
    var a, b := "ls -la", "ls -l /etc";
    assert SpanFrom(a, 2, Space) == 3;
    assert SpanFrom(b, 2, Space) == 3 && LiteralAt(b, 3, "-l", false);
  }

  /** The word boundary after the three digits rejects a fourth digit. */
  lemma ChmodNeedsBoundary()
    ensures !Matches(ChmodDigits, "chmod 6444 f")
    ensures Matches(ChmodDigits, "chmod 644.bak")
  {
    var a, b := "chmod 6444 f", "chmod 644.bak";
    assert SpanFrom(a, 5, Space) == 6 && !WordBoundary(a, 9);
    assert SpanFrom(b, 5, Space) == 6 && AllIn(b, 6, 9, Digit) && WordBoundary(b, 9);
  }

  /** The permission checks are case-sensitive. */
  lemma PermsChecksKeepCase()
    ensures !Matches(LinuxPermsChecks[0], "LS -l")
    ensures !Matches(LinuxPermsChecks[1], "CHMOD 644 f")
    ensures !Matches(LinuxPermsChecks[2], "CHOWN alice f")
  {
    assert !CharMatches("LS -l"[0], "ls"[0], false);
    assert !CharMatches("CHMOD 644 f"[0], "chmod"[0], false);
    assert !CharMatches("CHOWN alice f"[0], "chown"[0], false);
  }

  /** The network lab grades a history exactly as it grades the ASCII lower-casing of every command in it. */
  lemma NetBasicsIgnoresCase(history: seq<string>)
    ensures Evaluator(NetBasics, history) == Evaluator(NetBasics, LowerAll(history))
  {
    var lowered := LowerAll(history);
    forall i | 0 <= i < |NetBasicsChecks|
      ensures AnyMatches(history, NetBasicsChecks[i]) == AnyMatches(lowered, NetBasicsChecks[i])
    {
      forall k | 0 <= k < |history| ensures Matches(NetBasicsChecks[i], lowered[k]) == Matches(NetBasicsChecks[i], history[k]) {
        MatchesLower(NetBasicsChecks[i], history[k]);
      }
    }
    assert Hits(history, NetBasicsChecks) == Hits(lowered, NetBasicsChecks);
  }

  function LowerAll(history: seq<string>): (r: seq<string>)
    ensures |r| == |history| && forall k | 0 <= k < |history| :: r[k] == Lower(history[k])
  {
    seq(|history|, k requires 0 <= k < |history| => Lower(history[k]))
  }

  // ---------------------------------------------------------------------
  // The task checklist
  // ---------------------------------------------------------------------

  /** `text.split(" ")[0]`: the text up to its first space character. */
  function FirstWord(text: string): (w: string)
    ensures |w| <= |text| && w == text[..|w|]
    ensures ' ' !in w
    ensures |w| == |text| || text[|w|] == ' '
  {
    if text == [] || text[0] == ' ' then [] else [text[0]] + FirstWord(text[1..])
  }

  /** A task is struck through once some command contains the task's first word, ASCII case ignored. */
  predicate TaskTouched(history: seq<string>, t: Task)
    ensures TaskTouched(history, t) ==> history != []
    ensures history != [] && FirstWord(t.text) == [] ==> TaskTouched(history, t)
  {
    assert history != [] && FirstWord(t.text) == [] ==> Contains(Lower(history[0]), Lower(FirstWord(t.text)));
    exists c | c in history :: Contains(Lower(c), Lower(FirstWord(t.text)))
  }

  /** Struck-through tasks stay struck through as commands are added. */
  lemma TaskTouchedAppend(history: seq<string>, cmd: string, t: Task)
    requires TaskTouched(history, t)
    ensures TaskTouched(history + [cmd], t)
  {
    var c :| c in history && Contains(Lower(c), Lower(FirstWord(t.text)));
    assert c in history + [cmd];
  }

  /** The first word of a text that starts with `w` and a space is `w`. */
  lemma {:induction false} FirstWordIs(text: string, w: string)
    requires |w| < |text| && text[|w|] == ' '
    requires forall k | 0 <= k < |w| :: text[k] == w[k] && w[k] != ' '
    ensures FirstWord(text) == w
  {
    if w != [] {
      FirstWordIs(text[1..], w[1..]);
    }
  }

  // The first words of the checklist tasks, one task at a time.

  lemma NetTask1Word()
    ensures FirstWord(NetBasicsTasks[0].text) == "Ping"
  {
    var t := NetBasicsTasks[0].text;
    assert t[0] == 'P' && t[1] == 'i' && t[2] == 'n' && t[3] == 'g' && t[4] == ' ';
    FirstWordIs(t, "Ping");
  }

  lemma NetTask2Word()
    ensures FirstWord(NetBasicsTasks[1].text) == "Ping"
  {
    var t := NetBasicsTasks[1].text;
    assert t[0] == 'P' && t[1] == 'i' && t[2] == 'n' && t[3] == 'g' && t[4] == ' ';
    FirstWordIs(t, "Ping");
  }

  lemma NetTask3Word()
    ensures FirstWord(NetBasicsTasks[2].text) == "Run"
  {
    var t := NetBasicsTasks[2].text;
    assert t[0] == 'R' && t[1] == 'u' && t[2] == 'n' && t[3] == ' ';
    FirstWordIs(t, "Run");
  }

  lemma PermsTask1Word()
    ensures FirstWord(LinuxPermsTasks[0].text) == "Run"
  {
    var t := LinuxPermsTasks[0].text;
    assert t[0] == 'R' && t[1] == 'u' && t[2] == 'n' && t[3] == ' ';
    FirstWordIs(t, "Run");
  }

  lemma PermsTask2Word()
    ensures FirstWord(LinuxPermsTasks[1].text) == "Change"
  {
    var t := LinuxPermsTasks[1].text;
    assert t[0] == 'C' && t[1] == 'h' && t[2] == 'a' && t[3] == 'n' && t[4] == 'g' && t[5] == 'e' && t[6] == ' ';
    FirstWordIs(t, "Change");
  }

  lemma PermsTask3Word()
    ensures FirstWord(LinuxPermsTasks[2].text) == "Use"
  {
    var t := LinuxPermsTasks[2].text;
    assert t[0] == 'U' && t[1] == 's' && t[2] == 'e' && t[3] == ' ';
    FirstWordIs(t, "Use");
  }

  /** A command containing the task's first word strikes the task. */
  lemma TouchedBy(history: seq<string>, t: Task, k: nat, i: nat)
    requires k < |history| && OccursAt(Lower(history[k]), Lower(FirstWord(t.text)), i)
    ensures TaskTouched(history, t)
  {
    assert history[k] in history;
  }

  /** A task whose first word holds a character that no command holds is not struck. */
  lemma UntouchedBy(history: seq<string>, t: Task, w: string, j: nat)
    requires FirstWord(t.text) == w && j < |w|
    requires forall c | c in history :: Lower(w)[j] !in Lower(c)
    ensures !TaskTouched(history, t)
  {
    forall c | c in history ensures !Contains(Lower(c), Lower(w)) {
      NotContainsChar(Lower(c), Lower(w), j);
    }
  }

  lemma PingLower()
    ensures Lower("Ping") == "ping"
  {
    var ping := Lower("Ping");
    assert ping[0] == 'p' && ping[1] == 'i' && ping[2] == 'n' && ping[3] == 'g';
  }

  lemma PingCommandLower()
    ensures Lower("ping 1.1.1.1") == "ping 1.1.1.1"
    ensures OccursAt("ping 1.1.1.1", "ping", 0)
  {
    LowerUnchanged("ping 1.1.1.1");
    var c := "ping 1.1.1.1";
    assert c[0..4] == "ping";
  }

  lemma PingTouchesTask(i: nat)
    requires i < 2
    ensures TaskTouched(["ping 1.1.1.1"], NetBasicsTasks[i])
  {
    PingCommandLower();
    PingLower();
    if i == 0 { NetTask1Word(); } else { NetTask2Word(); }
    TouchedBy(["ping 1.1.1.1"], NetBasicsTasks[i], 0, 0);
  }

  lemma RunLowerHead()
    ensures Lower("Run")[0] == 'r'
  {
  }

  lemma PingLacksR()
    ensures forall c | c in ["ping 1.1.1.1"] :: 'r' !in Lower(c)
  {
    PingCommandLower();
    assert 'r' !in "ping 1.1.1.1";
  }

  lemma PingMissesTraceTask()
    ensures !TaskTouched(["ping 1.1.1.1"], NetBasicsTasks[2])
  {
    NetTask3Word();
    RunLowerHead();
    PingLacksR();
    UntouchedBy(["ping 1.1.1.1"], NetBasicsTasks[2], "Run", 0);
  }

  /** After a single `ping 1.1.1.1` the network checklist strikes both ping tasks, not the traceroute task. */
  lemma NetChecklistAfterPing()
    ensures TaskTouched(["ping 1.1.1.1"], NetBasicsTasks[0])
    ensures TaskTouched(["ping 1.1.1.1"], NetBasicsTasks[1])
    ensures !TaskTouched(["ping 1.1.1.1"], NetBasicsTasks[2])
  {
    PingTouchesTask(0);
    PingTouchesTask(1);
    PingMissesTraceTask();
  }

  lemma PermsCommandsLower()
    ensures Lower("ls -l") == "ls -l"
    ensures Lower("chmod 644 notes.txt") == "chmod 644 notes.txt"
    ensures Lower(ChownExample) == ChownExample
  {
    LowerUnchanged("ls -l");
    LowerUnchanged("chmod 644 notes.txt");
    LowerUnchanged(ChownExample);
  }

  /** The passing history, as lower-cased, lacks `ch`. */
  lemma PassingRunLacks(ch: char)
    requires ch == 'r' || ch == 'g' || ch == 'u'
    ensures forall c | c in ["ls -l", "chmod 644 notes.txt", ChownExample] :: ch !in Lower(c)
  {
    PermsCommandsLower();
    assert ch !in "ls -l" && ch !in "chmod 644 notes.txt" && ch !in ChownExample;
  }

  lemma PassingRunMissesRun()
    ensures !TaskTouched(["ls -l", "chmod 644 notes.txt", ChownExample], LinuxPermsTasks[0])
  {
    PermsTask1Word();
    assert Lower("Run")[0] == 'r';
    PassingRunLacks('r');
    UntouchedBy(["ls -l", "chmod 644 notes.txt", ChownExample], LinuxPermsTasks[0], "Run", 0);
  }

  lemma PassingRunMissesChange()
    ensures !TaskTouched(["ls -l", "chmod 644 notes.txt", ChownExample], LinuxPermsTasks[1])
  {
    PermsTask2Word();
    assert Lower("Change")[4] == 'g';
    PassingRunLacks('g');
    UntouchedBy(["ls -l", "chmod 644 notes.txt", ChownExample], LinuxPermsTasks[1], "Change", 4);
  }

  lemma PassingRunMissesUse()
    ensures !TaskTouched(["ls -l", "chmod 644 notes.txt", ChownExample], LinuxPermsTasks[2])
  {
    PermsTask3Word();
    assert Lower("Use")[0] == 'u';
    PassingRunLacks('u');
    UntouchedBy(["ls -l", "chmod 644 notes.txt", ChownExample], LinuxPermsTasks[2], "Use", 0);
  }

  /** The three commands that pass the permissions lab strike none of its tasks: their first words are `Run`, `Change` and `Use`. */
  lemma PermsChecklistMissesPassingRun()
    ensures Evaluator(LinuxPerms, ["ls -l", "chmod 644 notes.txt", ChownExample]).passed
    ensures forall t | t in LinuxPermsTasks :: !TaskTouched(["ls -l", "chmod 644 notes.txt", ChownExample], t)
  {
    PermsScenarioAllThree();
    PassingRunMissesRun();
    PassingRunMissesChange();
    PassingRunMissesUse();
  }

  // ---------------------------------------------------------------------
  // Completion badges
  // ---------------------------------------------------------------------

  /** The record stored for a lab on evaluation; `completedAt` is the ISO-8601 time supplied by the caller. */
  datatype Badge = Badge(completedAt: string, score: nat)

  /** The storage key of a lab's badge. */
  function BadgeKey(labId: string): (k: string)
    ensures |k| == |labId| + 11
    ensures k[..4] == "lab:" && k[4..|k| - 7] == labId && k[|k| - 7..] == ":badges"
  {
    "lab:" + labId + ":badges"
  }

  /** Distinct labs store their badges under distinct keys: the id can be read back from the key. */
  lemma BadgeKeyInjective(a: string, b: string)
    ensures BadgeKey(a)[4..|BadgeKey(a)| - 7] == a
    ensures BadgeKey(a) == BadgeKey(b) ==> a == b
  {
    assert BadgeKey(a)[4..|BadgeKey(a)| - 7] == a;
    assert BadgeKey(b)[4..|BadgeKey(b)| - 7] == b;
  }

  // ---------------------------------------------------------------------
  // The lab runner
  // ---------------------------------------------------------------------

  /** One attempt at a lab: the commands recorded so far and the last evaluation. */
  class LabRunner {
    var lab: Lab
    var history: seq<string>
    var completed: bool
    var result: Option<EvalResult>

    /** The lab is looked up by id; the rendering that follows needs it to exist. */
    constructor (labId: string)
      requires FindLab(LabDefs, labId).Some?
      ensures lab == FindLab(LabDefs, labId).value && lab.id == labId && lab in LabDefs
      ensures history == [] && !completed && result == None
    {
      lab := FindLab(LabDefs, labId).value;
      history := [];
      completed := false;
      result := None;
    }

    /** `onCommand`: append the command to the history. */
    method OnCommand(cmd: string)
      modifies this
      ensures history == old(history) + [cmd]
      ensures lab == old(lab) && completed == old(completed) && result == old(result)
    {
      history := history + [cmd];
    }

    /**
     * A new `labId` for the mounted runner: the lab is looked up again, but
     * the history, the completion flag and the result on display are kept.
     */
    method SelectLab(labId: string)
      requires FindLab(LabDefs, labId).Some?
      modifies this
      ensures lab == FindLab(LabDefs, labId).value && lab.id == labId && lab in LabDefs
      ensures history == old(history) && completed == old(completed) && result == old(result)
    {
      lab := FindLab(LabDefs, labId).value;
    }

    /**
     * `evaluate`: grade the history, show the result and mark the lab completed.
     * Returns the storage key and the badge that is written under it.
     */
    method Evaluate(now: string) returns (key: string, badge: Badge)
      modifies this
      ensures lab == old(lab) && history == old(history)
      ensures completed && result == Some(Evaluator(lab, history))
      ensures key == BadgeKey(lab.id) && badge == Badge(now, Evaluator(lab, history).score)
    {
      var r := Evaluator(lab, history);
      result := Some(r);
      completed := true;
      key := BadgeKey(lab.id);
      badge := Badge(now, r.score);
    }

    /** Whether the checklist shows `t` struck through. */
    predicate Touched(t: Task)
      reads this
    {
      TaskTouched(history, t)
    }
  }

  // ---------------------------------------------------------------------
  // Switching labs under a mounted runner
  // ---------------------------------------------------------------------

  lemma FindNetBasics()
    ensures FindLab(LabDefs, "net-basics") == Some(NetBasics)
  {
    assert LabDefs[0] == NetBasics;
  }

  lemma FindLinuxPerms()
    ensures FindLab(LabDefs, "linux-perms") == Some(LinuxPerms)
  {
    assert LabDefs[0].id != "linux-perms" by { assert NetBasics.id[0] != "linux-perms"[0]; }
    assert LabDefs[1..][0] == LinuxPerms;
  }

  /** A ping satisfies none of the permission checks. */
  lemma PingScoresNothingInPerms()
    ensures Evaluator(LinuxPerms, ["ping 1.1.1.1"]) == EvalResult(false, 0)
  {
    PingNotList();
    PingNotChmod();
    PingNotChown();
    LinuxPermsFormula(["ping 1.1.1.1"]);
  }

  lemma PingNotList()
    ensures !Matches(LinuxPermsChecks[0], "ping 1.1.1.1")
  {
    assert !CharMatches("ping 1.1.1.1"[0], "ls"[0], false);
  }

  lemma PingNotChmod()
    ensures !Matches(LinuxPermsChecks[1], "ping 1.1.1.1")
  {
    assert !CharMatches("ping 1.1.1.1"[0], "chmod"[0], false);
  }

  lemma PingNotChown()
    ensures !Matches(LinuxPermsChecks[2], "ping 1.1.1.1")
  {
    assert !CharMatches("ping 1.1.1.1"[0], "chown"[0], false);
  }

  /**
   * Picking the permissions lab after grading `ping 1.1.1.1` in the network
   * lab: the network result stays on display, and the next evaluation grades
   * the carried-over ping against the permissions checks.
   */
  method SwitchLabKeepsState() returns (shown: Option<EvalResult>, regraded: Option<EvalResult>)
    ensures shown == Some(EvalResult(false, 1))
    ensures regraded == Some(EvalResult(false, 0))
  {
    FindNetBasics();
    FindLinuxPerms();
    NetScenarioAddressOnly();
    PingScoresNothingInPerms();
    var ping := ["ping 1.1.1.1"];
    var runner := new LabRunner("net-basics");
    assert runner.lab == NetBasics;
    runner.OnCommand(ping[0]);
    assert runner.history == ping;
    var _, _ := runner.Evaluate("t0");
    shown := runner.result;
    runner.SelectLab("linux-perms");
    assert runner.lab == LinuxPerms && runner.history == ping;
    var _, _ := runner.Evaluate("t1");
    regraded := runner.result;
  }
}
